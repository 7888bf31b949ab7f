/** CartController: a per-user list of (product, quantity) lines checked against stock, and the
    all-or-nothing checkout that turns them into an order. The rules are functions over
    `Tables`; `CartController` performs them on the shared `Database`. */
module CartRules {
  import opened Common
  import opened Model
  import opened Store

  // ---------------------------------------------------------------------------------------
  // Queries over the CartItems table

  /** True when the line is the user's line for the product. */
  predicate IsLineFor(c: CartItem, user: UserId, productId: int)
  {
    c.userId == user && c.productId == productId
  }

  /** `FirstOrDefault(c => c.UserId == userId && c.ProductId == productId)`, as an index. */
  function FindLine(cart: seq<CartItem>, user: UserId, productId: int): (r: Option<nat>)
    ensures r.Some? ==> r.value < |cart| && IsLineFor(cart[r.value], user, productId)
    ensures r.Some? ==> forall j :: 0 <= j < r.value ==> !IsLineFor(cart[j], user, productId)
    ensures r.None? ==> forall j :: 0 <= j < |cart| ==> !IsLineFor(cart[j], user, productId)
  {
    if cart == [] then None
    else if IsLineFor(cart[0], user, productId) then Some(0)
    else match FindLine(cart[1..], user, productId)
      case None => None
      case Some(k) => Some(k + 1)
  }

  /** `FirstOrDefault(c => c.Id == cartItemId && c.UserId == userId)`, as an index. */
  function FindOwnLine(cart: seq<CartItem>, cartItemId: int, user: UserId): (r: Option<nat>)
    ensures r.Some? ==> r.value < |cart| && cart[r.value].id == cartItemId && cart[r.value].userId == user
    ensures r.None? ==> forall j :: 0 <= j < |cart| ==> !(cart[j].id == cartItemId && cart[j].userId == user)
  {
    if cart == [] then None
    else if cart[0].id == cartItemId && cart[0].userId == user then Some(0)
    else match FindOwnLine(cart[1..], cartItemId, user)
      case None => None
      case Some(k) => Some(k + 1)
  }

  /** The user's lines in table order (`Where(c => c.UserId == userId)`). */
  function LinesOf(cart: seq<CartItem>, user: UserId): (r: seq<CartItem>)
    ensures forall x :: x in r <==> x in cart && x.userId == user
    ensures |r| <= |cart|
  {
    if cart == [] then []
    else (if cart[0].userId == user then [cart[0]] else []) + LinesOf(cart[1..], user)
  }

  /** The lines of every other user, in table order: what RemoveRange of the user's lines keeps. */
  function LinesNotOf(cart: seq<CartItem>, user: UserId): (r: seq<CartItem>)
    ensures forall x :: x in r <==> x in cart && x.userId != user
    ensures |r| <= |cart|
  {
    if cart == [] then []
    else (if cart[0].userId != user then [cart[0]] else []) + LinesNotOf(cart[1..], user)
  }

  /** The quantity of the product in the user's cart: that of the user's line for it, or 0. */
  function QuantityOf(cart: seq<CartItem>, user: UserId, productId: int): int
  {
    match FindLine(cart, user, productId)
    case None => 0
    case Some(i) => cart[i].quantity
  }

  // ---------------------------------------------------------------------------------------
  // Facts about the queries

  lemma {:induction false} FindLineUpdate(cart: seq<CartItem>, i: nat, x: CartItem, user: UserId, productId: int)
    requires i < |cart| && x.userId == cart[i].userId && x.productId == cart[i].productId
    ensures FindLine(cart[i := x], user, productId) == FindLine(cart, user, productId)
  {
    if i > 0 {
      assert cart[i := x][1..] == cart[1..][i - 1 := x];
      FindLineUpdate(cart[1..], i - 1, x, user, productId);
    }
  }

  lemma {:induction false} FindLineAppend(cart: seq<CartItem>, x: CartItem, user: UserId, productId: int)
    ensures FindLine(cart + [x], user, productId) ==
      if FindLine(cart, user, productId).Some? then FindLine(cart, user, productId)
      else if IsLineFor(x, user, productId) then Some(|cart|)
      else None
  {
    if cart != [] {
      assert (cart + [x])[1..] == cart[1..] + [x];
      FindLineAppend(cart[1..], x, user, productId);
    }
  }

  lemma {:induction false} LinesOfUpdate(cart: seq<CartItem>, i: nat, x: CartItem, other: UserId)
    requires i < |cart| && x.userId == cart[i].userId && other != x.userId
    ensures LinesOf(cart[i := x], other) == LinesOf(cart, other)
  {
    if i > 0 {
      assert cart[i := x][1..] == cart[1..][i - 1 := x];
      LinesOfUpdate(cart[1..], i - 1, x, other);
    } else {
      assert cart[i := x][1..] == cart[1..];
    }
  }

  lemma {:induction false} LinesOfAppend(cart: seq<CartItem>, x: CartItem, user: UserId)
    ensures LinesOf(cart + [x], user) == LinesOf(cart, user) + (if x.userId == user then [x] else [])
  {
    if cart != [] {
      assert (cart + [x])[1..] == cart[1..] + [x];
      LinesOfAppend(cart[1..], x, user);
    }
  }

  lemma {:induction false} LinesOfRemove(cart: seq<CartItem>, i: nat, other: UserId)
    requires i < |cart| && cart[i].userId != other
    ensures LinesOf(RemoveAt(cart, i), other) == LinesOf(cart, other)
  {
    if i > 0 {
      assert RemoveAt(cart, i)[1..] == RemoveAt(cart[1..], i - 1);
      LinesOfRemove(cart[1..], i - 1, other);
    } else {
      assert RemoveAt(cart, i) == cart[1..];
    }
  }

  /** After the user's lines are removed, the user has none and everyone else keeps theirs. */
  lemma {:induction false} LinesOfLinesNotOf(cart: seq<CartItem>, user: UserId, other: UserId)
    ensures LinesOf(LinesNotOf(cart, user), other) == if other == user then [] else LinesOf(cart, other)
  {
    if cart != [] {
      LinesOfLinesNotOf(cart[1..], user, other);
      var head := if cart[0].userId != user then [cart[0]] else [];
      assert LinesNotOf(cart, user) == head + LinesNotOf(cart[1..], user);
      LinesOfConcat(head, LinesNotOf(cart[1..], user), other);
    }
  }

  lemma {:induction false} LinesOfConcat(a: seq<CartItem>, b: seq<CartItem>, user: UserId)
    ensures LinesOf(a + b, user) == LinesOf(a, user) + LinesOf(b, user)
  {
    if a != [] {
      var ab := a + b;
      assert ab != [] && ab[0] == a[0] && ab[1..] == a[1..] + b;
      LinesOfConcat(a[1..], b, user);
      var head := if a[0].userId == user then [a[0]] else [];
      calc {
        LinesOf(ab, user);
        head + LinesOf(a[1..] + b, user);
        head + (LinesOf(a[1..], user) + LinesOf(b, user));
        (head + LinesOf(a[1..], user)) + LinesOf(b, user);
        LinesOf(a, user) + LinesOf(b, user);
      }
    } else {
      assert a + b == b;
    }
  }

  /** A sub-list of a cart with one line per (user, product) has one line per (user, product). */
  lemma {:induction false} LinesNotOfKeepsInvariants(cart: seq<CartItem>, user: UserId, next: int)
    requires OneLinePerProduct(cart) && CartIdsFresh(cart, next)
    ensures OneLinePerProduct(LinesNotOf(cart, user)) && CartIdsFresh(LinesNotOf(cart, user), next)
  {
    if cart != [] {
      assert OneLinePerProduct(cart[1..]) && CartIdsFresh(cart[1..], next);
      LinesNotOfKeepsInvariants(cart[1..], user, next);
      var tail := LinesNotOf(cart[1..], user);
      if cart[0].userId != user {
        HeadDiffers(cart, next);
        ConsKeepsInvariants(cart[0], tail, next);
      }
    }
  }

  lemma HeadDiffers(cart: seq<CartItem>, next: int)
    requires cart != [] && OneLinePerProduct(cart) && CartIdsFresh(cart, next)
    ensures cart[0].id < next
    ensures forall x :: x in cart[1..] ==>
              x.id != cart[0].id && (x.userId != cart[0].userId || x.productId != cart[0].productId)
  {
    forall x | x in cart[1..]
      ensures x.id != cart[0].id && (x.userId != cart[0].userId || x.productId != cart[0].productId)
    {
      var j :| 0 <= j < |cart[1..]| && cart[1..][j] == x;
      assert cart[j + 1] == x;
    }
  }

  lemma ConsKeepsInvariants(h: CartItem, tail: seq<CartItem>, next: int)
    requires OneLinePerProduct(tail) && CartIdsFresh(tail, next) && h.id < next
    requires forall x :: x in tail ==> x.id != h.id && (x.userId != h.userId || x.productId != h.productId)
    ensures OneLinePerProduct([h] + tail) && CartIdsFresh([h] + tail, next)
  {
    var r := [h] + tail;
    forall i, j | 0 <= i < j < |r|
      ensures r[i].userId != r[j].userId || r[i].productId != r[j].productId
      ensures r[i].id != r[j].id
    {
      assert r[j] == tail[j - 1];
      if i > 0 { assert r[i] == tail[i - 1]; }
      else { assert r[j] in tail; }
    }
    forall i | 0 <= i < |r| ensures r[i].id < next {
      if i > 0 { assert r[i] == tail[i - 1]; }
    }
  }

  /** With one line per (user, product), the user's lines name pairwise different products. */
  predicate DistinctProducts(lines: seq<CartItem>)
  {
    forall i, j :: 0 <= i < j < |lines| ==> lines[i].productId != lines[j].productId
  }

  lemma {:induction false} LinesOfDistinctProducts(cart: seq<CartItem>, user: UserId)
    requires OneLinePerProduct(cart)
    ensures DistinctProducts(LinesOf(cart, user))
  {
    if cart != [] {
      LinesOfDistinctProducts(cart[1..], user);
      var tail := LinesOf(cart[1..], user);
      if cart[0].userId == user {
        forall x | x in tail ensures x.productId != cart[0].productId {
          var j :| 0 <= j < |cart[1..]| && cart[1..][j] == x;
          assert cart[j + 1] == x;
        }
        var r := [cart[0]] + tail;
        forall i, j | 0 <= i < j < |r| ensures r[i].productId != r[j].productId {
          if i > 0 { assert r[i] == tail[i - 1] && r[j] == tail[j - 1]; }
          else { assert r[j] == tail[j - 1]; assert r[j] in tail; }
        }
      }
    }
  }

  // ---------------------------------------------------------------------------------------
  // The shared add-or-merge rule

  /** `after` is `before` with `quantity` merged into the user's line for the product. The first
      such line, when there is one, keeps its id and position and grows by `quantity`; otherwise
      a line with id `next` is appended. Every other line is unchanged, id included. */
  predicate MergedInto(before: seq<CartItem>, after: seq<CartItem>, user: UserId, productId: int, quantity: int, next: int)
  {
    match FindLine(before, user, productId)
    case Some(i) =>
      && |after| == |before|
      && (forall j :: 0 <= j < |before| && j != i ==> after[j] == before[j])
      && after[i] == before[i].(quantity := before[i].quantity + quantity)
    case None => after == before + [CartItem(next, user, productId, quantity)]
  }

  /** The cart after putting `quantity` of a product with the given stock into the user's cart,
      or None when the stock does not cover it: the quantity alone exceeds the stock, or the
      quantity already in the cart plus the new one does. An existing line is increased in place;
      otherwise a new line with a fresh id is appended. AddToCart and MoveToCart both use it. */
  function Merge(t: Tables, user: UserId, productId: int, stock: int, quantity: int): (r: Option<Tables>)
    ensures r.None? <==> stock < quantity || stock < QuantityOf(t.cartItems, user, productId) + quantity
    ensures r.Some? ==> r.value.(cartItems := t.cartItems, nextCartItemId := t.nextCartItemId) == t
    ensures r.Some? ==> QuantityOf(r.value.cartItems, user, productId) == QuantityOf(t.cartItems, user, productId) + quantity
    ensures r.Some? ==> QuantityOf(r.value.cartItems, user, productId) <= stock
    ensures r.Some? ==> forall v, p :: !(v == user && p == productId) ==>
              QuantityOf(r.value.cartItems, v, p) == QuantityOf(t.cartItems, v, p)
    ensures r.Some? ==> forall v :: v != user ==> LinesOf(r.value.cartItems, v) == LinesOf(t.cartItems, v)
    ensures r.Some? ==> |t.cartItems| <= |r.value.cartItems| <= |t.cartItems| + 1
    ensures r.Some? ==> MergedInto(t.cartItems, r.value.cartItems, user, productId, quantity, t.nextCartItemId)
    ensures r.Some? && Consistent(t) ==> Consistent(r.value)
  {
    if stock < quantity then None
    else match FindLine(t.cartItems, user, productId)
      case Some(i) =>
        var line := t.cartItems[i];
        if stock < line.quantity + quantity then None
        else
          var cart' := t.cartItems[i := line.(quantity := line.quantity + quantity)];
          MergeUpdateFacts(t.cartItems, i, line.(quantity := line.quantity + quantity));
          Some(t.(cartItems := cart'))
      case None =>
        var x := CartItem(t.nextCartItemId, user, productId, quantity);
        MergeAppendFacts(t.cartItems, x, t.nextCartItemId);
        Some(t.(cartItems := t.cartItems + [x], nextCartItemId := t.nextCartItemId + 1))
  }

  lemma MergeUpdateFacts(cart: seq<CartItem>, i: nat, x: CartItem)
    requires i < |cart| && x.userId == cart[i].userId && x.productId == cart[i].productId
    requires FindLine(cart, x.userId, x.productId) == Some(i)
    ensures QuantityOf(cart[i := x], x.userId, x.productId) == x.quantity
    ensures forall v, p :: FindLine(cart[i := x], v, p) == FindLine(cart, v, p)
    ensures forall v, p :: !(v == x.userId && p == x.productId) ==> QuantityOf(cart[i := x], v, p) == QuantityOf(cart, v, p)
    ensures forall v :: v != x.userId ==> LinesOf(cart[i := x], v) == LinesOf(cart, v)
  {
    forall v, p ensures FindLine(cart[i := x], v, p) == FindLine(cart, v, p) {
      FindLineUpdate(cart, i, x, v, p);
    }
    forall v, p | !(v == x.userId && p == x.productId)
      ensures QuantityOf(cart[i := x], v, p) == QuantityOf(cart, v, p)
    {
      FindLineUpdate(cart, i, x, v, p);
    }
    forall v | v != x.userId ensures LinesOf(cart[i := x], v) == LinesOf(cart, v) {
      LinesOfUpdate(cart, i, x, v);
    }
  }

  lemma MergeAppendFacts(cart: seq<CartItem>, x: CartItem, next: int)
    requires FindLine(cart, x.userId, x.productId).None?
    ensures QuantityOf(cart + [x], x.userId, x.productId) == x.quantity
    ensures forall v, p :: !(v == x.userId && p == x.productId) ==> QuantityOf(cart + [x], v, p) == QuantityOf(cart, v, p)
    ensures forall v :: v != x.userId ==> LinesOf(cart + [x], v) == LinesOf(cart, v)
    ensures OneLinePerProduct(cart) ==> OneLinePerProduct(cart + [x])
    ensures CartIdsFresh(cart, next) && x.id == next ==> CartIdsFresh(cart + [x], next + 1)
  {
    FindLineAppend(cart, x, x.userId, x.productId);
    forall v, p | !(v == x.userId && p == x.productId)
      ensures QuantityOf(cart + [x], v, p) == QuantityOf(cart, v, p)
    {
      FindLineAppend(cart, x, v, p);
      match FindLine(cart, v, p)
      case None =>
      case Some(i) => assert (cart + [x])[i] == cart[i];
    }
    forall v | v != x.userId ensures LinesOf(cart + [x], v) == LinesOf(cart, v) {
      LinesOfAppend(cart, x, v);
    }
  }

  // ---------------------------------------------------------------------------------------
  // The actions as functions of the tables

  /** AddToCart: an unknown product or too little stock is an error and changes nothing;
      otherwise the user's quantity of the product grows by `quantity`. */
  function AddToCart(t: Tables, user: UserId, productId: int, quantity: int): (r: Response)
    ensures productId !in t.products ==> r == Response(Error(ProductNotFound), t)
    ensures r.outcome.Ok? <==>
              productId in t.products && quantity <= t.products[productId].stock
              && QuantityOf(t.cartItems, user, productId) + quantity <= t.products[productId].stock
    ensures r.outcome.Ok? ==> r.outcome == Ok(AddedToCart)
    ensures productId in t.products && !r.outcome.Ok? ==> r.outcome == Error(NotEnoughStock)
    ensures !r.outcome.Ok? ==> r.tables == t
    ensures r.outcome.Ok? ==>
              QuantityOf(r.tables.cartItems, user, productId) == QuantityOf(t.cartItems, user, productId) + quantity
    ensures r.outcome.Ok? ==> forall v, p :: !(v == user && p == productId) ==>
              QuantityOf(r.tables.cartItems, v, p) == QuantityOf(t.cartItems, v, p)
    ensures forall v :: v != user ==> LinesOf(r.tables.cartItems, v) == LinesOf(t.cartItems, v)
    ensures r.outcome.Ok? ==> MergedInto(t.cartItems, r.tables.cartItems, user, productId, quantity, t.nextCartItemId)
    ensures r.tables.(cartItems := t.cartItems, nextCartItemId := t.nextCartItemId) == t
    ensures Consistent(t) ==> Consistent(r.tables)
  {
    if productId !in t.products then Response(Error(ProductNotFound), t)
    else match Merge(t, user, productId, t.products[productId].stock, quantity)
      case None => Response(Error(NotEnoughStock), t)
      case Some(t') => Response(Ok(AddedToCart), t')
  }

  /** UpdateQuantity: acts only on the user's own line with that id. A quantity of 0 or less
      deletes the line; one above the product's stock is refused; otherwise it is set exactly. */
  function UpdateQuantity(t: Tables, user: UserId, cartItemId: int, quantity: int): (r: Response)
    ensures FindOwnLine(t.cartItems, cartItemId, user).None? ==> r == Response(Error(CartItemNotFound), t)
    ensures !r.outcome.Ok? ==> r.tables == t
    ensures r.outcome.Ok? ==> FindOwnLine(t.cartItems, cartItemId, user).Some?
    ensures r.outcome == Ok(RemovedFromCart) <==> FindOwnLine(t.cartItems, cartItemId, user).Some? && quantity <= 0
    ensures r.outcome == Ok(RemovedFromCart) ==>
              var i := FindOwnLine(t.cartItems, cartItemId, user).value;
              && |r.tables.cartItems| == |t.cartItems| - 1
              && (forall k :: 0 <= k < i ==> r.tables.cartItems[k] == t.cartItems[k])
              && (forall k :: i <= k < |r.tables.cartItems| ==> r.tables.cartItems[k] == t.cartItems[k + 1])
    ensures FindOwnLine(t.cartItems, cartItemId, user).Some? && quantity > 0 ==>
              var line := t.cartItems[FindOwnLine(t.cartItems, cartItemId, user).value];
              && (line.productId !in t.products ==> r == Response(Fault, t))
              && (line.productId in t.products && t.products[line.productId].stock < quantity ==>
                    r == Response(Error(OnlyAvailable(t.products[line.productId].stock)), t))
              && (line.productId in t.products && quantity <= t.products[line.productId].stock ==>
                    r.outcome == Ok(QuantityUpdated))
    ensures r.outcome == Ok(RemovedFromCart) && Consistent(t) ==>
              forall x :: x in r.tables.cartItems ==> x.id != cartItemId
    ensures r.outcome == Ok(QuantityUpdated) ==>
              var i := FindOwnLine(t.cartItems, cartItemId, user).value;
              && |r.tables.cartItems| == |t.cartItems|
              && r.tables.cartItems[i] == t.cartItems[i].(quantity := quantity)
              && (forall j :: 0 <= j < |t.cartItems| && j != i ==> r.tables.cartItems[j] == t.cartItems[j])
              && t.cartItems[i].productId in t.products
              && 0 < quantity <= t.products[t.cartItems[i].productId].stock
    ensures forall v :: v != user ==> LinesOf(r.tables.cartItems, v) == LinesOf(t.cartItems, v)
    ensures r.tables.(cartItems := t.cartItems) == t
    ensures Consistent(t) ==> Consistent(r.tables)
  {
    match FindOwnLine(t.cartItems, cartItemId, user)
    case None => Response(Error(CartItemNotFound), t)
    case Some(i) =>
      if quantity <= 0 then
        RemoveLineFacts(t.cartItems, i, t.nextCartItemId);
        Response(Ok(RemovedFromCart), t.(cartItems := RemoveAt(t.cartItems, i)))
      else
        var line := t.cartItems[i];
        if line.productId !in t.products then Response(Fault, t)
        else if t.products[line.productId].stock < quantity then
          Response(Error(OnlyAvailable(t.products[line.productId].stock)), t)
        else
          forall v | v != user ensures LinesOf(t.cartItems[i := line.(quantity := quantity)], v) == LinesOf(t.cartItems, v) {
            LinesOfUpdate(t.cartItems, i, line.(quantity := quantity), v);
          }
          Response(Ok(QuantityUpdated), t.(cartItems := t.cartItems[i := line.(quantity := quantity)]))
  }

  lemma RemoveLineFacts(cart: seq<CartItem>, i: nat, next: int)
    requires i < |cart|
    ensures forall v :: v != cart[i].userId ==> LinesOf(RemoveAt(cart, i), v) == LinesOf(cart, v)
    ensures OneLinePerProduct(cart) ==> OneLinePerProduct(RemoveAt(cart, i))
    ensures CartIdsFresh(cart, next) ==> CartIdsFresh(RemoveAt(cart, i), next)
    ensures CartIdsFresh(cart, next) ==> forall x :: x in RemoveAt(cart, i) ==> x.id != cart[i].id
  {
    forall v | v != cart[i].userId ensures LinesOf(RemoveAt(cart, i), v) == LinesOf(cart, v) {
      LinesOfRemove(cart, i, v);
    }
    var r := RemoveAt(cart, i);
    if CartIdsFresh(cart, next) {
      forall x | x in r ensures x.id != cart[i].id {
        var j :| 0 <= j < |r| && r[j] == x;
        if j < i { assert r[j] == cart[j]; } else { assert r[j] == cart[j + 1]; }
      }
    }
  }

  /** Remove: deletes the user's own line with that id; any other id is "not found". */
  function Remove(t: Tables, user: UserId, cartItemId: int): (r: Response)
    ensures r.outcome.Ok? <==> FindOwnLine(t.cartItems, cartItemId, user).Some?
    ensures !r.outcome.Ok? ==> r == Response(Error(CartItemNotFound), t)
    ensures r.outcome.Ok? ==>
              var i := FindOwnLine(t.cartItems, cartItemId, user).value;
              && r.outcome == Ok(RemovedFromCart)
              && |r.tables.cartItems| == |t.cartItems| - 1
              && (forall k :: 0 <= k < i ==> r.tables.cartItems[k] == t.cartItems[k])
              && (forall k :: i <= k < |r.tables.cartItems| ==> r.tables.cartItems[k] == t.cartItems[k + 1])
    ensures r.outcome.Ok? && Consistent(t) ==> forall x :: x in r.tables.cartItems ==> x.id != cartItemId
    ensures forall v :: v != user ==> LinesOf(r.tables.cartItems, v) == LinesOf(t.cartItems, v)
    ensures r.tables.(cartItems := t.cartItems) == t
    ensures Consistent(t) ==> Consistent(r.tables)
  {
    match FindOwnLine(t.cartItems, cartItemId, user)
    case None => Response(Error(CartItemNotFound), t)
    case Some(i) =>
      RemoveLineFacts(t.cartItems, i, t.nextCartItemId);
      Response(Ok(RemovedFromCart), t.(cartItems := RemoveAt(t.cartItems, i)))
  }

  /** Clear: the user's cart is emptied and every other user's lines are kept. */
  function Clear(t: Tables, user: UserId): (r: Response)
    ensures r.outcome == Ok(CartCleared)
    ensures LinesOf(r.tables.cartItems, user) == []
    ensures forall v :: v != user ==> LinesOf(r.tables.cartItems, v) == LinesOf(t.cartItems, v)
    ensures r.tables.(cartItems := t.cartItems) == t
    ensures Consistent(t) ==> Consistent(r.tables)
  {
    ClearFacts(t.cartItems, user, t.nextCartItemId);
    Response(Ok(CartCleared), t.(cartItems := LinesNotOf(t.cartItems, user)))
  }

  lemma ClearFacts(cart: seq<CartItem>, user: UserId, next: int)
    ensures LinesOf(LinesNotOf(cart, user), user) == []
    ensures forall v :: v != user ==> LinesOf(LinesNotOf(cart, user), v) == LinesOf(cart, v)
    ensures OneLinePerProduct(cart) && CartIdsFresh(cart, next) ==>
              OneLinePerProduct(LinesNotOf(cart, user)) && CartIdsFresh(LinesNotOf(cart, user), next)
  {
    LinesOfLinesNotOf(cart, user, user);
    forall v | v != user ensures LinesOf(LinesNotOf(cart, user), v) == LinesOf(cart, v) {
      LinesOfLinesNotOf(cart, user, v);
    }
    if OneLinePerProduct(cart) && CartIdsFresh(cart, next) {
      LinesNotOfKeepsInvariants(cart, user, next);
    }
  }

  // ---------------------------------------------------------------------------------------
  // Checkout

  /** A line passes the stock check when its product row exists and holds at least its quantity. */
  predicate Covered(line: CartItem, products: map<int, Product>)
  {
    line.productId in products && line.quantity <= products[line.productId].stock
  }

  /** The first line the validation loop stops at, if any. */
  function FirstShortfall(lines: seq<CartItem>, products: map<int, Product>): (r: Option<nat>)
    ensures r.Some? ==> r.value < |lines| && !Covered(lines[r.value], products)
    ensures r.Some? ==> forall j :: 0 <= j < r.value ==> Covered(lines[j], products)
    ensures r.None? <==> forall j :: 0 <= j < |lines| ==> Covered(lines[j], products)
  {
    if lines == [] then None
    else if !Covered(lines[0], products) then Some(0)
    else match FirstShortfall(lines[1..], products)
      case None => None
      case Some(k) => Some(k + 1)
  }

  /** One order item per line, in line order, with the line's product and quantity and the
      product's current price. */
  predicate ItemsMatch(items: seq<OrderItem>, lines: seq<CartItem>, products: map<int, Product>)
  {
    && |items| == |lines|
    && forall j :: 0 <= j < |lines| ==>
         && lines[j].productId in products
         && items[j] == OrderItem(lines[j].productId, lines[j].quantity, products[lines[j].productId].price)
  }

  /** The order items the checkout loop creates: one per line, priced at the product's price. */
  function ItemsFor(lines: seq<CartItem>, products: map<int, Product>): (r: seq<OrderItem>)
    requires forall j :: 0 <= j < |lines| ==> lines[j].productId in products
    ensures ItemsMatch(r, lines, products)
  {
    if lines == [] then []
    else ItemsFor(lines[..|lines| - 1], products) + [ItemOf(lines[|lines| - 1], products)]
  }

  function ItemOf(line: CartItem, products: map<int, Product>): OrderItem
    requires line.productId in products
  {
    OrderItem(line.productId, line.quantity, products[line.productId].price)
  }

  /** The products after the checkout loop has taken each line's quantity off its product. */
  function Deduct(products: map<int, Product>, lines: seq<CartItem>): (r: map<int, Product>)
    ensures r.Keys == products.Keys
  {
    if lines == [] then products
    else
      var rest := Deduct(products, lines[..|lines| - 1]);
      TakeOff(rest, lines[|lines| - 1])
  }

  function TakeOff(products: map<int, Product>, line: CartItem): map<int, Product>
  {
    if line.productId in products
    then products[line.productId := products[line.productId].(stock := products[line.productId].stock - line.quantity)]
    else products
  }

  /** One more line processed: the items gain that line's item. */
  lemma ItemsForStep(lines: seq<CartItem>, k: nat, products: map<int, Product>)
    requires k < |lines| && forall j :: 0 <= j < |lines| ==> lines[j].productId in products
    ensures ItemsFor(lines[..k + 1], products) == ItemsFor(lines[..k], products) + [ItemOf(lines[k], products)]
  {
    assert lines[..k + 1][..k] == lines[..k];
  }

  /** One more line processed: that line's quantity comes off its product. */
  lemma DeductStep(products: map<int, Product>, lines: seq<CartItem>, k: nat)
    requires k < |lines|
    ensures Deduct(products, lines[..k + 1]) == TakeOff(Deduct(products, lines[..k]), lines[k])
  {
    assert lines[..k + 1][..k] == lines[..k];
  }

  /** The total quantity the lines hold of one product. */
  function QuantitySum(lines: seq<CartItem>, productId: int): int
  {
    if lines == [] then 0
    else QuantitySum(lines[..|lines| - 1], productId)
         + (if lines[|lines| - 1].productId == productId then lines[|lines| - 1].quantity else 0)
  }

  /** Each product's stock drops by exactly the quantity the lines hold of it. */
  lemma {:induction false} DeductStock(products: map<int, Product>, lines: seq<CartItem>, k: int)
    requires k in products
    ensures k in Deduct(products, lines)
    ensures Deduct(products, lines)[k] == products[k].(stock := products[k].stock - QuantitySum(lines, k))
  {
    if lines != [] {
      DeductStock(products, lines[..|lines| - 1], k);
    }
  }

  /** With pairwise different products, a product's total is the quantity of its one line. */
  lemma {:induction false} QuantitySumOfDistinct(lines: seq<CartItem>, k: int)
    requires DistinctProducts(lines)
    ensures forall j :: 0 <= j < |lines| && lines[j].productId == k ==> QuantitySum(lines, k) == lines[j].quantity
    ensures (forall j :: 0 <= j < |lines| ==> lines[j].productId != k) ==> QuantitySum(lines, k) == 0
  {
    if lines != [] {
      var init := lines[..|lines| - 1];
      assert DistinctProducts(init);
      QuantitySumOfDistinct(init, k);
      if lines[|lines| - 1].productId == k {
        assert forall j :: 0 <= j < |init| ==> init[j].productId != k;
      }
    }
  }

  /** Checkout: all or nothing. An empty cart, or any line whose product is gone or short of
      stock, creates no order and changes no table. Otherwise one order holds one item per line
      at the current price, the user's cart is emptied and other carts are untouched. */
  function Checkout(t: Tables, user: UserId): (r: Response)
    ensures LinesOf(t.cartItems, user) == [] ==> r == Response(Error(CartEmpty), t)
    ensures !r.outcome.Ok? ==> r.tables == t
    ensures r.outcome.Ok? <==>
              LinesOf(t.cartItems, user) != []
              && forall x :: x in LinesOf(t.cartItems, user) ==> Covered(x, t.products)
    ensures r.outcome.Ok? ==>
              var lines := LinesOf(t.cartItems, user);
              && r.outcome == Ok(OrderPlaced(t.nextOrderId))
              && |r.tables.orders| == |t.orders| + 1
              && r.tables.orders[..|t.orders|] == t.orders
              && var o := r.tables.orders[|t.orders|];
              && o.id == t.nextOrderId && o.userId == user
              && ItemsMatch(o.items, lines, t.products)
    ensures LinesOf(t.cartItems, user) != [] && FirstShortfall(LinesOf(t.cartItems, user), t.products).Some? ==>
              var line := LinesOf(t.cartItems, user)[FirstShortfall(LinesOf(t.cartItems, user), t.products).value];
              && (line.productId in t.products ==>
                    r.outcome == Error(NotEnoughStockFor(t.products[line.productId].title, t.products[line.productId].stock)))
              && (line.productId !in t.products ==> r.outcome == Fault)
    ensures r.outcome.Ok? ==> LinesOf(r.tables.cartItems, user) == []
    ensures forall v :: v != user ==> LinesOf(r.tables.cartItems, v) == LinesOf(t.cartItems, v)
    ensures r.tables.products.Keys == t.products.Keys
    ensures r.tables.(products := t.products, orders := t.orders, cartItems := t.cartItems, nextOrderId := t.nextOrderId) == t
  {
    var lines := LinesOf(t.cartItems, user);
    if lines == [] then Response(Error(CartEmpty), t)
    else match FirstShortfall(lines, t.products)
      case Some(i) =>
        var pid := lines[i].productId;
        if pid !in t.products then Response(Fault, t)
        else Response(Error(NotEnoughStockFor(t.products[pid].title, t.products[pid].stock)), t)
      case None =>
        var order := Order(t.nextOrderId, user, ItemsFor(lines, t.products));
        ClearFacts(t.cartItems, user, t.nextCartItemId);
        Response(Ok(OrderPlaced(t.nextOrderId)),
                 t.(products := Deduct(t.products, lines),
                    orders := t.orders + [order],
                    cartItems := LinesNotOf(t.cartItems, user),
                    nextOrderId := t.nextOrderId + 1))
  }

  /** The tables a successful checkout leaves, spelt out field by field. */
  lemma CheckoutPlaced(t: Tables, user: UserId, after: Tables)
    requires Consistent(t)
    requires LinesOf(t.cartItems, user) != [] && FirstShortfall(LinesOf(t.cartItems, user), t.products).None?
    requires var lines := LinesOf(t.cartItems, user);
             after == t.(products := Deduct(t.products, lines),
                          orders := t.orders + [Order(t.nextOrderId, user, ItemsFor(lines, t.products))],
                          cartItems := LinesNotOf(t.cartItems, user),
                          nextOrderId := t.nextOrderId + 1)
    ensures Checkout(t, user) == Response(Ok(OrderPlaced(t.nextOrderId)), after)
    ensures Consistent(after)
  {
    CheckoutKeepsConsistent(t, user);
  }

  /** Every cart action that does not fault leaves a message for the cart page. */
  lemma CartActionsShowMessage(t: Tables, user: UserId, productId: int, cartItemId: int, quantity: int)
    ensures ShowsMessage(AddToCart(t, user, productId, quantity).outcome)
    ensures !UpdateQuantity(t, user, cartItemId, quantity).outcome.Fault? ==>
              ShowsMessage(UpdateQuantity(t, user, cartItemId, quantity).outcome)
    ensures ShowsMessage(Remove(t, user, cartItemId).outcome)
    ensures ShowsMessage(Clear(t, user).outcome)
  {
  }

  /** A checkout that does not fault leaves a message: the order number, or why it was refused. */
  lemma CheckoutShowsMessage(t: Tables, user: UserId)
    ensures !Checkout(t, user).outcome.Fault? ==> ShowsMessage(Checkout(t, user).outcome)
  {
  }

  /** A second checkout right after a successful one finds an empty cart and changes nothing:
      the order cannot be placed twice. */
  lemma CheckoutTwice(t: Tables, user: UserId)
    requires Checkout(t, user).outcome.Ok?
    ensures var after := Checkout(t, user).tables;
            Checkout(after, user) == Response(Error(CartEmpty), after)
  {
  }

  /** After a successful checkout each product's stock has dropped by the user's quantity of it;
      every other field of every product is unchanged. */
  lemma CheckoutStock(t: Tables, user: UserId, k: int)
    requires Checkout(t, user).outcome.Ok? && k in t.products
    ensures var p := Checkout(t, user).tables.products;
            && k in p
            && p[k] == t.products[k].(stock := t.products[k].stock - QuantitySum(LinesOf(t.cartItems, user), k))
  {
    DeductStock(t.products, LinesOf(t.cartItems, user), k);
  }

  /** Checkout keeps the invariant; in particular no stock goes negative. */
  lemma CheckoutKeepsConsistent(t: Tables, user: UserId)
    requires Consistent(t)
    ensures Consistent(Checkout(t, user).tables)
  {
    var r := Checkout(t, user);
    if r.outcome.Ok? {
      ClearFacts(t.cartItems, user, t.nextCartItemId);
      CheckoutStockNonNegative(t, user);
      var o := r.tables.orders[|t.orders|];
      assert r.tables.orders == t.orders + [o];
      OrderIdsFreshAppend(t.orders, o, t.nextOrderId);
    }
  }

  /** No stock goes negative: the user has at most one line per product, and each line was
      checked against its product's stock before anything was taken off. */
  lemma CheckoutStockNonNegative(t: Tables, user: UserId)
    requires Consistent(t) && Checkout(t, user).outcome.Ok?
    ensures ProductsWellFormed(Checkout(t, user).tables.products, t.nextProductId)
  {
    var p := Checkout(t, user).tables.products;
    var lines := LinesOf(t.cartItems, user);
    LinesOfDistinctProducts(t.cartItems, user);
    forall k | k in p ensures p[k].id == k && k < t.nextProductId && p[k].stock >= 0 {
      CheckoutStock(t, user, k);
      QuantitySumOfDistinct(lines, k);
      if j :| 0 <= j < |lines| && lines[j].productId == k {
        assert lines[j] in lines;
        assert Covered(lines[j], t.products);
      }
    }
  }

  lemma OrderIdsFreshAppend(orders: seq<Order>, o: Order, next: int)
    requires OrderIdsFresh(orders, next) && o.id == next
    ensures OrderIdsFresh(orders + [o], next + 1)
  {
  }

  /** The lookup behind OrderSuccess: the order with that id, only if it is the user's. */
  function FindOwnOrder(orders: seq<Order>, orderId: int, user: UserId): (r: Option<Order>)
    ensures r.Some? ==> r.value in orders && r.value.id == orderId && r.value.userId == user
    ensures r.None? <==> forall o :: o in orders ==> !(o.id == orderId && o.userId == user)
  {
    if orders == [] then None
    else if orders[0].id == orderId && orders[0].userId == user then Some(orders[0])
    else FindOwnOrder(orders[1..], orderId, user)
  }
}

/** CartController's actions, performed on the shared database. */
module Cart {
  import opened Common
  import opened Model
  import opened Store
  import opened CartRules

  /** The cart actions on the shared database, for the signed-in user passed to each. */
  class CartController {
    const db: Database

    constructor (db: Database)
      ensures this.db == db
    {
      this.db := db;
    }

    method AddToCart(user: UserId, productId: int, quantity: int) returns (o: Outcome)
      requires db.Valid()
      modifies db
      ensures db.Valid()
      ensures Response(o, db.Current()) == CartRules.AddToCart(old(db.Current()), user, productId, quantity)
    {
      if productId !in db.products {
        return Error(ProductNotFound);
      }
      var product := db.products[productId];
      if product.stock < quantity {
        return Error(NotEnoughStock);
      }
      var existing := FindLine(db.cartItems, user, productId);
      if existing.Some? {
        var line := db.cartItems[existing.value];
        if product.stock < line.quantity + quantity {
          return Error(NotEnoughStock);
        }
        db.cartItems := db.cartItems[existing.value := line.(quantity := line.quantity + quantity)];
      } else {
        db.cartItems := db.cartItems + [CartItem(db.nextCartItemId, user, productId, quantity)];
        db.nextCartItemId := db.nextCartItemId + 1;
      }
      o := Ok(AddedToCart);
    }

    method UpdateQuantity(user: UserId, cartItemId: int, quantity: int) returns (o: Outcome)
      requires db.Valid()
      modifies db
      ensures db.Valid()
      ensures Response(o, db.Current()) == CartRules.UpdateQuantity(old(db.Current()), user, cartItemId, quantity)
    {
      var found := FindOwnLine(db.cartItems, cartItemId, user);
      if found.None? {
        return Error(CartItemNotFound);
      }
      var i := found.value;
      if quantity <= 0 {
        db.cartItems := RemoveAt(db.cartItems, i);
        return Ok(RemovedFromCart);
      }
      var line := db.cartItems[i];
      if line.productId !in db.products {
        return Fault;
      }
      if db.products[line.productId].stock < quantity {
        return Error(OnlyAvailable(db.products[line.productId].stock));
      }
      db.cartItems := db.cartItems[i := line.(quantity := quantity)];
      o := Ok(QuantityUpdated);
    }

    method Remove(user: UserId, cartItemId: int) returns (o: Outcome)
      requires db.Valid()
      modifies db
      ensures db.Valid()
      ensures Response(o, db.Current()) == CartRules.Remove(old(db.Current()), user, cartItemId)
    {
      var found := FindOwnLine(db.cartItems, cartItemId, user);
      if found.None? {
        return Error(CartItemNotFound);
      }
      db.cartItems := RemoveAt(db.cartItems, found.value);
      o := Ok(RemovedFromCart);
    }

    method Clear(user: UserId) returns (o: Outcome)
      requires db.Valid()
      modifies db
      ensures db.Valid()
      ensures Response(o, db.Current()) == CartRules.Clear(old(db.Current()), user)
    {
      ClearFacts(db.cartItems, user, db.nextCartItemId);
      db.cartItems := LinesNotOf(db.cartItems, user);
      o := Ok(CartCleared);
    }

    /** Checkout: the validation loop, then the loop that builds the order items and takes each
        line's quantity off its product, then the order and the emptied cart are saved. */
    method Checkout(user: UserId) returns (o: Outcome)
      requires db.Valid()
      modifies db
      ensures db.Valid()
      ensures Response(o, db.Current()) == CartRules.Checkout(old(db.Current()), user)
    {
      var lines := LinesOf(db.cartItems, user);
      if |lines| == 0 {
        return Error(CartEmpty);
      }
      var short := ValidateStock(lines, db.products);
      if short.Some? {
        var line := lines[short.value];
        if line.productId !in db.products {
          return Fault;
        }
        var product := db.products[line.productId];
        return Error(NotEnoughStockFor(product.title, product.stock));
      }
      o := PlaceOrder(user, lines);
    }

    /** Checkout once every line is covered: the second loop, then the order and the emptied
        cart are saved. */
    method PlaceOrder(user: UserId, lines: seq<CartItem>) returns (o: Outcome)
      requires db.Valid()
      requires lines == LinesOf(db.cartItems, user) && lines != []
      requires FirstShortfall(lines, db.products).None?
      modifies db
      ensures db.Valid()
      ensures Response(o, db.Current()) == CartRules.Checkout(old(db.Current()), user)
    {
      ghost var before := db.Current();
      var products, items := TakeStock(lines, db.products);
      var now := db.Current();
      var after := now.(products := products,
                        orders := now.orders + [Order(now.nextOrderId, user, items)],
                        cartItems := LinesNotOf(now.cartItems, user),
                        nextOrderId := now.nextOrderId + 1);
      CheckoutPlaced(before, user, after);
      o := Ok(OrderPlaced(now.nextOrderId));
      db.Save(after);
    }
  }

  /** Checkout's first loop: stops at the first line whose product is gone or short of stock. */
  method ValidateStock(lines: seq<CartItem>, stock: map<int, Product>) returns (short: Option<nat>)
    ensures short == FirstShortfall(lines, stock)
  {
    var i := 0;
    while i < |lines|
      invariant 0 <= i <= |lines|
      invariant forall j :: 0 <= j < i ==> Covered(lines[j], stock)
    {
      var line := lines[i];
      if line.productId !in stock || stock[line.productId].stock < line.quantity {
        return Some(i);
      }
      i := i + 1;
    }
    short := None;
  }

  /** Checkout's second loop: one order item per line at the product's current price, and the
      line's quantity taken off the product's stock. */
  method TakeStock(lines: seq<CartItem>, stock: map<int, Product>) returns (products: map<int, Product>, items: seq<OrderItem>)
    requires forall j :: 0 <= j < |lines| ==> lines[j].productId in stock
    ensures products == Deduct(stock, lines)
    ensures items == ItemsFor(lines, stock)
  {
    products, items := stock, [];
    for k := 0 to |lines|
      invariant products == Deduct(stock, lines[..k])
      invariant items == ItemsFor(lines[..k], stock)
    {
      var line := lines[k];
      ItemsForStep(lines, k, stock);
      DeductStep(stock, lines, k);
      DeductStock(stock, lines[..k], line.productId);
      var product := products[line.productId];
      items := items + [OrderItem(line.productId, line.quantity, product.price)];
      products := products[line.productId := product.(stock := product.stock - line.quantity)];
    }
    assert lines[..|lines|] == lines;
  }
}
