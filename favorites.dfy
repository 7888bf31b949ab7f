/** FavoritesController: a per-user set of favourite products, kept free of duplicates, from
    which a product can be put into the cart under the same stock rule as AddToCart. The rules
    are functions over `Tables`; `FavoritesController` performs them on the shared `Database`. */
module FavoriteRules {
  import opened Common
  import opened Model
  import opened Store
  import CartRules

  // ---------------------------------------------------------------------------------------
  // Queries over the Favorites table

  predicate IsFavoriteOf(f: Favorite, user: UserId, productId: int)
  {
    f.userId == user && f.productId == productId
  }

  /** `FirstOrDefault(f => f.UserId == userId && f.ProductId == productId)`, as an index. */
  function FindFavorite(favs: seq<Favorite>, user: UserId, productId: int): (r: Option<nat>)
    ensures r.Some? ==> r.value < |favs| && IsFavoriteOf(favs[r.value], user, productId)
    ensures r.Some? ==> forall j :: 0 <= j < r.value ==> !IsFavoriteOf(favs[j], user, productId)
    ensures r.None? ==> forall j :: 0 <= j < |favs| ==> !IsFavoriteOf(favs[j], user, productId)
  {
    if favs == [] then None
    else if IsFavoriteOf(favs[0], user, productId) then Some(0)
    else match FindFavorite(favs[1..], user, productId)
      case None => None
      case Some(k) => Some(k + 1)
  }

  /** `FirstOrDefault(f => f.Id == favoriteId && f.UserId == userId)`, as an index. */
  function FindOwnFavorite(favs: seq<Favorite>, favoriteId: int, user: UserId): (r: Option<nat>)
    ensures r.Some? ==> r.value < |favs| && favs[r.value].id == favoriteId && favs[r.value].userId == user
    ensures r.None? ==> forall j :: 0 <= j < |favs| ==> !(favs[j].id == favoriteId && favs[j].userId == user)
  {
    if favs == [] then None
    else if favs[0].id == favoriteId && favs[0].userId == user then Some(0)
    else match FindOwnFavorite(favs[1..], favoriteId, user)
      case None => None
      case Some(k) => Some(k + 1)
  }

  /** The (user, product) pairs the table marks as favourite: what the favourites list shows. */
  function Pairs(favs: seq<Favorite>): set<(UserId, int)>
  {
    set f | f in favs :: (f.userId, f.productId)
  }

  // ---------------------------------------------------------------------------------------
  // Facts about the queries

  /** The lookup finds a row exactly when the pair is marked. */
  lemma FindFavoritePairs(favs: seq<Favorite>, user: UserId, productId: int)
    ensures FindFavorite(favs, user, productId).Some? <==> (user, productId) in Pairs(favs)
  {
    if (user, productId) in Pairs(favs) {
      var f :| f in favs && (f.userId, f.productId) == (user, productId);
      var j :| 0 <= j < |favs| && favs[j] == f;
      assert IsFavoriteOf(favs[j], user, productId);
    }
  }

  lemma PairsAppend(favs: seq<Favorite>, f: Favorite)
    ensures Pairs(favs + [f]) == Pairs(favs) + {(f.userId, f.productId)}
  {
    assert f in favs + [f];
    forall g | g in favs ensures g in favs + [f] { }
  }

  /** With one row per pair, removing a row unmarks its pair and nothing else. */
  lemma {:induction false} PairsRemove(favs: seq<Favorite>, i: nat)
    requires i < |favs|
    ensures OneFavoritePerProduct(favs) ==>
              Pairs(RemoveAt(favs, i)) == Pairs(favs) - {(favs[i].userId, favs[i].productId)}
  {
    if !OneFavoritePerProduct(favs) {
      return;
    }
    var r := RemoveAt(favs, i);
    var q := (favs[i].userId, favs[i].productId);
    forall p | p in Pairs(r) ensures p in Pairs(favs) - {q} {
      var g :| g in r && (g.userId, g.productId) == p;
      var j :| 0 <= j < |r| && r[j] == g;
      if j < i {
        assert r[j] == favs[j];
      } else {
        assert r[j] == favs[j + 1];
      }
    }
    forall p | p in Pairs(favs) - {q} ensures p in Pairs(r) {
      var g :| g in favs && (g.userId, g.productId) == p;
      var j :| 0 <= j < |favs| && favs[j] == g;
      if j < i {
        assert r[j] == g;
      } else {
        assert j != i;
        assert r[j - 1] == g;
      }
    }
  }

  /** Appending a row for an unmarked pair, with the next id, keeps both table invariants. */
  lemma AppendKeepsFavoriteInvariants(favs: seq<Favorite>, f: Favorite, next: int)
    requires FindFavorite(favs, f.userId, f.productId).None? && f.id == next
    ensures OneFavoritePerProduct(favs) ==> OneFavoritePerProduct(favs + [f])
    ensures FavoriteIdsFresh(favs, next) ==> FavoriteIdsFresh(favs + [f], next + 1)
  {
  }

  /** Removing a row keeps both table invariants. */
  lemma RemoveKeepsFavoriteInvariants(favs: seq<Favorite>, i: nat, next: int)
    requires i < |favs|
    ensures OneFavoritePerProduct(favs) ==> OneFavoritePerProduct(RemoveAt(favs, i))
    ensures FavoriteIdsFresh(favs, next) ==> FavoriteIdsFresh(RemoveAt(favs, i), next)
  {
    var r := RemoveAt(favs, i);
    if OneFavoritePerProduct(favs) {
      forall a, b | 0 <= a < b < |r|
        ensures r[a].userId != r[b].userId || r[a].productId != r[b].productId
      {
        var a' := if a < i then a else a + 1;
        var b' := if b < i then b else b + 1;
        assert r[a] == favs[a'] && r[b] == favs[b'];
      }
    }
    if FavoriteIdsFresh(favs, next) {
      forall a, b | 0 <= a < b < |r| ensures r[a].id != r[b].id {
        var a' := if a < i then a else a + 1;
        var b' := if b < i then b else b + 1;
        assert r[a] == favs[a'] && r[b] == favs[b'];
      }
    }
  }

  // ---------------------------------------------------------------------------------------
  // The actions as functions of the tables

  /** Add: an unknown product is an error; a pair already marked is reported and left as it is
      (no duplicates); otherwise a row with the next id marks it. Only the Favorites table and
      its identity change. */
  function Add(t: Tables, user: UserId, productId: int): (r: Response)
    ensures productId !in t.products ==> r == Response(Error(ProductNotFound), t)
    ensures productId in t.products && (user, productId) in Pairs(t.favorites) ==>
              r == Response(Info(AlreadyFavorite), t)
    ensures r.outcome.Ok? <==> productId in t.products && (user, productId) !in Pairs(t.favorites)
    ensures r.outcome.Ok? ==>
              && r.outcome == Ok(AddedToFavorites)
              && Pairs(r.tables.favorites) == Pairs(t.favorites) + {(user, productId)}
              && r.tables.favorites == t.favorites + [Favorite(t.nextFavoriteId, user, productId)]
              && r.tables.(favorites := t.favorites, nextFavoriteId := t.nextFavoriteId) == t
    ensures !r.outcome.Ok? ==> r.tables == t
    ensures Consistent(t) ==> Consistent(r.tables)
  {
    FindFavoritePairs(t.favorites, user, productId);
    if productId !in t.products then Response(Error(ProductNotFound), t)
    else match FindFavorite(t.favorites, user, productId)
      case Some(_) => Response(Info(AlreadyFavorite), t)
      case None =>
        var f := Favorite(t.nextFavoriteId, user, productId);
        PairsAppend(t.favorites, f);
        AppendKeepsFavoriteInvariants(t.favorites, f, t.nextFavoriteId);
        Response(Ok(AddedToFavorites),
                 t.(favorites := t.favorites + [f], nextFavoriteId := t.nextFavoriteId + 1))
  }

  /** Remove: deletes the user's own favourite with that id; any other id is "not found". With
      one row per pair, the removed row's pair is no longer marked and every other pair keeps
      its mark. */
  function Remove(t: Tables, user: UserId, favoriteId: int): (r: Response)
    ensures r.outcome.Ok? <==> FindOwnFavorite(t.favorites, favoriteId, user).Some?
    ensures !r.outcome.Ok? ==> r == Response(Error(FavoriteNotFound), t)
    ensures r.outcome.Ok? ==>
              var f := t.favorites[FindOwnFavorite(t.favorites, favoriteId, user).value];
              && r.outcome == Ok(RemovedFromFavorites)
              && RemovedAt(t.favorites, FindOwnFavorite(t.favorites, favoriteId, user).value, r.tables.favorites)
              && (Consistent(t) ==> Pairs(r.tables.favorites) == Pairs(t.favorites) - {(user, f.productId)})
    ensures r.tables.(favorites := t.favorites) == t
    ensures Consistent(t) ==> Consistent(r.tables)
  {
    match FindOwnFavorite(t.favorites, favoriteId, user)
    case None => Response(Error(FavoriteNotFound), t)
    case Some(i) =>
      RemoveKeepsFavoriteInvariants(t.favorites, i, t.nextFavoriteId);
      PairsRemove(t.favorites, i);
      Response(Ok(RemovedFromFavorites), t.(favorites := RemoveAt(t.favorites, i)))
  }

  /** MoveToCart: puts `quantity` of the favourite's product into the user's cart under the same
      rule as AddToCart (the quantity alone, and the quantity already in the cart plus it, must
      not exceed the stock). The favourite itself stays: no action changes Favorites here. A
      favourite whose product row is gone faults. */
  function MoveToCart(t: Tables, user: UserId, favoriteId: int, quantity: int): (r: Response)
    ensures FindOwnFavorite(t.favorites, favoriteId, user).None? ==> r == Response(Error(FavoriteNotFound), t)
    ensures !r.outcome.Ok? ==> r.tables == t
    ensures r.outcome.Ok? <==>
              && FindOwnFavorite(t.favorites, favoriteId, user).Some?
              && var pid := t.favorites[FindOwnFavorite(t.favorites, favoriteId, user).value].productId;
              && pid in t.products
              && quantity <= t.products[pid].stock
              && CartRules.QuantityOf(t.cartItems, user, pid) + quantity <= t.products[pid].stock
    ensures r.outcome.Ok? ==>
              var pid := t.favorites[FindOwnFavorite(t.favorites, favoriteId, user).value].productId;
              && r.outcome == Ok(MovedToCart)
              && CartRules.QuantityOf(r.tables.cartItems, user, pid) == CartRules.QuantityOf(t.cartItems, user, pid) + quantity
              && (forall v, p :: !(v == user && p == pid) ==>
                    CartRules.QuantityOf(r.tables.cartItems, v, p) == CartRules.QuantityOf(t.cartItems, v, p))
              && CartRules.MergedInto(t.cartItems, r.tables.cartItems, user, pid, quantity, t.nextCartItemId)
    ensures r.outcome.Error? && FindOwnFavorite(t.favorites, favoriteId, user).Some? ==>
              var pid := t.favorites[FindOwnFavorite(t.favorites, favoriteId, user).value].productId;
              pid in t.products && r.outcome == Error(OnlyInStock(t.products[pid].stock))
    ensures FindOwnFavorite(t.favorites, favoriteId, user).Some?
            && t.favorites[FindOwnFavorite(t.favorites, favoriteId, user).value].productId !in t.products ==>
              r == Response(Fault, t)
    ensures r.tables.(cartItems := t.cartItems, nextCartItemId := t.nextCartItemId) == t
    ensures Consistent(t) ==> Consistent(r.tables)
  {
    match FindOwnFavorite(t.favorites, favoriteId, user)
    case None => Response(Error(FavoriteNotFound), t)
    case Some(i) =>
      var pid := t.favorites[i].productId;
      if pid !in t.products then Response(Fault, t)
      else match CartRules.Merge(t, user, pid, t.products[pid].stock, quantity)
        case None => Response(Error(OnlyInStock(t.products[pid].stock)), t)
        case Some(t') => Response(Ok(MovedToCart), t')
  }

  /** Toggle: a marked pair is unmarked; an unmarked one is marked when the product exists and
      is an error otherwise. No other pair changes. */
  function Toggle(t: Tables, user: UserId, productId: int): (r: Response)
    ensures (user, productId) !in Pairs(t.favorites) && productId !in t.products ==>
              r == Response(Error(ProductNotFound), t)
    ensures (user, productId) in Pairs(t.favorites) ==> r.outcome == Ok(RemovedFromFavorites)
    ensures r.outcome == Ok(RemovedFromFavorites) ==>
              && FindFavorite(t.favorites, user, productId).Some?
              && RemovedAt(t.favorites, FindFavorite(t.favorites, user, productId).value, r.tables.favorites)
    ensures (user, productId) !in Pairs(t.favorites) && productId in t.products ==>
              && r.outcome == Ok(AddedToFavorites)
              && Pairs(r.tables.favorites) == Pairs(t.favorites) + {(user, productId)}
              && r.tables.favorites == t.favorites + [Favorite(t.nextFavoriteId, user, productId)]
    ensures Consistent(t) && r.outcome.Ok? ==>
              ((user, productId) in Pairs(r.tables.favorites) <==> (user, productId) !in Pairs(t.favorites))
    ensures Consistent(t) ==> Pairs(r.tables.favorites) - {(user, productId)} == Pairs(t.favorites) - {(user, productId)}
    ensures r.tables.(favorites := t.favorites, nextFavoriteId := t.nextFavoriteId) == t
    ensures Consistent(t) ==> Consistent(r.tables)
  {
    FindFavoritePairs(t.favorites, user, productId);
    match FindFavorite(t.favorites, user, productId)
    case Some(i) =>
      RemoveKeepsFavoriteInvariants(t.favorites, i, t.nextFavoriteId);
      PairsRemove(t.favorites, i);
      Response(Ok(RemovedFromFavorites), t.(favorites := RemoveAt(t.favorites, i)))
    case None =>
      if productId !in t.products then Response(Error(ProductNotFound), t)
      else
        var f := Favorite(t.nextFavoriteId, user, productId);
        PairsAppend(t.favorites, f);
        AppendKeepsFavoriteInvariants(t.favorites, f, t.nextFavoriteId);
        Response(Ok(AddedToFavorites),
                 t.(favorites := t.favorites + [f], nextFavoriteId := t.nextFavoriteId + 1))
  }

  // ---------------------------------------------------------------------------------------
  // Properties across actions

  /** Every favourites action that does not fault leaves a message for the page. */
  lemma FavoriteActionsShowMessage(t: Tables, user: UserId, productId: int, favoriteId: int, quantity: int)
    ensures ShowsMessage(Add(t, user, productId).outcome)
    ensures ShowsMessage(Remove(t, user, favoriteId).outcome)
    ensures !MoveToCart(t, user, favoriteId, quantity).outcome.Fault? ==>
              ShowsMessage(MoveToCart(t, user, favoriteId, quantity).outcome)
    ensures ShowsMessage(Toggle(t, user, productId).outcome)
  {
  }

  /** Toggling the same product twice leaves the user's favourites as they were. */
  lemma ToggleTwice(t: Tables, user: UserId, productId: int)
    requires Consistent(t) && productId in t.products
    ensures Pairs(Toggle(Toggle(t, user, productId).tables, user, productId).tables.favorites) == Pairs(t.favorites)
  {
    var r1 := Toggle(t, user, productId);
    var r2 := Toggle(r1.tables, user, productId);
    assert r1.tables.products == t.products;
    SameUpToOne(Pairs(r2.tables.favorites), Pairs(t.favorites), (user, productId));
  }

  /** Two sets that agree off one element, and on whether they hold it, are equal. */
  lemma SameUpToOne<T>(a: set<T>, b: set<T>, q: T)
    requires (q in a <==> q in b) && a - {q} == b - {q}
    ensures a == b
  {
    forall x | x in a ensures x in b {
      if x != q { assert x in a - {q}; }
    }
    forall x | x in b ensures x in a {
      if x != q { assert x in b - {q}; }
    }
  }

  /** Adding a product twice is the same as adding it once: the second time reports it is
      already a favourite and changes nothing. */
  lemma AddTwice(t: Tables, user: UserId, productId: int)
    requires Add(t, user, productId).outcome.Ok?
    ensures var t1 := Add(t, user, productId).tables;
            Add(t1, user, productId) == Response(Info(AlreadyFavorite), t1)
  {
  }
}

/** FavoritesController's actions, performed on the shared database. */
module Favorites {
  import opened Common
  import opened Model
  import opened Store
  import opened FavoriteRules
  import CartRules

  /** The favourites actions on the shared database, for the signed-in user passed to each. */
  class FavoritesController {
    const db: Database

    constructor (db: Database)
      ensures this.db == db
    {
      this.db := db;
    }

    method Add(user: UserId, productId: int) returns (o: Outcome)
      requires db.Valid()
      modifies db
      ensures db.Valid()
      ensures Response(o, db.Current()) == FavoriteRules.Add(old(db.Current()), user, productId)
    {
      if productId !in db.products {
        return Error(ProductNotFound);
      }
      var existing := FindFavorite(db.favorites, user, productId);
      if existing.Some? {
        return Info(AlreadyFavorite);
      }
      db.favorites := db.favorites + [Favorite(db.nextFavoriteId, user, productId)];
      db.nextFavoriteId := db.nextFavoriteId + 1;
      o := Ok(AddedToFavorites);
    }

    method Remove(user: UserId, favoriteId: int) returns (o: Outcome)
      requires db.Valid()
      modifies db
      ensures db.Valid()
      ensures Response(o, db.Current()) == FavoriteRules.Remove(old(db.Current()), user, favoriteId)
    {
      var found := FindOwnFavorite(db.favorites, favoriteId, user);
      if found.None? {
        return Error(FavoriteNotFound);
      }
      db.favorites := RemoveAt(db.favorites, found.value);
      o := Ok(RemovedFromFavorites);
    }

    method MoveToCart(user: UserId, favoriteId: int, quantity: int) returns (o: Outcome)
      requires db.Valid()
      modifies db
      ensures db.Valid()
      ensures Response(o, db.Current()) == FavoriteRules.MoveToCart(old(db.Current()), user, favoriteId, quantity)
    {
      var found := FindOwnFavorite(db.favorites, favoriteId, user);
      if found.None? {
        return Error(FavoriteNotFound);
      }
      var productId := db.favorites[found.value].productId;
      if productId !in db.products {
        return Fault;
      }
      var product := db.products[productId];
      if product.stock < quantity {
        return Error(OnlyInStock(product.stock));
      }
      var existing := CartRules.FindLine(db.cartItems, user, productId);
      if existing.Some? {
        var line := db.cartItems[existing.value];
        if product.stock < line.quantity + quantity {
          return Error(OnlyInStock(product.stock));
        }
        db.cartItems := db.cartItems[existing.value := line.(quantity := line.quantity + quantity)];
      } else {
        db.cartItems := db.cartItems + [CartItem(db.nextCartItemId, user, productId, quantity)];
        db.nextCartItemId := db.nextCartItemId + 1;
      }
      o := Ok(MovedToCart);
    }

    method Toggle(user: UserId, productId: int) returns (o: Outcome)
      requires db.Valid()
      modifies db
      ensures db.Valid()
      ensures Response(o, db.Current()) == FavoriteRules.Toggle(old(db.Current()), user, productId)
    {
      var existing := FindFavorite(db.favorites, user, productId);
      if existing.Some? {
        db.favorites := RemoveAt(db.favorites, existing.value);
        return Ok(RemovedFromFavorites);
      }
      if productId !in db.products {
        return Error(ProductNotFound);
      }
      db.favorites := db.favorites + [Favorite(db.nextFavoriteId, user, productId)];
      db.nextFavoriteId := db.nextFavoriteId + 1;
      o := Ok(AddedToFavorites);
    }
  }
}
