/** ProductsController: who may manage a product (an admin, or the owner of the product's
    restaurant), which restaurants a user may pick on the product form, and the Create, Edit and
    DeleteConfirmed updates of the Products table with their not-found, forbidden and invalid-form
    paths. The rules are functions over `Tables`; `ProductsController` performs the three updates
    on the shared `Database`. */
module ProductRules {
  import opened Common
  import opened Model
  import opened Store

  // ---------------------------------------------------------------------------------------
  // Ownership guards

  /** `Restaurants.FindAsync(restaurantId)` found a restaurant and the user owns it. */
  function OwnsRestaurant(rs: seq<Restaurant>, restaurantId: int, user: UserId): (b: bool)
    ensures b <==> exists j :: 0 <= j < |rs| && rs[j].id == restaurantId && rs[j].ownerId == user
                              && forall i :: 0 <= i < j ==> rs[i].id != restaurantId
  {
    var found := FindRestaurant(rs, restaurantId);
    found.Some? && found.value.ownerId == user
  }

  /** The guard on a stored product: an admin, or the owner of the product's restaurant. */
  function CanManage(rs: seq<Restaurant>, product: Product, user: UserId, isAdmin: bool): (b: bool)
    ensures isAdmin ==> b
    ensures !isAdmin ==> (b <==> exists j :: 0 <= j < |rs| && rs[j].id == product.restaurantId && rs[j].ownerId == user
                                            && forall i :: 0 <= i < j ==> rs[i].id != product.restaurantId)
  {
    isAdmin || OwnsRestaurant(rs, product.restaurantId, user)
  }

  /** The restaurants a user owns, in table order (`Where(r => r.OwnerId == userId)`). */
  function Owned(rs: seq<Restaurant>, user: UserId): (r: seq<Restaurant>)
    ensures forall x :: x in r <==> x in rs && x.ownerId == user
    ensures |r| <= |rs|
  {
    if rs == [] then []
    else (if rs[0].ownerId == user then [rs[0]] else []) + Owned(rs[1..], user)
  }

  /** The restaurants offered on the product form: all of them for an admin, the user's own
      otherwise. */
  function RestaurantChoices(rs: seq<Restaurant>, user: UserId, isAdmin: bool): (r: seq<Restaurant>)
    ensures isAdmin ==> r == rs
    ensures !isAdmin ==> forall x :: x in r <==> x in rs && x.ownerId == user
  {
    if isAdmin then rs else Owned(rs, user)
  }

  /** Owned keeps table order: filtering a concatenation filters each part in turn. */
  lemma {:induction false} OwnedConcat(a: seq<Restaurant>, b: seq<Restaurant>, user: UserId)
    ensures Owned(a + b, user) == Owned(a, user) + Owned(b, user)
  {
    if a == [] {
      assert a + b == b;
    } else {
      assert (a + b)[0] == a[0] && (a + b)[1..] == a[1..] + b;
      OwnedConcat(a[1..], b, user);
    }
  }

  // ---------------------------------------------------------------------------------------
  // The posted form

  /** The product as the form binds it: the title may be missing. */
  datatype ProductForm = ProductForm(
    id: int,
    title: Option<string>,
    description: Option<string>,
    imagePath: Option<string>,
    price: int,
    stock: int,
    restaurantId: int,
    categoryId: int)

  /** A non-empty uploaded file: the GUID the controller draws and the client's file name. */
  datatype Upload = Upload(token: string, fileName: string)

  /** Where an upload is stored: "/images/" + GUID + "_" + file name. */
  function UploadPath(u: Upload): (p: string)
    ensures |p| == 9 + |u.token| + |u.fileName|
    ensures p[..8] == "/images/" && p[|p| - |u.fileName|..] == u.fileName
  {
    "/images/" + u.token + "_" + u.fileName
  }

  /** ModelState.IsValid for the bound product: [Required] title (null, empty and white space
      fail), [Range(0.01, 10000)] price in cents and [Range(0, 10000)] stock. */
  function IsValid(f: ProductForm): (b: bool)
    ensures b ==> f.title.Some? && exists i :: 0 <= i < |f.title.value| && !IsWhiteSpace(f.title.value[i])
    ensures b ==> 1 <= f.price <= 1_000_000 && 0 <= f.stock <= 10000
    ensures f.title == Some("") ==> !b
    ensures f.price <= 0 || f.stock < 0 || 10000 < f.stock ==> !b
    ensures (&& f.title.Some? && (exists i :: 0 <= i < |f.title.value| && !IsWhiteSpace(f.title.value[i]))
             && 1 <= f.price <= 1_000_000 && 0 <= f.stock <= 10000) ==> b
  {
    && !IsNullOrWhiteSpace(f.title)
    && 1 <= f.price <= 1_000_000
    && 0 <= f.stock <= 10000
  }

  /** The row the form describes, under the given id and image path. */
  function RowOf(f: ProductForm, id: int, imagePath: Option<string>): Product
    requires f.title.Some?
  {
    Product(id, f.title.value, f.description, imagePath, f.price, f.stock, f.restaurantId, f.categoryId)
  }

  // ---------------------------------------------------------------------------------------
  // Reads

  /** Details and the Delete confirmation page: NotFound without an id or without the row. */
  function Lookup(t: Tables, id: Option<int>): (r: Option<Product>)
    ensures r.Some? <==> id.Some? && id.value in t.products
    ensures r.Some? ==> r.value == t.products[id.value]
  {
    if id.None? || id.value !in t.products then None else Some(t.products[id.value])
  }

  /** Edit GET: NotFound without an id or without the row; Forbid unless the user may manage the
      product; otherwise the form with the restaurants the user may pick. */
  function EditForm(t: Tables, user: UserId, isAdmin: bool, id: Option<int>): (r: Outcome)
    ensures id.None? || id.value !in t.products ==> r == NotFound
    ensures r == Forbid <==>
              id.Some? && id.value in t.products && !CanManage(t.restaurants, t.products[id.value], user, isAdmin)
    ensures r.ShowForm? <==>
              id.Some? && id.value in t.products && CanManage(t.restaurants, t.products[id.value], user, isAdmin)
    ensures r.ShowForm? ==> r.choices == RestaurantChoices(t.restaurants, user, isAdmin)
  {
    if id.None? || id.value !in t.products then NotFound
    else if !CanManage(t.restaurants, t.products[id.value], user, isAdmin) then Forbid
    else ShowForm(RestaurantChoices(t.restaurants, user, isAdmin))
  }

  // ---------------------------------------------------------------------------------------
  // Updates

  /** Create POST. A non-admin may only add to a restaurant that exists and is theirs; a valid
      form becomes a row under the next identity value, with the uploaded image's path when a
      file came with it; an invalid one is shown again. Only the Products table and its
      identity change. */
  function Create(t: Tables, user: UserId, isAdmin: bool, form: ProductForm, upload: Option<Upload>): (r: Response)
    ensures !isAdmin && !OwnsRestaurant(t.restaurants, form.restaurantId, user) ==> r == Response(Forbid, t)
    ensures r.outcome.Ok? <==> (isAdmin || OwnsRestaurant(t.restaurants, form.restaurantId, user)) && IsValid(form)
    ensures !r.outcome.Ok? ==> r.tables == t
    ensures r.outcome.ShowForm? <==> (isAdmin || OwnsRestaurant(t.restaurants, form.restaurantId, user)) && !IsValid(form)
    ensures r.outcome.ShowForm? ==> r.outcome.choices == RestaurantChoices(t.restaurants, user, isAdmin)
    ensures r.outcome.Ok? ==>
              && r.outcome == Ok(NoNotice)
              && r.tables.products.Keys == t.products.Keys + {t.nextProductId}
              && (Consistent(t) ==> forall k :: k in t.products ==> r.tables.products[k] == t.products[k])
              && var p := r.tables.products[t.nextProductId];
              && p.id == t.nextProductId && Some(p.title) == form.title
              && p.price == form.price && p.stock == form.stock
              && p.restaurantId == form.restaurantId && p.categoryId == form.categoryId
              && p.description == form.description
              && p.imagePath == (if upload.Some? then Some(UploadPath(upload.value)) else form.imagePath)
    ensures r.tables.(products := t.products, nextProductId := t.nextProductId) == t
    ensures Consistent(t) ==> Consistent(r.tables)
  {
    if !isAdmin && !OwnsRestaurant(t.restaurants, form.restaurantId, user) then Response(Forbid, t)
    else
      var imagePath := if upload.Some? then Some(UploadPath(upload.value)) else form.imagePath;
      if IsValid(form) then
        var p := RowOf(form, t.nextProductId, imagePath);
        Response(Ok(NoNotice), t.(products := t.products[t.nextProductId := p], nextProductId := t.nextProductId + 1))
      else Response(ShowForm(RestaurantChoices(t.restaurants, user, isAdmin)), t)
  }

  /** Edit POST. A route id other than the form's id is NotFound; an invalid form is shown again;
      otherwise the row is replaced by the form, keeping the stored image path unless a new
      file came with it. A missing row is NotFound when a file came with the form (the update's
      concurrency exception) and faults otherwise (the old row read for its image path is
      null). An id of 0 is the key's default value, so the update is an insert: the form becomes
      a new row under the next identity value. There is no ownership check on this path. */
  function Edit(t: Tables, user: UserId, isAdmin: bool, id: int, form: ProductForm, upload: Option<Upload>): (r: Response)
    ensures id != form.id ==> r == Response(NotFound, t)
    ensures r.outcome.Ok? <==> id == form.id && IsValid(form) && (id in t.products || (id == 0 && upload.Some?))
    ensures !r.outcome.Ok? ==> r.tables == t
    ensures r.outcome.ShowForm? <==> id == form.id && !IsValid(form)
    ensures r.outcome.ShowForm? ==> r.outcome.choices == RestaurantChoices(t.restaurants, user, isAdmin)
    ensures r.outcome == NotFound <==>
              id != form.id || (IsValid(form) && id !in t.products && upload.Some? && id != 0)
    ensures r.outcome == Fault <==> id == form.id && IsValid(form) && id !in t.products && upload.None?
    ensures r.outcome.Ok? ==> r.outcome == Ok(NoNotice)
    ensures r.outcome.Ok? && id != 0 ==>
              && r.tables.nextProductId == t.nextProductId
              && r.tables.products.Keys == t.products.Keys
              && (forall k :: k in t.products && k != id ==> r.tables.products[k] == t.products[k])
              && var p := r.tables.products[id];
              && p.id == id && Some(p.title) == form.title
              && p.price == form.price && p.stock == form.stock
              && p.restaurantId == form.restaurantId && p.categoryId == form.categoryId
              && p.description == form.description
              && p.imagePath == (if upload.Some? then Some(UploadPath(upload.value)) else t.products[id].imagePath)
    ensures r.outcome.Ok? && id == 0 ==>
              && r.tables.nextProductId == t.nextProductId + 1
              && r.tables.products.Keys == t.products.Keys + {t.nextProductId}
              && (Consistent(t) ==> forall k :: k in t.products ==> r.tables.products[k] == t.products[k])
              && var p := r.tables.products[t.nextProductId];
              && p.id == t.nextProductId && Some(p.title) == form.title
              && p.price == form.price && p.stock == form.stock
              && p.restaurantId == form.restaurantId && p.categoryId == form.categoryId
              && p.description == form.description
              && p.imagePath == (if upload.Some? then Some(UploadPath(upload.value)) else t.products[0].imagePath)
    ensures r.tables.(products := t.products, nextProductId := t.nextProductId) == t
    ensures Consistent(t) ==> Consistent(r.tables)
  {
    if id != form.id then Response(NotFound, t)
    else if !IsValid(form) then Response(ShowForm(RestaurantChoices(t.restaurants, user, isAdmin)), t)
    else if upload.None? && id !in t.products then Response(Fault, t)
    else
      var imagePath := if upload.Some? then Some(UploadPath(upload.value)) else t.products[id].imagePath;
      if id == 0 then
        var p := RowOf(form, t.nextProductId, imagePath);
        Response(Ok(NoNotice), t.(products := t.products[t.nextProductId := p], nextProductId := t.nextProductId + 1))
      else if id !in t.products then Response(NotFound, t)
      else Response(Ok(NoNotice), t.(products := t.products[id := RowOf(form, id, imagePath)]))
  }

  /** DeleteConfirmed: the row goes if it is there; otherwise nothing changes. Every other row is
      kept as it was. */
  function DeleteConfirmed(t: Tables, id: int): (r: Response)
    ensures r.outcome == Ok(NoNotice)
    ensures id !in r.tables.products
    ensures r.tables.products.Keys == t.products.Keys - {id}
    ensures forall k :: k in r.tables.products ==> r.tables.products[k] == t.products[k]
    ensures id !in t.products ==> r.tables == t
    ensures r.tables.(products := t.products) == t
    ensures Consistent(t) ==> Consistent(r.tables)
  {
    if id in t.products then Response(Ok(NoNotice), t.(products := t.products - {id}))
    else Response(Ok(NoNotice), t)
  }

  // ---------------------------------------------------------------------------------------
  // Properties across actions

  /** Edit GET and Edit POST disagree: a user the form page forbids can still post a valid edit
      of that product and have it saved. */
  lemma EditPostSkipsOwnerCheck(t: Tables, user: UserId, id: int, form: ProductForm, upload: Option<Upload>)
    requires EditForm(t, user, false, Some(id)) == Forbid
    requires form.id == id && IsValid(form)
    ensures Edit(t, user, false, id, form, upload).outcome == Ok(NoNotice)
  {
  }

  /** Create puts the new row under an id no stored row has. */
  lemma CreateUsesFreshId(t: Tables, user: UserId, isAdmin: bool, form: ProductForm, upload: Option<Upload>)
    requires Consistent(t) && Create(t, user, isAdmin, form, upload).outcome.Ok?
    ensures t.nextProductId !in t.products
    ensures |Create(t, user, isAdmin, form, upload).tables.products| == |t.products| + 1
  {
    var keys := Create(t, user, isAdmin, form, upload).tables.products.Keys;
    assert t.nextProductId !in t.products.Keys;
    assert |keys| == |t.products.Keys| + 1;
  }

  /** Deleting twice is deleting once. */
  lemma DeleteIdempotent(t: Tables, id: int)
    ensures DeleteConfirmed(DeleteConfirmed(t, id).tables, id) == DeleteConfirmed(t, id)
  {
  }
}

/** ProductsController's updates, performed on the shared database. */
module Products {
  import opened Common
  import opened Model
  import opened Store
  import opened ProductRules

  /** The product actions on the shared database, for the signed-in user (and whether that user
      is in the Admin role) passed to each. */
  class ProductsController {
    const db: Database

    constructor (db: Database)
      ensures this.db == db
    {
      this.db := db;
    }

    method Create(user: UserId, isAdmin: bool, form: ProductForm, upload: Option<Upload>) returns (o: Outcome)
      requires db.Valid()
      modifies db
      ensures db.Valid()
      ensures Response(o, db.Current()) == ProductRules.Create(old(db.Current()), user, isAdmin, form, upload)
    {
      if !isAdmin {
        var restaurant := FindRestaurant(db.restaurants, form.restaurantId);
        if restaurant.None? || restaurant.value.ownerId != user {
          return Forbid;
        }
      }
      var imagePath := form.imagePath;
      if upload.Some? {
        imagePath := Some(UploadPath(upload.value));
      }
      if IsValid(form) {
        db.products := db.products[db.nextProductId := RowOf(form, db.nextProductId, imagePath)];
        db.nextProductId := db.nextProductId + 1;
        return Ok(NoNotice);
      }
      o := ShowForm(RestaurantChoices(db.restaurants, user, isAdmin));
    }

    method Edit(user: UserId, isAdmin: bool, id: int, form: ProductForm, upload: Option<Upload>) returns (o: Outcome)
      requires db.Valid()
      modifies db
      ensures db.Valid()
      ensures Response(o, db.Current()) == ProductRules.Edit(old(db.Current()), user, isAdmin, id, form, upload)
    {
      if id != form.id {
        return NotFound;
      }
      if !IsValid(form) {
        return ShowForm(RestaurantChoices(db.restaurants, user, isAdmin));
      }
      var imagePath: Option<string>;
      if upload.Some? {
        imagePath := Some(UploadPath(upload.value));
      } else {
        if id !in db.products {
          return Fault;
        }
        imagePath := db.products[id].imagePath;
      }
      if id == 0 {
        db.products := db.products[db.nextProductId := RowOf(form, db.nextProductId, imagePath)];
        db.nextProductId := db.nextProductId + 1;
        return Ok(NoNotice);
      }
      if id !in db.products {
        return NotFound;
      }
      db.products := db.products[id := RowOf(form, id, imagePath)];
      o := Ok(NoNotice);
    }

    method DeleteConfirmed(id: int) returns (o: Outcome)
      requires db.Valid()
      modifies db
      ensures db.Valid()
      ensures Response(o, db.Current()) == ProductRules.DeleteConfirmed(old(db.Current()), id)
    {
      if id in db.products {
        db.products := db.products - {id};
      }
      o := Ok(NoNotice);
    }
  }
}
