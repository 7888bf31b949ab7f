/** The records the controllers read and write, as the controllers use them, and the outcome
    of an action (what the source expresses as TempData plus a redirect or a status result). */
module Model {
  import opened Common

  /** Identity user ids are strings. */
  type UserId = string

  /** A row of the Products table. Prices are whole cents; the source stores a double. */
  datatype Product = Product(
    id: int,
    title: string,
    description: Option<string>,
    imagePath: Option<string>,
    price: int,
    stock: int,
    restaurantId: int,
    categoryId: int)

  /** A restaurant: owned by one user; `products` is only filled in by the static list of the
      early RestaurantsController and stays empty in the database table. */
  datatype Restaurant = Restaurant(
    id: int,
    name: string,
    ownerId: UserId,
    isApproved: bool,
    products: seq<Product>)

  datatype Category = Category(id: int, name: string)

  /** A product review; its text may be null. */
  datatype Review = Review(id: int, text: Option<string>, productId: int, userId: UserId)

  /** One cart line: a quantity of one product for one user. */
  datatype CartItem = CartItem(id: int, userId: UserId, productId: int, quantity: int)

  datatype Favorite = Favorite(id: int, userId: UserId, productId: int)

  /** An order line; `price` is the product's price when the order was placed. */
  datatype OrderItem = OrderItem(productId: int, quantity: int, price: int)

  datatype Order = Order(id: int, userId: UserId, items: seq<OrderItem>)

  /** The status messages the actions leave in TempData. */
  datatype Notice =
    | NoNotice
    | ProductNotFound
    | NotEnoughStock
    | AddedToCart
    | CartItemNotFound
    | RemovedFromCart
    | OnlyAvailable(stock: int)
    | QuantityUpdated
    | CartEmpty
    | NotEnoughStockFor(title: string, stock: int)
    | OrderPlaced(orderId: int)
    | CartCleared
    | AlreadyFavorite
    | AddedToFavorites
    | FavoriteNotFound
    | RemovedFromFavorites
    | OnlyInStock(stock: int)
    | MovedToCart

  /** What an action answers. `Ok`, `Error` and `Info` are redirects carrying a notice under
      the TempData key "Success", "Error" or "Info"; `ShowForm` redisplays a form with the restaurants the user
      may choose; `Fault` is an unhandled exception, after which nothing has been saved. */
  datatype Outcome =
    | Ok(notice: Notice)
    | Error(notice: Notice)
    | Info(notice: Notice)
    | NotFound
    | Forbid
    | ShowForm(choices: seq<Restaurant>)
    | Fault

  /** The outcome leaves a non-empty message in TempData for the page it redirects to. */
  predicate ShowsMessage(o: Outcome): (b: bool)
    ensures b <==> (o.Ok? || o.Error? || o.Info?) && Text(o.notice) != ""
  {
    (o.Ok? || o.Error? || o.Info?) && !o.notice.NoNotice?
  }

  /** The text of each notice, as the actions write it. */
  function Text(n: Notice): (r: string)
    ensures r == "" <==> n.NoNotice?
  {
    match n
    case NoNotice => ""
    case ProductNotFound => "Product not found."
    case NotEnoughStock => "Not enough stock available."
    case AddedToCart => "Product added to cart!"
    case CartItemNotFound => "Cart item not found."
    case RemovedFromCart => "Product removed from cart."
    case OnlyAvailable(s) => "Only " + IntToDecimal(s) + " items available in stock."
    case QuantityUpdated => "Quantity updated."
    case CartEmpty => "Your cart is empty."
    case NotEnoughStockFor(t, s) => "Not enough stock for " + t + ". Only " + IntToDecimal(s) + " available."
    case OrderPlaced(_) => "Order placed successfully!"
    case CartCleared => "Cart cleared."
    case AlreadyFavorite => "Product is already in your favorites."
    case AddedToFavorites => "Product added to favorites!"
    case FavoriteNotFound => "Favorite not found."
    case RemovedFromFavorites => "Product removed from favorites."
    case OnlyInStock(s) => "Not enough stock available. Only " + IntToDecimal(s) + " items in stock."
    case MovedToCart => "Product moved to cart!"
  }

  /** The index of the first restaurant with the given id (`FirstOrDefault(r => r.Id == id)`). */
  function RestaurantIndex(rs: seq<Restaurant>, id: int): (r: Option<nat>)
    ensures r.Some? ==> r.value < |rs| && rs[r.value].id == id
    ensures r.Some? ==> forall j :: 0 <= j < r.value ==> rs[j].id != id
    ensures r.None? ==> forall j :: 0 <= j < |rs| ==> rs[j].id != id
  {
    if rs == [] then None
    else if rs[0].id == id then Some(0)
    else match RestaurantIndex(rs[1..], id)
      case None => None
      case Some(k) => Some(k + 1)
  }

  /** The first restaurant with the given id, or null. */
  function FindRestaurant(rs: seq<Restaurant>, id: int): Option<Restaurant>
  {
    match RestaurantIndex(rs, id)
    case None => None
    case Some(i) => Some(rs[i])
  }
}
