/** The application's database as in-memory tables: the rows of Products keyed by id, and the
    other tables as sequences in row order. The `next…` counters stand for the database's
    identity columns. */
module Store {
  import opened Common
  import opened Model

  /** A snapshot of every table the controllers touch. */
  datatype Tables = Tables(
    products: map<int, Product>,
    restaurants: seq<Restaurant>,
    categories: seq<Category>,
    reviews: seq<Review>,
    cartItems: seq<CartItem>,
    favorites: seq<Favorite>,
    orders: seq<Order>,
    nextCartItemId: int,
    nextFavoriteId: int,
    nextOrderId: int,
    nextProductId: int)

  /** An action's outcome together with the tables it leaves behind. */
  datatype Response = Response(outcome: Outcome, tables: Tables)

  /** At most one cart line per (user, product). */
  predicate OneLinePerProduct(cart: seq<CartItem>)
  {
    forall i, j :: 0 <= i < j < |cart| ==>
      cart[i].userId != cart[j].userId || cart[i].productId != cart[j].productId
  }

  /** Cart line ids are distinct and below the next identity value. */
  predicate CartIdsFresh(cart: seq<CartItem>, next: int)
  {
    && (forall i, j :: 0 <= i < j < |cart| ==> cart[i].id != cart[j].id)
    && (forall i :: 0 <= i < |cart| ==> cart[i].id < next)
  }

  /** At most one favourite per (user, product). */
  predicate OneFavoritePerProduct(favs: seq<Favorite>)
  {
    forall i, j :: 0 <= i < j < |favs| ==>
      favs[i].userId != favs[j].userId || favs[i].productId != favs[j].productId
  }

  predicate FavoriteIdsFresh(favs: seq<Favorite>, next: int)
  {
    && (forall i, j :: 0 <= i < j < |favs| ==> favs[i].id != favs[j].id)
    && (forall i :: 0 <= i < |favs| ==> favs[i].id < next)
  }

  predicate OrderIdsFresh(orders: seq<Order>, next: int)
  {
    && (forall i, j :: 0 <= i < j < |orders| ==> orders[i].id != orders[j].id)
    && (forall i :: 0 <= i < |orders| ==> orders[i].id < next)
  }

  /** Every product row is stored under its own id, below the next identity value, with a
      stock that is not negative. */
  predicate ProductsWellFormed(products: map<int, Product>, next: int)
  {
    forall k :: k in products ==> products[k].id == k && k < next && products[k].stock >= 0
  }

  /** The invariant every action keeps. */
  predicate Consistent(t: Tables)
  {
    && ProductsWellFormed(t.products, t.nextProductId)
    && OneLinePerProduct(t.cartItems)
    && CartIdsFresh(t.cartItems, t.nextCartItemId)
    && OneFavoritePerProduct(t.favorites)
    && FavoriteIdsFresh(t.favorites, t.nextFavoriteId)
    && OrderIdsFresh(t.orders, t.nextOrderId)
  }

  /** The database context the controllers share; each field is one table. */
  class Database {
    var products: map<int, Product>
    var restaurants: seq<Restaurant>
    var categories: seq<Category>
    var reviews: seq<Review>
    var cartItems: seq<CartItem>
    var favorites: seq<Favorite>
    var orders: seq<Order>
    var nextCartItemId: int
    var nextFavoriteId: int
    var nextOrderId: int
    var nextProductId: int

    /** The tables as one value. */
    function Current(): Tables
      reads this
    {
      Tables(products, restaurants, categories, reviews, cartItems, favorites, orders,
             nextCartItemId, nextFavoriteId, nextOrderId, nextProductId)
    }

    ghost predicate Valid()
      reads this
    {
      Consistent(Current())
    }

    /** SaveChanges: every table takes the given rows. */
    method Save(t: Tables)
      modifies this
      ensures Current() == t
    {
      products, restaurants, categories, reviews := t.products, t.restaurants, t.categories, t.reviews;
      cartItems, favorites, orders := t.cartItems, t.favorites, t.orders;
      nextCartItemId, nextFavoriteId := t.nextCartItemId, t.nextFavoriteId;
      nextOrderId, nextProductId := t.nextOrderId, t.nextProductId;
    }

    /** A database holding the given rows. */
    constructor (seed: Tables)
      requires Consistent(seed)
      ensures Valid() && Current() == seed
    {
      products, restaurants, categories, reviews := seed.products, seed.restaurants, seed.categories, seed.reviews;
      cartItems, favorites, orders := seed.cartItems, seed.favorites, seed.orders;
      nextCartItemId, nextFavoriteId := seed.nextCartItemId, seed.nextFavoriteId;
      nextOrderId, nextProductId := seed.nextOrderId, seed.nextProductId;
    }
  }
}
