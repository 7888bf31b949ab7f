/** The early RestaurantsController: a process-wide list of restaurants, seeded with two entries,
    with lookup by id and Create, which gives the new restaurant the next id after the largest
    one in the list and appends it. */
module Restaurants {
  import opened Common
  import opened Model

  /** The largest id in a non-empty list (`Max(r => r.Id)`). */
  function MaxId(rs: seq<Restaurant>): (m: int)
    requires rs != []
    ensures forall i :: 0 <= i < |rs| ==> rs[i].id <= m
    ensures exists i :: 0 <= i < |rs| && rs[i].id == m
  {
    if |rs| == 1 then rs[0].id
    else
      var rest := MaxId(rs[1..]);
      assert forall i :: 1 <= i < |rs| ==> rs[i] == rs[1..][i - 1];
      if rs[0].id >= rest then rs[0].id else rest
  }

  /** The id Create gives: one more than the largest, or 1 for an empty list. */
  function NextId(rs: seq<Restaurant>): (n: int)
    ensures forall i :: 0 <= i < |rs| ==> rs[i].id < n
    ensures rs == [] ==> n == 1
    ensures rs != [] ==> exists i :: 0 <= i < |rs| && rs[i].id == n - 1
  {
    if rs == [] then 1 else MaxId(rs) + 1
  }

  /** No two restaurants in the list share an id. */
  predicate DistinctIds(rs: seq<Restaurant>)
  {
    forall i, j :: 0 <= i < j < |rs| ==> rs[i].id != rs[j].id
  }

  /** The restaurant Create stores for a posted one: the next id and an empty product list;
      every other field as posted. */
  function Registered(rs: seq<Restaurant>, posted: Restaurant): (r: Restaurant)
    ensures r.id == NextId(rs) && r.products == []
    ensures r.name == posted.name && r.ownerId == posted.ownerId && r.isApproved == posted.isApproved
  {
    posted.(id := NextId(rs), products := [])
  }

  /** Create keeps the ids distinct. */
  lemma CreateKeepsDistinct(rs: seq<Restaurant>, posted: Restaurant)
    requires DistinctIds(rs)
    ensures DistinctIds(rs + [Registered(rs, posted)])
  {
    var r := rs + [Registered(rs, posted)];
    forall i, j | 0 <= i < j < |r| ensures r[i].id != r[j].id {
      if j == |rs| {
        assert r[i] == rs[i];
      } else {
        assert r[i] == rs[i] && r[j] == rs[j];
      }
    }
  }

  /** The two restaurants the list starts with. Prices are cents. */
  function Seed(): (rs: seq<Restaurant>)
    ensures |rs| == 2 && DistinctIds(rs)
  {
    [ Restaurant(1, "Pizza Delicious", "user_popescu", true,
        [ Product(101, "Pizza Margherita", None, None, 3550, 100, 1, 0),
          Product(102, "Cola Zero", None, None, 700, 250, 1, 0) ]),
      Restaurant(2, "Burger King Mock", "user_ionescu", false,
        [ Product(201, "Whopper", None, None, 2599, 15, 2, 0) ]) ]
  }

  /** The controller over the shared list. */
  class RestaurantsController {
    var restaurants: seq<Restaurant>

    ghost predicate Valid()
      reads this
    {
      DistinctIds(restaurants)
    }

    constructor ()
      ensures Valid() && restaurants == Seed()
    {
      restaurants := Seed();
    }

    /** Details: the first restaurant with that id, or None for NotFound. */
    function Details(id: int): (r: Option<Restaurant>)
      reads this
      ensures r.Some? ==> r.value in restaurants && r.value.id == id
      ensures r.None? <==> forall i :: 0 <= i < |restaurants| ==> restaurants[i].id != id
      ensures r.Some? ==> exists i :: 0 <= i < |restaurants| && restaurants[i] == r.value
                                       && forall j :: 0 <= j < i ==> restaurants[j].id != id
    {
      match RestaurantIndex(restaurants, id)
      case None => None
      case Some(i) => Some(restaurants[i])
    }

    /** Create: appends the posted restaurant under a fresh id, leaving every earlier entry
        where it was. */
    method Create(posted: Restaurant)
      requires Valid()
      modifies this
      ensures Valid()
      ensures restaurants == old(restaurants) + [Registered(old(restaurants), posted)]
    {
      var newId := if |restaurants| > 0 then MaxId(restaurants) + 1 else 1;
      var entry := posted.(id := newId, products := []);
      CreateKeepsDistinct(restaurants, posted);
      restaurants := restaurants + [entry];
    }
  }
}
