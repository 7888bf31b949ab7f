/** AIChatController.Ask: the request is checked, the product is looked up with its category,
    restaurant and reviews, and what the chat service is told about it is projected from those
    rows. The projection is a function over `Tables`; `AIChatController` performs the action on
    the shared `Database` and hands the context to `AIChatService`. */
module ChatRules {
  import opened Common
  import opened Model
  import opened Store
  import opened ChatService

  const EnterMessage := "Please enter a message."
  const ProductNotFound := "Product not found."
  const Uncategorized := "Uncategorized"
  const UnknownRestaurant := "Unknown Restaurant"

  /** The index of the first category with the given id. */
  function CategoryIndex(cats: seq<Category>, id: int): (r: Option<nat>)
    ensures r.Some? ==> r.value < |cats| && cats[r.value].id == id
    ensures r.Some? ==> forall j :: 0 <= j < r.value ==> cats[j].id != id
    ensures r.None? ==> forall j :: 0 <= j < |cats| ==> cats[j].id != id
  {
    if cats == [] then None
    else if cats[0].id == id then Some(0)
    else match CategoryIndex(cats[1..], id)
      case None => None
      case Some(k) => Some(k + 1)
  }

  /** A review's text, a null text read as "" (`r.Text ?? ""`). */
  function TextOf(r: Review): string
  {
    if r.text.Some? then r.text.value else ""
  }

  /** The texts of one product's reviews, in table order, with null and empty texts dropped. */
  function ReviewTexts(reviews: seq<Review>, productId: int): (r: seq<string>)
    ensures |r| <= |reviews|
    ensures forall k :: 0 <= k < |r| ==> r[k] != ""
  {
    if reviews == [] then []
    else
      var rest := ReviewTexts(reviews[1..], productId);
      if reviews[0].productId == productId && TextOf(reviews[0]) != "" then [TextOf(reviews[0])] + rest
      else rest
  }

  /** A text is shown exactly when some review of that product carries it. */
  lemma {:induction false} ReviewTextsMembers(reviews: seq<Review>, productId: int, s: string)
    ensures s in ReviewTexts(reviews, productId) <==>
              s != "" && exists i :: 0 <= i < |reviews| && reviews[i].productId == productId && reviews[i].text == Some(s)
  {
    if reviews != [] {
      ReviewTextsMembers(reviews[1..], productId, s);
      if exists i :: 1 <= i < |reviews| && reviews[i].productId == productId && reviews[i].text == Some(s) {
        var i :| 1 <= i < |reviews| && reviews[i].productId == productId && reviews[i].text == Some(s);
        assert reviews[1..][i - 1] == reviews[i];
      }
      if exists i :: 0 <= i < |reviews| - 1 && reviews[1..][i].productId == productId && reviews[1..][i].text == Some(s) {
        var i :| 0 <= i < |reviews| - 1 && reviews[1..][i].productId == productId && reviews[1..][i].text == Some(s);
        assert reviews[i + 1] == reviews[1..][i];
      }
    }
  }

  /** The projection keeps the table's order: the texts of two runs of rows are the texts of
      the first followed by those of the second. */
  lemma {:induction false} ReviewTextsAppend(a: seq<Review>, b: seq<Review>, productId: int)
    ensures ReviewTexts(a + b, productId) == ReviewTexts(a, productId) + ReviewTexts(b, productId)
  {
    if a == [] {
      assert a + b == b;
    } else {
      assert (a + b)[1..] == a[1..] + b;
      ReviewTextsAppend(a[1..], b, productId);
    }
  }

  /** A review of another product, or one without text, does not change what is shown. */
  lemma ReviewTextsIgnore(reviews: seq<Review>, r: Review, productId: int)
    requires r.productId != productId || TextOf(r) == ""
    ensures ReviewTexts(reviews + [r], productId) == ReviewTexts(reviews, productId)
  {
    ReviewTextsAppend(reviews, [r], productId);
    assert [r][1..] == [];
  }

  /** What the service is told about a product: its own fields, the name of its category or
      "Uncategorized", the name of its restaurant or "Unknown Restaurant", whether any stock is
      left, and its review texts. */
  function ContextOf(t: Tables, p: Product): (ctx: ProductContext)
    ensures ctx.productName == p.title && ctx.productDescription == p.description && ctx.price == p.price
    ensures ctx.inStock <==> p.stock > 0
    ensures ctx.stockCount == p.stock
    ensures (forall j :: 0 <= j < |t.categories| ==> t.categories[j].id != p.categoryId) ==>
              ctx.categoryName == Uncategorized
    ensures forall j :: (0 <= j < |t.categories| && t.categories[j].id == p.categoryId
                         && forall i :: 0 <= i < j ==> t.categories[i].id != p.categoryId) ==>
              ctx.categoryName == t.categories[j].name
    ensures (forall j :: 0 <= j < |t.restaurants| ==> t.restaurants[j].id != p.restaurantId) ==>
              ctx.restaurantName == UnknownRestaurant
    ensures forall j :: (0 <= j < |t.restaurants| && t.restaurants[j].id == p.restaurantId
                         && forall i :: 0 <= i < j ==> t.restaurants[i].id != p.restaurantId) ==>
              ctx.restaurantName == t.restaurants[j].name
    ensures ctx.reviews == Some(ReviewTexts(t.reviews, p.id))
  {
    var category := match CategoryIndex(t.categories, p.categoryId)
      case None => Uncategorized
      case Some(i) => t.categories[i].name;
    var restaurant := match FindRestaurant(t.restaurants, p.restaurantId)
      case None => UnknownRestaurant
      case Some(r) => r.name;
    ProductContext(p.title, p.description, p.price, category, restaurant, p.stock > 0, p.stock,
                   Some(ReviewTexts(t.reviews, p.id)))
  }

  /** Where Ask goes before the service is called. */
  datatype AskStep =
    | Invalid(body: ChatResponse)
    | Missing(body: ChatResponse)
    | Forward(message: string, context: ProductContext)

  /** Ask: a missing or blank message is a bad request whatever the product; an unknown product
      is not found; otherwise the message goes to the service with the product's context. */
  function Ask(t: Tables, request: ChatRequest): (r: AskStep)
    ensures r.Invalid? <==> IsNullOrWhiteSpace(request.message)
    ensures r.Invalid? ==> r.body == ChatResponse(false, EnterMessage)
    ensures r.Missing? <==> !IsNullOrWhiteSpace(request.message) && request.productId !in t.products
    ensures r.Missing? ==> r.body == ChatResponse(false, ProductNotFound)
    ensures r.Forward? ==>
              && request.message == Some(r.message)
              && request.productId in t.products
              && r.context == ContextOf(t, t.products[request.productId])
  {
    if IsNullOrWhiteSpace(request.message) then Invalid(ChatResponse(false, EnterMessage))
    else if request.productId !in t.products then Missing(ChatResponse(false, ProductNotFound))
    else Forward(request.message.value, ContextOf(t, t.products[request.productId]))
  }

  /** The question forwarded is never blank. */
  lemma ForwardedMessageNotBlank(t: Tables, request: ChatRequest)
    requires Ask(t, request).Forward?
    ensures exists i :: 0 <= i < |Ask(t, request).message| && !IsWhiteSpace(Ask(t, request).message[i])
  {
    var m := Ask(t, request).message;
    assert !IsNullOrWhiteSpace(Some(m));
  }

  /** The context of a product does not change when a review of another product is added. */
  lemma ContextIgnoresOtherReviews(t: Tables, p: Product, r: Review)
    requires r.productId != p.id
    ensures ContextOf(t.(reviews := t.reviews + [r]), p) == ContextOf(t, p)
  {
    ReviewTextsIgnore(t.reviews, r, p.id);
  }

  /** A new review of another product does not change what Ask does. */
  lemma AskIgnoresOtherReviews(t: Tables, request: ChatRequest, r: Review)
    requires Consistent(t) && r.productId != request.productId
    ensures Ask(t.(reviews := t.reviews + [r]), request) == Ask(t, request)
  {
    if !IsNullOrWhiteSpace(request.message) && request.productId in t.products {
      ContextIgnoresOtherReviews(t, t.products[request.productId], r);
    }
  }
}

/** The chat endpoint over the shared database and the chat service. */
module Chat {
  import opened Common
  import opened Store
  import opened ChatService
  import opened ChatRules

  /** The HTTP result Ask returns, with its JSON body. */
  datatype ApiResult =
    | HttpBadRequest(body: ChatResponse)
    | HttpNotFound(body: ChatResponse)
    | HttpOk(call: Call)

  class AIChatController {
    const service: AIChatService
    const db: Database

    constructor (service: AIChatService, db: Database)
      ensures this.service == service && this.db == db
    {
      this.service := service;
      this.db := db;
    }

    /** Ask: the two rejections, then the service's answer for the product's context.
        `formatPrice` stands for the currency format the prompt prints the price in. */
    method Ask(request: ChatRequest, formatPrice: int -> string) returns (r: ApiResult)
      ensures var step := ChatRules.Ask(db.Current(), request);
              && (step.Invalid? ==> r == HttpBadRequest(step.body))
              && (step.Missing? ==> r == HttpNotFound(step.body))
              && (step.Forward? && service.apiKey == "" ==>
                    r == HttpOk(Answer(ChatResponse(false, NotConfiguredMessage))))
              && (step.Forward? && service.apiKey != "" ==>
                    r == HttpOk(Send(SystemPrompt(service.rules, step.context, formatPrice(step.context.price), service.faqData)
                                     + "\n\nUser question: " + step.message)))
    {
      if IsNullOrWhiteSpace(request.message) {
        return HttpBadRequest(ChatResponse(false, EnterMessage));
      }
      if request.productId !in db.products {
        return HttpNotFound(ChatResponse(false, ProductNotFound));
      }
      var context := ContextOf(db.Current(), db.products[request.productId]);
      var call := service.GetResponse(request.message.value, context, formatPrice(context.price));
      r := HttpOk(call);
    }
  }
}
