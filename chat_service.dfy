/** AIChatService: the system prompt built line by line from a product's context, the FAQ text
    and the guard that answers without calling the model when no API key is configured. Lines end
    in "\n" (StringBuilder.AppendLine on the Linux container the application runs in). */
module ChatService {
  import opened Common

  /** What the chat controller tells the service about a product. The price is in cents. */
  datatype ProductContext = ProductContext(
    productName: string,
    productDescription: Option<string>,
    price: int,
    categoryName: string,
    restaurantName: string,
    inStock: bool,
    stockCount: int,
    reviews: Option<seq<string>>)

  datatype ChatResponse = ChatResponse(success: bool, message: string)

  datatype ChatRequest = ChatRequest(productId: int, message: Option<string>)

  /** What GetResponseAsync does before the network: answer at once, or send this text. */
  datatype Call = Answer(response: ChatResponse) | Send(text: string)

  const NotConfiguredMessage := "AI service is not configured. Please contact support."
  const MaxReviews := 10

  function Line(s: string): string
  {
    s + "\n"
  }

  /** The fixed rules at the head of every prompt, from line `i` on; `RuleLines(0)` is the
      whole rules text. */
  function RuleLines(i: nat): string
    decreases 15 - i
  {
    if i >= 15 then "" else Line(RuleText(i)) + RuleLines(i + 1)
  }

  function RuleText(i: nat): string
  {
    if i == 0 then "You are a " + "helpful " + "customer " + "support " + "assistant for " +
      "GoGoGo, a " + "food delivery " + "platform."
    else if i == 1 then "You MUST " + "follow these " + "rules " + "strictly:"
    else if i == 2 then ""
    else if i == 3 then "1. ONLY " + "answer " + "questions " + "using the " + "information " +
      "provided " + "below (FAQ " + "data and " + "product " + "information)."
    else if i == 4 then "2. If the " + "user asks " + "something not " + "covered by " + "the provided " +
      "information, " + "politely say: " + "\"I don't have " + "information " + "about that at " +
      "the moment. " + "Please " + "contact our " + "support team " + "for further " +
      "assistance.\""
    else if i == 5 then "3. NEVER make " + "up " + "information " + "or provide " + "answers not " +
      "based on the " + "provided data."
    else if i == 6 then "4. REFUSE to " + "answer " + "questions " + "that are:"
    else if i == 7 then "   - " + "Unrelated to " + "food " + "delivery, the " + "platform, or " +
      "the product"
    else if i == 8 then "   - " + "Inappropriate," + " offensive, " + "or harmful"
    else if i == 9 then "   - Asking " + "for personal " + "opinions or " + "advice " + "unrelated to " +
      "the service"
    else if i == 10 then "   For such " + "questions, " + "respond: \"I'm " + "here to help " + "with " +
      "questions " + "about our " + "food delivery " + "service and " + "products. Is " +
      "there " + "anything else " + "I can help " + "you with?\""
    else if i == 11 then "5. Be " + "friendly, " + "concise, and " + "helpful."
    else if i == 12 then "6. If asked " + "about this " + "specific " + "product, use " + "the product " +
      "details " + "provided."
    else if i == 13 then "7. Answer in " + "the same " + "language the " + "user writes " + "in (English " +
      "or Romanian)."
    else ""
  }

  /** The stock line: "Yes" or "No" from InStock, then the count. */
  function StockLine(ctx: ProductContext): string
  {
    "In Stock: " + (if ctx.inStock then "Yes" else "No") + " (" + IntToDecimal(ctx.stockCount) + " available)"
  }

  /** The product block; a null description prints as nothing. `priceText` is the price as the
      currency format prints it. */
  function ProductBlock(ctx: ProductContext, priceText: string): string
  {
    Line("=== PRODUCT INFORMATION ===")
    + Line("Product Name: " + ctx.productName)
    + Line("Description: " + (if ctx.productDescription.Some? then ctx.productDescription.value else ""))
    + Line("Price: " + priceText)
    + Line("Category: " + ctx.categoryName)
    + Line("Restaurant: " + ctx.restaurantName)
    + Line(StockLine(ctx))
    + Line("")
  }

  function ReviewLine(review: string): string
  {
    Line("- \"" + review + "\"")
  }

  /** One quoted line per review, in order. */
  function ReviewLines(reviews: seq<string>): string
  {
    if reviews == [] then ""
    else ReviewLines(reviews[..|reviews| - 1]) + ReviewLine(reviews[|reviews| - 1])
  }

  /** The reviews that make it into the prompt: the first ten (`Take(10)`). */
  function Shown(reviews: seq<string>): (r: seq<string>)
    ensures |r| <= MaxReviews && |r| <= |reviews| && r == reviews[..|r|]
    ensures |r| == if |reviews| < MaxReviews then |reviews| else MaxReviews
  {
    if |reviews| <= MaxReviews then reviews else reviews[..MaxReviews]
  }

  /** True when the reviews section is written: the list is there and not empty. */
  predicate HasReviews(reviews: Option<seq<string>>)
  {
    reviews.Some? && |reviews.value| > 0
  }

  function ReviewsHeader(): string
  {
    Line("=== CUSTOMER REVIEWS ===")
  }

  function ReviewsBlock(reviews: Option<seq<string>>): string
  {
    if HasReviews(reviews) then ReviewsHeader() + ReviewLines(Shown(reviews.value)) + Line("") else ""
  }

  function FaqBlock(faq: string): string
  {
    Line("=== FAQ DATA ===") + Line(faq)
  }

  /** The whole prompt: the rules, the product block, the reviews section when there are
      reviews, and the FAQ. */
  function SystemPrompt(rules: string, ctx: ProductContext, priceText: string, faq: string): string
  {
    rules + ProductBlock(ctx, priceText) + ReviewsBlock(ctx.reviews) + FaqBlock(faq)
  }

  // ---------------------------------------------------------------------------------------
  // Properties of the prompt

  lemma {:induction false} ReviewLinesAppend(reviews: seq<string>, r: string)
    ensures ReviewLines(reviews + [r]) == ReviewLines(reviews) + ReviewLine(r)
  {
    assert (reviews + [r])[..|reviews + [r]| - 1] == reviews;
  }

  /** Reviews after the tenth never reach the prompt: two contexts whose review lists agree on
      their first ten entries give the same prompt. */
  lemma OnlyFirstTenReviews(rules: string, ctx: ProductContext, more: seq<string>, priceText: string, faq: string)
    requires ctx.reviews.Some? && |ctx.reviews.value| >= MaxReviews
    ensures SystemPrompt(rules, ctx.(reviews := Some(ctx.reviews.value + more)), priceText, faq)
            == SystemPrompt(rules, ctx, priceText, faq)
  {
    var rs := ctx.reviews.value;
    assert (rs + more)[..MaxReviews] == rs[..MaxReviews];
  }

  /** The prompt always holds the product block, right after the rules. */
  lemma PromptHasProductBlock(rules: string, ctx: ProductContext, priceText: string, faq: string)
    ensures var p := SystemPrompt(rules, ctx, priceText, faq);
            var b := ProductBlock(ctx, priceText);
            |rules| + |b| <= |p| && p[|rules|..|rules| + |b|] == b
  {
    MiddleOfConcat(rules, ProductBlock(ctx, priceText), ReviewsBlock(ctx.reviews) + FaqBlock(faq));
  }

  /** The stock line of the product block says "Yes" exactly when the product is in stock. */
  lemma StockLineSaysYes(ctx: ProductContext)
    ensures StartsWith(StockLine(ctx), "In Stock: Yes") <==> ctx.inStock
  {
    var tail := " (" + IntToDecimal(ctx.stockCount) + " available)";
    if ctx.inStock {
      assert StockLine(ctx) == "In Stock: Yes" + tail;
    } else {
      assert StockLine(ctx) == "In Stock: No" + tail;
      assert StockLine(ctx)[10] == 'N';
    }
  }

  /** The prompt always ends with the FAQ header line and the FAQ text. */
  lemma PromptEndsWithFaq(rules: string, ctx: ProductContext, priceText: string, faq: string)
    ensures var p := SystemPrompt(rules, ctx, priceText, faq);
            var tail := "=== FAQ DATA ===\n" + faq + "\n";
            |tail| <= |p| && p[|p| - |tail|..] == tail
  {
    assert FaqBlock(faq) == "=== FAQ DATA ===\n" + faq + "\n";
    EndOfConcat(rules + ProductBlock(ctx, priceText) + ReviewsBlock(ctx.reviews), FaqBlock(faq));
  }

  /** Right after the product block the prompt shows the reviews header exactly when there are
      reviews; otherwise the FAQ header follows at once. */
  lemma ReviewsSectionOnlyWithReviews(rules: string, ctx: ProductContext, priceText: string, faq: string)
    ensures var p := SystemPrompt(rules, ctx, priceText, faq);
            var start := |rules| + |ProductBlock(ctx, priceText)|;
            start <= |p| && (StartsWith(p[start..], ReviewsHeader()) <==> HasReviews(ctx.reviews))
  {
    var head := rules + ProductBlock(ctx, priceText);
    var rest := ReviewsBlock(ctx.reviews) + FaqBlock(faq);
    AfterConcat(head, ReviewsBlock(ctx.reviews), FaqBlock(faq));
    if HasReviews(ctx.reviews) {
      var body := ReviewLines(Shown(ctx.reviews.value)) + Line("");
      StartsWithConcat(ReviewsHeader(), body, FaqBlock(faq));
    } else {
      assert rest == FaqBlock(faq);
      FaqBlockIsNotReviewsHeader(faq);
    }
  }

  lemma FaqBlockIsNotReviewsHeader(faq: string)
    ensures !StartsWith(FaqBlock(faq), ReviewsHeader())
  {
    if |ReviewsHeader()| <= |FaqBlock(faq)| {
      assert FaqBlock(faq)[4] == 'F';
    }
  }

  // ---------------------------------------------------------------------------------------
  // Facts about string concatenation

  predicate StartsWith(s: string, prefix: string)
  {
    |prefix| <= |s| && s[..|prefix|] == prefix
  }

  lemma MiddleOfConcat(a: string, b: string, c: string)
    ensures |a| + |b| <= |a + b + c| && (a + b + c)[|a|..|a| + |b|] == b
  {
  }

  lemma EndOfConcat(a: string, b: string)
    ensures |b| <= |a + b| && (a + b)[|a + b| - |b|..] == b
  {
  }

  lemma AfterConcat(a: string, b: string, c: string)
    ensures |a| <= |a + b + c| && (a + b + c)[|a|..] == b + c
  {
  }

  lemma StartsWithConcat(a: string, b: string, c: string)
    ensures StartsWith(a + b + c, a)
  {
    assert (a + b + c)[..|a|] == a;
  }

  /** The foreach of BuildSystemPrompt: one quoted line per review appended to the builder. */
  method AppendReviewLines(sb: string, reviews: seq<string>) returns (out: string)
    ensures out == sb + ReviewLines(reviews)
  {
    out := sb;
    var i := 0;
    while i < |reviews|
      invariant 0 <= i <= |reviews|
      invariant out == sb + ReviewLines(reviews[..i])
    {
      ReviewLinesAppend(reviews[..i], reviews[i]);
      assert reviews[..i + 1] == reviews[..i] + [reviews[i]];
      out := out + ReviewLine(reviews[i]);
      i := i + 1;
    }
    assert reviews[..i] == reviews;
  }

  /** The service, holding the key and FAQ text read when it was built. */
  class AIChatService {
    const apiKey: string
    const faqData: string
    const rules: string

    /** `apiKeyInConfig` is the GoogleAI.ApiKey value when the config file exists and the value
        is not null; `faqFile` the FAQ file's text when it exists. */
    constructor (apiKeyInConfig: Option<string>, faqFile: Option<string>)
      ensures apiKey == (if apiKeyInConfig.Some? then apiKeyInConfig.value else "")
      ensures faqData == (if faqFile.Some? then faqFile.value else "{}")
      ensures rules == RuleLines(0)
    {
      rules := RuleLines(0);
      apiKey := if apiKeyInConfig.Some? then apiKeyInConfig.value else "";
      faqData := if faqFile.Some? then faqFile.value else "{}";
    }

    /** BuildSystemPrompt: appends the lines one by one, the reviews in a loop over the first
        ten. */
    method BuildSystemPrompt(ctx: ProductContext, priceText: string) returns (prompt: string)
      ensures prompt == SystemPrompt(rules, ctx, priceText, faqData)
    {
      var sb := rules + ProductBlock(ctx, priceText);
      ghost var head := sb;
      if ctx.reviews.Some? && |ctx.reviews.value| > 0 {
        sb := AppendReviewLines(sb + ReviewsHeader(), Shown(ctx.reviews.value));
        sb := sb + Line("");
        assert sb == head + ReviewsBlock(ctx.reviews);
      }
      sb := sb + FaqBlock(faqData);
      prompt := sb;
    }

    /** GetResponseAsync up to the network call: without an API key it answers at once with the
        "not configured" failure; otherwise it sends the prompt followed by the user's
        question. */
    method GetResponse(userMessage: string, ctx: ProductContext, priceText: string) returns (c: Call)
      ensures apiKey == "" ==> c == Answer(ChatResponse(false, NotConfiguredMessage))
      ensures apiKey != "" ==> c == Send(SystemPrompt(rules, ctx, priceText, faqData) + "\n\nUser question: " + userMessage)
    {
      if |apiKey| == 0 {
        return Answer(ChatResponse(false, NotConfiguredMessage));
      }
      var systemPrompt := BuildSystemPrompt(ctx, priceText);
      c := Send(systemPrompt + "\n\nUser question: " + userMessage);
    }
  }
}
