# gogogo shopping rules in Dafny

This project models the rules at the heart of gogogo, an ASP.NET food-delivery web
application. It covers:

- the cart (add-or-merge against stock, set quantity, remove, clear, all-or-nothing checkout,
  and the owner-only order lookup);
- the favourites (add without duplicates, remove, toggle, move to cart);
- the product guards and updates (admin-or-owner, the restaurants a user may pick, Create, Edit
  and DeleteConfirmed with their not-found, forbidden and invalid-form paths);
- the early static restaurant registry (lookup and append with a fresh id);
- the AI chat endpoint: request validation, the projection of a product into the context the
  service is told about, the system prompt the service assembles, and the service's "not
  configured" guard.

The database is a value, `Store.Tables`. Products are a map from id to row; cart lines,
favourites, orders, reviews, categories and restaurants are sequences in row order. Identity
columns are counters (`nextCartItemId` and so on). `Store.Consistent` is the invariant every
action keeps:

- each product row is stored under its own id, and no stock is negative;
- there is at most one cart line and at most one favourite per (user, product);
- row ids are distinct and below their counter.

Each controller action exists in two forms:

- a function over `Tables` (in `CartRules`, `FavoriteRules`, `ProductRules`, `ChatRules`) that
  returns the outcome and the new tables; the properties are stated on these functions and in
  lemmas beside them;
- a method of a controller class (`Cart.CartController`, `Favorites.FavoritesController`,
  `Products.ProductsController`) that updates the shared `Store.Database` step by step, as the
  C# does; each method is proved to leave exactly the tables its function describes and to keep
  the invariant.

Checkout's two loops, validation and stock taking, are methods with loop invariants. The
service's `BuildSystemPrompt` appends the review lines in a loop.

An action's answer is an `Outcome`:

- `Ok`, `Error` and `Info` stand for the redirect with a TempData notice ("Success", "Error",
  "Info");
- `NotFound` and `Forbid` are the status results;
- `ShowForm` is the form shown again with its restaurant choices;
- `Fault` is an unhandled exception, after which nothing is saved.

Prices are whole cents.

## Model

| member | source | states |
|---|---|---|
| CartRules.FindLine | DockerProject/Controllers/CartController.cs:57-58 | the index of the first line of that user for that product, or none when no such line exists |
| CartRules.FindOwnLine | DockerProject/Controllers/CartController.cs:92-93 | a line is found only if both its id and its user match; none when no line matches both |
| CartRules.LinesOf | DockerProject/Controllers/CartController.cs:149-152 | exactly the user's lines (membership both ways) |
| CartRules.LinesNotOf | DockerProject/Controllers/CartController.cs:228-232 | exactly the other users' lines: what removing the user's lines leaves |
| CartRules.LinesOfConcat | DockerProject/Controllers/CartController.cs:149-152 | the user's lines of a concatenation are those of each part in turn (table order kept) |
| CartRules.LinesOfLinesNotOf | DockerProject/Controllers/CartController.cs:196 | after the user's lines are removed the user has none and every other user keeps the same lines |
| CartRules.LinesOfDistinctProducts | DockerProject/Controllers/CartController.cs:57-80 | with one line per (user, product), a user's lines name pairwise different products |
| CartRules.Merge | DockerProject/Controllers/CartController.cs:49-80 | refused exactly when the quantity alone or the quantity already in the cart plus it exceeds the stock; otherwise the user's quantity grows by exactly `quantity`, every other (user, product) quantity and every other user's lines are unchanged, the first matching line keeps its id and position and grows by `quantity`, or a line with the next id is appended when there is none, and every other line is kept exactly, id included; the invariant is kept |
| CartRules.AddToCart | DockerProject/Controllers/CartController.cs:38-85 | unknown product gives ProductNotFound with no change; Ok exactly when stock covers the quantity and the merged quantity; a refusal for stock is the NotEnoughStock error; on failure nothing changes; every other (user, product) quantity and every other user's lines are unchanged; on success the lines are merged as in `CartRules.Merge`, every other line kept with its id; no table but the cart lines and their identity counter changes; the invariant is kept |
| CartRules.UpdateQuantity | DockerProject/Controllers/CartController.cs:89-122 | only the user's own line with that id is touched, any other id is CartItemNotFound with no change; 0 or less deletes that line (earlier lines kept, later ones shift down by one, no line with that id remains); a positive quantity above the stock is the OnlyAvailable(stock) error with no change; a positive quantity within the stock is QuantityUpdated, setting exactly that line's quantity and keeping every other line; no table but the cart lines changes |
| CartRules.Remove | DockerProject/Controllers/CartController.cs:126-142 | Ok exactly when the user owns a line with that id; that line is taken out, earlier lines are kept and later ones shift down by one; otherwise CartItemNotFound with no change; other users' lines untouched; no table but the cart lines changes |
| CartRules.Clear | DockerProject/Controllers/CartController.cs:225-237 | the user's cart is empty afterwards and every other user's lines are unchanged; no table but the cart lines changes |
| CartRules.FirstShortfall | DockerProject/Controllers/CartController.cs:161-168 | the first line whose product is missing or short of stock; none exactly when every line is covered |
| CartRules.ItemsFor | DockerProject/Controllers/CartController.cs:179-187 | one order item per line, in line order, with the line's product and quantity and the product's current price |
| CartRules.DeductStock | DockerProject/Controllers/CartController.cs:190 | after the loop each product row is the old one with its stock lowered by the total quantity the lines hold of it |
| CartRules.QuantitySumOfDistinct | DockerProject/Controllers/CartController.cs:179-191 | with pairwise different products, the total taken from a product is the quantity of its one line, or 0 |
| CartRules.Checkout | DockerProject/Controllers/CartController.cs:146-202 | empty cart gives CartEmpty with no change; Ok exactly when every line is covered; the first uncovered line gives NotEnoughStockFor(its title, its stock); any failure changes nothing; on success one order is appended with the next order id, the user and one item per line at the current price, and the user's cart is emptied; other users' lines unchanged; no table but products, orders, cart lines and the order counter changes, and no product is added or removed |
| CartRules.CheckoutStock | DockerProject/Controllers/CartController.cs:189-190 | after a successful checkout each product's stock has dropped by the user's quantity of it and its other fields are unchanged |
| CartRules.CheckoutStockNonNegative | DockerProject/Controllers/CartController.cs:161-191 | under the invariant no stock goes negative after a successful checkout |
| CartRules.CheckoutKeepsConsistent | DockerProject/Controllers/CartController.cs:146-202 | checkout keeps the invariant |
| CartRules.CheckoutTwice | DockerProject/Controllers/CartController.cs:146-158 | a checkout right after a successful one finds the cart empty and changes nothing, so an order is never placed twice |
| CartRules.FindOwnOrder | DockerProject/Controllers/CartController.cs:208-217 | an order is found only if both its id and its user match; none exactly when no order matches both |
| Cart.CartController.AddToCart | DockerProject/Controllers/CartController.cs:38-85 | the database ends as `CartRules.AddToCart` describes and stays consistent |
| Cart.CartController.UpdateQuantity | DockerProject/Controllers/CartController.cs:89-122 | the database ends as `CartRules.UpdateQuantity` describes and stays consistent |
| Cart.CartController.Remove | DockerProject/Controllers/CartController.cs:126-142 | the database ends as `CartRules.Remove` describes and stays consistent |
| Cart.CartController.Clear | DockerProject/Controllers/CartController.cs:225-237 | the database ends as `CartRules.Clear` describes and stays consistent |
| Cart.CartController.Checkout | DockerProject/Controllers/CartController.cs:146-202 | the database ends as `CartRules.Checkout` describes and stays consistent |
| Cart.CartController.PlaceOrder | DockerProject/Controllers/CartController.cs:170-201 | once every line is covered, the second loop and the save leave the database as `CartRules.Checkout` describes, consistent |
| Model.Text | DockerProject/Controllers/CartController.cs:46-235 | every notice an action leaves in TempData shows a non-empty message; only the absent notice is empty |
| CartRules.CartActionsShowMessage | DockerProject/Controllers/CartController.cs:38-237 | AddToCart, Remove, Clear and a non-faulting UpdateQuantity each leave a non-empty message in TempData |
| CartRules.CheckoutShowsMessage | DockerProject/Controllers/CartController.cs:146-201 | a checkout that does not fault leaves a non-empty message in TempData |
| Cart.ValidateStock | DockerProject/Controllers/CartController.cs:161-168 | the validation loop stops at exactly the first uncovered line |
| Cart.TakeStock | DockerProject/Controllers/CartController.cs:179-191 | the second loop builds exactly the items of `ItemsFor` and the stock of `Deduct` |
| FavoriteRules.FindFavorite | DockerProject/Controllers/FavoritesController.cs:50-51 | the index of the first favourite of that user for that product, or none when there is none |
| FavoriteRules.FindOwnFavorite | DockerProject/Controllers/FavoritesController.cs:78-79 | a favourite is found only if both its id and its user match |
| FavoriteRules.FindFavoritePairs | DockerProject/Controllers/FavoritesController.cs:50-51 | the lookup finds a row exactly when the (user, product) pair is marked |
| FavoriteRules.PairsRemove | DockerProject/Controllers/FavoritesController.cs:82-84 | with one row per pair, removing a row unmarks its pair and nothing else |
| FavoriteRules.RemoveKeepsFavoriteInvariants | DockerProject/Controllers/FavoritesController.cs:82-84 | removing a row keeps one row per pair and distinct ids |
| FavoriteRules.Add | DockerProject/Controllers/FavoritesController.cs:37-71 | unknown product gives ProductNotFound with no change; a marked pair gives AlreadyFavorite with no change; otherwise the row `(next id, user, product)` is appended and every other row is kept, ids included; only favourites change; the invariant is kept |
| FavoriteRules.Remove | DockerProject/Controllers/FavoritesController.cs:75-92 | Ok exactly when the user owns a favourite with that id; otherwise FavoriteNotFound with no change; on success that row is taken out, earlier rows keep their place and later ones move down by one, ids unchanged, and under the invariant exactly that pair is unmarked |
| FavoriteRules.MoveToCart | DockerProject/Controllers/FavoritesController.cs:96-145 | not the user's favourite gives FavoriteNotFound; Ok exactly under AddToCart's stock rule, the quantity then grows by `quantity` and no other quantity changes, and the lines are merged as in `CartRules.Merge`, every other line kept with its id; a refusal reports the stock; a favourite whose product row is gone faults with no change; no table but the cart lines and their identity counter ever changes |
| FavoriteRules.Toggle | DockerProject/Controllers/FavoritesController.cs:149-185 | a marked pair is unmarked by taking out its first row, the others keeping their order and ids; an unmarked one is marked by appending the row `(next id, user, product)` if the product exists and is ProductNotFound otherwise; no other pair changes; the invariant is kept |
| FavoriteRules.FavoriteActionsShowMessage | DockerProject/Controllers/FavoritesController.cs:37-185 | every favourites action that does not fault leaves a non-empty message in TempData |
| FavoriteRules.ToggleTwice | DockerProject/Controllers/FavoritesController.cs:149-185 | toggling the same existing product twice restores the user's favourites |
| FavoriteRules.AddTwice | DockerProject/Controllers/FavoritesController.cs:50-67 | a second Add of the same product reports AlreadyFavorite and changes nothing |
| Favorites.FavoritesController.Add | DockerProject/Controllers/FavoritesController.cs:37-71 | the database ends as `FavoriteRules.Add` describes and stays consistent |
| Favorites.FavoritesController.Remove | DockerProject/Controllers/FavoritesController.cs:75-92 | the database ends as `FavoriteRules.Remove` describes and stays consistent |
| Favorites.FavoritesController.MoveToCart | DockerProject/Controllers/FavoritesController.cs:96-145 | the database ends as `FavoriteRules.MoveToCart` describes and stays consistent |
| Favorites.FavoritesController.Toggle | DockerProject/Controllers/FavoritesController.cs:149-185 | the database ends as `FavoriteRules.Toggle` describes and stays consistent |
| ProductRules.OwnsRestaurant | DockerProject/Controllers/ProductsController.cs:88-96 | true exactly when the first restaurant with that id exists and belongs to the user |
| ProductRules.CanManage | DockerProject/Controllers/ProductsController.cs:145-149 | always for an admin; for anyone else exactly when the product's restaurant exists and belongs to the user |
| ProductRules.IsValid | DockerProject/Models/Product.cs:8-10 | valid exactly when the title has a character that is not white space, the price is 1 to 1,000,000 cents and the stock is 0 to 10000 (both directions) |
| ProductRules.Owned | DockerProject/Controllers/ProductsController.cs:65-70 | exactly the restaurants the user owns (membership both ways) |
| ProductRules.RestaurantChoices | DockerProject/Controllers/ProductsController.cs:121-126 | every restaurant for an admin; exactly the user's own for anyone else |
| ProductRules.OwnedConcat | DockerProject/Controllers/ProductsController.cs:65-70 | the filter keeps table order |
| ProductRules.UploadPath | DockerProject/Controllers/ProductsController.cs:100-108 | the stored path starts with "/images/" and ends with the client's file name |
| ProductRules.Lookup | DockerProject/Controllers/ProductsController.cs:43-57 | found exactly when an id is given and its row exists, and then it is that row |
| ProductRules.EditForm | DockerProject/Controllers/ProductsController.cs:134-162 | NotFound without an id or row; Forbid exactly when the user is neither admin nor owner of the product's restaurant; otherwise the form with the user's restaurant choices |
| ProductRules.Create | DockerProject/Controllers/ProductsController.cs:81-131 | a non-admin not owning the target restaurant gets Forbid and no change; an allowed but invalid form is shown again with the user's restaurant choices and no change; Ok exactly when allowed and the form passes the [Required]/[Range] checks of DockerProject/Models/Product.cs; the new row carries the form's fields under the next id, with the upload's path when a file came; earlier rows and other tables are unchanged |
| ProductRules.Edit | DockerProject/Controllers/ProductsController.cs:167-220 | NotFound exactly when the route id differs from the form's, or a valid form with a file names a missing row other than 0; an invalid form is shown again with the choices; Ok exactly when ids agree, the form is valid and the row exists or the id is 0 with a file; for a non-zero id the row is replaced by the form keeping the stored image path unless a file came; for id 0 (the key's default) the update inserts the form as a new row under the next identity value; a missing row without a file faults; only the Products table and its identity change |
| ProductRules.DeleteConfirmed | DockerProject/Controllers/ProductsController.cs:240-249 | the row is gone, every other row is kept, and a missing id changes nothing |
| ProductRules.EditPostSkipsOwnerCheck | DockerProject/Controllers/ProductsController.cs:134-220 | a user the edit page forbids can still post a valid edit of that product and have it saved |
| ProductRules.CreateUsesFreshId | DockerProject/Controllers/ProductsController.cs:113-118 | a created product's id is used by no stored row, and the table grows by one |
| ProductRules.DeleteIdempotent | DockerProject/Controllers/ProductsController.cs:240-249 | confirming the same deletion twice leaves what the first left |
| Products.ProductsController.Create | DockerProject/Controllers/ProductsController.cs:81-131 | the database ends as `ProductRules.Create` describes and stays consistent |
| Products.ProductsController.Edit | DockerProject/Controllers/ProductsController.cs:167-220 | the database ends as `ProductRules.Edit` describes and stays consistent |
| Products.ProductsController.DeleteConfirmed | DockerProject/Controllers/ProductsController.cs:240-249 | the database ends as `ProductRules.DeleteConfirmed` describes and stays consistent |
| Restaurants.MaxId | DockerProject/Controllers/RestaurantsController.cs:62-63 | an upper bound of every id in a non-empty list, attained by one of them |
| Restaurants.NextId | DockerProject/Controllers/RestaurantsController.cs:62-63 | one more than an id in the list and larger than every id, i.e. the largest id plus one; 1 for an empty list |
| Restaurants.Registered | DockerProject/Controllers/RestaurantsController.cs:62-67 | the stored restaurant has the next id and an empty product list, with the posted name, owner and approval |
| Restaurants.CreateKeepsDistinct | DockerProject/Controllers/RestaurantsController.cs:62-67 | Create keeps the ids of the list distinct |
| Restaurants.Seed | DockerProject/Controllers/RestaurantsController.cs:10-35 | the list starts with two restaurants with distinct ids |
| Restaurants.RestaurantsController.Details | DockerProject/Controllers/RestaurantsController.cs:42-52 | the first restaurant with that id, or none exactly when no restaurant has it |
| Restaurants.RestaurantsController.Create | DockerProject/Controllers/RestaurantsController.cs:60-70 | exactly one restaurant is appended at the end, earlier entries stay, and ids stay distinct |
| Model.RestaurantIndex | DockerProject/Controllers/RestaurantsController.cs:44 | the index of the first restaurant with that id, or none when no restaurant has it |
| ChatService.Shown | DockerProject/Services/AIChatService.cs:177 | the first ten reviews in order, or all of them when there are fewer |
| ChatService.OnlyFirstTenReviews | DockerProject/Services/AIChatService.cs:177-179 | reviews after the tenth do not change the prompt |
| ChatService.PromptHasProductBlock | DockerProject/Services/AIChatService.cs:165-172 | the product block always follows the rules in the prompt |
| ChatService.StockLineSaysYes | DockerProject/Services/AIChatService.cs:171 | the stock line says "Yes" exactly when the product is in stock |
| ChatService.ReviewsSectionOnlyWithReviews | DockerProject/Services/AIChatService.cs:174-182 | the "CUSTOMER REVIEWS" header follows the product block exactly when the review list is present and non-empty |
| ChatService.PromptEndsWithFaq | DockerProject/Services/AIChatService.cs:184-185 | the prompt ends with the FAQ header line followed by the FAQ text |
| ChatService.AppendReviewLines | DockerProject/Services/AIChatService.cs:177-180 | the loop appends exactly one `- "<text>"` line per review, in order |
| ChatService.AIChatService.constructor | DockerProject/Services/AIChatService.cs:14-48 | the key is the configured value or "", the FAQ text is the file's or "{}", the rules are the fixed text |
| ChatService.AIChatService.BuildSystemPrompt | DockerProject/Services/AIChatService.cs:146-188 | the prompt is the rules, the product block, the reviews section when there are reviews, then the FAQ block |
| ChatService.AIChatService.GetResponse | DockerProject/Services/AIChatService.cs:50-74 | an empty key answers at once with Success = false and the fixed message; otherwise the text sent is the prompt followed by the user's question |
| ChatRules.CategoryIndex | DockerProject/Controllers/AIChatController.cs:37 | the index of the first category with that id, or none when there is none |
| ChatRules.ReviewTexts | DockerProject/Controllers/AIChatController.cs:61 | no text shown is empty, and there are no more texts than reviews |
| ChatRules.ReviewTextsMembers | DockerProject/Controllers/AIChatController.cs:61 | a text is shown exactly when it is non-empty and some review of that product carries it |
| ChatRules.ReviewTextsAppend | DockerProject/Controllers/AIChatController.cs:61 | the projection keeps table order |
| ChatRules.ReviewTextsIgnore | DockerProject/Controllers/AIChatController.cs:61 | a review of another product, or without text, adds nothing |
| ChatRules.ContextOf | DockerProject/Controllers/AIChatController.cs:52-62 | the product's own fields; the category or "Uncategorized"; the restaurant or "Unknown Restaurant"; InStock exactly when stock > 0, StockCount = stock; the product's review texts |
| ChatRules.ContextIgnoresOtherReviews | DockerProject/Controllers/AIChatController.cs:52-62 | a new review of another product leaves a product's context unchanged |
| ChatRules.Ask | DockerProject/Controllers/AIChatController.cs:24-62 | BadRequest with Success = false exactly when the message is null, empty or white space, whatever the product; NotFound with Success = false exactly for a valid message and an unknown product; otherwise the message goes on with the product's context |
| ChatRules.ForwardedMessageNotBlank | DockerProject/Controllers/AIChatController.cs:26-33 | a forwarded question has a character that is not white space |
| ChatRules.AskIgnoresOtherReviews | DockerProject/Controllers/AIChatController.cs:36-62 | a new review of another product does not change what Ask does |
| Chat.AIChatController.Ask | DockerProject/Controllers/AIChatController.cs:24-68 | the two rejections as `ChatRules.Ask` decides them; otherwise Ok with the service's answer for the product's context |

## Left out

- File upload I/O: the GUID, the file stream and the directory. `ProductRules.Upload` carries the
  GUID and the file name, and only the stored path is modelled.
- The Gemini HTTP call, the JSON request and response, reading the config and FAQ files, and
  logging. The constructor takes the configured key and the FAQ text as parameters. `GetResponse`
  stops at the text it would send. A config file without the `GoogleAI.ApiKey` property throws,
  and that path is not modelled.
- `{Price:C}` currency formatting depends on the culture. The prompt takes the price text as a
  parameter, and the controller takes the format as a function.
- Double prices are whole cents. The [Range(0.01, 10000)] price check becomes 1..1,000,000 cents.
  The double-valued totals of the cart page and OrderSuccess (`TotalPrice`) are display only and
  not modelled.
- `DateTime.Now` order dates are not modelled.
- The order of EF's `Include` collections is not modelled; reviews are taken in table order.
- Foreign-key and cascade rules of the database are not modelled. DeleteConfirmed removes only
  the product row.
- Concurrency is not modelled: every action runs alone, with no transaction across requests.
- The Index views, redirect targets and view bags are not modelled. An outcome stands for the
  redirect and its notice.
- Integer overflow of quantities and stock is not modelled (C# `int` is 32 bits; here it is
  unbounded).
- StringBuilder.AppendLine is modelled as appending "\n", the line end of the Linux container.
- Chat.AIChatController.Ask: does not return the model's reply for a sent prompt, because that
  comes from the network; it returns what would be sent.
- `DockerProject/Models/Product.cs` declares only Id, Title, Price, Stock and RestaurantId. The
  controllers also use Description, ImagePath, CategoryId and Reviews, and the model follows the
  controllers.
- Edit GET refuses anyone who is neither admin nor owner of the product's restaurant
  (`DockerProject/Controllers/ProductsController.cs:145-149`), but Edit POST
  (`DockerProject/Controllers/ProductsController.cs:167-220`) has no such check. The model follows
  the code (`ProductRules.EditPostSkipsOwnerCheck`).
- DeleteConfirmed (`DockerProject/Controllers/ProductsController.cs:240-249`) needs only a
  signed-in user (the class-level `[Authorize]` at line 17). It lacks the admin-or-owner check of
  Edit GET (lines 145-149), and the model follows the code. Signing in is not modelled.
- AddToCart and MoveToCart do not check the sign of `quantity`. A negative quantity is accepted
  as written and lowers the line's quantity.
- A user's cart lines are taken in table order. The source's query has no ORDER BY, so the
  database picks the order; that order decides which short line Checkout reports and the order
  of the order items.
- `Order.Total` (`DockerProject/Models/Order.cs:8`) is never set by Checkout; the model has no
  such field.
- The `quantity = 1` default of AddToCart and MoveToCart is model binding; the model always takes
  the quantity as a parameter.
- ProductRules.Create: always stores the new row under the next identity value. The source binds
  `Id` from the posted form or route (`DockerProject/Controllers/ProductsController.cs:81` has no
  `[Bind]`), and a non-zero posted Id would be inserted as an explicit key or make SaveChanges
  throw. Explicit keys are not modelled.
