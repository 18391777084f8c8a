# TechStore storefront core in Dafny

TechStore is a mock electronics shop written as a React single-page application.
It has a catalog with search, categories, sorting and pages of eight. Each product
page has a quantity stepper, a stock notice and customer reviews. The shop also has
a cart and a wishlist, sign-in and registration against an in-memory user table,
a two-step checkout (shipping address, then payment), order history with sample
orders, and form validation rules.

This project models the logic under the user interface and proves what that logic
promises:

- the cart and the wishlist as objects whose item lists are replaced step by step;
- the review, order and user tables as objects that append records and update one
  record in place;
- the validation rules, both as issue lists in the order the schemas report them and
  as explicit predicates over strings, with a proof that the two agree;
- the checkout page's field formatters, error map and two-step state machine;
- the review form, the rating distribution, the product page stepper, the pagination
  window, and the catalog's filter, sort and page cut;
- the session, which keeps the signed-in user without a password and empties the cart
  and the wishlist on logout.

The model uses these conventions:

- Money is in integer cents: free shipping from 10000, shipping otherwise 999. Tax is
  the real `0.08 * subtotal`.
- Ratings are whole stars. A product's rating is in tenths of a star.
- Timestamps are integer milliseconds.
- Simulated failures (the 5%, 10% and 15% random failures and the auth "chaos" switch)
  are a boolean parameter `fails`.
- Generated ids and the clock are parameters supplied by the caller.
- The browser stores (local and session storage) are fields in memory.

Modules, one per source file or shared concept:

- `Common`: Option, Result, Product, and JavaScript's `slice`.
- `Text`: character classes, trimming, digit filtering, ASCII lower case, split/join.
- `RegexModel`: the regular expressions the schemas use, as a small matcher.
- `Sorting`: the stable sort `Array.prototype.sort` performs.
- `Pricing`: the free-shipping rule, written once.
- `Cart`, `Wishlist`, `Reviews`, `Orders`, `Users`, `Auth`: the stores and the session.
- `Validation`: the form schemas.
- `Checkout`, `CartSummary`, `Pagination`, `Catalog`, `ReviewForm`, `ReviewsSection`,
  `ProductDetail`: the pages and components.

### Behaviours surfaced by the proofs

The model reproduces these behaviours of the code as written:

- Adding more of a product already in the cart than its stock allows leaves the cart
  unchanged, yet the call reports success (`Cart.MergeAddExisting`,
  `Cart.CartStore.AddToCart`).
- A product not yet in the cart is appended with any requested quantity. That quantity
  is not checked against the stock (`Cart.MergeAddNew`).
- The sample order ids are shared by every user. After two users are seeded, looking an
  id up finds the first user's order (`Orders.SampleIdsShared`).
- The product page keeps the chosen quantity when the route moves to another product,
  so it can exceed the new product's stock (`ProductDetail.QuantityCarriesOver`).
- Placing an order empties the cart but records no order in the order table
  (`Checkout.CheckoutPage.PlaceOrder`).
- Every "less than N characters" message is shown only above N, so exactly N characters
  are accepted. Through the review form's length-capped inputs, the title's and the
  comment's "less than" messages can never appear (`ReviewForm.CappedInputsNeverTooLong`).

## Model

| member | source | states |
|---|---|---|
| Common.Slice | src/components/products/Pagination.tsx:25 | JavaScript `slice`: within bounds it is the subsequence; reversed bounds give the empty list; never longer than the input |
| Text.DigitsOnly | src/pages/Checkout.tsx:77 | `replace(/\D/g, '')` keeps only digits and never lengthens the text |
| Text.DigitsOnlyOfDigits | src/pages/Checkout.tsx:77 | stripping non-digits leaves an all-digit text as it is |
| Text.DigitsOnlyAppend | src/pages/Checkout.tsx:77 | stripping non-digits distributes over concatenation |
| Text.Take | src/pages/Checkout.tsx:77 | `slice(0, n)` is the prefix of length min(n, length) |
| Text.TrimSpec | src/components/reviews/ReviewForm.tsx:35-46 | `trim()` returns a contiguous piece of its input |
| Text.TrimStartSpec | src/components/reviews/ReviewForm.tsx:35-46 | the leading trim drops exactly a whitespace prefix and leaves no leading whitespace |
| Text.TrimEndSpec | src/components/reviews/ReviewForm.tsx:35-46 | the trailing trim drops exactly a whitespace suffix and leaves no trailing whitespace |
| Text.TrimEnds | src/components/reviews/ReviewForm.tsx:35-46 | a non-empty trimmed text starts and ends with a non-whitespace character |
| Text.ToLower | src/data/users.ts:37-39 | lower-casing preserves length and maps each character independently |
| Text.IndexOf | src/pages/Checkout.tsx:32 | the first position of the character, or the length when it is absent |
| Text.Split | src/pages/Checkout.tsx:32-33 | `split` always yields at least one piece |
| Text.JoinSplit | src/pages/Checkout.tsx:32-33 | joining the pieces of a split with the separator gives the text back |
| Text.SplitPiecesLackSeparator | src/pages/Checkout.tsx:32-33 | no piece of a split contains the separator |
| RegexModel.CatFixed | src/utils/validation.ts:71 | a concatenation whose first part has a fixed length matches exactly when the text splits at that length into matching parts |
| RegexModel.RepMatches | src/utils/validation.ts:83 | `\d{n}` matches exactly the texts of n digits |
| RegexModel.PlusCharMatches | src/utils/validation.ts:27 | `[...]+` matches exactly the non-empty texts whose characters are all in the class |
| RegexModel.CharOccurs | src/utils/validation.ts:16-19 | an unanchored one-character pattern occurs exactly when some character is in its class |
| Validation.Check | src/utils/validation.ts:4-96 | a failing check reports exactly one issue with its field and message; a passing one reports none |
| Validation.EmailIssues | src/utils/validation.ts:4-8 | every email issue is reported under the email field |
| Validation.PasswordIssues | src/utils/validation.ts:11-19 | every password issue is reported under the password field |
| Validation.PasswordAccepts | src/utils/validation.ts:11-19 | a password passes exactly when it has 8 to 128 characters and an upper-case letter, a lower-case letter, a digit and one of the listed special characters |
| Validation.NameAccepts | src/utils/validation.ts:22-27 | a name passes exactly when it has 2 to 100 characters, each a letter, whitespace, `-` or `'` |
| Validation.LoginAccepts | src/utils/validation.ts:30-33 | login passes exactly when the email passes its rules and the password is non-empty |
| Validation.RegisterAccepts | src/utils/validation.ts:36-44 | registration passes exactly when the name, email and password pass, confirmation is non-empty and equals the password |
| Validation.RegisterMismatch | src/utils/validation.ts:41-44 | differing passwords always report "Passwords do not match" on `confirmPassword` |
| Validation.ZipPatternAccepts | src/utils/validation.ts:68-71 | the ZIP pattern accepts exactly 5 digits, or 5 digits, `-` and 4 digits |
| Validation.PhonePatternAccepts | src/utils/validation.ts:72-75 | the phone pattern accepts exactly 10 digits, or `ddd-ddd-dddd` |
| Validation.CardPatternAccepts | src/utils/validation.ts:80-83 | the card pattern accepts exactly 16 digits |
| Validation.ExpiryPatternAccepts | src/utils/validation.ts:84-87 | the expiry pattern accepts exactly `MM/YY` with MM from 01 to 12 |
| Validation.CvvPatternAccepts | src/utils/validation.ts:88-91 | the CVV pattern accepts exactly 3 or 4 digits |
| Validation.ShippingAccepts | src/utils/validation.ts:47-76 | the address passes exactly when each text field is non-empty and within 50/50/200/100/50 characters and the ZIP code and phone are valid |
| Validation.PaymentAccepts | src/utils/validation.ts:79-96 | card details pass exactly when the number, expiry and CVV are valid and the name on card has 1 to 100 characters |
| Pricing.Tax | src/contexts/CartContext.tsx:48 | the tax of a positive subtotal is strictly between 0 and the subtotal; no subtotal, no tax |
| Pricing.Shipping | src/contexts/CartContext.tsx:47 | shipping is 0 exactly from 100 dollars, otherwise 9.99 |
| Pricing.Total | src/contexts/CartContext.tsx:48-49 | the total is never below a non-negative subtotal |
| Pricing.TotalCases | src/contexts/CartContext.tsx:47-49 | the total is 1.08 times the subtotal, plus 9.99 below the threshold |
| Pricing.TotalDropsAtThreshold | src/contexts/CartContext.tsx:47-49 | reaching 100 dollars lowers the total |
| Pricing.AmountToFreeShipping | src/components/cart/CartSummary.tsx:20 | the missing amount plus the subtotal is 100 dollars, and it is positive exactly when shipping is charged |
| Cart.FirstIndex | src/contexts/CartContext.tsx:69 | the index of the first line with the id, or the length |
| Cart.SetQuantity | src/contexts/CartContext.tsx:76-80 | lines with the id get the quantity; all other lines and all products stay |
| Cart.MergeAdd | src/contexts/CartContext.tsx:68-84 | a present product keeps the line count, an absent one is appended with the quantity; the product is then in the cart (the rest in MergeAddExisting and MergeAddNew) |
| Cart.UpdateQuantity | src/contexts/CartContext.tsx:94-105 | below 1 nothing changes; otherwise lines with the id get min(quantity, stored stock) and every other line stays |
| Cart.Remove | src/contexts/CartContext.tsx:90-92 | exactly the lines with the id are dropped |
| Cart.MergeAddExisting | src/contexts/CartContext.tsx:69-81 | for a product in the cart, only its line changes, to the sum, when the sum fits the stock; otherwise the cart is unchanged |
| Cart.MergeAddNew | src/contexts/CartContext.tsx:83 | a new product is appended with the requested quantity, unchecked against stock |
| Cart.MergeAddCount | src/contexts/CartContext.tsx:43-84 | an accepted add raises the item count by the quantity and the subtotal by price times quantity; a refused one changes nothing |
| Cart.MergeAddUnique | src/contexts/CartContext.tsx:68-84 | adding keeps product ids unique, and the product is then in the cart |
| Cart.UpdateQuantityUnique | src/contexts/CartContext.tsx:94-105 | updating keeps product ids unique |
| Cart.RemoveUnique | src/contexts/CartContext.tsx:90-92 | removing keeps product ids unique |
| Cart.RemoveAbsent | src/contexts/CartContext.tsx:90-92 | removing an absent id changes nothing |
| Cart.RemoveAppend | src/contexts/CartContext.tsx:90-92 | removal keeps the remaining lines in order |
| Cart.RemoveCount | src/contexts/CartContext.tsx:90-92 | removing a product lowers the item count by its quantity |
| Cart.ItemCount | src/contexts/CartContext.tsx:43 | the item count of lines with non-negative quantities is non-negative (additivity in ItemCountAppend) |
| Cart.Subtotal | src/contexts/CartContext.tsx:44-45 | the subtotal of lines with non-negative prices and quantities is non-negative (additivity in ItemCountAppend) |
| Cart.ItemCountAppend | src/contexts/CartContext.tsx:43-45 | item count and subtotal add up over concatenation |
| Cart.ItemCountUpdate | src/contexts/CartContext.tsx:43-45 | changing one line's quantity changes the count and subtotal by the difference |
| Cart.CartStore.AddToCart | src/contexts/CartContext.tsx:51-88 | a simulated failure and stock 0 give their errors and leave the cart; otherwise success with the merged list |
| Cart.CartStore.constructor | src/contexts/CartContext.tsx:32-36 | with nothing stored the cart starts empty and not loading |
| Cart.CartStore.RemoveFromCart | src/contexts/CartContext.tsx:90-92 | the new list is the old one without the id's lines |
| Cart.CartStore.UpdateItemQuantity | src/contexts/CartContext.tsx:94-106 | the new list is the clamped update of the old one |
| Cart.CartStore.ClearCart | src/contexts/CartContext.tsx:108-110 | the cart is empty, with item count and subtotal 0 |
| Cart.CartStore.Count | src/contexts/CartContext.tsx:43 | the store's `itemCount` is the item count of its lines, 0 when empty |
| Cart.CartStore.Total | src/contexts/CartContext.tsx:44-49 | the store's `total` is the shared total of its subtotal, never below a non-negative subtotal |
| Wishlist.Remove | src/contexts/WishlistContext.tsx:46-48 | exactly the products with the id are dropped |
| Wishlist.ContainsIff | src/contexts/WishlistContext.tsx:50-52 | `isInWishlist` holds exactly when some product has the id |
| Wishlist.Add | src/contexts/WishlistContext.tsx:37-44 | the list only grows, by at most one product, and then holds the id |
| Wishlist.AddSpec | src/contexts/WishlistContext.tsx:37-44 | a present id leaves the list; otherwise the product is appended; ids stay unique |
| Wishlist.AddIdempotent | src/contexts/WishlistContext.tsx:37-44 | adding twice is adding once |
| Wishlist.RemoveAppend | src/contexts/WishlistContext.tsx:46-48 | removal keeps the other products in order |
| Wishlist.RemoveAbsent | src/contexts/WishlistContext.tsx:46-48 | removing an absent id changes nothing |
| Wishlist.RemoveSpec | src/contexts/WishlistContext.tsx:46-52 | after removal the id is absent and ids stay unique |
| Wishlist.Toggle | src/contexts/WishlistContext.tsx:54-60 | a present product is removed, with the id then absent; an absent one is appended |
| Wishlist.ToggleFlips | src/contexts/WishlistContext.tsx:54-60 | toggling flips membership and keeps ids unique |
| Wishlist.ToggleTwiceAbsent | src/contexts/WishlistContext.tsx:54-60 | toggling an absent product twice restores the list |
| Wishlist.ToggleTwicePresent | src/contexts/WishlistContext.tsx:54-60 | toggling a present product twice moves it to the end |
| Wishlist.WishlistStore.ItemCount | src/contexts/WishlistContext.tsx:75 | the count is the list length |
| Wishlist.WishlistStore.AddToWishlist | src/contexts/WishlistContext.tsx:37-44 | the new list is the idempotent add, and the product is then in it |
| Wishlist.WishlistStore.RemoveFromWishlist | src/contexts/WishlistContext.tsx:46-48 | the new list lacks the id |
| Wishlist.WishlistStore.ToggleWishlist | src/contexts/WishlistContext.tsx:54-60 | membership flips |
| Wishlist.WishlistStore.ClearWishlist | src/contexts/WishlistContext.tsx:62-64 | the list is empty and the count 0 |
| Wishlist.WishlistStore.constructor | src/contexts/WishlistContext.tsx:22-31 | with nothing stored the wishlist starts empty |
| Sorting.InsertSorted | src/pages/Index.tsx:44-58 | inserting into a sorted list keeps it sorted and adds exactly the element |
| Sorting.SortSorted | src/pages/Index.tsx:44-58 | the sort's result is ordered by key and a permutation of the input |
| Sorting.SortStable | src/pages/Index.tsx:44-58 | elements with equal keys keep their relative order |
| Sorting.SortOfSorted | src/pages/Index.tsx:44-58 | an already sorted list is left as it is |
| Reviews.ForProduct | src/data/reviews.ts:94-95 | exactly the reviews of the product |
| Reviews.ByProduct | src/data/reviews.ts:92-97 | the query has as many reviews as the product has (order and content in ByProductSpec) |
| Reviews.ByProductSpec | src/data/reviews.ts:92-97 | the query holds exactly the product's reviews, newest first, equal timestamps in storage order |
| Reviews.FindIndex | src/data/reviews.ts:114 | the first index with the id, or -1 |
| Reviews.AddedIsFound | src/data/reviews.ts:99-124 | after adding, the user has reviewed the product and the review is in its query |
| Reviews.MarkHelpful | src/data/reviews.ts:112-119 | the table keeps its length; the flag is true exactly when some review has the id; without one the table is unchanged |
| Reviews.MarkHelpfulSpec | src/data/reviews.ts:112-119 | an unknown id changes nothing and gives false; otherwise only the first match's counter rises by one |
| Reviews.HasReviewedInQuery | src/data/reviews.ts:121-124 | a user has reviewed a product exactly when one of the reviews listed for that product is theirs |
| Reviews.AverageRating | src/data/reviews.ts:126-131 | the count is the number of the product's reviews; no reviews give average 0 |
| Reviews.AverageBounds | src/data/reviews.ts:126-131 | the average lies between any bounds of the product's ratings |
| Reviews.SumBounds | src/data/reviews.ts:129 | the rating sum lies between count times the bounds |
| Reviews.SeedFacts | src/data/reviews.ts:16-72 | five seed reviews with distinct ids and ratings from 1 to 5 |
| Reviews.ReviewStore.GetReviews | src/data/reviews.ts:74-90 | an empty slot is seeded with exactly the five seed reviews; a stored list is returned as it is |
| Reviews.ReviewStore.GetReviewsByProductId | src/data/reviews.ts:92-97 | the product's reviews, newest first |
| Reviews.ReviewStore.AddReview | src/data/reviews.ts:99-110 | exactly one review with the given fields and 0 helpful votes is appended |
| Reviews.ReviewStore.MarkReviewHelpful | src/data/reviews.ts:112-119 | the store becomes the one-record update |
| Reviews.ReviewStore.HasUserReviewedProduct | src/data/reviews.ts:121-124 | true exactly when a review of the product by the user exists |
| Reviews.ReviewStore.GetAverageRating | src/data/reviews.ts:126-131 | the result is the average over the product's query |
| Reviews.ReviewStore.constructor | src/data/reviews.ts:74-86 | nothing is stored yet, and the seed timestamps are taken from the load time |
| Orders.ByUser | src/data/orders.ts:37-40 | exactly the user's orders |
| Orders.ByUserAppend | src/data/orders.ts:37-40 | the user filter keeps storage order |
| Orders.FindIndex | src/data/orders.ts:62 | the first index with the id, or -1 |
| Orders.ById | src/data/orders.ts:42-45 | none exactly when no order has the id; otherwise the first order with the id, as `find` returns |
| Orders.CreateThenByUser | src/data/orders.ts:47-57 | a new order appears last among its user's orders and nowhere else |
| Orders.UpdateStatus | src/data/orders.ts:60-67 | the table keeps its length; the flag is true exactly when some order has the id; without one the table is unchanged |
| Orders.UpdateStatusSpec | src/data/orders.ts:60-67 | an unknown id changes nothing and gives false; otherwise only the first match's status changes |
| Orders.SampleOrdersConsistent | src/data/orders.ts:74-162 | each sample item's price is unit price times quantity and each total is the items' sum, for the seeded user |
| Orders.Seed | src/data/orders.ts:70-166 | a user who already has orders gets nothing; otherwise the two sample orders are appended after the stored ones |
| Orders.SeedIdempotent | src/data/orders.ts:70-166 | seeding leaves the user with orders, and seeding twice is seeding once |
| Orders.SeedAppendsSamples | src/data/orders.ts:70-166 | a user without orders, once seeded, has exactly the two sample orders in their listed order; other users' orders are unchanged |
| Orders.SampleIdsShared | src/data/orders.ts:74-112 | two seeded users share sample ids, and lookup finds the first user's order |
| Orders.OrderStore.CreateOrder | src/data/orders.ts:47-57 | exactly one pending order with the caller's fields is appended |
| Orders.OrderStore.UpdateOrderStatus | src/data/orders.ts:60-67 | the store becomes the first-match status update |
| Orders.OrderStore.SeedSampleOrders | src/data/orders.ts:70-166 | the store becomes the seeded table; the user then has orders, and a user who had none has exactly the two sample orders |
| Orders.OrderStore.constructor | src/data/orders.ts:28-35 | with nothing stored the table is empty |
| Orders.OrderStore.GetOrdersByUserId | src/data/orders.ts:37-40 | exactly the stored orders of the user, in storage order and with their multiplicity (the filter ByUser over the table) |
| Orders.OrderStore.GetOrderById | src/data/orders.ts:42-45 | none exactly when no stored order has the id; otherwise the first stored order with it, as `find` returns |
| Users.EmailIndex | src/data/users.ts:37-39 | the first account whose email matches ignoring case, or the length |
| Users.FindByEmail | src/data/users.ts:37-39 | none exactly when no email matches ignoring case; otherwise the first matching account, as `find` returns |
| Users.ValidateLogin | src/data/users.ts:41-53 | a success is the account with that email and exactly that password; a failure carries one of the two login messages |
| Users.ValidateLoginSpec | src/data/users.ts:41-53 | unknown email, wrong password (compared exactly) and success, each with its message |
| Users.Register | src/data/users.ts:55-73 | registration succeeds exactly for a free email; a refusal keeps the table with "already registered", a success appends the new account |
| Users.RegisterSpec | src/data/users.ts:55-73 | a taken email is refused with the table unchanged; otherwise exactly one account is appended |
| Users.RegisterThenLogin | src/data/users.ts:41-73 | after registering, the same email and password log in as the new account |
| Users.RegisterKeepsUnique | src/data/users.ts:55-73 | registration keeps emails unique ignoring case |
| Users.SeedEmailsUnique | src/data/users.ts:10-32 | the seed emails are unique ignoring case |
| Users.UserStore.RegisterUser | src/data/users.ts:55-73 | the table and result are those of the registration function; emails stay unique |
| Users.UserStore.ResetUsers | src/data/users.ts:75-77 | the table is exactly the seed accounts |
| Users.UserStore.constructor | src/data/users.ts:10-32 | the table starts as the seed accounts, emails unique |
| Users.UserStore.FindUserByEmail | src/data/users.ts:37-39 | none exactly when no account matches ignoring case; otherwise the first matching account, as `find` returns |
| Users.UserStore.Login | src/data/users.ts:41-53 | an unknown email gives "No account found", a wrong password "Incorrect password", the right password the first matching account |
| Auth.WithoutPassword | src/contexts/AuthContext.tsx:49-80 | the kept copy has an empty password and differs from the account only there |
| Auth.Session.IsAuthenticated | src/contexts/AuthContext.tsx:100 | authenticated exactly when a user is signed in |
| Auth.Session.Login | src/contexts/AuthContext.tsx:32-56 | a chaos failure gives the server error and keeps the user; otherwise the result is the login check's, a success signs in the account without its password, a failure keeps the user |
| Auth.Session.Register | src/contexts/AuthContext.tsx:58-87 | as login, with the table updated by registration |
| Auth.Session.Logout | src/contexts/AuthContext.tsx:89-94 | no user is signed in, and the cart and the wishlist are empty |
| Auth.Session.constructor | src/contexts/AuthContext.tsx:24-28 | with nothing stored no user is signed in and no password is kept |
| Pagination.Pages | src/components/products/Pagination.tsx:18 | the pages 1 to n |
| Pagination.Navigator | src/components/products/Pagination.tsx:16-97 | nothing is shown exactly for at most one page; previous and next are disabled exactly on the first and last page |
| Pagination.FewPages | src/components/products/Pagination.tsx:18-21 | up to five pages, all are shown and no end button appears |
| Pagination.Window | src/components/products/Pagination.tsx:22-26 | beyond five pages, the consecutive pages from max(1, c-2) to min(T, start+4): at most five, including c |
| Pagination.EndButtons | src/components/products/Pagination.tsx:44-86 | the first button shows above page 1, its ellipsis above 2; the last button shows below T, its ellipsis below T-1 |
| Pagination.EmptyWindow | src/components/products/Pagination.tsx:22-26 | a current page three past the end leaves no numbered button |
| Pagination.PrevNext | src/components/products/Pagination.tsx:33-97 | on a page in range, an enabled previous button leads to an earlier existing page and an enabled next button to a later one |
| Catalog.MatchingSearch | src/pages/Index.tsx:36-41 | exactly the products whose id is among the search results |
| Catalog.MatchingSearchAppend | src/pages/Index.tsx:38-40 | the search filter keeps the order |
| Catalog.SortProducts | src/pages/Index.tsx:43-60 | the sort keeps the number of products (the orders in SortProductsSpec) |
| Catalog.Filtered | src/pages/Index.tsx:27-61 | a blank query keeps every product of the category (the rest in FilteredSpec) |
| Catalog.PageItems | src/pages/Index.tsx:65-68 | a page holds at most eight products (the rest in PageItemsSpec) |
| Catalog.SortProductsSpec | src/pages/Index.tsx:43-60 | price-low ascending, price-high and rating descending, default unchanged, always a permutation |
| Catalog.FilteredSpec | src/pages/Index.tsx:27-61 | a blank query keeps the category's products; otherwise exactly those found by the search |
| Catalog.TotalPages | src/pages/Index.tsx:64 | the ceiling of the count over 8 |
| Catalog.PageItemsSpec | src/pages/Index.tsx:65-68 | page p shows items (p-1)*8 to p*8, at most eight, non-empty exactly up to the last page |
| Catalog.ShopPage.constructor | src/pages/Index.tsx:11-15 | the page starts with an empty query, category All, the default sort, page 1 and range 0 to 1000 |
| Catalog.ShopPage.SetSearchQuery | src/pages/Index.tsx:11-73 | a different query resets the page to 1 |
| Catalog.ShopPage.SetCategory | src/pages/Index.tsx:12-73 | a different category resets the page to 1 |
| Catalog.ShopPage.SetSortBy | src/pages/Index.tsx:14-73 | a different sort resets the page to 1 |
| Catalog.ShopPage.SetPriceRange | src/pages/Index.tsx:13 | the price range changes neither the page nor the inputs of the list |
| Catalog.ShopPage.SetCurrentPage | src/pages/Index.tsx:132 | only the current page changes |
| CartSummary.CheckoutTarget | src/components/cart/CartSummary.tsx:22-28 | a signed-in user goes to `/checkout`, a guest to `/auth?mode=login&redirect=/checkout` |
| CartSummary.ProgressBounds | src/components/cart/CartSummary.tsx:20-52 | while the progress message shows, the missing amount is positive and the bar strictly between 0 and 100 |
| CartSummary.OneShippingMessage | src/components/cart/CartSummary.tsx:38-59 | with a positive subtotal exactly one shipping message shows; with 0, neither |
| CartSummary.SummaryShipping | src/components/cart/CartSummary.tsx:17-19 | shipping is 0 exactly from 100 dollars, else 9.99, by the shared rule; the total is read off the view's definition |
| CartSummary.ButtonAndPrompt | src/components/cart/CartSummary.tsx:109-116 | a shown login prompt comes with an enabled "Login to Checkout" button that leads to the login route; a signed-in user never sees the prompt; an enabled button for a guest always shows it |
| Checkout.DigitFormatters | src/pages/Checkout.tsx:76-91 | card number and CVV keep the leading digits in order, at most 16 and 4, and are idempotent |
| Checkout.ExpiryFormatter | src/pages/Checkout.tsx:81-86 | at most four digits with `/` after two once there are two; at most five characters; idempotent |
| Checkout.FullExpiryShape | src/pages/Checkout.tsx:81-86 | four digits are formatted as `dd/dd` |
| Checkout.FirstName | src/pages/Checkout.tsx:32 | the first name is a prefix of the name |
| Checkout.LastName | src/pages/Checkout.tsx:33 | a name without a space has an empty last name |
| Checkout.NameSplit | src/pages/Checkout.tsx:32-33 | the first name has no space; with a space, first, space and last give the name back; without one, the last name is empty |
| Checkout.FieldErrorsSpec | src/pages/Checkout.tsx:105-109 | a field has an error exactly when an issue names it, and the message is the last such issue's |
| Checkout.CollectErrors | src/pages/Checkout.tsx:105-109 | the loop builds that error map |
| Checkout.Redirect | src/pages/Checkout.tsx:48-56 | a guest is sent to the login route, a signed-in user with no cart lines to `/cart`; the page stays exactly for a signed-in user with lines |
| Checkout.FormatCardNumber | src/pages/Checkout.tsx:76-78 | only digits, at most 16 (the rest in DigitFormatters) |
| Checkout.FormatCvv | src/pages/Checkout.tsx:89-91 | only digits, at most 4 (the rest in DigitFormatters) |
| Checkout.FormatExpiry | src/pages/Checkout.tsx:81-86 | at most five characters (the rest in ExpiryFormatter) |
| Checkout.CheckoutPage.constructor | src/pages/Checkout.tsx:25-46 | the page starts on the shipping step with card payment, no errors, empty payment fields and the address prefilled from the user's first and last name |
| Checkout.CheckoutPage.HandleShippingChange | src/pages/Checkout.tsx:64-70 | the field is set and a non-empty error on it is blanked; the submitting flag and the server error are kept |
| Checkout.CheckoutPage.HandlePaymentChange | src/pages/Checkout.tsx:72-100 | the formatted value is stored and a non-empty error on it is blanked; the submitting flag and the server error are kept |
| Checkout.CheckoutPage.ValidateShipping | src/pages/Checkout.tsx:102-115 | passes exactly when the address has no issues; errors become the issue map; the submitting flag and the server error are kept |
| Checkout.CheckoutPage.ValidatePayment | src/pages/Checkout.tsx:117-132 | always passes for PayPal and Apple Pay; for cards, exactly when the card details have no issues |
| Checkout.CheckoutPage.ContinueToPayment | src/pages/Checkout.tsx:134-139 | the step moves to payment, with errors cleared, exactly when the address passes; otherwise the errors become its issue map; the payment method, the submitting flag and the server error are kept |
| Checkout.CheckoutPage.BackToShipping | src/pages/Checkout.tsx:484 | the step returns to shipping; the submitting flag and the server error are kept |
| Checkout.CheckoutPage.SetPaymentMethod | src/pages/Checkout.tsx:386 | only the payment method changes; the submitting flag and the server error are kept |
| Checkout.CheckoutPage.PlaceOrder | src/pages/Checkout.tsx:141-179 | for card payment the errors become the card issue map first; invalid details then stop with the cart, the flag and the server error kept; a failure shows its error and keeps the cart; a success empties the cart; step, payment method and the cart's loading flag are kept |
| ReviewForm.FormErrorsSpec | src/components/reviews/ReviewForm.tsx:29-50 | valid exactly with a star, a trimmed title of 3 to 100 and a trimmed comment of 10 to 1000 characters; each message names the missed bound |
| ReviewForm.FormErrors | src/components/reviews/ReviewForm.tsx:29-50 | only the rating, title and comment fields are ever reported (the rest in FormErrorsSpec) |
| ReviewForm.CappedInputsNeverTooLong | src/components/reviews/ReviewForm.tsx:35-46 | within the inputs' length caps only the "at least" messages can appear |
| ReviewForm.PanelFor | src/components/reviews/ReviewForm.tsx:107-134 | guests see the login prompt; signed-in users see the form exactly when they have not reviewed the product |
| ReviewForm.PanelAfterSubmit | src/components/reviews/ReviewForm.tsx:84-132 | after the user's review is stored, the already-reviewed notice replaces the form |
| ReviewForm.ReviewFormState.SetRating | src/components/reviews/ReviewForm.tsx:145-149 | a star click sets only the rating |
| ReviewForm.ReviewFormState.SetTitle | src/components/reviews/ReviewForm.tsx:183-186 | the title keeps at most its first 100 characters; nothing else changes |
| ReviewForm.ReviewFormState.SetComment | src/components/reviews/ReviewForm.tsx:202-205 | the comment keeps at most its first 1000 characters; nothing else changes |
| ReviewForm.ReviewFormState.ValidateForm | src/components/reviews/ReviewForm.tsx:29-50 | errors become the step-by-step error map, and it passes exactly when that map is empty |
| ReviewForm.ReviewFormState.HandleSubmit | src/components/reviews/ReviewForm.tsx:52-105 | a guest changes nothing; an invalid form only shows its errors, the submitting flag kept; a failure leaves the form filled in; a success stores the trimmed title and comment and resets the form |
| ReviewForm.ReviewFormState.constructor | src/components/reviews/ReviewForm.tsx:20-25 | the form starts with no rating, empty title and comment, not submitting and no errors |
| ReviewsSection.CountStar | src/components/reviews/ReviewsSection.tsx:34 | the number of reviews with the star, at most their total |
| ReviewsSection.Distribution | src/components/reviews/ReviewsSection.tsx:32-38 | five buckets for the stars 5, 4, 3, 2, 1 |
| ReviewsSection.CountsCover | src/components/reviews/ReviewsSection.tsx:32-34 | with ratings from 1 to 5, the five counts sum to the number of reviews |
| ReviewsSection.DistributionCounts | src/components/reviews/ReviewsSection.tsx:32-34 | the buckets' counts sum to the number of reviews |
| ReviewsSection.Percentages | src/components/reviews/ReviewsSection.tsx:35-37 | the shares sum to 100 with reviews and are all 0 without |
| ReviewsSection.Average | src/components/reviews/ReviewsSection.tsx:28-30 | 0 without reviews; otherwise the average times the count is the rating sum |
| ReviewsSection.AverageInRange | src/components/reviews/ReviewsSection.tsx:28-30 | the average of ratings from 1 to 5 lies between 1 and 5 |
| ReviewsSection.AverageMatchesStore | src/components/reviews/ReviewsSection.tsx:19-30 | the section's average and count equal the store's `getAverageRating`; both are the same expression, so this is true by definition |
| ReviewsSection.Section.FinishLoading | src/components/reviews/ReviewsSection.tsx:15-22 | the loaded list is the product's query and holds only its reviews; the store is left holding its current table, seeded if it was empty |
| ReviewsSection.Section.constructor | src/components/reviews/ReviewsSection.tsx:12-14 | the section starts loading with no reviews |
| ReviewsSection.Section.StartLoading | src/components/reviews/ReviewsSection.tsx:16-17 | loading restarts and the shown list is kept |
| ProductDetail.StockStatus | src/pages/ProductDetail.tsx:225-233 | out of stock at 0, "only n left" up to 5, in stock above 5 |
| ProductDetail.StepperSpec | src/pages/ProductDetail.tsx:248-265 | within [1, stock] clicks stay within; a button is disabled exactly when its click would not move the quantity |
| ProductDetail.ToggleMessage | src/pages/ProductDetail.tsx:64-67 | the removal message exactly when the product was in the wishlist |
| ProductDetail.QuantityCarriesOver | src/pages/ProductDetail.tsx:20-35 | a quantity chosen on one product can lie outside the range of the next |
| ProductDetail.ProductPage.constructor | src/pages/ProductDetail.tsx:20-23 | the page starts with quantity 1, loading, not adding and no success shown |
| ProductDetail.ProductPage.ChangeProduct | src/pages/ProductDetail.tsx:29-35 | a new id restarts loading and keeps the quantity |
| ProductDetail.ProductPage.FinishLoading | src/pages/ProductDetail.tsx:31-33 | loading ends and product and quantity are kept |
| ProductDetail.ProductPage.Decrease | src/pages/ProductDetail.tsx:248 | the quantity becomes max(1, q-1) and stays in range; the loading, adding and success flags are kept |
| ProductDetail.ProductPage.Increase | src/pages/ProductDetail.tsx:264 | the quantity becomes min(stock, q+1) and stays in range; the loading, adding and success flags are kept |
| ProductDetail.ProductPage.HandleAddToCart | src/pages/ProductDetail.tsx:37-58 | no product or stock 0 does nothing, the cart's loading flag included; otherwise the cart's add, with success shown and the cart no longer loading; product, quantity and page loading flag are kept |
| ProductDetail.ProductPage.HandleToggleWishlist | src/pages/ProductDetail.tsx:60-69 | membership flips, with the message for the state before |

## Left out

- Rendering is not modelled: markup, styles, toasts, and navigation other than the redirect targets. These are views over the modelled state.
- Browser storage is not modelled: JSON encoding, parse failures and their fallbacks, and the session copies of the cart and the current user. Each store is a field in memory. The review store keeps "nothing stored yet" as `None`.
- `Reviews.ReviewStore.GetReviews`: the first write also changes the module's seed array, which the code returns by reference. This aliasing is not modelled, because later reads come from storage.
- Timers, delays and `Math.random` are not modelled. Failures are the `fails` parameter; generated ids and `Date.now()` are parameters.
- Review dates are ISO strings in the code and are compared through `new Date(...)`. They are integer milliseconds here.
- The concurrent double-click on "helpful" in the review list is not modelled, since it depends on interleaving.
- Floating point is not modelled. Money is in exact integer cents and the tax is an exact real. Rounding, `toFixed` and the rounded star display of the average are left out.
- `Reviews.AverageRating`: the average is an exact rational, not a rounded double.
- `Text.ToLower`: lower-cases ASCII letters only. JavaScript's full Unicode case mapping is not modelled.
- Lengths count characters. UTF-16 code units are not modelled.
- `Validation.EmailIssues`: the email syntax check is a parameter (`EmailSyntax`), because its rule belongs to the validation library.
- `validateField` is not modelled; no core operation uses it.
- `RegexModel` covers only the pattern constructs the schemas use.
- `src/data/products.ts` is not part of this model. The product lookup, category and search results are inputs to the catalog and product page.
- The shop page's and reviews section's loading timers are only flags.
- The product page's success-badge timer and the review form's hover stars are not modelled.
- `addToCart`'s default quantity of 1 is not modelled: `Cart.CartStore.AddToCart` always takes the quantity from the caller.
- `Catalog.SortProducts`: the in-place sort of a local copy is modelled as a pure stable sort on values. The copy is never shared, so nothing observable is lost.
- The checkout page's own price breakdown uses the same rule as `Pricing`, so it is not modelled again.
