# Carter storefront: cart, pricing, image URLs, catalogue and blog filters, authentication

This project models in Dafny the client-side logic of the Carter streetwear
storefront (a Next.js front end over a Sanity content store and a Medusa back
end) and proves properties of that model:

- **Cart context** (`CartContext`): the shopping cart held by `CartProvider`.
  It is a list of lines, each with an id, variant, quantity and price. The
  derived item count and money total are reductions over the lines. The
  operations append, remove by id, set the quantity by id (no check on the
  value) and clear.
- **Cart page** (`CartPage`): the cart page works on its own copy of three
  fixed demo lines. Its quantity control refuses values below 1. The page
  also removes lines and computes the order summary: subtotal; shipping,
  which is free strictly above 100 and otherwise a flat 9.99; 8% tax; the
  total; and the amount still missing for free shipping.
- **Image URLs** (`ImageUrl`): `getImageUrl` turns a content-store image into
  a URL. It gives the placeholder when there is no asset. An asset reference
  `id-WxH-format` becomes a CDN URL, and a reference wins over a direct URL.
- **Shop** (`Shop`): the catalogue page filters by search term (title or any
  tag, ignoring case) and by category. It then sorts a copy by price
  (ascending or descending) or by rating, or keeps the fetched order.
- **Blog** (`Blog`): the blog page filters posts by search term (title or
  content). The category buttons play no part in the filter.
- **Authentication** (`Auth`): `AuthProvider` holds the simulated session:
  user, loading flag and signed-in flag. Login and register complete after a
  timer. Logout and profile updates act at once.

`Seqs` (filter, map, the sub-list relation) and `Text` (ASCII lower-casing,
substring search, split on a character and its inverse join) hold the list
and string primitives the six modules share. `Wrappers` holds `Option`.

Conventions:
- JavaScript `number` becomes `int` for quantities and `real` for prices and
  ratings. Prices are exact, so the arithmetic is exact.
- JavaScript truthiness of a string (present and non-empty) is `Text.Truthy`.
- An absent value interpolated into a template string shows as `undefined`.
- Environment variables (the content store's project id and dataset) are
  parameters.
- A delayed callback is an explicit step that the caller performs.
- A React state cell is a class field. A component's derived constants are
  functions of that field.

Three behaviours of the code are worth stating plainly. `getImageUrl` has no
fallback for a malformed reference: missing fields appear as `undefined` in
the URL (`ImageUrl.TwoFieldReference`). The cart page ignores a quantity
below 1 (`CartPage.CartPageState.UpdateQuantity`). The cart context stores
any value (`CartContext.CartProvider.UpdateQuantity`).

## Model

Source paths below are relative to the repository root.

| member | source | states |
|---|---|---|
| CartContext.WithoutCount | frontend/lib/context/cart-context.tsx:42 | removing an id keeps every line with another id as often as it occurs, and no line with that id |
| CartContext.WithoutSpec | frontend/lib/context/cart-context.tsx:41-43 | removing an id keeps exactly the lines with another id, each as often as before, in order; an absent id changes nothing; count and total drop by those of the removed lines |
| CartContext.QuantitySplit | frontend/lib/context/cart-context.tsx:34-35 | count and total of a cart are the sums over the lines with an id and over the others |
| CartContext.WithQuantityCount | frontend/lib/context/cart-context.tsx:45-51 | after setting the quantity of an id to q, the count is that of the other lines plus q times the number of matching lines |
| CartContext.WithQuantityOthers | frontend/lib/context/cart-context.tsx:45-51 | setting the quantity of an id leaves the other lines, and their order, untouched |
| CartContext.WithQuantityMatching | frontend/lib/context/cart-context.tsx:45-51 | the matching lines after the update are the old matching lines with the new quantity |
| CartContext.WithQuantityTotal | frontend/lib/context/cart-context.tsx:35 | the total after an update is that of the untouched lines plus that of the rewritten ones |
| CartContext.WithQuantity | frontend/lib/context/cart-context.tsx:47-49 | same length; each line with the id gets the quantity, every other line is unchanged |
| CartContext.CartProvider.constructor | frontend/lib/context/cart-context.tsx:32 | a new cart is empty, with count 0 and total 0 |
| CartContext.CartProvider.AddItem | frontend/lib/context/cart-context.tsx:37-39 | the line is appended even when its id is present; count and total grow by its quantity and line total |
| CartContext.CartProvider.RemoveItem | frontend/lib/context/cart-context.tsx:41-43 | the lines with the id are dropped, the rest kept; count and total drop by theirs; an unknown id changes nothing |
| CartContext.CartProvider.UpdateQuantity | frontend/lib/context/cart-context.tsx:45-51 | every line with the id takes the quantity, with no check on it; the new count and total in terms of the old |
| CartContext.CartProvider.ClearCart | frontend/lib/context/cart-context.tsx:53-55 | the cart is empty, count and total 0 |
| CartPage.SetQuantity | frontend/app/cart/page.tsx:47-49 | same length; each line with the id gets the quantity, the others are unchanged |
| CartPage.RemoveSpec | frontend/app/cart/page.tsx:55 | removing keeps exactly the lines with another id, each as often as before, in order |
| CartPage.ApplyKeepsQuantities | frontend/app/cart/page.tsx:43-57 | no update or removal makes a quantity drop below 1 |
| CartPage.RunKeepsQuantities | frontend/app/cart/page.tsx:43-57 | from lines of at least one unit, every sequence of actions keeps every line at one unit or more |
| CartPage.ReachableQuantitiesPositive | frontend/app/cart/page.tsx:9-40 | every state reachable from the three initial lines has quantities of at least 1 |
| CartPage.Summarize | frontend/app/cart/page.tsx:59-62 | subtotal is the sum of price times quantity; shipping is 0 exactly when the subtotal exceeds 100, else 9.99; tax is 8% of the subtotal; total is their sum; the free-shipping remainder exists exactly when shipping is charged, is not negative, and brings the subtotal to 100 |
| CartPage.FreeShippingHint | frontend/app/cart/page.tsx:219-222 | the free-shipping hint is shown exactly when the subtotal is at most 100, and names 100 minus the subtotal |
| CartPage.InitialSummary | frontend/app/cart/page.tsx:9-37 | the demo lines give subtotal 289.96, free shipping, tax 23.1968 and total 313.1568 |
| CartPage.SmallOrderSummary | frontend/app/cart/page.tsx:59-62 | a 25.00 order pays 9.99 shipping and 2.00 tax, total 36.99, and lacks 75.00 for free shipping |
| CartPage.ThresholdSummary | frontend/app/cart/page.tsx:60 | exactly 100.00 still pays shipping: the threshold is strict |
| CartPage.CartPageState.constructor | frontend/app/cart/page.tsx:40 | the page starts with the three demo lines, all with at least one unit |
| CartPage.CartPageState.UpdateQuantity | frontend/app/cart/page.tsx:43-51 | a quantity below 1 is refused and changes nothing; otherwise the lines with the id take it; quantities stay at least 1 |
| CartPage.CartPageState.RemoveItem | frontend/app/cart/page.tsx:53-57 | the lines with the id are dropped; quantities stay at least 1 |
| ImageUrl.CdnUrl | frontend/lib/sanity.ts:17-18 | the reference URL starts with the CDN images prefix |
| ImageUrl.GetImageUrl | frontend/lib/sanity.ts:11-27 | the URL is never empty; it is the placeholder, a CDN URL, or the asset's own URL |
| ImageUrl.MissingImageIsPlaceholder | frontend/lib/sanity.ts:12 | no image or no asset gives the placeholder |
| ImageUrl.EmptyAssetIsPlaceholder | frontend/lib/sanity.ts:26 | an asset with neither a truthy reference nor a truthy URL gives the placeholder |
| ImageUrl.DirectUrlVerbatim | frontend/lib/sanity.ts:22-24 | without a reference, the asset's URL is returned verbatim |
| ImageUrl.ReferenceWins | frontend/lib/sanity.ts:15-19 | with a reference, the direct URL is ignored and the CDN URL is returned |
| ImageUrl.WellFormedReference | frontend/lib/sanity.ts:17-18 | a reference of three or more separator-free fields gives prefix, project, dataset, then field0-field1.field2 |
| ImageUrl.ExampleReference | frontend/lib/sanity.ts:17-18 | `abc123-800x600-jpg` in project P1, dataset production, gives `.../P1/production/abc123-800x600.jpg` |
| ImageUrl.TwoFieldReference | frontend/lib/sanity.ts:17-18 | a two-field reference has no fallback: the format shows as `undefined` |
| ImageUrl.SplitTwo | frontend/lib/sanity.ts:17 | two separator-free fields joined by `-` split back into those two |
| ImageUrl.UnsetEnvironment | frontend/lib/sanity.ts:18 | an unset project id and dataset show as `undefined` in the URL |
| Text.Includes | frontend/app/shop/page.tsx:44 | `includes` holds exactly when the needle occurs at some position |
| Text.LowerChar | frontend/app/shop/page.tsx:44 | an ASCII capital becomes the small letter 32 code points above it; every other character is kept |
| Text.Lower | frontend/app/shop/page.tsx:44 | lower-casing keeps the length and lowers each character |
| Text.LowerIdempotent | frontend/app/shop/page.tsx:44 | lower-casing twice is lower-casing once |
| Text.ContainsIgnoringCaseOfLower | frontend/app/shop/page.tsx:44 | lower-casing a text first changes no case-insensitive search in it |
| Text.Split | frontend/lib/sanity.ts:17 | splitting always yields at least one field, and no field contains the separator |
| Text.JoinSplit | frontend/lib/sanity.ts:17 | joining the fields of a split with the separator gives back the string |
| Text.SplitJoin | frontend/lib/sanity.ts:17 | splitting a join of separator-free fields gives back the fields |
| Text.ContainsEmptyTerm | frontend/app/shop/page.tsx:44 | every text contains the empty search term |
| Seqs.FilterIsSubsequence | frontend/app/shop/page.tsx:43 | a filter result is an order-preserving sub-list of its input |
| Seqs.FilterCount | frontend/app/shop/page.tsx:43 | a filter keeps every occurrence of a satisfying element and none of the others |
| Seqs.FilterKeepsAll | frontend/app/shop/page.tsx:43 | filtering by a predicate that every element satisfies is the identity |
| Seqs.Map | frontend/lib/context/cart-context.tsx:47 | a map has the input's length and applies the function elementwise |
| Shop.MatchesSearchMeaning | frontend/app/shop/page.tsx:44-45 | a search matches exactly when the lowered term occurs in the lowered title or in some lowered tag |
| Shop.UntaggedMatchesByTitle | frontend/app/shop/page.tsx:45 | a product without tags can match only through its title |
| Shop.FilteredProductsSpec | frontend/app/shop/page.tsx:43-48 | the filtered list is an ordered sub-list holding every occurrence of each product that matches search and category, and no other |
| Shop.EmptySearchShowsAll | frontend/app/shop/page.tsx:43-48 | an empty search with category `all` lists every product in order |
| Shop.ParseSortBy | frontend/app/shop/page.tsx:52-63 | each of `price-low`, `price-high`, `rating` and `newest` selects its own order, and any other string selects the default |
| Shop.SortPermutation | frontend/app/shop/page.tsx:51 | the sort is a permutation of the filtered list |
| Shop.SortSorted | frontend/app/shop/page.tsx:53-58 | the sort is ascending in the order's key |
| Shop.SortStable | frontend/app/shop/page.tsx:51 | products of equal key keep their relative order (a stable sort) |
| Shop.FeaturedKeepsOrder | frontend/app/shop/page.tsx:61-62 | the default comparator returns 0, so the list keeps its order |
| Shop.SortedProductsSpec | frontend/app/shop/page.tsx:51-64 | for every order but `newest`: a stable permutation, ascending price for price-low, descending price for price-high, descending rating for rating, unchanged for the default; no order for `newest` |
| Shop.InitialView | frontend/app/shop/page.tsx:22-25 | the page's initial controls show every product in the fetched order |
| Blog.FilteredPostsSpec | frontend/app/blog/page.tsx:40-45 | the filtered list is an ordered sub-list holding every occurrence of each post whose title or truthy content contains the term, and no other |
| Blog.ContentlessMatchesByTitle | frontend/app/blog/page.tsx:42 | a post with missing or empty content can match only through its title |
| Blog.ExcerptNotSearched | frontend/app/blog/page.tsx:41-42 | the excerpt plays no part in the search |
| Blog.CategoryIgnored | frontend/app/blog/page.tsx:43-44 | the selected category does not change the list |
| Blog.EmptySearchShowsAll | frontend/app/blog/page.tsx:40-45 | an empty search lists every post in order |
| Blog.UnmatchedSearchShowsNone | frontend/app/blog/page.tsx:40-45 | a term that no post matches empties the list |
| Auth.DemoUser | frontend/lib/context/auth-context.tsx:38 | a login signs in user `1` with the given email and an account |
| Auth.RegisteredUser | frontend/lib/context/auth-context.tsx:53 | registration keeps the supplied id or else uses `1`, copies the supplied fields, and always marks an account |
| Auth.MergeNoChange | frontend/lib/context/auth-context.tsx:61 | an empty patch leaves the user as it is |
| Auth.MergeIdempotent | frontend/lib/context/auth-context.tsx:61 | applying a patch twice is applying it once |
| Auth.MergeFields | frontend/lib/context/auth-context.tsx:61 | supplied fields replace the user's, the others are kept |
| Auth.MergeFull | frontend/lib/context/auth-context.tsx:61 | a patch with all a user's fields gives that user, except that an absent phone cannot clear one |
| Auth.MergeLaterWins | frontend/lib/context/auth-context.tsx:61 | two updates in a row equal one update with the combined patch; on every field the later patch supplies, its value wins |
| Auth.SignedInHasAccount | frontend/lib/context/auth-context.tsx:37-41 | every completed login or registration signs in a user with an account and the email given |
| Auth.AuthProvider.constructor | frontend/lib/context/auth-context.tsx:30-32 | no user, not loading, not signed in |
| Auth.AuthProvider.Login | frontend/lib/context/auth-context.tsx:34-42 | only the loading flag changes at once; the returned timer will sign in the demo user; the password is not checked |
| Auth.AuthProvider.Register | frontend/lib/context/auth-context.tsx:49-57 | only the loading flag changes at once; the returned timer will sign in the registered user |
| Auth.AuthProvider.TimerFires | frontend/lib/context/auth-context.tsx:37-41 | the timer's user is signed in and loading ends, whatever happened meanwhile |
| Auth.AuthProvider.Logout | frontend/lib/context/auth-context.tsx:44-47 | no user and not signed in; the loading flag is untouched |
| Auth.AuthProvider.UpdateUser | frontend/lib/context/auth-context.tsx:59-63 | with a user the patch is merged in; without one nothing changes; the flags are untouched |

Every method of `CartContext.CartProvider` states the whole new list of lines
in terms of the old one. The methods of `Auth.AuthProvider` and
`CartPage.CartPageState` also keep a class invariant. For `Auth.AuthProvider`
the invariant is that the signed-in flag is set exactly when there is a user.
For `CartPage.CartPageState` it is that every line holds at least one unit.

## Left out

- Floating point: prices, totals and tax are exact reals. The model does not
  capture binary rounding of 89.99 and the like. It also leaves out
  `toFixed(2)`, which only affects display.
- CartContext.WithQuantityTotal: the new total is stated through the
  rewritten lines' own total, not as the old total plus quantity-times-price
  differences. That closed form, which mixes integer and real multiplication, is not
  stated.
- Timers and concurrency: the cart page's `isUpdating` flag and its 300 ms
  reset are left out: the flag is set and reset but never read, so it has no
  observable effect. The one-second login
  and registration delays are explicit `TimerFires` steps. Interleavings of
  several pending timers are possible in the model, but no property is
  stated about their order.
- Auth.AuthProvider.UpdateUser: merges into the current user. React's closure
  reads the user of the last render, which can be stale. A patch field set
  explicitly to `undefined` (which would erase the field) is not modelled.
- Auth.Registration: `register` accepts any object. The model requires email
  and names, and treats id, phone and `has_account` as optional. Extra keys
  and missing names are not modelled.
- Text.Lower: lowers only ASCII letters. `toLowerCase` follows Unicode case
  mapping, which is not modelled.
- Shop.SortedProductsSpec (and the function Shop.SortedProducts): gives no result for `newest`. That comparator
  (`a.isNew ? -1 : 1`) is not a consistent order, and the language leaves the
  order of such a sort implementation-defined. The language still makes the
  result a permutation of the filtered list, but the model does not state it.
- Shop.Key: the numeric comparators are modelled by key. NaN prices or
  ratings are not modelled.
- Content-store queries (`getProducts`, `getPosts` and the other
  GROQ-fetching functions in frontend/lib/sanity.ts), the API routes, loading
  spinners and rendering are I/O and presentation. Their results are inputs
  here.
- The client configuration's defaults for project id and dataset are not
  used by `getImageUrl`. It reads the raw environment variables, which are
  parameters here.
- Login checks no password and contacts no server. The model mirrors that.
