# pinkmusic — a verified model of the shop's core logic

pinkmusic is a Next.js music-shop site. Products are imported from the
MercadoLibre marketplace, stored in a database, and shown in a filterable
catalogue. This project models in Dafny the parts of it that decide
something:

- **Product import.** `POST /api/products/add`: input check, two duplicate
  guards, fetching the item with one token refresh and one retry on a 401 or
  403, and building the stored row field by field.
- **Token refresh.** `POST /api/refreshToken`: an OAuth 2.0 refresh-token
  grant (section 6 of RFC 6749), with the client credentials sent in the
  form body (section 2.3.1 of RFC 6749).
- **Item fetch.** `GET /api/getProducts`: a second fetch-and-retry route.
- **Brand creation.** `POST /api/brands`: name check, the slug pipeline and
  logo nulling.
- **Partners.** `POST /api/partners`, which stores an upload as a data URL,
  and the partner carousel, which resolves image sources and repeats the
  logos.
- **Product list.** The catalogue component: the Fisher–Yates shuffle,
  query-parameter building, the randomized mode with its once-only guard,
  the page count and when pagination shows.
- **Filters.** The sidebar's checkbox toggles and active-filter test, and
  the `all` ↔ `""` mapping of the select boxes.
- **Stores.** The two zustand stores (products, authentication) as small
  state machines.
- **Display values.** Derived by the product card, details and gallery
  components: condition label, currency code, images, availability line and
  attribute cap.
- **Route visibility.** Which paths show the header, footer and WhatsApp
  button.

Modules and what they hold:

- **Stateful code becomes classes.** Their methods are proved against
  functions that say what one call does:
  - the product and settings tables (`ProductIngestion.Database`);
  - the marketplace as one handler sees it (`Upstream.Marketplace`, with
    ghost logs of the requests sent);
  - the brand and partner tables;
  - both stores;
  - the product list's component state.
- **Pure code becomes functions and lemmas.** This covers:
  - the token route;
  - the slug;
  - the filters;
  - the display values;
  - the route predicates.
- **Shared types and one-definition helpers.** `Common` holds:
  - `Option`;
  - `Outcome`;
  - `JsonField`, a JSON body field that is missing, a string, or another
    value with its JavaScript truthiness;
  - string and number helpers.

  `Catalog` holds the client-side product type. Expressions the components
  repeat are each defined once, in `ProductDisplay` and `SelectFilter`.

## Model

| member | source | states |
|---|---|---|
| TokenRefresh.Grant | src/app/api/refreshToken/route.ts:19-32 | The grant goes to the token URL, form-encoded. Its fields are exactly `grant_type`, `client_id`, `client_secret`, `refresh_token`, in that order, with `grant_type=refresh_token` and the three given values |
| TokenRefresh.UpstreamError | src/app/api/refreshToken/route.ts:36-38 | A refused refresh reports the upstream `message` when it is non-empty, else "Erro ao renovar o token." |
| TokenRefresh.Post | src/app/api/refreshToken/route.ts:3-62 | Any credential missing: no request, 500 with the configuration message. Otherwise exactly one grant, built from the configured values. The refresh token sent is always the configured one, never a rotated one. Success iff the answer has an ok status, with access token, refresh token, expiry and token type copied unchanged. Every failure is a 500 carrying the upstream or thrown message |
| Upstream.ItemUrl | src/app/api/products/add/route.ts:64 | The item URL is the items base followed by exactly the id |
| Upstream.ItemUrlInjective | src/app/api/products/add/route.ts:110 | Distinct ids give distinct item URLs, so the permalink guard singles out one id |
| Upstream.ApiError | src/app/api/products/add/route.ts:86-91 | The error of a non-ok answer starts with the prefix, the HTTP status and " - " |
| Upstream.Settle | src/app/api/products/add/route.ts:77-93 | A final answer succeeds iff its status is 2xx, and then yields the parsed item. Otherwise the error names the status, or is the thrown message |
| Upstream.RefreshOutcome | src/app/api/products/add/route.ts:19-43 | Reading the refresh route's answer: the new token pair iff `success`. Otherwise "Falha ao renovar o token: " plus the error, or "Erro desconhecido" for an empty one. A throw passes its message through |
| Upstream.Marketplace.GetItem | src/app/api/products/add/route.ts:65 | Answers with the scripted endpoint's reply to the URL and token, and appends exactly that request to the log |
| Upstream.Marketplace.PostRefresh | src/app/api/products/add/route.ts:21-25 | Answers with the scripted refresh reply and counts one refresh POST |
| ProductIngestion.Database.FindByPermalink | src/app/api/products/add/route.ts:111-113 | Finds a row iff the permalink is stored, and returns that stored row |
| ProductIngestion.Database.FindById | src/app/api/products/add/route.ts:133-135 | Finds a row iff the id is stored, and returns that row |
| ProductIngestion.Database.Setting | src/app/api/products/add/route.ts:50-52 | Returns the setting iff the key is stored |
| ProductIngestion.Database.Create | src/app/api/products/add/route.ts:150-167 | Inserts iff neither the id nor the permalink is already stored, and keeps permalinks unique. A refused insert changes nothing |
| ProductIngestion.SettingValue | src/app/api/products/add/route.ts:50-52 | The stored access-token setting, present iff its key is stored |
| ProductIngestion.AccessToken | src/app/api/products/add/route.ts:54-58 | The database token when non-empty, else the environment token when non-empty, else none. A token found is never empty |
| ProductIngestion.NullIfFalsy | src/app/api/products/add/route.ts:164-165 | An absent or empty category or brand id becomes null. Any other value is kept |
| ProductIngestion.SellerNickname | src/app/api/products/add/route.ts:159 | The seller's nickname when present and non-empty, else "Não informado" |
| ProductIngestion.PictureUrls | src/app/api/products/add/route.ts:161-163 | The picture URLs, one per picture, in the item's order |
| ProductIngestion.NewProduct | src/app/api/products/add/route.ts:150-166 | The new row copies id, title, price, currency, thumbnail, condition, quantity and permalink from the item. Its pictures are the item's URLs in order. Its seller nickname is never empty. A category or brand id it stores is never empty |
| ProductIngestion.FetchPlan | src/app/api/products/add/route.ts:45-94 | No token: no request and the "not configured" error. Otherwise the first GET carries the token, and every GET targets the item URL. Exactly one refresh iff the first answer is a 401 or 403. A retry happens iff that refresh succeeded, and it carries the refreshed access token. There are never more than two GETs. A failed refresh is the route's error. Otherwise the last answer decides, through `Settle`: its item exactly when its status is ok, else "Erro na API do MercadoLivre: <status> - <text>" (with "após renovação" after a refresh), or the thrown message |
| ProductIngestion.RefreshMercadoLivreToken | src/app/api/products/add/route.ts:19-43 | One refresh POST, whose outcome is the refresh route's answer read as above. Nothing is stored |
| ProductIngestion.FetchProductDetails | src/app/api/products/add/route.ts:45-94 | The requests sent, the refreshes counted and the outcome are exactly those of `FetchPlan`, for the token resolved from the database and the environment. So an ok last answer gives the item, and a non-ok one an error naming its status |
| ProductIngestion.Post | src/app/api/products/add/route.ts:96-186 | An empty or non-string id: 400, no request, no write. A stored permalink equal to the id's item URL: 409 with that row's id, no request. Otherwise the fetch is `FetchPlan`'s. A failed fetch gives 500 with its message, which for a non-ok item answer names the HTTP status. An already-stored fetched id gives 409 with that id. A permalink stored under another id gives 500. Otherwise exactly the row `NewProduct` builds is created under the fetched id, with 201. The settings table is never written |
| ItemFetch.ItemIdParam | src/app/api/getProducts/route.ts:57 | The `item_id` query value when non-empty, else "MLB3312824304" |
| ItemFetch.FetchProductFromMercadoLibre | src/app/api/getProducts/route.ts:34-53 | No request without a non-empty token. Otherwise exactly one GET of the item URL with that token |
| ItemFetch.GetPlan | src/app/api/getProducts/route.ts:55-119 | As written. No environment token: no request, 500. One refresh iff the first answer is a 401 or 403. A retry iff the refresh succeeded, and the retry is the same request as the first GET. A failed refresh is the error. Otherwise the last answer decides, through `Settle`: its item exactly when its status is ok, else a 500 with "Erro na API do MercadoLivre: <status> - <text>", or the thrown message |
| ItemFetch.Get | src/app/api/getProducts/route.ts:59-97 | The handler's requests, refresh count and outcome are exactly `GetPlan`'s: success with the item exactly on an ok final answer, otherwise 500 with the status or the error |
| ItemFetch.RetryRepeatsRefusal | src/app/api/getProducts/route.ts:64-90 | As written, every call that refreshes ends in a failure: the retry resends the refused request to a deterministic endpoint |
| ItemFetch.StaleRetryCounterexample | src/app/api/getProducts/route.ts:86-89 | A stale environment token and a refresh yielding an accepted token: as written the route fails with the 401, and with the refreshed token it returns the item |
| ItemFetch.GetPlanRefreshed | src/app/api/getProducts/route.ts:85-89 | The corrected route: as `GetPlan`, except that the retry carries the refreshed access token, and an empty refreshed token gives the "not configured" error without a retry. Otherwise the last answer decides through `Settle`, as in `GetPlan` |
| ItemFetch.GetWithRefreshedToken | src/app/api/getProducts/route.ts:64-90 | The corrected handler's requests, refresh count and outcome are exactly `GetPlanRefreshed`'s, so the final answer's status decides success or a 500 naming it |
| BrandSlug.ToLower | src/app/api/brands/route.ts:44 | Lower-casing keeps the length and maps every character independently |
| BrandSlug.UntrimmedChars | src/app/api/brands/route.ts:47-50 | Before the trim, an ASCII name's slug is already made of `[a-z0-9_-]`, so the trim changes nothing |
| BrandSlug.SlugCharacters | src/app/api/brands/route.ts:43-50 | Every character of an ASCII name's slug is in `[a-z0-9_-]`, and none is whitespace |
| BrandSlug.SlugNoDoubleHyphen | src/app/api/brands/route.ts:49 | A slug never holds two adjacent hyphens |
| BrandSlug.SlugHyphenFree | src/app/api/brands/route.ts:44-49 | The slug without its hyphens is the lower-cased name's word characters, in order |
| BrandSlug.SlugIdempotent | src/app/api/brands/route.ts:43-50 | The slug of a slug is the slug itself |
| BrandSlug.SlugKeepsOuterHyphens | src/app/api/brands/route.ts:50 | The final trim removes no hyphen: for every lower-case letter c, the name " -c " has the slug "-c-" |
| BrandSlug.PunctuationOnlySlugIsEmpty | src/app/api/brands/route.ts:47-50 | Every ASCII name made only of punctuation (no letter, digit, underscore, whitespace or hyphen) has the empty slug |
| Brands.Status | src/app/api/brands/route.ts:36-76 | The answers are 400, 201 and 500, one per kind of result |
| Brands.StoredLogo | src/app/api/brands/route.ts:56 | An absent or empty logo is stored as null. Any other logo is stored as given |
| Brands.PostOutcome | src/app/api/brands/route.ts:32-77 | 400 iff the name is falsy. 500 iff it is truthy but not a string. Otherwise 201 with a brand carrying the name, its slug (slug characters only, no double hyphen) and the nulled logo |
| Brands.BrandTable.Post | src/app/api/brands/route.ts:52-65 | Answers as `PostOutcome`. Appends exactly the new brand on 201 and changes nothing otherwise. Keeps every stored slug well formed |
| Brands.PunctuationOnlyNameAccepted | src/app/api/brands/route.ts:36-50 | Every non-empty ASCII name made only of punctuation, such as "!!!", passes validation and is stored under that name with the empty slug and a null logo |
| Partners.ImageSrc | src/components/site/Partners.tsx:30-36 | A `data:` URL is shown unchanged. Anything else is shown as "/partners/" followed by it |
| Partners.FlattenFill | src/components/site/Partners.tsx:40 | k copies of a list, flattened, have length k·n, and element i is element i mod n of the list |
| Partners.ExtendedLogosRepeat | src/components/site/Partners.tsx:39-40 | The carousel is empty without partners. It has 5·n entries, and entry i is partner i mod n |
| Partners.MimeType | src/app/api/partners/route.ts:32 | The upload's type when non-empty, else "image/jpeg" |
| Partners.DataUrl | src/app/api/partners/route.ts:33 | The image URL starts with "data:<mime>;base64," and the rest is exactly the payload |
| Partners.PostOutcome | src/app/api/partners/route.ts:13-56 | 400 "Missing name or image" iff the name is missing or empty or the image is missing. Otherwise a partner with the name and the data URL of the encoded upload |
| Partners.PartnerTable.Post | src/app/api/partners/route.ts:36-44 | Answers as `PostOutcome`. Appends exactly the new partner on success. Keeps every stored image a `data:` URL |
| Partners.StoredImagesShownAsIs | src/app/api/partners/route.ts:33 | Every stored image is a data URL, so the carousel shows it unchanged |
| ProductsView.Swap | src/components/site/Products/Products.tsx:38 | A swap exchanges the two entries and leaves the others alone |
| ProductsView.SwapPermutes | src/components/site/Products/Products.tsx:38 | A swap is a permutation |
| ProductsView.FisherYates | src/components/site/Products/Products.tsx:34-41 | The shuffle keeps the length, for any index choices with 0 ≤ j ≤ i as i counts down |
| ProductsView.FisherYatesPermutes | src/components/site/Products/Products.tsx:34-41 | The shuffle's result is a permutation of its input, for every sequence of choices |
| ProductsView.ShuffleArray | src/components/site/Products/Products.tsx:34-41 | Shuffles a fresh copy, leaving the argument unchanged. Every index it picks satisfies 0 ≤ j ≤ i. The result is the Fisher–Yates shuffle for those choices, and the same multiset as the input |
| ProductsView.SetParam | src/components/site/Products/Products.tsx:69-79 | `URLSearchParams.set`: afterwards the key has exactly the new value, every other key is unchanged, and a new key goes at the end |
| ProductsView.Join | src/components/site/Products/Products.tsx:74 | Joining no ids gives "", and joining one id gives that id |
| ProductsView.BuildParams | src/components/site/Products/Products.tsx:68-79 | Page and limit are always set. Search and sort only when non-empty. Category and brand ids only when given and non-empty, comma-joined. Prices whenever defined, zero included |
| ProductsView.TotalPages | src/components/site/Products/Products.tsx:156 | The ceiling of total over limit: 0 for no products, else the least page count covering them |
| ProductsView.TotalPagesAboveOne | src/components/site/Products/Products.tsx:156 | More than one page iff the total exceeds the limit |
| ProductsView.PaginationVisibleIff | src/components/site/Products/Products.tsx:220-224 | Pagination shows iff the page has products, pagination is asked for, the mode is not randomized, and the total exceeds a positive limit. With JavaScript's division, a zero limit shows it for any positive total |
| ProductsView.FailureText | src/components/site/Products/Products.tsx:90-93 | A failed answer's error when non-empty, else the load message. A thrown fetch gives the connection message |
| ProductsView.Slice0 | src/components/site/Products/Products.tsx:111 | `slice(0, end)` is a prefix of length min(end, n), with JavaScript's negative ends |
| ProductsView.ProductList.FetchFiltered | src/components/site/Products/Products.tsx:64-99 | A successful answer shows its products (or none) and total, and clears the error. Any failure leaves no products, a zero total and the failure text |
| ProductsView.ProductList.FetchRandomized | src/components/site/Products/Products.tsx:101-122 | After one success it does nothing. Otherwise one fetch. On success it shows `slice(0, limit)` of a permutation of the pool, sets the total and the guard. On failure it keeps the products shown and sets the error |
| ProductsView.RandomizedShowsAtMostLimit | src/components/site/Products/Products.tsx:106-111 | The randomized mode shows at most `limit` products, all drawn from the pool |
| FilterSidebar.Toggle | src/components/site/_components/FilterSidebar.tsx:47-52 | Toggling a checked id filters out every copy of it. Toggling an unchecked id appends it at the end. Brands (lines 54-59) toggle the same way |
| FilterSidebar.RemoveAllCounts | src/components/site/_components/FilterSidebar.tsx:49 | Filtering drops every copy of the id and keeps every copy of the others |
| FilterSidebar.RemoveAllKeepsOrder | src/components/site/_components/FilterSidebar.tsx:49 | Filtering keeps the remaining ids in their order |
| FilterSidebar.ToggleFlips | src/components/site/_components/FilterSidebar.tsx:47-59 | A toggle flips its id's membership and no other id's |
| FilterSidebar.ToggleTwice | src/components/site/_components/FilterSidebar.tsx:48-50 | Checking an unchecked id and unchecking it restores the selection |
| FilterSidebar.NoActiveFilters | src/components/site/_components/FilterSidebar.tsx:69-73 | No filter is active iff nothing is checked, the minimum is at most 0 and the maximum is at least 50000 |
| ProductStore.Merge | src/store/productStore.ts:22 | The spread merge: every field the update carries wins. Pictures and attributes the update lacks keep their old value |
| ProductStore.UpdateById | src/store/productStore.ts:19-24 | Keeps length and order. Every entry with the update's id becomes the merge, and every other entry is unchanged |
| ProductStore.FindByIdFirst | src/store/productStore.ts:30-32 | The find answers none iff no entry has the id, and otherwise the first entry that has it |
| ProductStore.UpdateAbsentIsNoOp | src/store/productStore.ts:20-23 | Updating an absent id leaves the list unchanged |
| ProductStore.UpdateIdempotent | src/store/productStore.ts:19-24 | Applying the same update twice equals applying it once |
| ProductStore.FindAfterUpdate | src/store/productStore.ts:19-32 | After an update, finding its id gives the merge of the first matching entry, or none when there was none |
| ProductStore.Store.constructor | src/store/productStore.ts:13 | The initial list is empty |
| ProductStore.Store.SetProducts | src/store/productStore.ts:16 | Replaces the list wholesale |
| ProductStore.Store.UpdateProduct | src/store/productStore.ts:19-24 | The list becomes `UpdateById` of the old list |
| ProductStore.Store.ResetProducts | src/store/productStore.ts:27 | Empties the list |
| ProductStore.Store.GetProductById | src/store/productStore.ts:30-32 | Returns the first stored entry with the id, or none iff no entry has it |
| AuthStore.Apply | src/store/authStore.ts:20-25 | Every action leaves `isAuth` true iff a user is stored. `setUser` stores its argument and `logout` clears the user |
| AuthStore.RunKeepsConsistent | src/store/authStore.ts:18-25 | From a consistent state every run of actions stays consistent, and its result is decided by the last action alone |
| AuthStore.SetNullIsLogout | src/store/authStore.ts:20-25 | `setUser(null)` has the same effect as `logout` |
| AuthStore.LogoutIdempotent | src/store/authStore.ts:23-25 | Logging out twice is the same as logging out once |
| AuthStore.Store.constructor | src/store/authStore.ts:18-19 | Starts with no user and `isAuth` false |
| AuthStore.Store.SetUser | src/store/authStore.ts:20-22 | Stores the user and sets `isAuth` iff the user is not null |
| AuthStore.Store.Logout | src/store/authStore.ts:23-25 | Clears the user and `isAuth` |
| ProductDisplay.ConditionText | src/components/site/ProductCard.tsx:31-38 | "new", "used" and "not_specified" read "Novo", "Usado" and "Não especificado". Any other condition reads as itself. The same table is in site/ProductDetails.tsx:18-25 and frontend/ProductGallery.tsx:61-68 |
| ProductDisplay.CurrencyCode | src/app/frontend/ProductGallery.tsx:54-59 | "BRL" iff the currency is BRL, "USD" for anything else. The same choice is in both product cards and both details components |
| ProductDisplay.CardImage | src/components/site/Products/ProductCard.tsx:20-23 | The first picture's URL when there are pictures, else the thumbnail. site/ProductCard.tsx:41-44 is the same expression |
| ProductDisplay.MainImage | src/components/site/Products/ProductDetails.tsx:64-69 | The selected picture's secure URL when it exists and is non-empty. The thumbnail when no picture is selected, and also when the selected picture's secure URL is empty (the `||` fallback). Nothing to draw only when the thumbnail is empty too. site/ProductDetails.tsx:44-51 is the same expression |
| ProductDisplay.AvailabilityLabelAsWritten | src/components/site/ProductDetails.tsx:108-112 | As written: "Produto esgotado" for no stock, "1 disponível" for one, and the quantity followed by " disponívels" above one |
| ProductDisplay.PluralAsWritten | src/components/site/Products/ProductDetails.tsx:126-130 | Two units read "2 disponívels", which is not "2 disponíveis" |
| ProductDisplay.AvailabilityLabel | src/components/site/ProductDetails.tsx:106-114 | The corrected line: "Produto esgotado" at 0 or less, "1 disponível" at 1, "n disponíveis" above 1 |
| ProductDisplay.AvailabilityAgreesUpToOne | src/components/site/Products/ProductDetails.tsx:124-132 | The written and corrected lines agree iff at most one unit is in stock |
| ProductDisplay.ShownAttributes | src/components/site/ProductDetails.tsx:117-121 | The first eight attributes, in order, or all of them when there are fewer. Products/ProductDetails.tsx:145-151 is the same cap |
| SelectFilter.Reported | src/components/site/_components/CategoryFilter.tsx:25-27 | Selecting "all" reports "", and any other option reports itself |
| SelectFilter.Displayed | src/components/ui/BrandFilter.tsx:30 | An empty value shows "all", and any other value shows itself |
| SelectFilter.ReportDisplayed | src/components/ui/BrandFilter.tsx:25-30 | Showing a value and selecting it gives the value back, except "all", which comes back as "". Both select boxes map the same way |
| SelectFilter.DisplayReported | src/components/site/_components/CategoryFilter.tsx:26-30 | Selecting a non-empty option and showing the result gives the option back |
| RouteVisibility.StartsWithAny | src/components/site/_components/LayoutWrapper.tsx:17-19 | `some(startsWith)`: true iff some prefix in the list starts the path |
| RouteVisibility.LayoutFrame | src/components/site/_components/LayoutWrapper.tsx:14-34 | The bare children are rendered iff the path starts with "/login", "/register", "/dashboard" or "/_not-found". Otherwise the page is framed by the header and footer |
| RouteVisibility.LegacyLayoutFrame | src/components/site/LayoutWrapper.tsx:12-29 | The older layout renders bare children iff the path starts with "/login", "/register" or "/dashboard" |
| RouteVisibility.HiddenIsPrefixClosed | src/components/site/_components/LayoutWrapper.tsx:15-19 | In both layouts, a path without header and footer keeps them hidden for every extension of it |
| RouteVisibility.LayoutExamples | src/components/site/LayoutWrapper.tsx:13-17 | "/" and "/products-all" are framed. "/loginx" and "/dashboards" are not, since the test is a plain prefix test. "/_not-found" is bare now but framed in the older layout |
| RouteVisibility.ConditionalWhatsApp | src/components/whatsapp/ConditionalWhatsApp.tsx:9-22 | No button iff the path starts with "/login" or "/dashboard". Otherwise the button with the fixed number and message |
| RouteVisibility.WhatsAppHiddenIsPrefixClosed | src/components/whatsapp/ConditionalWhatsApp.tsx:11-13 | A path without the button keeps it hidden for every extension of it |
| RouteVisibility.RegisterShowsButton | src/components/whatsapp/ConditionalWhatsApp.tsx:9-15 | "/register" shows the button although it has no header and footer |

## Left out

- Network, database and form plumbing become inputs:
  - `fetch` is a scripted reply: a function from URL and bearer token for the item endpoint, a fixed reply for the refresh route, or a reply value for the product API.
  - Prisma is an in-memory map.
  - The base URL of the refresh call is not modelled.
  - Logging is not modelled.
- The token routes read the process environment; it is a parameter.
- Database errors other than the duplicate permalink on product import are not modelled. These are unique or foreign-key violations on brands and partners, and connection failures, each of which the handlers answer with a 500.
- Malformed request JSON, and `req.json()` throwing, are not modelled.
- Brands.PostOutcome: requires an ASCII name. The slug's `normalize("NFD")` and combining-mark removal are Unicode tables, and they act as identities on ASCII.
- Brands.BrandTable.Post: the same ASCII requirement as `PostOutcome`.
- Brands.PostOutcome: a logo that is not a string is not modelled. The logo is an optional string.
- Partners.PostOutcome: form entries of the wrong kind are not modelled. A file in place of the name, or a string in place of the image, cannot arise; both entries are optional values of the expected kind.
- Partners.PostOutcome: Node's `Buffer` base64 encoder is a parameter, `encode`.
- The partner route's 500 for a failing database write is not modelled.
- The carousel's fetch effect in Partners.tsx is not modelled.
- `Intl.NumberFormat` price formatting is locale-dependent and uses floating point. Only the currency-code choice is modelled.
- ProductDisplay.ConditionText: keys such as "toString", which hit `Object.prototype` in the source's lookup table, are not modelled.
- ProductsView.BuildParams: prices are integers, so `String(n)` of a non-integer price is not modelled.
- ProductsView.BuildParams: the page number comes in as a value. The effect that resets it to 1 when a filter changes is not modelled.
- ProductsView.ProductList.FetchFiltered: the total is a natural number, so an absent or non-numeric total (`total || 0`) is not modelled. Absent products (`products || []`) are modelled.
- ProductsView.ProductList.FetchRandomized: the `await`s between the check of `hasRandomized` (Products.tsx:102) and its setting (:113) are not modelled; the check and the set are one step. Overlapping runs of the effect, after a filter change during the fetch or a development-mode double effect, can both pass the check and shuffle twice, which the model does not capture.
- ProductsView.ProductList.FetchRandomized: the request URL is not modelled. It asks for the first 48 products, but the server-side listing ignores the parameters.
- The shuffle's `Math.random` is an arbitrary index in [0, i], not a distribution.
- The `loading` flag, rendering, toasts and router navigation are not modelled.
- The authentication routes, the JWT middleware and their cookies are not modelled. They are thin wrappers around bcrypt and jose.
- The GET routes for products, brands and categories are not modelled. They are bare database queries.
- `sortCategories` depends on `localeCompare` collation.
- No code shown stores refreshed tokens or locks anything, so token persistence and concurrent refreshes are not modelled.

## Findings

| source | as written | input that shows it | evidently intended | confidence | as-written member | corrected member |
|---|---|---|---|---|---|---|
| src/app/api/getProducts/route.ts:85-89 | The retry after a successful refresh passes the environment access token again, and the refresh route never changes it. The retry therefore resends the refused request, and the refreshed token is discarded | The environment token is "stale". The endpoint answers 401 to "stale" and 200 to "fresh". The refresh route returns access token "fresh" | Retry with the refreshed access token, as the comment above the call and the import route (products/add/route.ts:72-75) do | not executed | ItemFetch.GetPlan, ItemFetch.RetryRepeatsRefusal, ItemFetch.StaleRetryCounterexample | ItemFetch.GetPlanRefreshed, ItemFetch.GetWithRefreshedToken |
| src/components/site/ProductDetails.tsx:108-112 | The plural appends "s" to "disponível", so stock above one reads "n disponívels". src/components/site/Products/ProductDetails.tsx:126-130 has the same expression | available_quantity = 2 renders "2 disponívels" | "2 disponíveis", the Portuguese plural | not executed | ProductDisplay.AvailabilityLabelAsWritten, ProductDisplay.PluralAsWritten | ProductDisplay.AvailabilityLabel, ProductDisplay.AvailabilityAgreesUpToOne |
