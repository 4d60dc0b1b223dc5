# KickStreet shop core in Dafny

A model of the rules at the heart of the KickStreet storefront, a Next.js shop backed by a document store, with proofs of what those rules promise.

What the model covers:

- **Schemas.** The four document schemas are `ProductSchema`, `OrderSchema`, `UserSchema` and `SliderSchema`. Each gives its enumerations, defaults and numeric floors. The product's save hook derives a URL slug from the name. The slider's save hook refuses a fourth slider.
- **Cart.** `CartContext` models the browser-held bag and its add, update, remove, clear and totals operations, plus the stored-cart load. `CartPage` models the cart page's checkout guards and quantity buttons.
- **Cash-on-delivery checkout.** `CodCheckout` models the loop that prices each line from the catalogue, checks and takes stock, and then inserts one order.
- **Accounts.** `Otp` models code generation and expiry. `Account` models the register, verify, forgot-password and reset-password transitions over the users collection. `ResetPasswordPage` models the reset form. `Profile` models the profile endpoint.
- **Admin back office.** `AdminProducts` models product creation and new-product mail. `AdminSliders` models the slider cap and auto-population. `AdminOrders` models status updates. `AdminStats` models the dashboard report. `AddProduct` models the add-product form.
- **Storefront.** `Listing` holds the shared search, category and sorting rules. `HomePage` and `ShopPage` use them. `ProductCard` models the stock badges.
- **Guards and newsletter.** `Middleware` models the route guard. `Newsletter` models newsletter subscription.

How the source is modelled:

- Each store collection is a class whose `docs` field is a sequence of documents. Each API handler is a method on those collections, and its `ensures` ties the reply and the new contents to a pure function of the request and the old contents. The lemmas then prove the properties of those functions.
- The loop in the checkout handler stays a loop. It is specified by the function `CodCheckout.Walk`.
- The cart and pages keep their state cells as class fields.
- Randomness, the clock, password hashing, mail delivery and the session lookup are parameters.

Shared helpers:

- `Wrappers` holds `Option` and `Result`.
- `Text` holds trimming, case mapping, splitting and decimal digits.
- `Seqs` holds filter, count, sum and take.
- `Ordering` holds a stable insertion sort used for every `sort` the store performs.
- `Http` holds methods, sessions and JavaScript truthiness.
- `Records` holds the documents shared between modules.

## Model

| member | source | states |
|---|---|---|
| ProductSchema.RemoveDisallowed | src/models/Product.ts:67 | the result holds exactly the characters of the name that are word characters, white space or `-`, in their order |
| ProductSchema.CollapseSeparators | src/models/Product.ts:68 | a string that starts with a separator comes out starting with `-`; with CollapseChars, CollapseNoDoubleHyphen and CollapseNonSeparators: only hyphens and the kept characters come out, no `--`, and the non-separators in their order |
| ProductSchema.CollapseChars | src/models/Product.ts:68 | every output character is `-` or a non-separator character of the input |
| ProductSchema.CollapseNoDoubleHyphen | src/models/Product.ts:68 | the collapsed string never holds two adjacent hyphens |
| ProductSchema.CollapseNonSeparators | src/models/Product.ts:68 | collapsing keeps the non-separator characters unchanged and in order |
| ProductSchema.CollapseWords | src/models/Product.ts:68 | words joined by single spaces come out joined by single hyphens |
| ProductSchema.StripHyphens | src/models/Product.ts:69 | the result is the infix of the input after its leading hyphens, and neither starts nor ends with `-` |
| ProductSchema.StripHyphensKeeps | src/models/Product.ts:69 | stripping introduces no `--` and no character the input lacks |
| ProductSchema.SlugifyIsSlug | src/models/Product.ts:62-71 | every slug the hook derives is lower-case letters, digits and single inner hyphens |
| ProductSchema.SlugifyFixesSlugs | src/models/Product.ts:62-71 | a well-formed slug, used as a name, derives itself |
| ProductSchema.SlugifyIdempotent | src/models/Product.ts:62-71 | deriving a slug from a slug changes nothing |
| ProductSchema.SlugIsLowercase | src/models/Product.ts:28-32 | the `lowercase` setter of the slug field leaves a derived slug unchanged |
| ProductSchema.SlugifyExample | src/models/Product.ts:64-69 | the name "Nike Air Max 270!!" gets the slug "nike-air-max-270" |
| ProductSchema.StoredSlug | src/models/Product.ts:28-32 | the lower-cased stored slug equals the derived slug |
| ProductSchema.NewProduct | src/models/Product.ts:21-59 | creation succeeds exactly when every required field, floor and enum rule holds; the stored product is well formed, has the trimmed name, the defaults (brand KickStreet, stock 0, ratings 0, numOfReviews 0) and the given fields |
| ProductSchema.InsertKeepsValid | src/models/Product.ts:22-32 | a well-formed product that shares no name and no slug keeps the collection well formed and its two unique keys unique |
| ProductSchema.IndexOfId | src/models/Product.ts:74 | the first document with the id, or none when no document has it |
| ProductSchema.SameButStockIndex | src/models/Product.ts:50-55 | changing stock counts moves no document: a lookup by id finds the same position |
| ProductSchema.SameButStockKeepsValid | src/models/Product.ts:50-55 | stock changes that stay non-negative keep the collection well formed |
| ProductSchema.ProductDocument.constructor | src/models/Product.ts:62-63 | holds the document and whether its name was modified |
| ProductSchema.ProductDocument.PreSave | src/models/Product.ts:62-71 | the slug is recomputed from the name exactly when the name was modified, and nothing else changes |
| ProductSchema.ProductCollection.constructor | src/models/Product.ts:74 | an empty, valid collection |
| ProductSchema.ProductCollection.Clashing | src/models/Product.ts:26-31 | reports exactly whether a stored product has the same name or slug |
| ProductSchema.ProductCollection.Create | src/models/Product.ts:21-71 | an invalid input or a clash inserts nothing; otherwise exactly the new product is appended; the collection stays valid |
| ProductSchema.ProductCollection.FindById | src/models/Product.ts:74 | none exactly when no stored product has the id, else the first one that has it |
| ProductSchema.ProductCollection.IncrementStock | src/models/Product.ts:50-55 | adds the delta to the stock of the product with the id and changes nothing else; an unknown id changes nothing |
| ProductSchema.ProductCollection.NewestFirst | src/models/Product.ts:59 | every stored product, newest first |
| ProductSchema.NewestFirstOrder | src/models/Product.ts:59 | in a newest-first listing each product is at least as recent as every later one |
| ProductSchema.StripLeadingHyphens | src/models/Product.ts:69 | the result is a suffix of the input that does not start with `-`, and everything removed is `-` |
| ProductSchema.StripTrailingHyphens | src/models/Product.ts:69 | the result is a prefix of the input that does not end with `-`, and everything removed is `-` |
| OrderSchema.NewOrder | src/models/Order.ts:3-51 | creation succeeds exactly when the email is present, every item has name, quantity, price and size, the amount is present and each status lies in its enum; the stored order is well formed, carries the input's email, amount, user and session, the given or default currency, tracking id, payment method and both statuses, one line per item built from that item, and the address with absent fields filled |
| OrderSchema.Defaults | src/models/Order.ts:4-50 | an order naming only email and amount gets no user, currency INR, method stripe, status Pending, no session id, Processing, an empty address and no tracking id |
| OrderSchema.ItemDefaults | src/models/Order.ts:11-18 | an item without product id and image keeps its price and size and defaults the rest |
| OrderSchema.EnumsEnforced | src/models/Order.ts:24-41 | a payment method, payment status or order status outside its enum makes creation fail validation |
| OrderSchema.OrderCollection.constructor | src/models/Order.ts:53 | an empty collection |
| OrderSchema.OrderCollection.Create | src/models/Order.ts:3-53 | the reply is the validated order, appended exactly when it validates |
| OrderSchema.OrderCollection.ReplaceAt | src/pages/api/admin/orders.ts:35-39 | the update replaces one document and no other |
| OrderSchema.OrderCollection.NewestFirst | src/models/Order.ts:51 | every stored order, newest first |
| OrderSchema.IndexOfOrder | src/pages/api/admin/orders.ts:35 | an index whose order has the id, or none when no order has it |
| OrderSchema.NewestFirstOrder | src/models/Order.ts:51 | in a newest-first listing each order is at least as recent as every later one |
| UserSchema.NormalizedShape | src/models/User.ts:5-11 | a stored email has no upper-case letter and no white space at either end |
| UserSchema.NormalizeEmailIdempotent | src/models/User.ts:9-10 | normalising an email twice is normalising it once |
| UserSchema.NewUser | src/models/User.ts:3-39 | creation succeeds exactly when name, email, phone and password are present and the role lies in its enum; the stored user has the normalised email, role user, unverified and country IN by default |
| UserSchema.NewUserWellFormed | src/models/User.ts:3-39 | every created user is well formed |
| UserSchema.View | src/models/User.ts:21-30 | the selected view keeps id, email, phone and role |
| UserSchema.ViewHidesSecrets | src/models/User.ts:21-30 | the view does not depend on the password, the OTP or its expiry |
| UserSchema.IndexOfEmail | src/pages/api/auth/verify-otp.ts:17 | an index whose user has the email, or none when no user has it |
| UserSchema.IndexOfEmailOrPhone | src/pages/api/auth/register.ts:22 | an index whose user has the email or the phone, or none when no user has either |
| UserSchema.UserCollection.constructor | src/models/User.ts:42 | an empty, valid collection |
| UserSchema.UserCollection.Create | src/models/User.ts:3-42 | an invalid input or a taken email or phone inserts nothing; otherwise exactly the new user is appended; the collection stays valid |
| UserSchema.UserCollection.Save | src/models/User.ts:8-15 | saving one user with its own email and an unused phone replaces that document and keeps the collection valid |
| SliderSchema.NewSlider | src/models/Slider.ts:14-40 | creation succeeds exactly when an image is given; the slider takes the given fields and the defaults (no product, empty title and subtitle, order 0, active) |
| SliderSchema.SliderDefaults | src/models/Slider.ts:14-40 | a slider given only an image gets every default |
| SliderSchema.SliderCollection.constructor | src/models/Slider.ts:61 | an empty, valid collection |
| SliderSchema.SliderCollection.Count | src/models/Slider.ts:47 | the number of stored sliders |
| SliderSchema.SliderCollection.SaveNew | src/models/Slider.ts:43-59 | a new slider is inserted exactly when it validates, the count succeeds and fewer than three are stored; the hook's error when three are stored; at most one insert |
| SliderSchema.SliderCollection.SaveExisting | src/models/Slider.ts:43-59 | saving a stored slider skips the cap and replaces that document only |
| SliderSchema.SliderCollection.InsertMany | src/pages/api/admin/sliders/index.ts:45 | fails and inserts nothing exactly when some input lacks an image; otherwise appends one created slider per input, in order |
| SliderSchema.SliderCollection.ByOrder | src/pages/api/admin/sliders/index.ts:19 | every stored slider, by ascending `order` |
| Records.FillAddress | src/models/User.ts:31-38 | each given field (line1, city, state, postal code, country, phone) is kept; each absent one becomes the empty string, except the country, which gets the schema's default |
| Records.FillNothing | src/models/User.ts:31-38 | with no field given every address field is empty and the country is the default |
| Listing.VisibleIsOneFilter | src/pages/index.tsx:31-50 | the search filter followed by the category filter is one filter by the combined test |
| Listing.VisibleSpec | src/pages/index.tsx:31-50 | the filtered list is an order-preserving subsequence of the products, and a product is in it exactly when it matches the trimmed, lower-cased search (if any) and the category (unless `all`) |
| Listing.ShowAll | src/pages/index.tsx:35-45 | a blank search with category `all` keeps every product |
| Listing.NameHit | src/pages/index.tsx:36-38 | a product whose lower-cased name contains the trimmed, lower-cased search is shown |
| Listing.Newest | src/pages/index.tsx:303 | the products sorted newest first, a permutation of the stored ones |
| Listing.FirstImage | src/pages/index.tsx:325 | the first image when there is one, else the empty string |
| Listing.HeroInputs | src/pages/api/admin/sliders/index.ts:35-42 | one input per product, in order: order `i`, active, the product's id, first image and name, and a subtitle of the given sign followed by the formatted price |
| Listing.AdminSubtitleMisencoded | src/pages/api/admin/sliders/index.ts:39 | the subtitle with the sign the admin listing writes starts with the three characters "â‚¹" and differs from the one with "₹", which starts with the rupee sign |
| HomePage.AutoSlide | src/pages/index.tsx:323-331 | a synthesised slide carries exactly the image, product, title, subtitle, order and active flag of the hero input for that product |
| HomePage.HeroSubtitlesAgree | src/pages/index.tsx:323-331 | the storefront's synthesised subtitle equals the hero input written with "₹" and differs from the one written with "â‚¹" as the admin listing does |
| HomePage.ServerProducts | src/pages/index.tsx:303-304 | at most eight stored products, newest first |
| HomePage.ActiveByOrderSpec | src/pages/index.tsx:307 | at most three sliders, all active and stored, by ascending `order` |
| HomePage.ActiveByOrderNonEmpty | src/pages/index.tsx:307 | one active slider is enough for the query to return a slider |
| HomePage.ServerStoredSlides | src/pages/index.tsx:307-313 | with an active slider stored the page gets one to three stored active slides, by ascending order |
| HomePage.ServerAutoSlides | src/pages/index.tsx:315-333 | with no active slider the page gets one slide per newest product (at most three), keyed `auto-i`, order `i`, active, with the product's id and first image |
| HomePage.AutoKeysDistinct | src/pages/index.tsx:324 | two synthesised slides never share a key |
| HomePage.ServerFailure | src/pages/index.tsx:336-339 | a failed load gives no products and no slides |
| HomePage.NextSlide | src/pages/index.tsx:58 | the next index stays below the number of slides and wraps from the last slide to the first |
| HomePage.CarouselCycles | src/pages/index.tsx:54-59 | `n` ticks from the first slide visit every slide in order and return to the first |
| HomePage.HomeView.constructor | src/pages/index.tsx:22-29 | the first slide, auto-sliding, blank search, category `all`, every product shown |
| HomePage.HomeView.ApplyFilters | src/pages/index.tsx:31-50 | the shown products become the filter of the products by the current search and category; nothing else changes |
| HomePage.HomeView.SetSearch | src/pages/index.tsx:27-50 | the search is replaced and the shown products recomputed |
| HomePage.HomeView.SetFilter | src/pages/index.tsx:28-50 | the category is replaced and the shown products recomputed |
| HomePage.HomeView.Tick | src/pages/index.tsx:54-59 | with auto-sliding on and slides present the slide advances by one modulo their number; otherwise nothing changes |
| HomePage.HomeView.GoToSlide | src/pages/index.tsx:64-66 | the chosen slide becomes current and auto-sliding pauses |
| HomePage.HomeView.Resume | src/pages/index.tsx:68-74 | auto-sliding resumes on the current slide |
| ShopPage.ArrangedMembers | src/pages/shop.tsx:14-42 | an arranged list holds exactly the shown products and never more than the products |
| ShopPage.PriceOrders | src/pages/shop.tsx:33-39 | `price-low` gives ascending prices, `price-high` descending prices, `newest` descending creation times |
| ShopPage.SortedCopy | src/pages/shop.tsx:33-39 | sorting the effect's own array in place yields the stable sort of the filtered products by the key |
| ShopPage.TiesKeepOrder | src/pages/shop.tsx:33-39 | products the chosen order cannot tell apart keep the order of the filtered catalogue |
| Ordering.SortInPlace | src/pages/shop.tsx:33-39 | the array ends as the stable sort of its old contents, sorted and a permutation |
| Ordering.SortByStable | src/pages/shop.tsx:33-39 | the elements sharing a key appear in the sorted list in their original order |
| ShopPage.ServerProducts | src/pages/shop.tsx:150-160 | every stored product, newest first |
| ShopPage.ShopView.constructor | src/pages/shop.tsx:9-12 | category `all`, sort `newest`, blank search, every product shown |
| ShopPage.ShopView.ApplyFilters | src/pages/shop.tsx:14-42 | the shown list becomes the stable sort of the filtered products by the chosen key (sorted, a permutation, ties in catalogue order), or the filtered products in order when the sort is unknown |
| ShopPage.ShopView.SetFilter | src/pages/shop.tsx:14-42 | the category is replaced and the list re-arranged |
| ShopPage.ShopView.SetSort | src/pages/shop.tsx:14-42 | the sort is replaced and the list re-arranged |
| ShopPage.ShopView.SetSearch | src/pages/shop.tsx:14-42 | the search is replaced and the list re-arranged |
| ProductCard.BadgeFor | src/components/ProductCard.tsx:19-20 | sold out exactly when stock ≤ 0, few left exactly when 0 < stock < 5, plenty exactly when stock ≥ 5 |
| ProductCard.BadgesExclusive | src/components/ProductCard.tsx:19-20 | no product is both out of stock and low on stock, and every stock falls in one class |
| ProductCard.ImageSrc | src/components/ProductCard.tsx:22-24 | the first image unless it is missing, empty or failed to load, in which case the fallback URL; never empty |
| AdminSliders.OrderOr | src/pages/api/admin/sliders/index.ts:78 | a given non-zero order is kept, a missing or zero order becomes the current count |
| AdminSliders.PostDefaults | src/pages/api/admin/sliders/index.ts:73-80 | a body with an image creates an active slider with that image, no product, title or subtitle unless given, and the count as order unless one is given |
| AdminSliders.PostNeedsImage | src/pages/api/admin/sliders/index.ts:73-80 | a body without an image fails validation |
| AdminSliders.Handle | src/pages/api/admin/sliders/index.ts:8-92 | non-admins get 403 and nothing changes; GET lists the sliders by order, or fills an empty collection with Populated sliders for the three newest products, or refuses with 500 when one of those has no image; POST refuses a fourth slider with 400 and otherwise creates exactly one; other methods get 405 |
| AdminSliders.List | src/pages/api/admin/sliders/index.ts:17-57 | a non-empty collection is listed unchanged by order; an empty one is filled with the Populated sliders of the up to three newest products, or stays empty with a 500 when one of them has no image |
| AdminSliders.Populate | src/pages/api/admin/sliders/index.ts:28-51 | slider `i` is stored and returned for the `i`-th newest product (at most three): its id, first image and name, the subtitle "â‚¹" plus the formatted price as written, order `i`, active, the `i`-th id; it succeeds exactly when each of those products has an image, and a failure stores nothing |
| AdminSliders.Latest | src/pages/api/admin/sliders/index.ts:29-32 | at most three products, newest first, all stored, none older than a stored product left out |
| AdminSliders.StoredHeroes | src/pages/api/admin/sliders/index.ts:35-45 | sliders saved one per hero input with the misencoded sign are the Populated listing, and every product behind them has an image |
| AdminProducts.CreateInput | src/pages/api/admin/products/index.ts:77-86 | the create input passes the images, leaves the brand to its default and turns absent size and color lists into empty lists |
| AdminProducts.Post | src/pages/api/admin/products/index.ts:69-96 | a body without images gets 400 and changes nothing; a product is created, and appended as the only change, exactly when the schema accepts it and its name and slug are free; it has the default brand and is well formed |
| AdminProducts.AbsentListsDefault | src/pages/api/admin/products/index.ts:82-83 | a product created without sizes and colors stores empty lists |
| AdminProducts.NotifySubscribers | src/pages/api/admin/products/index.ts:25-48 | the recipients are exactly the active subscribers' emails, and nobody when the lookup fails |
| AdminProducts.Handle | src/pages/api/admin/products/index.ts:50-101 | non-admins get 403 and nothing changes; GET lists every product newest first; POST is the create above; other methods get 405; a created product is announced to exactly the active subscribers when their lookup succeeds, and no other reply announces anything |
| AddProduct.NumberOf | src/pages/admin/add-product.tsx:38-39 | `Number` on an integer string: blank is 0, digits are their value, a negative result needs a leading `-` |
| AddProduct.NumberOfDecimal | src/pages/admin/add-product.tsx:38-39 | the decimal digits of a number read back as that number |
| AddProduct.NumberOfPadded | src/pages/admin/add-product.tsx:38-39 | spaces around the digits do not change the number |
| AddProduct.ParseSizes | src/pages/admin/add-product.tsx:40 | one entry per comma-separated piece, each trimmed and upper-cased |
| AddProduct.ParseColors | src/pages/admin/add-product.tsx:41 | one entry per comma-separated piece, each trimmed and lower-cased |
| AddProduct.CleanPiece | src/pages/admin/add-product.tsx:40-41 | a parsed entry has no comma and no space at either end |
| AddProduct.SizesShape | src/pages/admin/add-product.tsx:40 | every parsed size is clean and has no lower-case letter |
| AddProduct.ColorsShape | src/pages/admin/add-product.tsx:41 | every parsed color is clean and has no upper-case letter |
| AddProduct.ParseSizesJoin | src/pages/admin/add-product.tsx:40 | joining clean upper-case sizes with commas and parsing gives them back |
| AddProduct.ParseColorsJoin | src/pages/admin/add-product.tsx:41 | joining clean lower-case colors with commas and parsing gives them back |
| AddProduct.ParseSizesIdempotent | src/pages/admin/add-product.tsx:40 | parsing the joined parse of a field gives the same sizes |
| AddProduct.EmptySizesField | src/pages/admin/add-product.tsx:40-41 | an empty field parses to one empty entry, not to no entry |
| AddProduct.AcceptedAppend | src/pages/admin/add-product.tsx:14-28 | one more file adds its data URL when it is at most 5 MB, and one alert otherwise |
| AddProduct.AcceptedCount | src/pages/admin/add-product.tsx:14-28 | every chosen file is either read or alerted about |
| AddProduct.AcceptedMembers | src/pages/admin/add-product.tsx:14-28 | a data URL is read exactly when some chosen file of at most 5 MB has it |
| AddProduct.AddProductPage.constructor | src/pages/admin/add-product.tsx:6-10 | the empty form with category Men, no images, not loading |
| AddProduct.AddProductPage.ChooseFiles | src/pages/admin/add-product.tsx:14-28 | the accepted files' data URLs are appended to the images and one alert is raised per oversized file |
| AddProduct.AddProductPage.Submit | src/pages/admin/add-product.tsx:30-43 | without images only the alert is raised; otherwise the request body is built from the form and loading starts |
| AddProduct.AddProductPage.Respond | src/pages/admin/add-product.tsx:45-65 | loading stops; success resets the form and images with the success alert; a refusal alerts the server's message or the fallback text; a network error alerts the connection message |
| Middleware.Decide | src/middleware.ts:4-33 | outside the four guarded areas nothing happens; inside, no token means sign-in, a non-admin token under /admin is redirected home, and every other token passes |
| Middleware.AdminPasses | src/middleware.ts:11 | an admin token passes every guarded path |
| Middleware.TokenPassesOutsideAdmin | src/middleware.ts:20-31 | any token passes the orders, success and checkout areas |
| Middleware.AdminAreaRedirects | src/middleware.ts:11-28 | a non-admin token under /admin/ is redirected home |
| Middleware.StorefrontUnguarded | src/middleware.ts:26-33 | the home page and the shop are not guarded |
| Newsletter.CreateSubscriber | src/pages/api/newsletter/subscribe.ts:5-40 | the insert succeeds exactly when the normalised email is non-empty and not yet stored, and stores it active |
| Newsletter.CreateKeepsValid | src/pages/api/newsletter/subscribe.ts:9-11 | an insert keeps every stored email normalised and distinct |
| Newsletter.SubscribeOutcomes | src/pages/api/newsletter/subscribe.ts:18-50 | only a 201 adds a subscriber, exactly one, normalised and active; 405 exactly for non-POST; every other reply changes nothing; the collection stays valid; the only 500 is an email of spaces alone |
| Newsletter.CaseDuplicate | src/pages/api/newsletter/subscribe.ts:33-37 | an email that differs from a stored one only in case is refused as already listed |
| Newsletter.PaddedDuplicate | src/pages/api/newsletter/subscribe.ts:5-37 | a stored email sent again with a leading space is found, because the lookup value passes the schema's trim setter, and is refused with 400 as already listed |
| Newsletter.LookupKey | src/pages/api/newsletter/subscribe.ts:5-33 | the lookup value after the handler's lower-casing and the schema's setters is the normalised email the insert would store |
| Newsletter.NewsletterCollection.constructor | src/pages/api/newsletter/subscribe.ts:16 | an empty collection |
| Newsletter.NewsletterCollection.FindOne | src/pages/api/newsletter/subscribe.ts:33 | found exactly when a stored subscriber has the key |
| Newsletter.NewsletterCollection.Create | src/pages/api/newsletter/subscribe.ts:40 | the reply is the insert's result, appended exactly when it succeeds |
| Newsletter.NewsletterCollection.ActiveEmails | src/pages/api/admin/products/index.ts:27-31 | exactly the emails of the active subscribers |
| Newsletter.HandleSubscribe | src/pages/api/newsletter/subscribe.ts:18-50 | the reply and the new collection are those of the handler's specification |
| Newsletter.AppendNormalized | src/pages/api/newsletter/subscribe.ts:40 | appending a subscriber whose email is already trimmed and lower-cased keeps every stored email normalised |
| Newsletter.AppendDistinct | src/pages/api/newsletter/subscribe.ts:40 | appending a subscriber with an email not yet stored keeps the emails unique |
| CartContext.AddToCart | src/context/CartContext.tsx:57-72 | adding a line already in the bag (same product id and size) keeps the length and raises every matching line's quantity by one; a new line is appended with quantity 1; other lines are untouched |
| CartContext.UpdateQuantity | src/context/CartContext.tsx:74-85 | the length is kept, non-matching lines are untouched, and a matching line changes only in quantity, to its quantity plus the delta, or 1 when that sum is below 1 |
| CartContext.RemoveFromCart | src/context/CartContext.tsx:87-89 | the result holds no line for that id and size, is an order-preserving subsequence of the bag, and holds every other line exactly as many times as the bag did |
| CartContext.ClearCart | src/context/CartContext.tsx:91-95 | the bag is emptied when the shopper confirms and left as it was otherwise |
| CartContext.AddKeepsUnique | src/context/CartContext.tsx:57-72 | adding never creates a second line for the same id and size |
| CartContext.LineIndex | src/context/CartContext.tsx:59-61 | in a bag without duplicate lines, a present id and size sit at exactly one index |
| CartContext.AddExistingTotals | src/context/CartContext.tsx:63-99 | adding a line already in the bag raises the item count by one and the total by that line's price |
| CartContext.AddNewTotals | src/context/CartContext.tsx:70-99 | adding a new line appends it with quantity 1, raising the count by one and the total by its price |
| CartContext.RemoveUndoesAdd | src/context/CartContext.tsx:70-89 | removing a freshly added line gives back the bag as it was before |
| CartContext.UpdateTotals | src/context/CartContext.tsx:74-99 | an update keeps lines unique and changes the item count by the clamped new quantity minus the old |
| CartContext.UpdateAbsent | src/context/CartContext.tsx:74-85 | updating a line that is not in the bag changes nothing |
| CartContext.TotalsNonNegative | src/context/CartContext.tsx:98-99 | with non-negative prices and quantities the total and the count are non-negative, and both are 0 for an empty bag |
| CartContext.CartProvider.constructor | src/context/CartContext.tsx:26-27 | the provider starts with an empty bag, not yet initialised |
| CartContext.CartProvider.Load | src/context/CartContext.tsx:30-44 | a stored array becomes the bag; unparsable data is removed from storage and the bag kept; a missing or non-array value changes nothing; the provider is then initialised |
| CartContext.CartProvider.Persist | src/context/CartContext.tsx:47-55 | once initialised the bag is written to storage; before that storage is untouched |
| CartContext.CartProvider.Add | src/context/CartContext.tsx:57-72 | the bag becomes AddToCart of the old bag |
| CartContext.CartProvider.Update | src/context/CartContext.tsx:74-85 | the bag becomes UpdateQuantity of the old bag |
| CartContext.CartProvider.Remove | src/context/CartContext.tsx:87-89 | the bag becomes RemoveFromCart of the old bag |
| CartContext.CartProvider.Clear | src/context/CartContext.tsx:91-95 | the bag becomes ClearCart of the old bag and the confirmation answer |
| CartPage.GetEmail | src/pages/cart.tsx:29 | the signed-in email is used when it is non-empty, the guest email otherwise |
| CartPage.CardGuards | src/pages/cart.tsx:31-39 | an empty bag does nothing; a missing email gives the email toast; otherwise the card checkout request carries the bag and the email |
| CartPage.CodGuards | src/pages/cart.tsx:58-75 | an empty bag does nothing; then the email, the four address fields and the phone are checked in that order, each with its own toast; only when all are present is the cash-on-delivery request sent |
| CartPage.AddressBeforePhone | src/pages/cart.tsx:67-75 | while the address is incomplete the phone number does not change the outcome |
| CartPage.Checkout | src/pages/cart.tsx:103-109 | the chosen payment method selects the card or the cash-on-delivery guards |
| CartPage.NoEmailNoRequest | src/pages/cart.tsx:29-62 | a guest without a session email who typed none never sends a checkout request |
| CartPage.ButtonsAsWrittenCounterexample | src/pages/cart.tsx:168-175 | the plus button on a line of quantity 1 gives 3 and the minus button on quantity 2 gives 3 |
| CartPage.ButtonsAsWritten | src/pages/cart.tsx:168-175 | as written, the plus button sets quantity q to 2q+1 and the minus button to 2q-1 |
| CartPage.ButtonsStepByOne | src/pages/cart.tsx:168-175 | with deltas of +1 and -1 the buttons change only the pressed line by one step, minus stops at 1, and minus undoes plus |
| CartPage.CheckoutPage.constructor | src/pages/cart.tsx:10-21 | the page starts idle, without a toast, paying by card, with empty guest email and address |
| CartPage.CheckoutPage.HandleCheckout | src/pages/cart.tsx:31-109 | a sent request sets loading; a failed guard shows its error toast; an empty bag does nothing; the form fields are unchanged |
| CartPage.CheckoutPage.CodResponse | src/pages/cart.tsx:89-100 | a success shows the success toast and clears the bag subject to confirmation; a failure shows the upper-cased message (default `COD Order Failed`) and stops loading |
| CartPage.CheckoutPage.CardResponse | src/pages/cart.tsx:48-55 | an ok reply with a URL redirects there; anything else shows the upper-cased message (default `Checkout Failed`) and stops loading |
| CartPage.CheckoutPage.PressPlus | src/pages/cart.tsx:175 | the bag becomes PlusAsWritten of the old bag: the pressed line's quantity plus one is applied as a change, so quantity q becomes 2q+1 (ButtonsAsWritten) |
| CartPage.CheckoutPage.PressMinus | src/pages/cart.tsx:168 | the bag becomes MinusAsWritten of the old bag: `max(0, q - 1)` is applied as a change, so quantity q >= 1 becomes 2q-1 (ButtonsAsWritten) |
| CodCheckout.StepPriced | src/pages/api/checkout/cod.ts:33-58 | a step that prices an item found the product, saw enough stock, took the quantity off that product only, appended the line at the catalogue price and added price times quantity to the total |
| CodCheckout.StepTakes | src/pages/api/checkout/cod.ts:40-58 | with the product present and enough stock, the step prices the item and takes the stock |
| CodCheckout.WalkPrefix | src/pages/api/checkout/cod.ts:32 | the walk over the first i+1 items is one step after the walk over the first i |
| CodCheckout.RefusalSticks | src/pages/api/checkout/cod.ts:35-42 | once an item is refused, the remaining items change nothing |
| CodCheckout.WalkShape | src/pages/api/checkout/cod.ts:32-59 | a priced walk yields one line per item and changes nothing in the catalogue but stock |
| CodCheckout.WalkSums | src/pages/api/checkout/cod.ts:44-58 | the total is the sum of the line amounts, and the catalogue's stock falls by exactly the ordered quantities |
| CodCheckout.WalkUsesCatalogue | src/pages/api/checkout/cod.ts:33-53 | each line of a priced walk carries the catalogue product's id, name and price with the item's quantity and size |
| CodCheckout.WalkKeepsStock | src/pages/api/checkout/cod.ts:40-58 | a walk never drives a product's stock below zero when none was negative before |
| CodCheckout.StepRefused | src/pages/api/checkout/cod.ts:35-42 | a refused step keeps the catalogue and names the item as not found or out of stock |
| CodCheckout.WalkRefused | src/pages/api/checkout/cod.ts:32-59 | a refused walk stops at an item whose prefix was priced, keeps the stock already taken for that prefix, and gives the not-found or out-of-stock message for that item |
| CodCheckout.NoRollback | src/pages/api/checkout/cod.ts:40-58 | two lines of the same product whose sum exceeds the stock are refused at the second, after the first line's stock is already taken |
| CodCheckout.HandleOutcomes | src/pages/api/checkout/cod.ts:7-89 | the reply is 201, 400, 405 or 500; 405 exactly for a non-POST, touching nothing; an order is created exactly on 201, as a pending cash-on-delivery order in processing for the session or body email, with the priced lines' total, the walked stock, and its id in the reply |
| CodCheckout.EmptySizeAfterTaking | src/pages/api/checkout/cod.ts:51-87 | a line without a size passes the walk but fails the order's validation with 500, after the stock is already taken |
| CodCheckout.AddressDefaults | src/pages/api/checkout/cod.ts:70-77 | a missing shipping address becomes empty fields with country `IN` |
| CodCheckout.TakeStock | src/pages/api/checkout/cod.ts:29-59 | the loop's outcome is the walk over the items, and the catalogue is left with the walked stock |
| CodCheckout.HandleCod | src/pages/api/checkout/cod.ts:7-89 | the reply, the catalogue and the order collection are those of the handler function: one new order exactly when one is created |
| Otp.GenerateOtp | src/lib/email.ts:12-14 | a draw in [0, 1) gives a code between 100000 and 999999 |
| Otp.GenerateOtpOnto | src/lib/email.ts:12-14 | every code in that range is produced by some draw |
| Otp.SixDigits | src/lib/email.ts:12-14 | every code in that range has exactly six decimal digits |
| Otp.OtpString | src/lib/email.ts:13 | the code's string is six digits without a leading zero and reads back as the drawn number |
| Otp.OtpExpiry | src/lib/email.ts:17-19 | a code expires five minutes (300000 ms) after it is issued |
| Otp.LiveWindow | src/pages/api/auth/verify-otp.ts:37-39 | a code issued at t is live exactly before t + 300000 ms |
| Account.RegisterOutcomes | src/pages/api/auth/register.ts:7-78 | the reply is 201, 400, 405 or 500; 405 exactly for a non-POST; only a 201 adds a user, exactly one, appended, and only when the code mail went out and every field was given |
| Account.RegisteredUser | src/pages/api/auth/register.ts:22-64 | the new user has the lower-cased, trimmed email, the hashed password, the code and its expiry, is unverified with role `user`, is well formed, and no earlier user had that email |
| Account.RegisterConflict | src/pages/api/auth/register.ts:25-35 | an existing user with that email or the trimmed phone gives 400 and no change; the message names EMAIL or PHONE, and EMAIL when no user has the phone |
| Account.VerifyOutcomes | src/pages/api/auth/verify-otp.ts:5-65 | verification succeeds exactly for a POST with an email and a code naming an unverified user who holds that live code; it then marks that user verified and clears the code, and otherwise changes nothing |
| Account.VerifyCheckOrder | src/pages/api/auth/verify-otp.ts:32-43 | an already verified user is refused as such before the code is compared, and a wrong code is refused before expiry is looked at |
| Account.VerifyOnce | src/pages/api/auth/verify-otp.ts:32-54 | a successful verification cannot be repeated: the same request is then refused as already verified |
| Account.IndexOfEmailUpdate | src/pages/api/auth/verify-otp.ts:25-54 | saving a user under the same email leaves every lookup by email unchanged |
| Account.IndexOfEmailAppend | src/pages/api/auth/register.ts:56-64 | a user appended with a fresh email is found at the end |
| Account.RegisterThenVerify | src/pages/api/auth/register.ts:56-64 | registering and then submitting the mailed code before it expires verifies the account |
| Account.VerifyFresh | src/pages/api/auth/verify-otp.ts:41-58 | an unverified user holding the submitted live code is verified with 200 |
| Account.ForgotOutcomes | src/pages/api/auth/forgot-password.ts:14-64 | an unknown email gets the same 200 reply and no change; an unverified account gets 400; a verified one is issued the new code and expiry, with 200 when the mail went out and 500 otherwise |
| Account.ForgotStatusHidesAccount | src/pages/api/auth/forgot-password.ts:25-64 | an unknown email and a known verified one both get status 200 |
| Account.ResetOutcomes | src/pages/api/auth/reset-password.ts:6-63 | a reset succeeds exactly for a POST with all fields naming a user holding that live code; it then stores the new hashed password, clears the code and keeps the verified flag, and otherwise changes nothing |
| Account.ForgotThenReset | src/pages/api/auth/forgot-password.ts:46-48 | a reset with the code just issued succeeds before expiry, and the same code is refused as invalid afterwards |
| Account.HandleRegister | src/pages/api/auth/register.ts:7-78 | the reply and the users collection are those of the register function with a drawn code and an expiry five minutes on |
| Account.HandleVerifyOtp | src/pages/api/auth/verify-otp.ts:5-65 | the reply and the users collection are those of the verify function |
| Account.HandleForgotPassword | src/pages/api/auth/forgot-password.ts:6-73 | the reply and the users collection are those of the forgot-password function with a drawn code and an expiry five minutes on |
| Account.HandleResetPassword | src/pages/api/auth/reset-password.ts:6-63 | the reply and the users collection are those of the reset function |
| ResetPasswordPage.CodeInput | src/pages/auth/reset-password.tsx:123-124 | the code field keeps only digits, at most six |
| ResetPasswordPage.CodeInputKeepsCodes | src/pages/auth/reset-password.tsx:123-124 | a code of up to six digits is kept as typed, and filtering twice is filtering once |
| ResetPasswordPage.EnabledMeansFullCode | src/pages/auth/reset-password.tsx:158 | while idle, the submit button is enabled exactly when six digits have been entered |
| ResetPasswordPage.PasswordError | src/pages/auth/reset-password.tsx:31-41 | differing passwords are reported first, then a password under six characters; there is no error exactly when they match and are long enough |
| ResetPasswordPage.ResetPasswordView.constructor | src/pages/auth/reset-password.tsx:10-16 | the form starts empty and idle, with the email from the query or empty |
| ResetPasswordPage.ResetPasswordView.EnterCode | src/pages/auth/reset-password.tsx:123 | typing sets the code to its filtered form and changes nothing else |
| ResetPasswordPage.ResetPasswordView.Submit | src/pages/auth/reset-password.tsx:26-48 | a request with the email, code and new password is sent exactly when the passwords pass the checks, with loading on and no toast; otherwise the error toast is shown and loading is off |
| ResetPasswordPage.ResetPasswordView.Respond | src/pages/auth/reset-password.tsx:50-64 | loading ends; an unreachable server gives the connection toast, success the success toast, failure the server's message or `RESET FAILED` |
| Profile.ApplyUpdate | src/pages/api/auth/profile.ts:43-46 | a given name, or a given phone after trimming, replaces the stored one, a given address replaces the stored address, and nothing else changes |
| Profile.ProfileOutcomes | src/pages/api/auth/profile.ts:6-61 | without a session email the reply is 401; other than GET and PUT the reply is 405; only a PUT changes anything, and then only the signed-in user, by ApplyUpdate, keeping the email, password, code and role |
| Profile.PhoneConflict | src/pages/api/auth/profile.ts:32-40 | a trimmed phone held by another user than the session's (normalised) email refuses the update with 400 and no change |
| Profile.ProfileHidesSecrets | src/pages/api/auth/profile.ts:17-52 | the profile reply is the same whatever the password and code, so neither is disclosed |
| Profile.IndexOfEmailSameEmails | src/pages/api/auth/profile.ts:48-49 | two collections with the same emails in the same order find the same user by email |
| Profile.Handle | src/pages/api/auth/profile.ts:6-61 | the reply and the users collection are those of the profile function |
| AdminOrders.ApplyStatus | src/pages/api/admin/orders.ts:35-37 | a non-empty order status or payment status replaces the stored one; every other field is kept |
| AdminOrders.PutOutcomes | src/pages/api/admin/orders.ts:29-45 | the collection keeps its size; a missing id gives 400 and no change; a given id gives 404 exactly when no order has it and an update otherwise; the reply's order is ApplyStatus of the stored order with that id, and it replaces that order and nothing else |
| AdminOrders.PutKnownOrder | src/pages/api/admin/orders.ts:39-45 | an id present in the collection is always updated, and a body without statuses leaves the orders as they were |
| AdminOrders.PutBypassesEnums | src/pages/api/admin/orders.ts:39 | the update stores an order status outside the schema's enumeration, since update validators are not run |
| AdminOrders.Handle | src/pages/api/admin/orders.ts:5-53 | a non-admin gets 403 and no change; GET lists a newest-first permutation of the orders; PUT is the update function; any other method gets 405 and no change |
| AdminStats.FilterType | src/pages/api/admin/stats.ts:19-20 | a missing or empty filter reads as `all`; any other is kept |
| AdminStats.Bound | src/pages/api/admin/stats.ts:26-43 | `today`, `week` and `month` select the start of today, of the last seven days and of the last month; every other filter has no lower bound |
| AdminStats.Rows | src/pages/api/admin/stats.ts:122-139 | the projection keeps one row per order, in order |
| AdminStats.Handle | src/pages/api/admin/stats.ts:8-149 | a non-admin gets 403, a non-GET 405, a failed query 500 with its message; the report is given exactly for an admin GET without failure, with the given product count |
| AdminStats.UnknownFilterIsAll | src/pages/api/admin/stats.ts:20-42 | a missing or unknown filter applies no date bound, so the report table is every order, and a missing one is echoed as `all` |
| AdminStats.RevenueAppend | src/pages/api/admin/stats.ts:46-59 | one more order raises the revenue by its amount exactly when it is paid and in range |
| AdminStats.RevenueEmpty | src/pages/api/admin/stats.ts:112 | with no paid order in range the revenue is 0 |
| AdminStats.RevenueNonNegative | src/pages/api/admin/stats.ts:46-59 | with non-negative amounts the revenue is non-negative |
| AdminStats.PaymentCountsCover | src/pages/api/admin/stats.ts:62-73 | when every order in range has a schema payment status, the pending, paid and failed counts add up to the orders in range |
| AdminStats.LogisticsCountsCover | src/pages/api/admin/stats.ts:76-91 | the four logistics counts plus the returned orders add up to the orders in range |
| AdminStats.ReturnedUncounted | src/pages/api/admin/stats.ts:76-91 | a returned order changes none of the four logistics counts |
| AdminStats.TotalMatchesReport | src/pages/api/admin/stats.ts:104-113 | when every payment status is a schema value, the total order count equals the length of the report table |
| AdminStats.AllOrdersSpec | src/pages/api/admin/stats.ts:104-107 | the report table is newest first, holds the row of every order in range and only rows of orders in range |
| AdminStats.RowsNewestFirst | src/pages/api/admin/stats.ts:97-99 | the rows of a prefix of a newest-first list are newest first |
| AdminStats.RecentSpec | src/pages/api/admin/stats.ts:97-101 | the recent table holds at most ten rows (all orders when fewer), newest first, and every order left out is no newer than any shown |
| AdminStats.RecentIgnoresFilter | src/pages/api/admin/stats.ts:97 | the recent table does not depend on the filter |

## Left out

- Card payments are not part of this model: the payment-provider session, its webhook and the money conversions they perform.
- Image hosting, the database connection, and the session and token retrieval are not part of this model.
  - The admin check and the middleware see the session or token as an input.
  - The store's failures appear as a boolean or an error message parameter where the handler reacts to them.
- Password hashing is an opaque function `hash` given as a parameter. Mail delivery is a boolean `sent`.
  - `Math.random()` is a real number in [0, 1) given as a parameter.
  - `Date.now()` is an integer number of milliseconds given as a parameter.
- AdminStats.Bound: the calendar arithmetic of the `today`, `week` and `month` bounds is not modelled. The three start times are inputs (`Clock`), and only the choice between them is modelled.
- AdminStats.Handle: the product count is an input. The source counts products with `isActive: true`, but the product schema has no such field, so that count is whatever the store returns.
- Price formatting with `toLocaleString('en-IN')` is a parameter `formatPrice`, and every other locale or date formatting is left out.
- Timers are not modelled.
  - The carousel's interval and the toast auto-hide are left out.
  - The delayed redirects after checkout and password reset are left out.
  - Only the state each timer step produces is modelled.
- `localStorage` is the field `storage` of `CartContext.CartProvider`. A write that the browser refuses is not modelled, because the source only logs it.
- `window.confirm` is a boolean input of `ClearCart`.
- Toasts, alerts and navigation are modelled as the values the page stores, not as rendering.
- The home page's own newsletter form (src/pages/index.tsx:76-103) is not part of this model. The subscribe endpoint it calls is modelled.
- The store runs a schema path's `lowercase` and `trim` setters on query and update values as well as on inserts. The model applies them wherever a handler queries or updates such a path: the newsletter email, and the user email and phone in registration and the profile. Other query casting (ids, numbers, dates) is not modelled.
- A malformed id is not modelled: the store would raise a cast error for it. Ids are opaque strings, and an unknown id behaves as "not found".
- The store does not run update validators on `findByIdAndUpdate` and `findOneAndUpdate`, so the model applies partial updates without schema validation, as the source does. `AdminOrders.PutBypassesEnums` exhibits the consequence.
- AddProduct.NumberOf: `Number` is modelled only on blank strings and optionally signed decimal integers. Fractions, exponents, hexadecimal and `Infinity` are `None`, because prices and stock are whole numbers here.
- Concurrency is not modelled, because every handler runs as one sequential request. The races between the stock check and its decrement, and between the slider count and its insert, are out of scope.
- AdminProducts.Post, AdminProducts.Handle, AdminSliders.SaveMessage, CodCheckout.Handle: where the source answers 500 with the store's own `error.message`, the model puts a fixed stand-in text ("validation failed", "duplicate key", "store failure", "Order validation failed"), because the store's wording is not part of this model. The status and the kind of failure that leads to the reply are modelled; the exact message is not.
- Each handler's catch-all 500 for an unexpected exception is modelled only where the source's own checks can raise one (a failed validation on save). A store outage is not modelled.
- Unicode handling is not modelled. Strings are sequences of characters, and case mapping covers ASCII letters only.

## Findings

| source | as written | input that shows it | evidently intended | confidence | as-written member | corrected member |
|---|---|---|---|---|---|---|
| src/pages/cart.tsx:168-175 | the "+" and "-" buttons pass the target quantity (`quantity + 1`, `max(0, quantity - 1)`) where `updateQuantity` expects a change, so "+" takes q to 2q+1 and "-" takes q to 2q-1 | a line of quantity 1 goes to 3 on "+"; a line of quantity 2 goes to 3 on "-" | "+" adds one and "-" removes one, never below 1 | not executed | CartPage.ButtonsAsWrittenCounterexample | CartPage.ButtonsStepByOne |
| src/pages/api/admin/sliders/index.ts:39 | the auto-populated subtitle starts with the three characters "â‚¹", the rupee sign's UTF-8 bytes read as Windows-1252, while the storefront's own synthesis at src/pages/index.tsx:328 writes "₹" | any product, when the admin listing starts from no slider | the subtitle starts with the rupee sign "₹", as on the storefront | not executed | Listing.AdminSubtitleMisencoded | HomePage.HeroSubtitlesAgree |
