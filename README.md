# Vape del Este storefront — a verified model

Vape del Este is an online vape shop. It has a React storefront, Netlify serverless functions that talk to Mercado
Pago, and a Gemini-based product advisor and chat widget. This project models the rules the storefront applies itself and proves properties of them in Dafny:

- **Prices.** The storefront parses a catalog price such as `"$U 1.450"` into a number. The parser strips the first `"$U "` (or `"$U"`), deletes the first `"."`, then reads the leading digits (`Price`).
- **Browsing.**
  - The catalog filter by category, brand and price ceiling, with category and brand filters that exclude each other.
  - The secret five-click admin gate, the FAQ accordion, the views of the app, and adding reviews (`Catalog`).
  - The compare list of at most three products (`Compare`).
  - The comparison table (`Comparison`).
  - Average ratings, star rows and the review form (`Reviews`).
  - The hero carousel (`Hero`).
- **Session.** Login, logout, merge-update and append-order on the signed-in user, persisted under the `user` key of session storage (`Auth`). The login form's email-to-name rule (`LoginForm`). The profile editor and purchase history (`Profile`).
- **Checkout and payment.**
  - The checkout page: validation, the Pending order snapshot, the pending-order key and the payment lines (`Checkout`).
  - Both versions of the payment-session function, including the later one's write-before-request order (`Gateway`).
  - The payment webhook: method dispatch, positional `x-signature` parsing, the signed manifest, and the status-only write of `Processing` (`Webhook`, `Orders`).
  - The return and confirmation pages (`PaymentPages`).
- **Back office.**
  - The admin panel: order de-duplication, stock notices and badges, stats, status changes and the editor's stock field (`Admin`).
  - The best sellers (`Sales`).
  - The product store: seed-once marker, listing sorted by id, next id = max + 1, delete (`ProductStore`).
- **Language model.**
  - The prompts' product list, and the acceptance rules for the advisor's recommendations and for the upsell suggestion, with the upsell window (`Gemini`).
  - The advisor's step machine (`Advisor`).
  - The chat widget's stream fold with `[HANDOFF]` detection (`Chat`).

Stateful parts are Dafny classes whose fields are the component's state and whose methods are its handlers. Rules that only compute are functions and lemmas. JavaScript semantics are written out wherever they matter:

- truthiness of `""` and `undefined`;
- `String.prototype.replace` replacing only the first occurrence;
- `split`/`join`;
- `trim` over JavaScript's whitespace set;
- `parseInt`/`parseFloat` reading leading digits;
- an undefined chunk text appended as `"undefined"`;
- `Math.round` rounding halves up.

These built-ins are written out in `Text` and `Seqs`, with their own lemmas (`Text.SplitJoin`, `Text.TrimIdempotent`, `Text.ParseIntOfIntToString`, …). They model the language, not this repository, so the table below has rows only for the members that use them.

The cart comes from a context module that is not part of this model. The cart is an input sequence, and the cart operations a page asks for are recorded as abstract calls (`Types.CartCall`). The store, the payment gateway, the language model, `JSON.parse`, HMAC, clocks and random ids are parameters.

Points where the code's own parts do not line up, and what the model does about them:

- **Order statuses.** The client's order type (`types.ts:58`) admits only Pending, Shipped, Delivered and Cancelled, yet the webhook (`netlify/functions/webhook.ts:78`) writes `Processing`. The model has one status type with all five values and the predicate `Types.IsClientStatus` for the client's four. `Webhook.WrittenStatusOutsideClientSet` proves that a webhook-written order falls outside that set.
- **Webhook writes.** The webhook writes only `Processing`, and only for approved payments; a rejected payment, like every other notification, writes nothing.
- **Seeding.** Seeding is guarded by the `seeded` marker alone, not by the collection being empty.
- **Order persistence.** The root payment function writes no order at all; the browser keeps the order in session storage. The later version writes the order before it asks for the session, as modelled in `Gateway.CreatePreferenceWithOrder`.

## Model

| member | source | states |
|---|---|---|
| Types.ReviewsOf | types.ts:19 | a missing review list reads as empty, a present one as itself |
| Types.OrdersOf | types.ts:66 | missing user orders read as empty, present ones as themselves |
| Types.ItemsFromCart | types.ts:41-49 | order items are a field-for-field copy of the cart lines, same length and order |
| Price.LineAmount | components/ProfilePage.tsx:133 | a line amount exists exactly when the unit price parses and is unit price times quantity |
| Price.PriceValueOfFormat | App.tsx:273 | every catalog-formatted price below a million parses back to its amount |
| Price.StrippedFormat | App.tsx:273 | removing the first "$U " then the first "." from a formatted price leaves its plain digits |
| Price.UnitPriceOfFormat | components/CheckoutPage.tsx:50 | the checkout's parseFloat reading of a formatted price is its amount |
| Price.UnitPriceNoSpaceOfFormat | vape-del-este-d2e74b18866b8a84b168d9021067cf10ed29f83e/components/OrderConfirmationPage.tsx:38 | stripping "$U" without the space still reads a formatted price as its amount |
| Price.CatalogPriceExample | App.tsx:273 | "$U 1.450" parses to 1450 |
| Price.MillionReadsAsThousand | App.tsx:273 | "$U 1.000.000" parses to 1000: only the first "." is removed |
| Price.FormatExample | vape-del-este-d2e74b18866b8a84b168d9021067cf10ed29f83e/constants.ts:10 | the catalog format of 1450 is "$U 1.450" |
| Catalog.FilterProducts | App.tsx:272-278 | a product is listed iff it is in the catalog and passes category, brand (case-insensitive contains) and parsed-price ceiling; the result is a subsequence in catalog order |
| Catalog.UnparseableNeverListed | App.tsx:272-278 | a product whose price does not parse is never listed |
| Catalog.OpenFiltersListParseable | App.tsx:272-278 | with no category or brand and a ceiling above every price, every parseable product is listed |
| Catalog.FilterIdempotent | App.tsx:272-278 | filtering twice with the same filters gives the same list |
| Catalog.FindById | App.tsx:247 | the position found is the first product with the id; none means no product has it |
| Catalog.WithReview | App.tsx:249-250 | the new review is prepended to the product's reviews (missing as empty) and nothing else changes |
| Catalog.ReplaceById | App.tsx:254 | products with the id are replaced by the update, all others kept, same length and order |
| Catalog.AddReviewPrepends | App.tsx:246-258 | after a review is added, the product with the id has it first, followed by its old reviews, and every other product is unchanged |
| Catalog.Faq.constructor | App.tsx:90 | the first FAQ item starts open |
| Catalog.Faq.Toggle | App.tsx:92-94 | after a click exactly the clicked item is open, unless it was open, in which case none is; at most one is open |
| Catalog.Storefront.Visible | App.tsx:272-278 | the visible products are exactly the catalog products passing the current filters |
| Catalog.Storefront.constructor | App.tsx:115-133 | the intro shows only without stored age verification; shop view, no filters, ceiling 4000, counter 0 |
| Catalog.Storefront.SecretClick | App.tsx:167-183 | each click increments the counter; the fifth switches to admin login and resets it; the counter stays in 0..4 |
| Catalog.Storefront.ClickTimeout | App.tsx:179-181 | the two-second timeout resets the counter and changes nothing else |
| Catalog.Storefront.SetCategory | App.tsx:199-201 | setting a category clears the brand filter; the two are never both set |
| Catalog.Storefront.SetBrand | App.tsx:202-205 | setting a brand clears the category filter |
| Catalog.Storefront.SetPriceCeiling | App.tsx:133 | the ceiling takes the value; the other filters are kept |
| Catalog.Storefront.LoadProducts | App.tsx:138-154 | the catalog becomes the store's listing, or the listing after seeding when the first is empty; a read that throws leaves the catalog as it was; nothing else changes |
| Catalog.Storefront.ViewProduct | App.tsx:288-298 | when a product has exactly that name, the brand filter becomes the name's first word and the category filter is cleared; an unknown name changes no filter; view, products and everything else are kept |
| Catalog.Storefront.PlaceOrder | App.tsx:219-239 | the order has the cart's lines, the cart total and Pending; it is added to the user only when signed in; the view becomes the confirmation with that id |
| Catalog.Storefront.ReturnToShop | App.tsx:241-244 | back to the shop with no order id |
| Catalog.Storefront.AddReview | App.tsx:246-258 | an unknown id or a refused store write leaves the products unchanged; otherwise only that product gains the review in front |
| Catalog.Storefront.AdminLogin | App.tsx:306-313 | only admin/admin authenticates and opens the panel; other credentials are rejected and change nothing |
| Catalog.Storefront.AdminLogout | App.tsx:315-318 | logout drops admin authentication and returns to the shop |
| Catalog.Storefront.VerifyAge | App.tsx:185-188 | age verification is recorded and nothing else changes |
| Catalog.Storefront.FinishIntro | App.tsx:190-192 | the intro is hidden and nothing else changes |
| Catalog.Storefront.Render | App.tsx:320-327 | the age gate comes first, then the intro; the admin login view renders the login; the admin panel view renders the panel exactly when authenticated, otherwise it switches to the login view and renders the login; every other view renders the main page of that view |
| Auth.LoadUser | contexts/AuthContext.tsx:24-32 | the initial user is the stored one when the key holds a readable user, otherwise none |
| Auth.Persist | contexts/AuthContext.tsx:34-40 | a user is written under "user", no user removes that key, every other key is untouched |
| Auth.LoadAfterPersist | contexts/AuthContext.tsx:24-40 | loading after persisting gives back the persisted user |
| Auth.PersistLoaded | contexts/AuthContext.tsx:24-40 | persisting what was loaded leaves a readable or absent stored user as it was |
| Auth.NewUser | contexts/AuthContext.tsx:43-52 | a new user has exactly the given name and email, currency UYU, an empty order list and the avatar for the name |
| Auth.Merge | contexts/AuthContext.tsx:58-60 | each supplied field overwrites, each missing one is kept |
| Auth.MergeEmpty | contexts/AuthContext.tsx:58-60 | an empty update changes nothing |
| Auth.MergeIdempotent | contexts/AuthContext.tsx:58-60 | applying the same update twice equals applying it once |
| Auth.WithOrder | contexts/AuthContext.tsx:62-68 | the order is appended at the end of the orders (missing as empty); the other fields are kept |
| Auth.WithOrderKeepsHistory | contexts/AuthContext.tsx:62-68 | two appended orders follow the old history in the order they were added |
| Auth.Session.constructor | contexts/AuthContext.tsx:24-40 | the session starts with the loaded user, and storage is persisted to match |
| Auth.Session.Login | contexts/AuthContext.tsx:43-52 | login sets the new user and persists it |
| Auth.Session.Logout | contexts/AuthContext.tsx:54-56 | logout clears the user, so the session is not authenticated, and removes the stored user |
| Auth.Session.UpdateUser | contexts/AuthContext.tsx:58-60 | with a user the update is merged and persisted; without one the user stays none |
| Auth.Session.AddOrder | contexts/AuthContext.tsx:62-68 | with a user the order is appended and persisted; logged out nothing changes |
| Auth.Session.SetItem | components/CheckoutPage.tsx:44 | writing another key changes only that key |
| Auth.Session.RemoveItem | vape-del-este-d2e74b18866b8a84b168d9021067cf10ed29f83e/components/PaymentStatusPage.tsx:19 | removing another key removes only that key |
| LoginForm.NameFromEmail | components/LoginModal.tsx:19 | the name is the text before the first "@", or the whole email without one |
| LoginForm.NameFromEmailExample | components/LoginModal.tsx:19 | "ana@mail.com" yields "ana" |
| LoginForm.Submit | components/LoginModal.tsx:19-21 | login receives the derived name and the exact email, then the modal is asked to close; the password is never used |
| Compare.WithoutId | components/Shop.tsx:37-39 | exactly the entries with the id are dropped, the rest keep their order |
| Compare.Toggled | components/Shop.tsx:24-35 | a present product is removed by id; an absent one is appended below three entries; at three the list is unchanged |
| Compare.WithoutIdKeepsUnique | components/Shop.tsx:37-39 | removal keeps ids distinct and never grows the list |
| Compare.ToggledValid | components/Shop.tsx:24-35 | toggling keeps at most three entries with distinct ids |
| Compare.ToggleTwice | components/Shop.tsx:25-31 | comparing an absent product twice restores the list |
| Compare.WithoutIdAppend | components/Shop.tsx:25-31 | removing a just-appended product restores the list |
| Compare.CompareList.constructor | components/Shop.tsx:20 | the compare list starts empty |
| Compare.CompareList.Compare | components/Shop.tsx:24-35 | the list becomes the toggled list; the alert fires exactly when a fourth product is refused |
| Compare.CompareList.Remove | components/Shop.tsx:37-39 | the list loses exactly the entries with the id |
| Compare.CompareList.Clear | components/Shop.tsx:41-43 | the list becomes empty |
| Comparison.FeatureKey | components/ComparisonModal.tsx:16 | a feature's key is the trimmed text before its first ":" |
| Comparison.KeyHasFeature | components/ComparisonModal.tsx:16 | every listed key is the key of some feature of some product |
| Comparison.FeatureKeyListed | components/ComparisonModal.tsx:16 | every feature's key is listed |
| Comparison.DynamicKeys | components/ComparisonModal.tsx:15-17 | row keys are distinct, are exactly the feature keys, and follow first appearance |
| Comparison.KeysComeFromFeatures | components/ComparisonModal.tsx:15-17 | every row key comes from a compared product's feature |
| Comparison.EveryFeatureHasRow | components/ComparisonModal.tsx:15-17 | every feature of a compared product has its row |
| Comparison.FindFeature | components/ComparisonModal.tsx:59 | the feature found is the first that starts with the key (a prefix match) |
| Comparison.FeatureCell | components/ComparisonModal.tsx:59-60 | no matching feature shows "❌"; a match without ":" throws; otherwise the trimmed text between the first and second ":" |
| Comparison.ColonlessFeatureBreaksRow | components/ComparisonModal.tsx:15-60 | a trimmed feature without ":" is its own row key and its cell throws |
| Comparison.StaticCell | components/ComparisonModal.tsx:45 | a fixed cell shows the field, or "N/A" when it is empty |
| Comparison.StaticRow | components/ComparisonModal.tsx:43-47 | one fixed cell per product, in order |
| Comparison.FeatureRow | components/ComparisonModal.tsx:58-60 | one feature cell per product, in order |
| Comparison.BuildTable | components/ComparisonModal.tsx:13-60 | category, price and description rows, then one row per dynamic key |
| Comparison.TableRendersWithColons | components/ComparisonModal.tsx:59-60 | when every feature has a ":", no cell throws |
| Reviews.AverageRating | components/ProductModal.tsx:56-58 | 0 without reviews; otherwise the average times the count is the sum of ratings |
| Reviews.SumRatingsBounds | types.ts:5 | ratings from 1 to 5 sum to between the count and five times the count |
| Reviews.AverageInRange | components/ProductModal.tsx:56-58 | with ratings 1..5 and at least one review, the average lies in [1, 5] |
| Reviews.JsRound | components/ProductModal.tsx:19 | the integer nearest the rating, halves up |
| Reviews.Stars | components/ProductModal.tsx:16-22 | five slots; slot i is filled iff i < round(rating) |
| Reviews.FilledCount | components/ProductModal.tsx:18-19 | the number of filled stars is round(rating) clamped to 0..5 |
| Reviews.CardRatingOf | vape-del-este-d2e74b18866b8a84b168d9021067cf10ed29f83e/components/ProductCard.tsx:14-25 | "Sin reseñas" exactly without reviews; otherwise the stars of the average and the review count |
| Reviews.CardExample | vape-del-este-d2e74b18866b8a84b168d9021067cf10ed29f83e/components/ProductCard.tsx:42-44 | ratings 4 and 5 average 4.5 and show five filled stars and the count 2 |
| Reviews.CardAddToCart | vape-del-este-d2e74b18866b8a84b168d9021067cf10ed29f83e/components/ProductCard.tsx:32-35 | the add button adds exactly the card's product |
| Reviews.CardCompare | vape-del-este-d2e74b18866b8a84b168d9021067cf10ed29f83e/components/ProductCard.tsx:37-40 | the compare button passes exactly the card's product |
| Reviews.WindowAddToCart | components/ProductModal.tsx:30-33 | the window adds this product, then closes |
| Reviews.ReviewForm.constructor | components/ProductModal.tsx:27-28 | the form starts with rating 0 and an empty comment |
| Reviews.ReviewForm.PickRating | components/ProductModal.tsx:162 | a star click sets the rating only |
| Reviews.ReviewForm.EditComment | components/ProductModal.tsx:168 | typing sets the comment only |
| Reviews.ReviewForm.Submit | components/ProductModal.tsx:39-54 | a review is sent iff rating > 0, the comment is not blank and a user is present; it carries the user's name and avatar and the rating and comment as entered; the form then resets, and a refused submission changes nothing |
| Checkout.PendingKey | components/CheckoutPage.tsx:44 | the key is "pendingOrder-" + id and never collides with the user key |
| Checkout.PreferenceItems | components/CheckoutPage.tsx:46-52 | one payment line per cart line, in order: decimal id, name, quantity, parsed price, UYU |
| Checkout.PreferenceItemRoundTrip | components/CheckoutPage.tsx:46-52 | a line's id parses back to the product id and a formatted price reads back as its amount |
| Checkout.AnswerNext | components/CheckoutPage.tsx:61-75 | navigation happens iff the answer is OK with a non-empty init_point; a non-OK answer shows its error or the default; OK without init_point shows the invalid-answer message; an exception shows its message |
| Checkout.Snapshot | components/CheckoutPage.tsx:30-39 | the order has the upper-cased id, the cart's lines and total, status Pending and the form's name and email |
| Checkout.CheckoutPage.constructor | components/CheckoutPage.tsx:16-19 | the fields start from the signed-in user's name and email, or empty |
| Checkout.CheckoutPage.EditName | components/CheckoutPage.tsx:107 | editing the name changes only the name |
| Checkout.CheckoutPage.EditEmail | components/CheckoutPage.tsx:111 | editing the email changes only the email |
| Checkout.CheckoutPage.Pay | components/CheckoutPage.tsx:21-76 | a missing name or email only sets the error; otherwise the snapshot goes to the signed-in user and to its pending key, the request carries the payment lines and the snapshot's id, and the answer navigates or shows the error and re-enables the button; the cart is never touched |
| Gateway.BaseUrl | netlify/functions/create-preference.ts:28 | DEPLOY_PRIME_URL if set and non-empty, else URL, else http://localhost:8888 |
| Gateway.RequestText | netlify/functions/create-preference.ts:39 | a missing or empty body reads as "{}" |
| Gateway.BackUrlsFor | netlify/functions/create-preference.ts:55-59 | the back URLs are base + /success, /failure, /pending |
| Gateway.MessageOr | netlify/functions/create-preference.ts:73 | the exception's message, or the default when it is empty |
| Gateway.ReplyResponse | netlify/functions/create-preference.ts:64-74 | 200 with the init_point exactly when a session was created, otherwise 500 with the message or the default |
| Gateway.RootPreference | netlify/functions/create-preference.ts:51-61 | the items unchanged, the order id as external reference, the back URLs and auto_return "approved" |
| Gateway.CreatePreference | netlify/functions/create-preference.ts:20-76 | non-POST is 405 and a missing token 500, both with no request; 400 iff the decoded body lacks items or an order id; a preference is requested iff the body is complete, and the reply decides 200 or 500; an undecodable body is 500 with its message or the default, with no request |
| Gateway.CreatedSessionReturned | netlify/functions/create-preference.ts:51-67 | a 200 carries exactly the session URL created for a preference referencing the request's order id |
| Gateway.NotificationUrl | vape-del-este-d2e74b18866b8a84b168d9021067cf10ed29f83e/netlify/functions/create-preference.ts:75 | the webhook URL is base + "/.netlify/functions/webhook" |
| Gateway.OrderPreference | vape-del-este-d2e74b18866b8a84b168d9021067cf10ed29f83e/netlify/functions/create-preference.ts:71-83 | the order's id as external reference, the webhook as notification URL, the back URLs and auto_return |
| Gateway.CreatePreferenceWithOrder | vape-del-este-d2e74b18866b8a84b168d9021067cf10ed29f83e/netlify/functions/create-preference.ts:39-97 | 405/500/400 guards write nothing; a complete body writes the order under its id and only then requests the preference; a failed write gives 500 with no request |
| Orders.WithStatus | netlify/functions/webhook.ts:25-28 | a merge write sets only the status of that order; a missing document gets the status alone; other documents are untouched |
| Orders.WithStatusIdempotent | netlify/functions/webhook.ts:25-28 | writing the same status twice equals writing it once |
| Orders.OrderStore.constructor | vape-del-este-d2e74b18866b8a84b168d9021067cf10ed29f83e/netlify/functions/create-preference.ts:21-24 | the store starts with the given documents |
| Orders.OrderStore.SetOrder | vape-del-este-d2e74b18866b8a84b168d9021067cf10ed29f83e/netlify/functions/create-preference.ts:21-24 | the whole order replaces the document under its id |
| Orders.OrderStore.SetStatus | netlify/functions/webhook.ts:25-28 | the collection becomes the status merge write |
| Webhook.Interp | netlify/functions/webhook.ts:55 | an undefined value interpolates as "undefined" |
| Webhook.SignatureFields | netlify/functions/webhook.ts:54 | the timestamp is the value after "=" in the first comma part and the hash that of the second |
| Webhook.SignatureFieldsOf | netlify/functions/webhook.ts:54 | "ts=T,v1=H" yields T and H |
| Webhook.SignatureFieldsPositional | netlify/functions/webhook.ts:54 | the parts are taken by position: a header with the hash first reads the hash as the timestamp |
| Webhook.KeyedPair | netlify/functions/webhook.ts:54 | "k1=v1,k2=v2" yields v1 and v2 whatever the keys are: the keys are never compared |
| Webhook.Manifest | netlify/functions/webhook.ts:55 | the signed text is "id:" + data.id + ";request-id:" + requestId + ";ts:" + ts + ";" |
| Webhook.ManifestFields | netlify/functions/webhook.ts:55 | with fields free of ";" the manifest splits back into its three labelled fields |
| Webhook.AfterSignature | netlify/functions/webhook.ts:51-83 | a checked signature that does not match gives 403 with no write; a write happens iff the signature passes or is absent, the notice is a payment with an id, the payment is approved with a reference, and the write succeeds; it writes that reference; past the signature, a notice that is not a payment or a payment not approved is acknowledged with 200 "OK", and a failed lookup or a failed write is 500 with its message or the default, with no write |
| Webhook.Decide | netlify/functions/webhook.ts:30-95 | GET is 200 and other non-POST methods 405, without writing; missing credentials give 500 before parsing; a body that does not parse gives 500 with the parse error's message (or the default) and no write; a decoded POST with both credentials gets exactly the signature-and-payment outcome; any write comes from such a POST |
| Webhook.ApplyWrite | netlify/functions/webhook.ts:76-78 | no write leaves the orders as they were; a write marks that order Processing |
| Webhook.ReplayedNotification | netlify/functions/webhook.ts:76-78 | delivering the same notification again leaves the orders as after the first delivery |
| Webhook.WrittenStatusOutsideClientSet | netlify/functions/webhook.ts:78 | the written status is Processing, outside the four statuses the client's order type admits |
| Webhook.Handle | netlify/functions/webhook.ts:30-95 | the response is the decided one and the only store change is its status write |
| PaymentPages.ExternalReference | vape-del-este-d2e74b18866b8a84b168d9021067cf10ed29f83e/components/PaymentStatusPage.tsx:12 | the order id is the external_reference parameter when present |
| PaymentPages.ParamText | vape-del-este-d2e74b18866b8a84b168d9021067cf10ed29f83e/components/PaymentStatusPage.tsx:28 | a null id interpolates as "null" |
| PaymentPages.StatusInfoOf | vape-del-este-d2e74b18866b8a84b168d9021067cf10ed29f83e/components/PaymentStatusPage.tsx:24-45 | the page shows the status's title, message and colour, and its order label followed by the id as interpolated (null as "null") |
| PaymentPages.OrderLine | vape-del-este-d2e74b18866b8a84b168d9021067cf10ed29f83e/components/PaymentStatusPage.tsx:51 | the order line is shown iff the id is present and non-empty |
| PaymentPages.OnReturn | vape-del-este-d2e74b18866b8a84b168d9021067cf10ed29f83e/components/PaymentStatusPage.tsx:14-22 | on success the cart is cleared and the pending key removed when an id is present; failure and pending change neither |
| PaymentPages.SummaryLines | vape-del-este-d2e74b18866b8a84b168d9021067cf10ed29f83e/components/OrderConfirmationPage.tsx:35-40 | one line per captured cart line: name, quantity and the no-space parsed price times quantity |
| PaymentPages.SummaryAmountOfFormat | vape-del-este-d2e74b18866b8a84b168d9021067cf10ed29f83e/components/OrderConfirmationPage.tsx:38 | a formatted price's line shows its amount times the quantity |
| PaymentPages.ConfirmationPage.constructor | vape-del-este-d2e74b18866b8a84b168d9021067cf10ed29f83e/components/OrderConfirmationPage.tsx:15-16 | the page captures the id, the cart and the total at first render |
| PaymentPages.ConfirmationPage.Mount | vape-del-este-d2e74b18866b8a84b168d9021067cf10ed29f83e/components/OrderConfirmationPage.tsx:18-21 | mounting clears the cart and keeps the captured lines and total |
| PaymentPages.ConfirmationPage.Summary | vape-del-este-d2e74b18866b8a84b168d9021067cf10ed29f83e/components/OrderConfirmationPage.tsx:23-35 | the summary is built from the captured lines, not the live cart |
| PaymentPages.ConfirmationPage.OrderNumberText | vape-del-este-d2e74b18866b8a84b168d9021067cf10ed29f83e/components/OrderConfirmationPage.tsx:30 | the order id is shown exactly as given |
| Profile.ApplyInput | components/ProfilePage.tsx:28-40 | an input change replaces only the named field; the orders are kept |
| Profile.FullPatch | components/ProfilePage.tsx:48 | saving supplies every field of the edited user |
| Profile.SaveReplacesUser | components/ProfilePage.tsx:48 | merging the full edited user gives exactly the edited user |
| Profile.ProfileEditor.constructor | components/ProfilePage.tsx:23-25 | the editor starts from the user with status idle |
| Profile.ProfileEditor.Edit | components/ProfilePage.tsx:28-31 | an edit applies the input and leaves the save status alone |
| Profile.ProfileEditor.Save | components/ProfilePage.tsx:46-49 | as intended: saving sets status saving, arms the first timer and updates the signed-in user with the edited one, the same editor staying on screen |
| Profile.ProfileEditor.SaveAsWritten | components/ProfilePage.tsx:22-53 | as written: the signed-in user becomes the edited one and is persisted, and the page's re-render replaces the editor by a fresh one, idle, holding the saved user, with no timer armed |
| Profile.ProfileEditor.SavedTimerFires | components/ProfilePage.tsx:49-51 | the first timer sets saved and arms the second |
| Profile.ProfileEditor.IdleTimerFires | components/ProfilePage.tsx:51 | the second timer sets idle |
| Profile.SaveCycle | components/ProfilePage.tsx:46-53 | as intended: one save passes idle, saving, saved, idle and ends with no timer pending |
| Profile.SaveCycleAsWritten | components/ProfilePage.tsx:46-53 | as written: one save shows idle then idle; "saving" and "saved" are never shown |
| Profile.HistoryOf | components/ProfilePage.tsx:103-109 | missing or empty orders show the empty-history message; otherwise the orders newest first |
| Profile.NewestFirst | components/ProfilePage.tsx:109 | an order just added is listed first, followed by the earlier history reversed |
| Profile.DetailAmountOfFormat | components/ProfilePage.tsx:133 | a formatted price's detail line shows its amount times the quantity |
| Profile.PurchasesHistory.constructor | components/ProfilePage.tsx:97 | no order starts expanded |
| Profile.PurchasesHistory.Toggle | components/ProfilePage.tsx:99-101 | after a toggle exactly that order is expanded, unless it was, in which case none is |
| Admin.FirstById | components/AdminPanel.tsx:154 | the result has distinct ids, holds only input orders, keeps the first order of each id and covers every id |
| Admin.FirstByIdInOrder | components/AdminPanel.tsx:154 | the kept orders are a subsequence of the input: `filter` keeps the list's order |
| Admin.InitialOrders | components/AdminPanel.tsx:151-155 | none without a user; otherwise the user's orders with distinct ids, in their order, keeping the first order of each id and every id |
| Admin.FirstByIdOfUnique | components/AdminPanel.tsx:154 | a list with distinct ids is kept as it is |
| Admin.Customers | components/AdminPanel.tsx:157 | the signed-in user first, then the mock customers; only the mock customers when logged out |
| Admin.LowStockNotices | components/AdminPanel.tsx:160-167 | one unread notice per product with 0 < stock <= 10, with ids 100 + i |
| Admin.OutOfStockNotices | components/AdminPanel.tsx:168-175 | one unread notice per product with stock = 0, with ids 200 + i |
| Admin.InitialNotices | components/AdminPanel.tsx:176 | low-stock notices, then out-of-stock notices, then the three fixed ones |
| Admin.StockNoticesCover | components/AdminPanel.tsx:159-177 | every low or out-of-stock product has its notice, and every notice is for such a product |
| Admin.NoticeIdsDistinct | components/AdminPanel.tsx:159-177 | with at most 100 low-stock products, notice ids are distinct |
| Admin.NoticeIdsClash | components/AdminPanel.tsx:162-170 | with more than 100 low-stock products, a low-stock id equals the first out-of-stock id |
| Admin.StockBadgeOf | components/AdminPanel.tsx:308 | green above 10, yellow for 1..10, otherwise red "Sin Stock"; a positive stock is shown as its number |
| Admin.BadgeMatchesNotices | components/AdminPanel.tsx:160-168 | the yellow badge matches exactly the low-stock notice rule, and the red badge also covers negative stock, which gets no notice |
| Admin.SumTotalsAppend | components/AdminPanel.tsx:183 | order totals sum over concatenation |
| Admin.RevenueAppend | components/AdminPanel.tsx:182-183 | revenue sums over concatenation |
| Admin.StatsOf | components/AdminPanel.tsx:181-191 | revenue over non-cancelled orders; the order count includes cancelled ones; the customer count; products with stock 0 |
| Admin.AverageTicket | components/AdminPanel.tsx:370-371 | 0 with no non-cancelled order; otherwise the average times that count is the revenue |
| Admin.RendersAllAsWritten | components/AdminPanel.tsx:355 | as written, tabs opened one after another from a tab other than sales all render exactly when sales is never opened |
| Admin.SalesTabThrowsAsWritten | components/AdminPanel.tsx:355 | as written, opening the sales tab from the dashboard the panel mounts on makes the render throw |
| Admin.RendersAllCorrected | components/AdminPanel.tsx:355 | with the best-seller memo called on every render, every sequence of tabs renders |
| Admin.AllCancelled | components/AdminPanel.tsx:370-371 | with every order cancelled, revenue and the average ticket are 0 |
| Admin.RecentOrders | components/AdminPanel.tsx:255 | the first five orders, or all when there are fewer |
| Admin.StatusColor | components/AdminPanel.tsx:49-54 | a badge class exists exactly for the four statuses the client's order type admits; Processing, which the webhook writes, has none |
| Admin.ChangeStatus | components/AdminPanel.tsx:217-219 | only orders with the id take the status; the list order and every other field are kept |
| Admin.ChangeStatusKeepsIds | components/AdminPanel.tsx:217-219 | ids, and so their distinctness, are kept |
| Admin.ChangeStatusAbsent | components/AdminPanel.tsx:217-219 | an unknown id changes nothing |
| Admin.CancelLowersRevenue | components/AdminPanel.tsx:182-219 | cancelling a non-cancelled order lowers revenue by exactly its total |
| Admin.StockFieldValue | components/AdminPanel.tsx:78 | the stock field is parseInt of the text, or 0 when it does not parse |
| Admin.StockFieldRoundTrip | components/AdminPanel.tsx:78 | a stock written in decimal reads back as itself |
| Admin.ApplyFormEdit | components/AdminPanel.tsx:76-79 | the named field takes the value, stock parsed and the others as typed; id, image, features and reviews are kept |
| Admin.AdminPanel.constructor | components/AdminPanel.tsx:151-177 | the panel starts with the de-duplicated orders, the customers and the stock notices |
| Admin.AdminPanel.ChangeOrderStatus | components/AdminPanel.tsx:217-219 | the orders become the status change; customers and notices are kept |
| Admin.AdminPanel.TopSellers | components/AdminPanel.tsx:355-368 | the top five of the tallies of the current orders: at most five, highest count first, each with the units sold under its name, each a name that sold |
| Sales.NameIndex | components/AdminPanel.tsx:360 | the tally found has the name; none means no tally has it |
| Sales.AddItemCounts | components/AdminPanel.tsx:359-364 | one line adds its quantity to its name's tally, or opens one; names stay distinct |
| Sales.TallyItemsCounts | components/AdminPanel.tsx:359-365 | after an order's lines each name's count grows by the units of that name |
| Sales.TallyOrdersCounts | components/AdminPanel.tsx:357-367 | each name's tally is the units sold under it in non-cancelled orders, and tallies exist exactly for names sold |
| Sales.Insert | components/AdminPanel.tsx:368 | insertion adds exactly the tally to the multiset |
| Sales.InsertSorted | components/AdminPanel.tsx:368 | insertion keeps the tallies in descending count |
| Sales.SortByCount | components/AdminPanel.tsx:368 | the sort is a permutation in descending count |
| Sales.InsertWithCount | components/AdminPanel.tsx:368 | an inserted tally goes before the tallies of equal count and after those that sold more |
| Sales.SortByCountStable | components/AdminPanel.tsx:368 | the sort is stable: for every count, the tallies with that count keep their order |
| Sales.TopFiveProperties | components/AdminPanel.tsx:368 | at most five, sorted, each with its name's count, and every tally left out sold no more than the fifth |
| Sales.TallyOrderItems | components/AdminPanel.tsx:359-365 | the inner loop over an order's lines computes the tallies the item tally function gives |
| Sales.TopFiveOfOrders | components/AdminPanel.tsx:355-368 | the best sellers of the orders: at most five, sorted by count, each with the units sold under its name, each a name that sold |
| Sales.TopSellingProducts | components/AdminPanel.tsx:355-368 | the loops compute the top five of the tallies: sorted, at most five, each with the units sold under its name, each a name that sold |
| ProductStore.KeyRoundTrip | vape-del-este-d2e74b18866b8a84b168d9021067cf10ed29f83e/services/productService.ts:18-32 | String(id) parses back to id, and distinct ids have distinct keys |
| ProductStore.Entry | vape-del-este-d2e74b18866b8a84b168d9021067cf10ed29f83e/services/productService.ts:32 | a listed product is the document with its id taken from the key |
| ProductStore.InsertById | vape-del-este-d2e74b18866b8a84b168d9021067cf10ed29f83e/services/productService.ts:32 | insertion adds the product and keeps every other one |
| ProductStore.InsertByIdSorted | vape-del-este-d2e74b18866b8a84b168d9021067cf10ed29f83e/services/productService.ts:32 | insertion keeps the list sorted by ascending id |
| ProductStore.SeedDocs | vape-del-este-d2e74b18866b8a84b168d9021067cf10ed29f83e/services/productService.ts:16-20 | seeding adds a document under every initial product's id |
| ProductStore.SeedDocsStores | vape-del-este-d2e74b18866b8a84b168d9021067cf10ed29f83e/services/productService.ts:16-20 | with distinct ids each initial product is stored as it is |
| ProductStore.Updated | vape-del-este-d2e74b18866b8a84b168d9021067cf10ed29f83e/services/productService.ts:55-71 | an update takes every supplied field; missing reviews keep the stored ones |
| ProductStore.MaxId | vape-del-este-d2e74b18866b8a84b168d9021067cf10ed29f83e/services/productService.ts:59 | the largest listed id, 0 for none, and no id exceeds it |
| ProductStore.Store.constructor | vape-del-este-d2e74b18866b8a84b168d9021067cf10ed29f83e/services/productService.ts:6 | the store starts with the given documents and marker |
| ProductStore.Store.Seed | vape-del-este-d2e74b18866b8a84b168d9021067cf10ed29f83e/services/productService.ts:9-27 | with the marker nothing changes; otherwise every initial product is stored and the marker is set |
| ProductStore.Store.List | vape-del-este-d2e74b18866b8a84b168d9021067cf10ed29f83e/services/productService.ts:30-33 | the listing is sorted by id and holds exactly the stored documents with ids from their keys |
| ProductStore.Store.Save | vape-del-este-d2e74b18866b8a84b168d9021067cf10ed29f83e/services/productService.ts:44-66 | the image is replaced only with an upload; a non-zero id updates only that document; id 0 stores the product under the largest existing id plus one (1 when there is none or none is positive), an id no document has |
| ProductStore.Store.Update | vape-del-este-d2e74b18866b8a84b168d9021067cf10ed29f83e/services/productService.ts:69-72 | the product's document takes its fields; a missing document is refused |
| ProductStore.Store.Delete | vape-del-este-d2e74b18866b8a84b168d9021067cf10ed29f83e/services/productService.ts:75-78 | exactly the product's document is removed |
| ProductStore.SeedTwice | vape-del-este-d2e74b18866b8a84b168d9021067cf10ed29f83e/services/productService.ts:10-25 | seeding twice gives the store that seeding once gives |
| ProductStore.SeededListing | vape-del-este-d2e74b18866b8a84b168d9021067cf10ed29f83e/services/productService.ts:16-33 | after seeding an empty store with distinct ids, each initial product is listed as it is |
| Gemini.ProductLine | services/geminiService.ts:36 | the line is "- name (Categoría: c, Precio: p, Features: f1, f2, Imagen: url)" |
| Gemini.ProductLines | services/geminiService.ts:36 | one line per product, in order |
| Gemini.LineHasNoBreak | services/geminiService.ts:36 | a product with single-line fields gives a single line |
| Gemini.ProductListSplits | services/geminiService.ts:36 | the list joined by newlines splits back into one line per product |
| Gemini.VapingRecommendation | services/geminiService.ts:69-86 | success iff the text is non-empty, parses, is an array and is not empty, and then it is that array; every failure has the one fixed message |
| Gemini.UpsellCandidates | services/geminiService.ts:113-115 | the candidates are the products whose name no cart line has, in order |
| Gemini.CartText | services/geminiService.ts:120 | the joined names, or "El carrito está vacío" when that is empty |
| Gemini.CartTextCases | services/geminiService.ts:120 | an empty cart reads as empty; a cart whose first name is non-empty is listed |
| Gemini.UpsellSuggestion | services/geminiService.ts:112-173 | the model is asked iff there are candidates; a suggestion exists iff the text is not empty, blank or "{}", parses and names a product; every other outcome is null |
| Gemini.CartNames | vape-del-este-d2e74b18866b8a84b168d9021067cf10ed29f83e/components/UpsellModal.tsx:21 | the names passed are the cart lines' product names, in order |
| Gemini.FindByName | vape-del-este-d2e74b18866b8a84b168d9021067cf10ed29f83e/components/UpsellModal.tsx:32 | a product found has the suggested name; none found means no product has it |
| Gemini.FindByNameFirst | vape-del-este-d2e74b18866b8a84b168d9021067cf10ed29f83e/components/UpsellModal.tsx:32 | the product found is the first with the name |
| Gemini.AcceptActions | vape-del-este-d2e74b18866b8a84b168d9021067cf10ed29f83e/components/UpsellModal.tsx:31-37 | the found product is added if there is one, and the window closes either way |
| Gemini.UnknownSuggestionAddsNothing | vape-del-este-d2e74b18866b8a84b168d9021067cf10ed29f83e/components/UpsellModal.tsx:33 | a name no product has adds nothing |
| Gemini.UpsellModal.constructor | vape-del-este-d2e74b18866b8a84b168d9021067cf10ed29f83e/components/UpsellModal.tsx:15-16 | no suggestion, loading |
| Gemini.UpsellModal.Fetch | vape-del-este-d2e74b18866b8a84b168d9021067cf10ed29f83e/components/UpsellModal.tsx:18-29 | nothing happens without products; otherwise the suggestion is the one for the cart's names and loading ends |
| Advisor.Options | vape-del-este-d2e74b18866b8a84b168d9021067cf10ed29f83e/components/VapingAdvisor.tsx:80-106 | the radio values of each question, none empty |
| Advisor.WithAnswer | vape-del-este-d2e74b18866b8a84b168d9021067cf10ed29f83e/components/VapingAdvisor.tsx:31-34 | only the named answer field changes |
| Advisor.NextOf | vape-del-este-d2e74b18866b8a84b168d9021067cf10ed29f83e/components/VapingAdvisor.tsx:36-43 | start goes to habit; each question advances only with its answer, the last one to loading; other steps stay |
| Advisor.EnabledIffAdvances | vape-del-este-d2e74b18866b8a84b168d9021067cf10ed29f83e/components/VapingAdvisor.tsx:156-158 | an enabled button always advances the step under nextStep, and with the earlier answers in place a step that advances has its button enabled |
| Advisor.NextKeepsFit | vape-del-este-d2e74b18866b8a84b168d9021067cf10ed29f83e/components/VapingAdvisor.tsx:36-43 | advancing keeps the answers the reached step relies on |
| Advisor.ErrorText | vape-del-este-d2e74b18866b8a84b168d9021067cf10ed29f83e/components/VapingAdvisor.tsx:53 | the error's message, or "An unknown error occurred." when it is empty |
| Advisor.AdvisorErrorIsFixed | services/geminiService.ts:85 | a failed request always shows the service's fixed message |
| Advisor.VapingAdvisor.constructor | vape-del-este-d2e74b18866b8a84b168d9021067cf10ed29f83e/components/VapingAdvisor.tsx:22-29 | start step, empty answers, no recommendations, no error |
| Advisor.VapingAdvisor.ChangeAnswer | vape-del-este-d2e74b18866b8a84b168d9021067cf10ed29f83e/components/VapingAdvisor.tsx:31-34 | a radio button sets its own field only |
| Advisor.VapingAdvisor.Submit | vape-del-este-d2e74b18866b8a84b168d9021067cf10ed29f83e/components/VapingAdvisor.tsx:45-47 | submitting shows loading and clears the error |
| Advisor.VapingAdvisor.NextStep | vape-del-este-d2e74b18866b8a84b168d9021067cf10ed29f83e/components/VapingAdvisor.tsx:36-43 | the step becomes the next one; reaching loading clears the error |
| Advisor.VapingAdvisor.Resolve | vape-del-este-d2e74b18866b8a84b168d9021067cf10ed29f83e/components/VapingAdvisor.tsx:48-55 | success shows results with the list; failure shows the error step with its message |
| Advisor.VapingAdvisor.Reset | vape-del-este-d2e74b18866b8a84b168d9021067cf10ed29f83e/components/VapingAdvisor.tsx:58-63 | answers and recommendations emptied, no error, back to start |
| Chat.FinishedIsConcat | components/ChatbotWidget.tsx:61-81 | without the marker the reply is the concatenation of all chunks and does not contain the marker |
| Chat.HandedOffAtFirstMarker | components/ChatbotWidget.tsx:61-74 | handoff happens at the first chunk after which the text contains the marker, with that text minus its first marker, trimmed |
| Chat.HandoffIgnoresLaterChunks | components/ChatbotWidget.tsx:73 | chunks after the marker are never read |
| Chat.HandoffTextAtEnd | components/ChatbotWidget.tsx:65 | a reply ending with the marker hands off the text before it, trimmed |
| Chat.MarkerAcrossChunks | components/ChatbotWidget.tsx:62-65 | the marker is found even when split across two chunks |
| Chat.ReplyOf | components/ChatbotWidget.tsx:55-87 | a failed send appends the apology; a stream appends one bot message, which on handoff is the handoff text |
| Chat.ReplyWithoutHandoff | components/ChatbotWidget.tsx:57-81 | a reply without the marker is shown whole and raises no handoff |
| Chat.WhatsAppText | components/ChatbotWidget.tsx:91 | the fixed prefix followed by the handoff text |
| Chat.ChatbotWidget.constructor | components/ChatbotWidget.tsx:21-26 | no messages, empty input, not loading, no handoff, no session |
| Chat.ChatbotWidget.Open | components/ChatbotWidget.tsx:36-44 | opening with products starts a session and resets to the greeting with no handoff and empty input; otherwise nothing changes |
| Chat.ChatbotWidget.EditInput | components/ChatbotWidget.tsx:145 | typing sets only the input |
| Chat.ChatbotWidget.Send | components/ChatbotWidget.tsx:46-88 | a blank input or no session changes nothing; otherwise the user message and the reply are appended, the input is cleared, handoff follows the reply and loading ends false |
| Chat.Accumulate | components/ChatbotWidget.tsx:57-81 | the read loop stops at the handoff marker or the stream's end; its text and flag are the fold's outcome: with a handoff, the text read so far minus its first marker, trimmed; otherwise the whole reply |
| Chat.ChatbotWidget.ReadStream | components/ChatbotWidget.tsx:57-81 | appends the bot's message and ends with the reply's text, showing the handoff exactly when the reply has one, and the apology when the stream fails |
| Hero.NextSlide | components/HeroBanner.tsx:42 | from the last slide to 0, otherwise plus one; always within 0..2 |
| Hero.AdvancedIsModular | components/HeroBanner.tsx:42 | after k ticks the slide is (start + k) mod 3 |
| Hero.ThreeTicksReturn | components/HeroBanner.tsx:42 | three ticks return to the starting slide |
| Hero.HeroBanner.constructor | components/HeroBanner.tsx:38 | the carousel starts on slide 0 |
| Hero.HeroBanner.Advance | components/HeroBanner.tsx:41-43 | one tick moves to the next slide mod 3 and stays in range |
| Hero.HeroBanner.SelectDot | components/HeroBanner.tsx:126 | dot i shows exactly slide i |

## Left out

- The cart (`addToCart`, `updateQuantity`, `removeFromCart`, `clearCart`, totals) is not part of this model. The cart is an input sequence with its total passed alongside, and the cart operations a page performs are recorded as `Types.CartCall` values whose effect is not modelled.
- Firestore and Firebase Storage (`setDoc`, merge writes, batches, `getDocs`, image upload) are modelled only as maps. The order in which `getDocs` enumerates documents is a parameter (`keys`) of `ProductStore.Store.List` and `ProductStore.Store.Save`. A document key `String(id)` is represented by the id itself; `ProductStore.KeyRoundTrip` justifies this. `services/orderService.ts` is not part of this model.
- Gemini calls, the wording of the prompts and the chat session's system instruction (`startChat`) are left out. The model's reply (text, missing text or an exception) and the result of `JSON.parse` on it are parameters. A parsed object's missing fields and a `null` parse result are folded into that parameter.
- The Mercado Pago SDK and REST calls, `netlify/functions/process-payment.ts` and the card-payment component are left out. The gateway's reply to `preference.create` and to `payment.get` are parameters.
- HMAC-SHA256 and its hex digest are a parameter function of (secret, manifest).
- `encodeURIComponent` and the generated avatar URLs are left out; the avatar is a parameter (`avatarFor`).
- `Math.random()` order ids, `Date` values and locale date formatting are left out; they are passed in as parameters.
- `setTimeout`/`setInterval` are modelled as explicit events with no real time. These are the two-second click reset, the profile save timers, the carousel interval and the intro animation.
- `toFixed` and `toLocaleString` number formatting are left out. Amounts are exact `real` values rather than floating point.
- Upper-casing (`Text.Upper`) covers ASCII and Latin-1 letters only.
- Rendering-only components are left out: header, footer, grids, sidebars, comparison bar, age-verification and intro screens, admin login form, register modal and WhatsApp button. The hard-coded duplicate payment function under `netlify/functions/netlify/` and the catalog data in `constants.ts` are left out too; `constants.ts` serves only as a price example.
- Asynchrony and interleaving are left out. The chat stream is read in one run (`Chat.ChatbotWidget.ReadStream`), and the advisor's request arrives as one `Resolve` event. The three independent writers to an order (checkout, return page, webhook) are separate transitions.
- Text.ParseInt and Text.ParseFloat: JavaScript's `parseInt` also reads a `0x` hexadecimal prefix and `parseFloat` an exponent or `Infinity`; the model reads neither. The inputs parsed here (catalog prices and the admin form's numeric stock field) never carry them.
- Catalog.Storefront.LoadProducts: the loading flag and the seeding itself (`ProductStore.Store.Seed`) are not part of this event; the store's answers are parameters.
- Chat.ChatbotWidget.ReadStream: the source rewrites the last element of the message list after each chunk. The model runs the read loop (`Chat.Accumulate`) on the text alone and writes the bot's message once with its result; the final list is the same, and the intermediate renders are not modelled.
- Gemini.ProductLine: `p.features?.join` on a product without features would print "undefined"; features are always a list in the model.
- Catalog.Storefront.Render: the modal overlays (cart, upsell, chat, login) are not part of the screen value.
- Catalog.Storefront.ViewProduct: the scroll to the shop section is left out.
- The product editor's "Añadir Producto" button opens the form with an empty object, so a new product's fields are undefined until typed and its id is undefined. The model's create path takes id 0, which `saveProduct` treats as falsy exactly as it treats undefined; the fields a new product never had typed in are not modelled.
- Sales.TallyOrders keeps names in the order of their first sale. `Object.values` lists integer-like keys (a product named "42") first, in ascending order; that ordering is not modelled.
- Admin.RendersAllAsWritten: React's hook bookkeeping is reduced to the number of hooks a render calls. The panel's other failure mode, calling fewer hooks than the render before, cannot arise because the sales tab never renders.

## Findings

| source | as written | input that shows it | evidently intended | confidence | as-written member | corrected member |
|---|---|---|---|---|---|---|
| components/ProfilePage.tsx:22-53 | the editor is a component declared inside the page's render; `updateUser` changes the session the page reads, so the page re-renders with a new editor type, which replaces the editor with a fresh idle one before "Guardando..." or "¡Guardado!" is shown; the timers then update the replaced editor | a signed-in user presses "Guardar Cambios" | the button shows "Guardando...", then "¡Guardado!", then returns to idle | high (not executed) | Profile.SaveCycleAsWritten | Profile.SaveCycle |
| components/AdminPanel.tsx:355 | `useMemo` is called inside the sales case of `renderView`, which runs during the panel's render, so the sales render calls one hook more than the dashboard render before it and React throws | the admin opens the "sales" tab | the sales tab shows the best sellers and the average ticket | high (not executed) | Admin.SalesTabThrowsAsWritten | Admin.RendersAllCorrected |
