# toko-digital-saas backend rules in Dafny

This project models the rule-bearing core of the toko-digital-saas backend. That backend is a multi-tenant shop server built on Express and Mongoose. The model covers:

- **Subscription entitlements** (`Subscription`): the four-plan price and feature table with its fallback to `free`, the trial-expiry predicate, and the literal feature-flag test.
- **Request guards** (`AuthGuard`, `RateLimit`, `Database`): the `protect` decision chain, including its in-place `trial → expired` write; role membership; store ownership with the admin bypass; feature gating; and the per-key sliding-window rate limiter.
- **Account flows** (`AuthController`): register, login, password update, forgot/reset password and email verification. These run over a `Db` object that holds the users, stores and subscriptions maps.
- **Products** (`ProductModel`, `ProductRoutes`): the product document's pre-save hook (profit and slug), `isInStock` and `reduceStock`. Also the product routes: the upload filter, image-list construction, creation from the request body with schema validation, the view counter, and store-scoped update and delete.
- **Orders** (`OrderModel`): the order document's pre-save hook (order number, per-item profit, total cost and profit), `calculateTotal` and the append-only status history.
- **Chat** (`ChatModel`): `addMessage` and `markAsRead` over the message list and the two unread counters.
- **Stores** (`StoreModel`): the store validators, quota defaults, `canUploadFile` and `getPublicUrl`.
- **WhatsApp** (`WhatsApp`, `WhatsAppRoutes`): phone normalisation, deep links, the order and inquiry message templates, and the two WhatsApp endpoints.

Documents that the source changes in place are classes with `modifies` clauses: `Product`, `Order`, `Chat`, `RateLimiter`, `Db` and `Catalog`. Everything else is datatypes and functions. A Mongoose `save` is an update of a map or of object fields.

Several outside effects become parameters:

- the clock (`now`) and `Math.random` (`random`);
- JWT verification (`verify`, a token to user-id function);
- bcrypt comparison (`matches`);
- sha256 digests and random tokens (`digest`);
- email delivery (`emailSent`);
- `toLocaleString('id-ID')` (`fmt`) and `encodeURIComponent` (`encode`).

Where the design text and the code disagree, the model follows the code:

- `canAccessFeature` is modelled literally. The enterprise "unlimited" value `-1` fails the `> 0` test, so it denies (`Subscription.UnlimitedSentinelDenied`). The design text wants `-1` to grant.
- `markAsRead('store')` marks every unread message read, including the store owner's own. No sender type is spelled `store` (`ChatModel.StoreReaderMarksEverything`).
- The product update copies the request body with `Object.assign`, so a body field `store` moves the product to another store (`ProductRoutes.Assign`).

## Model

| member | source | states |
|---|---|---|
| `Subscription.GetPlanDetails` | backend/models/Subscription.js:159-248 | each of `free`, `starter`, `professional`, `enterprise` yields its own bundle from the plan table `Details`; every other name yields the free bundle |
| `Subscription.Lookup` | backend/models/Subscription.js:19-80 | a feature name has a flag exactly when it is one of the fifteen feature fields |
| `Subscription.Enabled` | backend/models/Subscription.js:19-80 | the enabled set is exactly the boolean features whose flag is `true` |
| `Subscription.FeatureNameRoundTrip` | backend/models/Subscription.js:19-80 | each of the fifteen field names reads back as its own feature, so no two features share a name |
| `Subscription.LookupByName` | backend/models/Subscription.js:255-256 | asking for a feature by its field name reads that feature's own stored flag |
| `Subscription.NewTrial` | backend/models/Subscription.js:100-114 | a new subscription is a `trial` starting at `now` and ending exactly 14 days (1209600000 ms) later |
| `Subscription.ExpireTrial` | backend/middleware/auth.js:44-46 | expiring a trial is a permitted lifecycle transition to `expired` that changes no other field |
| `Subscription.PlanKeyRoundTrip` | backend/models/Subscription.js:160-247 | looking up a plan's own key gives that plan's bundle, and distinct plans have distinct keys |
| `Subscription.UnknownPlanIsFree` | backend/models/Subscription.js:247 | any name outside the four keys falls back to the free bundle |
| `Subscription.PricingLaws` | backend/models/Subscription.js:163-226 | yearly price is ten times monthly, and monthly prices strictly rise free < starter < professional < enterprise |
| `Subscription.EnabledGrowsWithPlan` | backend/models/Subscription.js:164-243 | the set of enabled boolean features only grows along the upgrade order |
| `Subscription.AiLandingPageOnlyEnterprise` | backend/models/Subscription.js:164-243 | `aiLandingPage` is enabled in the enterprise bundle and in no other |
| `Subscription.NumericLimitsGrowWithPlan` | backend/models/Subscription.js:164-243 | reading `-1` as unlimited, every numeric limit grows along the upgrade order |
| `Subscription.FeatureAccessCases` | backend/models/Subscription.js:255-257 | `CanAccessFeature` holds for a flag `true` and for numbers > 0; `false`, `0`, `-1` and unknown names deny |
| `Subscription.UnlimitedSentinelDenied` | backend/models/Subscription.js:228-257 | the enterprise `-1` limits are denied where the free bundle's positive limits grant |
| `Subscription.BooleanAccessIsEnabled` | backend/models/Subscription.js:255-257 | a boolean feature is accessible iff it is in the enabled set |
| `Subscription.OnlyTrialsExpire` | backend/models/Subscription.js:250-251 | a subscription that is not a trial is never trial-expired, whatever the dates |
| `Subscription.TrialExpiryBoundary` | backend/models/Subscription.js:250-253 | `IsTrialExpired` holds for a trial iff now > `trialEndDate` strictly, so it is not expired at the end instant |
| `Subscription.TrialExpiryMonotone` | backend/models/Subscription.js:250-253 | once expired, a trial stays expired at every later time |
| `Subscription.NewTrialLifecycle` | backend/models/Subscription.js:105-114 | a fresh trial is expired at time t iff t > creation + 14 days |
| `Subscription.SchemaDefaultsVersusFree` | backend/models/Subscription.js:19-80 | the schema's default features equal the free bundle except that `chatSupport` is on, which adds exactly that capability to the enabled set |
| `StoreModel.NewStore` | backend/models/Store.js:9-94 | a created store has the trimmed name, the lower-cased subdomain and email, no custom domain, and quota defaults 0 / 104857600 / 50 |
| `StoreModel.PublicUrl` | backend/models/Store.js:162-167 | the public URL always starts with `https://` |
| `StoreModel.UploadFitsExactly` | backend/models/Store.js:169-171 | `CanUploadFile` admits a file iff it fits the remaining quota, so filling the quota exactly is allowed, and smaller files are admitted too |
| `StoreModel.NewStoreQuota` | backend/models/Store.js:169-171 | a new store admits a 100 MiB file and refuses one byte more |
| `StoreModel.PublicUrlReadsBack` | backend/models/Store.js:162-167 | with a custom domain the URL's host is that domain; otherwise the host's first label is the subdomain |
| `StoreModel.PublicUrlSeparatesSubdomains` | backend/models/Store.js:162-167 | two stores without custom domains share a public URL only if they share a subdomain |
| `StoreModel.LowercasedSubdomain` | backend/models/Store.js:27-33 | after the lowercase setter, any non-empty mix of ASCII letters, digits and `-` passes `IsValidSubdomain` |
| `StoreModel.PaddedNameStillValid` | backend/models/Store.js:9-14 | `IsValidName` judges the trimmed name, so surrounding whitespace does not count toward the 50-character limit |
| `StoreModel.WhatsAppPatternBounds` | backend/models/Store.js:40-44 | `IsValidWhatsApp` accepts a digit string iff it has 10 to 15 digits, and refuses any non-digit before or after, such as a `+` prefix |
| `Common.ToLower` | backend/models/Product.js:194 | lower-casing keeps the length and maps each character by the ASCII case mapping |
| `Common.TrimStart` | backend/models/Store.js:12 | the result is the input minus its longest whitespace prefix: only whitespace is removed, and the rest does not start with it |
| `Common.TrimEnd` | backend/models/Store.js:12 | the result is the input minus its longest whitespace suffix: only whitespace is removed, and the rest does not end with it |
| `Common.Trim` | backend/models/Store.js:12 | the result is a slice of the input with only whitespace before and after it, and it neither starts nor ends with whitespace |
| `Common.NatToDecimal` | backend/models/Order.js:193 | the decimal rendering of a number is a non-empty string of digits |
| `Common.DecimalRoundTrip` | backend/models/Order.js:193 | reading the decimal rendering of a number back gives the number |
| `WhatsApp.DigitsOf` | backend/utils/whatsapp.js:2 | stripping non-digits leaves only digits and never lengthens the string |
| `WhatsApp.DigitsOfIsFilter` | backend/utils/whatsapp.js:2 | the result is the input filtered by `IsDigit`: every digit, each occurrence once, in its original order, and nothing else |
| `WhatsApp.FormatPhoneNumber` | backend/utils/whatsapp.js:1-13 | the normalised number contains only digits and starts with `62` |
| `WhatsApp.FormatPhoneCases` | backend/utils/whatsapp.js:4-12 | no digits give `62`; a leading `0` becomes `62`; a `62` number is kept; anything else gains `62` |
| `WhatsApp.FormatPhoneIdempotent` | backend/utils/whatsapp.js:1-13 | normalising a normalised number changes nothing |
| `WhatsApp.WhatsAppLink` | backend/utils/whatsapp.js:15-19 | every link starts with `https://wa.me/` |
| `WhatsApp.WhatsAppLinkReadsBack` | backend/utils/whatsapp.js:15-19 | the link's path reads back as the normalised phone followed by `?text=` and the encoded message |
| `WhatsApp.GenerateOrderMessage` | backend/utils/whatsapp.js:21-49 | the message built by successive appends equals the concatenation of the template's pieces |
| `WhatsApp.ItemPiecesShape` | backend/utils/whatsapp.js:26-30 | the order message has one three-line block per product, in product order |
| `WhatsApp.OrderOptionalSections` | backend/utils/whatsapp.js:38-44 | the address line appears iff the order has an address, and the notes section iff it has notes |
| `WhatsApp.Excerpt` | backend/utils/whatsapp.js:57 | the excerpt is the description's prefix of length min(length, 100) |
| `WhatsApp.InquiryExcerpt` | backend/utils/whatsapp.js:51-63 | an `InquiryMessage` has an excerpt line iff a description exists; it holds at most 100 leading characters followed by `...` |
| `WhatsAppRoutes.DefaultMessage` | backend/routes/whatsapp.js:41 | the default greeting opens with the fixed text and ends with the store name |
| `WhatsAppRoutes.GenerateLink` | backend/routes/whatsapp.js:7-58 | unknown store gives 404 first, then an unknown named product gives 404; otherwise the store's link and phone with the inquiry or the default message |
| `WhatsAppRoutes.StoreCheckedFirst` | backend/routes/whatsapp.js:11-26 | an unknown store is reported before any product lookup, whatever the product table holds |
| `WhatsAppRoutes.FoundLines` | backend/routes/whatsapp.js:78-88 | the checkout keeps at most one order line per cart item |
| `WhatsAppRoutes.CheckoutLink` | backend/routes/whatsapp.js:60-119 | 404 iff the store is unknown; otherwise the total is the cart total, and the message is the template over the found lines |
| `WhatsAppRoutes.FoundLinesAppend` | backend/routes/whatsapp.js:78-88 | the found lines and the total of a concatenated cart are those of its parts combined |
| `WhatsAppRoutes.TotalIsSumOfBlocks` | backend/routes/whatsapp.js:81-86 | the reported total equals the sum of the subtotals printed in the message |
| `WhatsAppRoutes.MissingProductAddsNothing` | backend/routes/whatsapp.js:79-80 | a cart item whose product does not exist changes neither the total nor the message lines |
| `WhatsAppRoutes.AllFoundKeepsOrder` | backend/routes/whatsapp.js:78-88 | with every product present, each cart item gets its own line, in cart order |
| `WhatsAppRoutes.CheckoutMatchesOrderTemplate` | backend/routes/whatsapp.js:72-100 | with a buyer name and phone, the checkout message has the same pieces as the order template |
| `WhatsAppRoutes.CustomerSections` | backend/routes/whatsapp.js:92-98 | in the buyer block, each of the name, phone, address and notes lines is present iff that field is |
| `WhatsAppRoutes.CheckoutBuyerLines` | backend/routes/whatsapp.js:92-98 | in the whole checkout message, each buyer line is present iff `customerInfo` exists and that field is non-empty |
| `ProductModel.TrimLeadingDashes` | backend/models/Product.js:196 | only leading `-` characters are removed, all of them, and the rest is kept as a suffix |
| `ProductModel.TrimTrailingDashes` | backend/models/Product.js:196 | only trailing `-` characters are removed, all of them, and the rest is kept as a prefix |
| `ProductModel.SlugifyIsSlug` | backend/models/Product.js:192-197 | a slug generated by `Slugify` has only `[a-z0-9-]`, no `--` and no `-` at either end |
| `ProductModel.SlugifyIdempotent` | backend/models/Product.js:193-196 | slug normalisation is idempotent |
| `ProductModel.Product.constructor` | backend/models/Product.js:9-51 | a document built from a body has the trimmed name and lower-cased slug, `profit` defaulting to price − cost and `sold`/`views` to 0 unless the body sets them; it passes the modelled validators iff the body does |
| `ProductModel.Product.ReduceStock` | backend/models/Product.js:207-217 | untracked: succeeds and changes nothing; short stock: fails and changes nothing; otherwise moves `quantity` from stock to sold, keeping stock + sold and stock ≥ 0; a tracked success with positive quantity implies `IsInStock` held before |
| `ProductModel.Product.PreSave` | backend/models/Product.js:186-200 | profit is recomputed only when price and cost are both non-zero; the slug becomes the normalised name only when none is set (its shape is `ProductModel.SlugifyIsSlug`); nothing else changes |
| `ProductModel.CreateDocument` | backend/models/Product.js:9-200 | a body fails validation iff its trimmed name is empty or over 100 characters, or price, cost or stock is negative (or another field fails); a valid one gets the body's fields through the setters and then the pre-save hook's profit and slug |
| `ProductRoutes.ExtName` | backend/routes/product.js:22 | the extension is a suffix of the name that starts with `.`, is shorter than the last path segment, and has no further dot or slash |
| `ProductRoutes.UploadUrl` | backend/routes/product.js:87 | an image URL is `/uploads/products/` followed by the stored filename |
| `ProductRoutes.UploadedImages` | backend/routes/product.js:85-91 | a created product gets one image per file, in upload order, and only the first is primary |
| `ProductRoutes.AddedImages` | backend/routes/product.js:121-126 | an update adds one non-primary image per file, in upload order |
| `ProductRoutes.UploadedImagesOnePrimary` | backend/routes/product.js:85-91 | with uploads, exactly one image is primary, and it is the first |
| `ProductRoutes.AddedImagesKeepExisting` | backend/routes/product.js:121-127 | on update, the existing images come first in their order, and the primary count is unchanged |
| `ProductRoutes.FilterNeedsExtension` | backend/routes/product.js:20-30 | `FileFilter` refuses a file without an extension whatever its mimetype |
| `ProductRoutes.OneBadFileRefusesAll` | backend/routes/product.js:17-31 | `UploadAccepted` fails for the whole request when one file exceeds 10 MiB or fails the filter, or when more than ten files arrive |
| `ProductRoutes.FilterIsUnanchored` | backend/routes/product.js:21-23 | the type test is a substring test, so surrounding text does not stop a match |
| `ProductRoutes.ExtNameOfSimpleName` | backend/routes/product.js:22 | the extension of `stem.ext` with a proper stem is `.ext` |
| `ProductRoutes.DotFileHasNoExtension` | backend/routes/product.js:22 | a dot-file such as `.png` has no extension |
| `ProductRoutes.StoredFilenameKeepsExtension` | backend/routes/product.js:12-14 | the name `StoredFilename` gives on disk (timestamp plus extension) has the original file's extension |
| `ProductRoutes.UpperCaseExtensionAccepted` | backend/routes/product.js:22-25 | `photo.JPG` with `image/jpeg` passes, because the extension is lower-cased first |
| `ProductRoutes.Assign` | backend/routes/product.js:129 | every field the body carries overwrites the product's, the name trimmed and the slug lower-cased by their setters, and the others are kept |
| `ProductRoutes.Catalog.Create` | backend/routes/product.js:78-105 | the body is spread into a document of the checked store, with the uploaded images when files exist; a body failing validation answers 500 and nothing is stored; otherwise the body's `profit`, slug, `sold` and `views` survive unless the hook recomputes profit or fills an empty slug from the trimmed name; ids never share a document |
| `ProductRoutes.Catalog.View` | backend/routes/product.js:52-76 | an unknown id gives 404; otherwise `views` grows by exactly one before the pre-save hook, and the stock fields are unchanged |
| `ProductRoutes.Catalog.Update` | backend/routes/product.js:107-142 | only a product of the checked store is found; it is saved exactly when the validators accept it after assignment (trimmed name present and at most 100 characters, price, cost and stock not negative), and a refused save (500) leaves it unchanged; a saved one has the existing images followed by the new ones, the assigned body and the hook's profit and slug |
| `ProductRoutes.Catalog.Delete` | backend/routes/product.js:144-168 | only a product of the checked store is removed, otherwise 404 and nothing changes |
| `OrderModel.WithProfits` | backend/models/Order.js:199-202 | each item's profit becomes (price − (cost or 0)) × quantity, and nothing else changes |
| `OrderModel.PadStart3` | backend/models/Order.js:194 | a string shorter than three gets exactly 3 − length `0` characters in front of it; a longer one is left alone |
| `OrderModel.HookNumber` | backend/models/Order.js:192-196 | the pre-save hook keeps a stored order number and generates an `ORD-` number for an order without one; the result is never empty |
| `OrderModel.OrderNumberReadsBack` | backend/models/Order.js:192-196 | an `OrderNumber` is `ORD-`, the timestamp's digits, `-` and three digits, and both numbers read back |
| `OrderModel.OrderNumberInjective` | backend/models/Order.js:192-196 | distinct (timestamp, random) pairs give distinct order numbers |
| `OrderModel.SumSubtotalsAppend` | backend/models/Order.js:211 | the subtotal sum of a concatenation is the sum of the parts' sums |
| `OrderModel.ProfitsAddUp` | backend/models/Order.js:198-202 | the item profits written by the hook add up to revenue minus total cost |
| `OrderModel.TotalProfitIsItemProfits` | backend/models/Order.js:198-205 | when the total is revenue plus shipping, the recorded total profit is the sum of the item profits |
| `OrderModel.Order.constructor` | backend/models/Order.js:73-147 | a new order has no number, status `pending`, an empty history and zero cost and profit |
| `OrderModel.Order.CalculateTotal` | backend/models/Order.js:210-218 | subtotal is the sum of item subtotals; total is subtotal + shipping + tax − discount and is returned; the items and the other amounts are unchanged |
| `OrderModel.ProfitPass` | backend/models/Order.js:198-202 | the loop leaves every item with profit (price − (cost or 0)) × quantity and nothing else changed, and sums (cost or 0) × quantity |
| `OrderModel.Order.PreSave` | backend/models/Order.js:191-208 | the order number becomes `HookNumber` of the old one (kept when set, generated when absent); item profits and total cost are folded; totalProfit = total − totalCost − shipping |
| `OrderModel.Order.AddStatusHistory` | backend/models/Order.js:220-228 | exactly one entry is appended after the unchanged earlier ones, and the status becomes the new one |
| `OrderModel.CreatedNumberAsWritten` | backend/routes/order.js:24-26 | as written, `Order.create` stores a body's order number exactly when it has one, so the generated number is never stored |
| `OrderModel.CreatedNumber` | backend/models/Order.js:9-13 | with the number generated before validation, every created order is stored with a non-empty number, the generated one exactly when the body has none |
| `OrderModel.GeneratorUnreachableOnCreate` | backend/models/Order.js:191-196 | a body without an order number is refused as written, but stored under a fresh `ORD-` number once the number is generated first |
| `ChatModel.FirstMatch` | backend/models/Chat.js:158 | the match is the first participant whose user equals the sender id, or none if there is no such participant |
| `ChatModel.SenderNameOfFirst` | backend/models/Chat.js:158 | the recorded sender name is the first matching participant's name |
| `ChatModel.Chat.constructor` | backend/models/Chat.js:116-124 | a new chat has no messages and both unread counters at 0 |
| `ChatModel.Chat.AddMessage` | backend/models/Chat.js:153-179 | exactly one unread message is appended, `lastMessage` carries its text and sender type, and only the other side's counter grows by one |
| `ChatModel.Chat.MarkAsRead` | backend/models/Chat.js:181-194 | reader `store` zeroes only the store counter and any other reader only the customer counter; the messages become the marked-read list |
| `ChatModel.MarkedReadEffect` | backend/models/Chat.js:188-193 | marking keeps the order, never un-reads, leaves read messages alone and flips exactly the unread messages of the other side |
| `ChatModel.MarkedReadIdempotent` | backend/models/Chat.js:181-194 | a second `markAsRead` by the same reader changes no message |
| `ChatModel.StoreReaderMarksEverything` | backend/models/Chat.js:181-193 | `markAsRead('store')` marks every message read, the store owner's own included |
| `RateLimit.Recent` | backend/middleware/auth.js:153 | a timestamp occurs in the pruned list iff it occurs in the history and now − t < windowMs; the list is never longer than the history |
| `RateLimit.RecentIsFilter` | backend/middleware/auth.js:153 | the pruned list is the history filtered by the window test: every in-window timestamp, each occurrence once (equal timestamps count separately), in stored order |
| `RateLimit.RateLimiter.constructor` | backend/middleware/auth.js:142-143 | a new limiter has its limit, its window and an empty map |
| `RateLimit.RateLimiter.Handle` | backend/middleware/auth.js:145-166 | the key (`RequestKey`: the user id, else the IP) is admitted iff fewer than `maxRequests` recent timestamps exist for it; on admit it holds the pruned list plus `now`; other keys are unchanged |
| `RateLimit.RecentKeepsSorted` | backend/middleware/auth.js:153 | pruning a sorted history leaves it sorted, and a history wholly inside the window is kept whole |
| `RateLimit.RecentShrinksOverTime` | backend/middleware/auth.js:153 | later clocks keep no more timestamps than earlier ones |
| `RateLimit.AdmitKeepsSorted` | backend/middleware/auth.js:153-163 | appending `now` to a pruned sorted history keeps it sorted |
| `Database.WithTrialExpired` | backend/middleware/auth.js:44-46 | the in-place write sets only that user's subscription to `expired` and leaves every other record alone |
| `Database.AddUserKeepsUnique` | backend/controllers/authController.js:41-63 | creating a user under an email nobody has keeps emails unique |
| `Database.UpdateUserKeepsUnique` | backend/controllers/authController.js:73-93 | saving a user without changing its email keeps emails unique |
| `AuthGuard.FirstSpace` | backend/middleware/auth.js:10 | the split point is the first space, or none when there is no space |
| `AuthGuard.Protect` | backend/middleware/auth.js:6-71 | the outcome is `ProtectOutcome`, the decision chain (token, user, activity, subscription status); a lapsed trial alone is written to `expired`; users and stores are untouched |
| `AuthGuard.Authorize` | backend/middleware/auth.js:73-83 | admits iff the role is among the allowed roles, and otherwise answers 403 |
| `AuthGuard.CheckStoreOwnership` | backend/middleware/auth.js:85-120 | passes only for an existing store owned by the user or for an admin; no store id gives 400 |
| `AuthGuard.FeatureGate` | backend/middleware/auth.js:122-140 | passes iff a subscription is attached and grants the feature, and otherwise answers 403 |
| `AuthGuard.BearerHeaderRoundTrip` | backend/middleware/auth.js:9-10 | `ExtractToken` yields the token of a `Bearer <token>` header, whatever the cookie |
| `AuthGuard.MalformedBearerShadowsCookie` | backend/middleware/auth.js:9-13 | a `Bearer…` header without a space yields no token even when a cookie is present |
| `AuthGuard.CookieFallback` | backend/middleware/auth.js:9-20 | without a Bearer header the cookie is used, and with neither the answer is 401 |
| `AuthGuard.UserChecksPrecedeSubscription` | backend/middleware/auth.js:25-39 | a missing user (401) or an inactive one (403) is decided whatever subscriptions exist |
| `AuthGuard.AdmittedSubscriptions` | backend/middleware/auth.js:41-62 | only `active`, `inactive` and unexpired trials pass, and the attached subscription is the one on record |
| `AuthGuard.ExpiryIsSticky` | backend/middleware/auth.js:44-58 | a lapsed trial is refused with the trial message, and after the write it is refused as ended at any time |
| `AuthGuard.NoSubscriptionStopsAtFeatureGate` | backend/middleware/auth.js:124-129 | a user without a subscription passes `protect` but is refused by every feature gate |
| `AuthGuard.StoreIdPrecedence` | backend/middleware/auth.js:87 | `SelectStoreId` takes the store id from the params first, then the body, then the query |
| `AuthGuard.OwnershipDecision` | backend/middleware/auth.js:96-110 | for an existing store, an admin or the owner passes and anyone else gets 403; an unknown store gets 404 |
| `AuthGuard.AuthorizeMonotone` | backend/middleware/auth.js:75 | allowing more roles never refuses a request that fewer roles admitted |
| `AuthGuard.GatePassesEnabled` | backend/middleware/auth.js:122-140 | for a capability switch, the feature gate passes exactly when the attached subscription has it switched on |
| `AuthGuard.AiGateOnlyEnterprise` | backend/routes/ai.js:5 | among the plan bundles, the `aiLandingPage` gate passes exactly for enterprise |
| `AuthController.NewUser` | backend/controllers/authController.js:57-63 | a registered user is an active `store_owner` with an unverified email and nothing linked |
| `AuthController.Register` | backend/controllers/authController.js:37-123 | a taken email, then a taken subdomain, is refused without writes; otherwise the user, the store and a free trial are created and linked |
| `AuthController.CreateAccount` | backend/controllers/authController.js:57-94 | the user is created first; a store that fails validation (`PassesValidation` of name, subdomain and phone) leaves that user and answers 500; otherwise the store and the 14-day free trial are created and the user is linked to both (`LinkedUser`) with a 24-hour verification token; email uniqueness is kept |
| `AuthController.Login` | backend/controllers/authController.js:125-184 | 400 without credentials; the same 401 for an unknown email and a wrong password; 403 for inactive or lapsed-trial accounts; `lastLogin` is set only on success |
| `AuthController.UpdatePassword` | backend/controllers/authController.js:245-266 | a wrong current password gives 401 and no change; otherwise only the stored hash is replaced |
| `AuthController.ForgotPassword` | backend/controllers/authController.js:268-320 | unknown email gives 404; otherwise the reset token and expiry are stored, and cleared again when the email fails |
| `AuthController.ResetPassword` | backend/controllers/authController.js:322-353 | a live reset token is accepted exactly: with one, the password is replaced and both token fields cleared; without one, 400 and no change |
| `AuthController.VerifyEmail` | backend/controllers/authController.js:355-389 | a live verification token is accepted exactly: with one, the email is marked verified and both token fields cleared; without one, 400 and no change |
| `AuthController.TokenExpiryIsStrict` | backend/controllers/authController.js:329-332 | a token is refused at its expiry instant and accepted one millisecond before; a different digest never matches |
| `AuthController.ClearedTokenIsDead` | backend/controllers/authController.js:341-376 | a cleared reset or verification token never matches again |
| `AuthController.RegisteredAccountLifecycle` | backend/controllers/authController.js:57-92 | a freshly registered owner is an active `store_owner` whose free trial lapses exactly after 14 days |
| `AuthController.DefaultStoreName` | backend/controllers/authController.js:67 | `StoreNameFor` without a store name gives `<name>'s Store`; a given name is used as is |

## Left out

- Cryptography and identity are not modelled. JWT signing and verification, bcrypt hashing and comparison, sha256 digests and random tokens are parameters.
- The User model is not part of this model. Its `isActive` default (true) and its own schema validation on `User.create` are assumed.
- Email delivery (`sendEmail`) is a boolean parameter, and the email bodies are not modelled.
- The clock (`Date.now`) and `Math.random` are parameters.
- Mongoose persistence is reduced to maps keyed by id. Not modelled: `populate`, indexes, query setters, and the error answers for cast errors or database failures (500, or 401 in `protect`).
- Concurrency is not modelled: each request runs alone. Not modelled: racing subscription writes, socket.io and the `express-rate-limit` wiring in the server.
- Strings are ASCII-cased sequences of characters. Unicode case mapping and UTF-16 code units in `substring` are not modelled.
- The store email pattern is not modelled.
- `profitMargin` is floating point, so it is not modelled.
- Prototype-chain keys such as `constructor` are not modelled in `getPlanDetails`; names are compared as plain strings.
- Each user has at most one subscription, stored in a map keyed by user (`findOne({ user })`).
- `logout`, `getMe`, `updateProfile` and the product list route (`GET /store/:storeId`) are not modelled: they only set a cookie or run a query.
- `ProductRoutes.Catalog.Create`: the unique indexes on `sku` and `seo.slug` (a duplicate answers 500) are not modelled, and the body always carries a price; the validators of fields the model does not keep are one boolean, `othersValid`.
- `ProductRoutes.Catalog.Update`: the unique indexes are not modelled either; the validators of fields the model does not keep are the patch's `othersValid`.
- `AuthController.ForgotPassword`: the expiry is a parameter, because `User.getResetPasswordToken` sets it and is not part of this model; the ten-minute window the email announces is not checked.
- `ProductRoutes.Assign`: copies only the fields the model keeps (store, name, price, cost, slug, stock, trackInventory, images), not every body key.
- `ProductRoutes.ExtName`: does not model trailing path separators, which `path.extname` strips first.
- Multer's own error answers for too many or too large files are not modelled. `UploadAccepted` only states which uploads get through.
- `toLocaleString('id-ID')` and `encodeURIComponent` are function parameters. The model does not fix their output.
- Optional request fields (`productId`, the `customerInfo` fields, the order's address and notes) use the empty string for an absent value. The source treats both as falsy.

## Findings

| source | as written | input that shows it | evidently intended | confidence | as-written member | corrected member |
|---|---|---|---|---|---|---|
| backend/models/Order.js:9-13 | `orderNumber` is `required`, and Mongoose validates before the `pre('save')` hook at lines 191-196 runs, so `Order.create(req.body)` (backend/routes/order.js:26) refuses a body without a number before the generator can fill it | a body without `orderNumber`: the answer is 500 | the hook generates the number for such a body (for example from a `pre('validate')` hook) | medium, not executed | `OrderModel.CreatedNumberAsWritten` (with `OrderModel.GeneratorUnreachableOnCreate`) | `OrderModel.CreatedNumber` |
