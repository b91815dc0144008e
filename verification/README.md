# MontageIndia media, payment and admin rules in Dafny

This project models the core of the MontageIndia stock-media marketplace:

- the server's audio upload handler `reduceAudio`. It takes an uploaded track and its `{uuid, mediaType}` body. It derives the base name and extension from the file name, watermarks the track and uploads the original and watermarked files to object storage. It then attaches an "Original" variant and the watermarked keys to the product with that uuid.
- the Razorpay payment webhook. It checks the signature, routes the event name to one of four handlers and answers 200 or 500. The handlers charge or update subscriptions, mark orders paid and record transactions.
- the environment configuration: `getEnvVariable` and the fourteen-field `config` record.
- the admin product form: the tag input, the category menu's "Add" button, the allowed media types, the category updates, form validity and the create payload.
- the trending-video card: title capitalisation and the wishlist and cart toggles.
- the admin "available products" page: `truncateText`, "Show All" and the pagination controls.
- the home image card: the same `truncateText` applied to its caption.

Modules follow the source files:

| module | file |
|---|---|
| `Wrappers` | `Option`/`Result` |
| `Lookup` | the first-match search behind Mongoose's `findOne` and `findOneAndUpdate` |
| `JsStrings` | the JavaScript string operations the code relies on: `split`, `join`, `trim`, ASCII case mapping |
| `AudioPipeline` | audio.ts |
| `PaymentWebhook` | webhook.ts |
| `EnvConfig` | config.ts |
| `ProductForm` | product_form1.tsx |
| `TrendingVideos` | trendingVideos.tsx |
| `AvailableProducts` | available/page.tsx |
| `HomeImage` | homeImage.tsx |

**How I/O is represented**
- Side effects the code cannot see are parameters:
  - the watermarker, each upload and the product lookup and save are `Ports` of the audio handler;
  - the signature check is an oracle `validate` of the webhook, where `None` means the library threw;
  - the process environment is a map;
  - each HTTP reply on the client is an `Option`, where `None` means the request failed.
- Stateful parts are classes with fields that their methods update:
  - the object storage, the product store and the product document of the audio handler;
  - the webhook's collections;
  - the form and page components' React state.
- Each method is proved against a pure function of the old state.

**Pagination.** "Next" is disabled by `currentPage === totalPages`. A page past the last, which `handlePageChange` accepts, therefore leaves "Next" enabled, and it keeps counting up. The model keeps this as written.

**Audio handler control flow.** It follows the code exactly. A `next(error)` without `return` (lines 41 and 83 of audio.ts) does not stop the handler. So a run is modelled as the sequence of signals it emits (`NextError`, `Thrown`, `Json`), together with the stored objects and the final product records.

## Model

| member | source | states |
|---|---|---|
| AudioPipeline.ReduceAudio | server/src/controller/media/audio.ts:38-108 | the emitted signals, the stored objects and the product records after the handler are exactly those of the `Publish` run; the store keeps its invariant that record ids are unique |
| AudioPipeline.UploadAll | server/src/controller/media/audio.ts:78-85 | the upload loop stores, in order, exactly the destinations whose upload succeeded and emits one "Error uploading image" 400 per failed upload, without stopping |
| AudioPipeline.UpdateProduct | server/src/controller/media/audio.ts:87-107 | the lookup, 404, mutation and save steps leave the store and the last signal as `Conclude` describes; the store stays valid |
| AudioPipeline.BaseName | server/src/controller/media/audio.ts:49 | the base name is dot-free and a prefix of the original name; a name without a dot is its own base name; no file gives no base |
| AudioPipeline.Extension | server/src/controller/media/audio.ts:50 | the extension is dot-free, and it exists exactly when the name contains a dot |
| AudioPipeline.NameRoundTrip | server/src/controller/media/audio.ts:49-52 | for a name with exactly one dot, `{base}.{ext}` rebuilds the name |
| AudioPipeline.NameParts | server/src/controller/media/audio.ts:49-50 | a dot-free base and extension joined by one dot split back into the same base and extension |
| AudioPipeline.ExtensionIsSecondSegment | server/src/controller/media/audio.ts:50 | with two or more dots, the "extension" is only the second segment and the name continues with another dot after it |
| AudioPipeline.UploadPairs | server/src/controller/media/audio.ts:52-76 | the local upload sources are the watermark input and output paths; the storage destinations are `{uuid}/audio/{uuid}-original.{ext}` and `{uuid}/audio/{uuid}-watermarked.{ext}`, and those two keys differ |
| AudioPipeline.LocalFiles | server/src/controller/media/audio.ts:52-69 | the two files uploaded are the watermark's input and output paths, in that order |
| AudioPipeline.StorageTargets | server/src/controller/media/audio.ts:72-76 | both uploads go to folder `{uuid}/audio`, the first under the original variant's key and the second under the watermarked key |
| AudioPipeline.Publish | server/src/controller/media/audio.ts:38-108 | a run always emits a signal and stores at most the two objects; the product records change only for an "audio" request whose last signal is the JSON reply, and that reply's product is in the saved records |
| AudioPipeline.Conclude | server/src/controller/media/audio.ts:87-107 | only a JSON reply changes the records; it answers with the product found by the uuid, now saved; its public and thumbnail keys are the watermarked key |
| AudioPipeline.PublishFailFast | server/src/controller/media/audio.ts:78-102 | corrected handler: a missing file and the first failed upload each end the run; once an upload error is emitted, it is the last signal and the product records are unchanged |
| AudioPipeline.WithAudio | server/src/controller/media/audio.ts:92-100 | the product gains exactly one "Original" variant keyed by the original object, at the end of its variants; public and thumbnail keys name the watermarked object; no other field changes |
| AudioPipeline.NotIdempotent | server/src/controller/media/audio.ts:92-100 | applying the product mutation twice appends a second, identical variant, so the result differs from applying it once |
| AudioPipeline.RepeatedRunDuplicatesVariant | server/src/controller/media/audio.ts:87-102 | running the whole handler twice on the same successful request saves the product with the mutation applied twice: two identical new variants, and a store different from the one after one run |
| AudioPipeline.FirstUuidKept | server/src/controller/media/audio.ts:87-102 | saving a document over the first record with its uuid keeps that record the first match, so a repeated run updates the same product |
| Lookup.FirstWith | server/src/controller/media/audio.ts:87 | the lookup finds the first element in store order whose field matches, and nothing is found only when no element matches |
| AudioPipeline.FindByUuid | server/src/controller/media/audio.ts:87 | `findOne({uuid})` finds the first product record with the uuid, and nothing exactly when no record has it |
| AudioPipeline.SaveRecord | server/src/controller/media/audio.ts:102 | saving a document replaces exactly the record with its id and keeps ids unique |
| AudioPipeline.Uploaded | server/src/controller/media/audio.ts:78-85 | only destinations of the upload list are stored, never more than there are uploads |
| AudioPipeline.UploadErrors | server/src/controller/media/audio.ts:81-83 | every upload error is the 400 "Error uploading image" |
| AudioPipeline.UploadSnoc | server/src/controller/media/audio.ts:78-85 | one more upload extends the stored list and the error list by that upload's outcome alone |
| AudioPipeline.BothUploaded | server/src/controller/media/audio.ts:78-85 | when both uploads succeed, both destinations are stored, original first, and no error is emitted |
| AudioPipeline.NoneUploaded | server/src/controller/media/audio.ts:78-85 | when both uploads fail, nothing is stored and two errors are emitted |
| AudioPipeline.WrongMediaTypeRejected | server/src/controller/media/audio.ts:44-47 | a body whose mediaType is not "audio" ends the run with 400 "Wrong mediaType"; nothing is uploaded and no product changes |
| AudioPipeline.MissingProductNotFound | server/src/controller/media/audio.ts:87-90 | with no product for the uuid, the run ends with 404 "Product not found" and no product changes |
| AudioPipeline.SuccessUpdatesOneProduct | server/src/controller/media/audio.ts:87-107 | a run that saves changes only the product with the uuid, and answers with that updated product |
| AudioPipeline.WatermarkOutcomeIgnored | server/src/controller/media/audio.ts:56-61 | a watermarking failure is caught and never stops the uploads or the product update; the handler does not branch on it |
| AudioPipeline.PublishSingleDotName | server/src/controller/media/audio.ts:38-108 | for `{base}.{ext}` with every port succeeding, both objects are stored, the product gains the variant and keys, and it is the one JSON reply |
| AudioPipeline.UploadFailureStillMutates | server/src/controller/media/audio.ts:78-102 | as written: with every upload failing, the product still gains keys that name objects that were never stored |
| AudioPipeline.FailFastKeepsKeysStored | server/src/controller/media/audio.ts:78-102 | corrected: a product changes only when both objects its keys name were stored |
| AudioPipeline.MissingFileStillMutates | server/src/controller/media/audio.ts:40-102 | as written: a request without a file is answered 400 "Can not get file" first, yet its product is still saved with keys built from the extension "undefined" |
| AudioPipeline.MissingFileRejected | server/src/controller/media/audio.ts:40-42 | corrected: without a file the run emits only that 400, stores nothing and leaves every product unchanged |
| AudioPipeline.ObjectStorage.Upload | server/src/controller/media/audio.ts:80 | an upload reports the storage outcome and appends the destination only on success |
| AudioPipeline.ProductDocument.PushVariants | server/src/controller/media/audio.ts:98 | the pushed variants are appended after the existing ones |
| AudioPipeline.ProductStore.FindOne | server/src/controller/media/audio.ts:87 | `findOne` returns a fresh document equal to the first record with the uuid, or null exactly when none exists |
| AudioPipeline.ProductStore.Save | server/src/controller/media/audio.ts:102 | `save` writes the document back to its record and keeps ids unique |
| PaymentWebhook.Route | server/src/controller/payment/webhook.ts:122-151 | each of the eight event names reaches its handler, and an event reaches no handler exactly when it is not one of them (both directions) |
| PaymentWebhook.FirstSubscriber | server/src/controller/payment/webhook.ts:14-15 | `findOneAndUpdate` addresses the first customer with the subscription id, and none only when no customer has it |
| PaymentWebhook.FirstOrder | server/src/controller/payment/webhook.ts:70-71 | the order update addresses the first order with the gateway order id, and none only when no order has it |
| PaymentWebhook.Charge | server/src/controller/payment/webhook.ts:17-21 | a charge sets status and plan, raises credits by exactly the charged amount and keeps the customer and subscription ids |
| PaymentWebhook.SetStatus | server/src/controller/payment/webhook.ts:47 | the status update changes the subscription status and nothing else |
| PaymentWebhook.ToTransaction | server/src/controller/payment/webhook.ts:85-96 | the stored transaction keeps every field of the payment entity, so the entity can be rebuilt from it |
| PaymentWebhook.TransactionRoundTrip | server/src/controller/payment/webhook.ts:85-96 | the transaction and payment-entity field renamings are mutually inverse |
| PaymentWebhook.ApplyCharged | server/src/controller/payment/webhook.ts:9-39 | the charged handler touches only customers and histories and never adds or removes a customer |
| PaymentWebhook.ApplyStatus | server/src/controller/payment/webhook.ts:40-63 | the status handler touches only customers and histories and never adds or removes a customer |
| PaymentWebhook.ApplyOrderPaid | server/src/controller/payment/webhook.ts:65-80 | the order handler touches only orders and keeps their number |
| PaymentWebhook.ApplyPayment | server/src/controller/payment/webhook.ts:82-103 | the payment handler touches only transactions |
| PaymentWebhook.HandleWebhook | server/src/controller/payment/webhook.ts:105-158 | the answer is 500 "webhook failed" exactly when the signature check throws and 200 "webhook success" otherwise; only a valid signature changes the store |
| PaymentWebhook.Dispatch | server/src/controller/payment/webhook.ts:122-151 | an unhandled event leaves the store unchanged; only payment events touch the transactions, only order.paid touches the orders, and neither of those touches the customers or histories |
| PaymentWebhook.TotalCreditsUpdate | server/src/controller/payment/webhook.ts:21 | replacing one customer changes the credit total by that customer's credit difference |
| PaymentWebhook.ChargedUpdatesSubscriber | server/src/controller/payment/webhook.ts:12-34 | a charge updates only the first matching subscriber, adds exactly `notes.credits` to the total credits and appends one history record with the entity's plan, dates and status; an unknown subscription changes nothing |
| PaymentWebhook.ChargedUnknownSubscription | server/src/controller/payment/webhook.ts:14-59 | a subscription id that no stored customer holds: both the charged and the status event leave the whole store unchanged and create no history |
| PaymentWebhook.ChargedReplayAddsTwice | server/src/controller/payment/webhook.ts:14-34 | a replayed charged event adds the credits twice and writes two history records |
| PaymentWebhook.StatusChangesOnlyStatus | server/src/controller/payment/webhook.ts:43-59 | a status event changes only the first matching customer's status, keeps the credit total, and appends exactly one history record built from that customer's id and the entity |
| PaymentWebhook.OrderPaidIdempotent | server/src/controller/payment/webhook.ts:68-74 | order.paid marks exactly the first order with the gateway id as "paid", and replaying it changes nothing |
| PaymentWebhook.SameFirstOrder | server/src/controller/payment/webhook.ts:70-73 | updating the matched order keeps it the first match |
| PaymentWebhook.PaymentEventsRecordTransaction | server/src/controller/payment/webhook.ts:123-130 | every payment event appends exactly one transaction, after the existing ones, from which the payment entity is recovered |
| PaymentWebhook.NothingDispatched | server/src/controller/payment/webhook.ts:117-153 | an invalid signature, or an unhandled event, leaves the store unchanged and still answers 200 |
| PaymentWebhook.WebhookStore.SubscriptionChargedHandler | server/src/controller/payment/webhook.ts:9-39 | the collections after the handler are `ApplyCharged` of the old ones |
| PaymentWebhook.WebhookStore.SubscriptionStatusHandler | server/src/controller/payment/webhook.ts:40-63 | the collections after the handler are `ApplyStatus` of the old ones |
| PaymentWebhook.WebhookStore.OrderPaidHandler | server/src/controller/payment/webhook.ts:65-80 | the collections after the handler are `ApplyOrderPaid` of the old ones |
| PaymentWebhook.WebhookStore.PaymentEventHandler | server/src/controller/payment/webhook.ts:82-103 | the collections after the handler are `ApplyPayment` of the old ones |
| PaymentWebhook.WebhookStore.PaymentWebHook | server/src/controller/payment/webhook.ts:105-159 | the response and the collections after a request are those of `HandleWebhook` |
| EnvConfig.GetEnvVariable | server/src/utils/config.ts:5-11 | fails exactly for a required variable that is unset or empty, with "Environment variable {name} is not defined"; returns a set value verbatim and "" for an unset optional one |
| EnvConfig.BuildConfig | server/src/utils/config.ts:13-28 | building the config fails exactly when some listed variable is unset, and the error names an unset variable |
| EnvConfig.FirstUnset | server/src/utils/config.ts:13-28 | finds the first unset name in reading order, and none exactly when all are set |
| EnvConfig.BuildConfigAllSet | server/src/utils/config.ts:13-28 | with all fourteen variables set, the config is built and each field holds its variable's value |
| EnvConfig.BuildConfigUnset | server/src/utils/config.ts:13-28 | when an earlier variable is set and the k-th is not, building throws the message for the k-th name |
| EnvConfig.BuildConfigReportsFirstUnset | server/src/utils/config.ts:13-28 | building fails exactly when some variable is unset, reports the first unset one in reading order and otherwise copies every variable into its field |
| ProductForm.FilterMedia | client/src/components/admin/product/product_form1.tsx:105-107 | every offered option is one of the keys and allowed for the admin, with its fixed label, and there are no more options than keys |
| ProductForm.AllowedMediaOptions | client/src/components/admin/product/product_form1.tsx:15-109 | the options are image, video and audio, in that order, keeping those in the admin's media types, each with its fixed label; an admin without media types gets none |
| ProductForm.ShowAddButton | client/src/components/admin/product/product_form1.tsx:38-48 | the "Add" button shows exactly when the search text is not blank and no option's label equals it ignoring case |
| ProductForm.UpperKeepsBlank | client/src/components/admin/product/product_form1.tsx:48 | upper-casing does not change whether a text is blank |
| ProductForm.ShowAddButtonIgnoresCase | client/src/components/admin/product/product_form1.tsx:40-48 | the "Add" button's decision does not depend on the case of the search text |
| ProductForm.NoAddAfterAdding | client/src/components/admin/product/product_form1.tsx:40-80 | once a category with the searched label is offered, the "Add" button is hidden |
| ProductForm.Labels | client/src/components/admin/product/product_form1.tsx:133 | the payload's categories are the selected labels, one per selected category, in order |
| ProductForm.AppendTrimmedTag | client/src/components/admin/product/product_form1.tsx:166-168 | appending a trimmed non-blank input keeps every tag trimmed and non-blank |
| ProductForm.ProductForm.HandleTagKeyDown | client/src/components/admin/product/product_form1.tsx:161-172 | Enter with non-blank input appends the trimmed input to the end of the tags and clears the input; anything else changes nothing; tags stay trimmed and non-blank |
| ProductForm.ProductForm.HandleCategoryChange | client/src/components/admin/product/product_form1.tsx:179-182 | the select's new value replaces the selection |
| ProductForm.ProductForm.HandleAddCategory | client/src/components/admin/product/product_form1.tsx:67-91 | a 201 reply appends the new category to both the offered and the selected categories; any other outcome changes neither |
| ProductForm.ProductForm.GetCategories | client/src/components/admin/product/product_form1.tsx:113-127 | a successful reply replaces the offered categories; a failed one leaves them |
| ProductForm.ProductForm.OnUserLoaded | client/src/components/admin/product/product_form1.tsx:94-111 | a loaded admin with media types gets exactly the allowed media options; otherwise they stay |
| ProductForm.ProductForm.IsFormValid | client/src/components/admin/product/product_form1.tsx:174-177 | the form is valid exactly when title, description and media type are filled in, a tag exists and a category is selected |
| ProductForm.ProductForm.NextPayload | client/src/components/admin/product/product_form1.tsx:129-133 | for a valid form, the payload has a non-empty title, description and media type, at least one category (the selected labels in order) and at least one tag, every tag trimmed and non-blank |
| TrendingVideos.CapitalizeFirstLetter | client/src/components/Video/trendingVideos.tsx:45-47 | keeps the length, upper-cases only the first character and leaves the rest untouched; a title not starting with a lower-case letter is unchanged |
| TrendingVideos.CapitalizeIdempotent | client/src/components/Video/trendingVideos.tsx:45-47 | capitalising twice is the same as capitalising once |
| TrendingVideos.WishlistAction | client/src/components/Video/trendingVideos.tsx:51-57 | the wishlist toggle removes exactly when the item is wishlisted; every request carries the product id, and an add carries the first variant's id; an add fails exactly when the product has no variant |
| TrendingVideos.CartAction | client/src/components/Video/trendingVideos.tsx:59-65 | the cart toggle removes exactly when the item is in the cart; every request carries the product id, and an add carries the first variant's id; an add fails exactly when the product has no variant |
| TrendingVideos.TogglesIndependent | client/src/components/Video/trendingVideos.tsx:51-65 | the wishlist toggle ignores the cart flag, and the cart toggle ignores the wishlist flag |
| JsStrings.JoinSplit | client/src/app/admin/product/available/page.tsx:96-98 | joining the split words with the same separator gives back the text |
| JsStrings.SplitJoin | client/src/app/admin/product/available/page.tsx:96-98 | splitting a join of separator-free words gives back the words |
| JsStrings.SplitLength | client/src/app/admin/product/available/page.tsx:96-97 | the number of words is the number of separators plus one |
| JsStrings.SplitPiecesFree | client/src/app/admin/product/available/page.tsx:96 | no split piece contains the separator |
| JsStrings.JoinAppend | client/src/app/admin/product/available/page.tsx:98 | a join splits at any word boundary into the join of the words before, the separator, and the join of the words after |
| JsStrings.JoinPrefix | client/src/app/admin/product/available/page.tsx:98 | joining the first k words gives a prefix of joining all of them |
| JsStrings.Split | client/src/app/admin/product/available/page.tsx:96 | `split` always yields at least one piece |
| JsStrings.Join | client/src/app/admin/product/available/page.tsx:98 | a join starts with the first word and has room for a separator in each gap |
| JsStrings.Trim | client/src/components/admin/product/product_form1.tsx:166-168 | trimming never lengthens the text and leaves no whitespace at either end |
| JsStrings.TrimRemovesOnlyWhitespace | client/src/components/admin/product/product_form1.tsx:166-168 | trimming removes only whitespace: the result is the text between a whitespace prefix and a whitespace suffix |
| JsStrings.TrimEmptyIff | client/src/components/admin/product/product_form1.tsx:48 | the trimmed text is empty exactly when the text is all whitespace |
| JsStrings.TrimIdempotent | client/src/components/admin/product/product_form1.tsx:168 | trimming twice is the same as trimming once |
| JsStrings.LowerOfUpper | client/src/components/admin/product/product_form1.tsx:40 | lower-casing an upper-cased text is the same as lower-casing the text |
| AvailableProducts.SliceEnd | client/src/app/admin/product/available/page.tsx:98 | `slice(0, limit)` keeps `limit` words when the limit is non-negative and no more than exist, and never more words than there are |
| AvailableProducts.TruncateText | client/src/app/admin/product/available/page.tsx:95-101 | a text of at most the word limit is returned unchanged; a longer text becomes a prefix of it followed by "..." |
| AvailableProducts.TruncateKeepsFirstWords | client/src/app/admin/product/available/page.tsx:95-101 | the truncated text, without its "...", consists of exactly the first `wordLimit` words of the text |
| AvailableProducts.TruncateChangesIff | client/src/app/admin/product/available/page.tsx:95-101 | truncation changes the text exactly when it has at least `wordLimit` spaces |
| AvailableProducts.AvailableProductsPage.FetchProduct | client/src/app/admin/product/available/page.tsx:67-82 | the fetch sends the current parameters; a reply replaces the products and page count, a failure keeps them; loading ends; the filters are unchanged |
| AvailableProducts.AvailableProductsPage.ShowAllProducts | client/src/app/admin/product/available/page.tsx:60-65 | as written: the filters are cleared, but the request still carries the old filters |
| AvailableProducts.AvailableProductsPage.ShowAllProductsFixed | client/src/app/admin/product/available/page.tsx:60-65 | corrected: the filters are cleared and the request carries the cleared filters |
| AvailableProducts.AvailableProductsPage.PreDisabled | client/src/app/admin/product/available/page.tsx:291-297 | "Pre" is disabled exactly on page 1, so while the page invariant holds an enabled "Pre" leads to a page of at least 1 |
| AvailableProducts.AvailableProductsPage.NextDisabled | client/src/app/admin/product/available/page.tsx:313-319 | "Next" is disabled only when the page equals the page count (a strict `===`): it stays enabled with no pages and on any page past the last, and a disabled "Next" is one whose next page would exceed the count |
| AvailableProducts.AvailableProductsPage.PageButtons | client/src/app/admin/product/available/page.tsx:299-311 | one button per page, numbered 1 to the page count in order, each within the page range; under the page invariant the current page has a button exactly when it is within the page count |
| AvailableProducts.AvailableProductsPage.HandlePageChange | client/src/app/admin/product/available/page.tsx:84-92 | given a page of at least 1, the current page becomes the chosen page and the page invariant holds; only a different page triggers a fetch, which carries the new page and the current filters |
| AvailableProducts.AvailableProductsPage.ClickPre | client/src/app/admin/product/available/page.tsx:291-297 | a disabled "Pre" sends nothing and changes nothing; otherwise the page decreases by one and exactly the old request with that page is sent; a reply replaces products and page count, a failure keeps them; filters and page size never change; the page never drops below 1 |
| AvailableProducts.AvailableProductsPage.ClickNext | client/src/app/admin/product/available/page.tsx:313-319 | a disabled "Next" sends nothing and changes nothing; otherwise the page increases by one and exactly the old request with that page is sent; a reply replaces products and page count, a failure keeps them; filters and page size never change |
| AvailableProducts.AvailableProductsPage.ClickPageButton | client/src/app/admin/product/available/page.tsx:299-311 | clicking the i-th button makes page i + 1 current and keeps the page invariant; the request with that page is sent only when it differs from the current page |
| AvailableProducts.NextPastLastPageWitness | client/src/app/admin/product/available/page.tsx:313-319 | with one page in total and page 3 current, "Next" is enabled and moves to page 4 |
| AvailableProducts.StaleShowAllWitness | client/src/app/admin/product/available/page.tsx:60-65 | after searching "pink", "Show All" clears the box but sends searchTerm "pink" |
| AvailableProducts.FixedShowAllWitness | client/src/app/admin/product/available/page.tsx:60-65 | with the corrected handler, the same scenario sends an empty search term |
| HomeImage.JoinSeven | client/src/components/Home/homeImage.tsx:14 | joining six and seven words gives the words separated by the separator |
| HomeImage.SevenWordsTruncate | client/src/components/Home/homeImage.tsx:11-17 | any seven space-free words cut to six lose the last word and gain "..." |
| HomeImage.CaptionWords | client/src/components/Home/homeImage.tsx:19 | the caption text is seven words separated by single spaces |
| HomeImage.CaptionValue | client/src/components/Home/homeImage.tsx:19-20 | the card shows "Pink macro image of a ranunculus..." |

## Left out

- The ffmpeg filter graph (audio.ts:10-36) is not modelled. The watermarker is a port whose result the handler ignores, as the code does.
- `uploadAudio` (lib/uploadToS3) and the Mongoose `Product` model are not part of this model. Each upload is a boolean port. `findOne` and `save` either succeed over a sequence of records or throw (`Thrown`).
- `catchAsyncError`, the Express response and the error middleware are reduced to the emitted signals. A second response after an earlier `next(error)` is not modelled.
- `JSON.parse(req.body)` failing is one `Thrown` signal. `uuid` and `mediaType` are strings, so an absent field (`undefined`) is not modelled.
- A missing file renders base name and extension as "undefined", as the template strings do.
- Concurrency is not modelled. The webhook handlers are fired without `await`, but the model runs each to completion before the reply. Interleavings of concurrent requests are left out.
- Mongo's atomicity is left out as well.
- The webhook's errors inside a handler are reduced to their effect on the store. A missing entity, or missing `notes` on a charged event, leaves the store unchanged. A failed `create` is not modelled.
- `notes.credits` is a number here. Mongo's `$inc` with a non-numeric value is left out.
- The charged handler writes the path `subscription.PlanId` (capital P), which the customer schema may not declare. The model treats it as the plan field, because the schema is not part of this model.
- `validateWebhookSignature`: the HMAC and `JSON.stringify` are an oracle with three outcomes. `config.razorpayWebhookSecret` is passed in as an optional secret, because config.ts does not define that field.
- `dotenv` loading is not modelled. The environment is a given map.
- `ToLower`/`ToUpper`/`CapitalizeFirstLetter` map ASCII letters only. JavaScript's full Unicode case mapping is left out.
- react-select's own option filtering and rendering, Quill, SweetAlert, spinners and the `loading` flag of the form are left out. `user.mediaType` is a list of strings. `user.category` is only logged.
- `uuidv4()` and `slugify(title)` are parameters of `NextPayload`.
- `handleNext`'s reply handling calls the parent's `onNext` and shows a dialog. Both are UI and are left out.
- The available page's `productsPerPage` select, search box, category and media pickers, and the table's description rendering are not modelled. The page-size select is more than a setter: the effect at page.tsx:84-86 also depends on `productsPerPage`, so a new page size refetches and keeps the current page. That is one way to reach a current page past the page count, the state `NextPastLastPageWitness` starts from.
- The effect that fetches on a page change is modelled inside `HandlePageChange`.
- Video hover play/pause, `router.push` and `downloadProduct` on the trending card are left out. The toggles return the request they send rather than dispatching it.
- AudioPipeline.PublishSingleDotName: the single-dot case is stated for any dot-free `{base}.{ext}` rather than for one literal file name.
- AudioPipeline.WatermarkOutcomeIgnored: the file link between the watermark's output (`output/{base}-watermarked.{ext}`) and the second upload is dropped. The upload port may fail for any reason, so a failed watermark that makes the second upload fail, or upload a stale file, is not tied to the watermark result.

## Findings

| source | as written | input that shows it | evidently intended | confidence | as-written member | corrected member |
|---|---|---|---|---|---|---|
| server/src/controller/media/audio.ts:40-42 | without a file, `next(error)` is called but the handler goes on: it still attempts the uploads from `audio/undefined.undefined` and saves the product with keys ending in ".undefined" | an "audio" request with no file whose product exists | return after the missing-file error, so nothing is uploaded or saved | not executed | AudioPipeline.MissingFileStillMutates | AudioPipeline.MissingFileRejected |
| server/src/controller/media/audio.ts:78-85 | a failed upload calls `next(error)` but the loop and the handler go on, so the product is still saved with keys naming objects that were never stored | an "audio" request whose product exists, with both uploads failing | stop at the first failed upload, so a product's keys always name stored objects | not executed | AudioPipeline.UploadFailureStillMutates | AudioPipeline.FailFastKeepsKeysStored |
| client/src/app/admin/product/available/page.tsx:60-65 | `showAllProducts` clears the filters, then calls `fetchProduct` from the same render, which still reads the old filters | type "pink" in the search box, then press "Show All": the request still has searchTerm "pink" | fetch with the cleared filters | not executed | AvailableProducts.StaleShowAllWitness | AvailableProducts.FixedShowAllWitness |
