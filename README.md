# Fighter storefront and AI coach: a Dafny model of the bookkeeping

The application is a small React storefront for a fighter, plus a coach page.
The coach page uploads a fight video to a generative-AI service and shows the analysis it returns.
All the analysis is done remotely. This project models what the application itself decides:

- **the cart**: add-or-increment, remove by id, set a quantity where zero or less removes, the unit count in the header badge, the subtotal, the drawer's buttons and the checkout guard;
- **the catalogue view**: the category list, the category filter and the stable price sort;
- **the shopping assistant**: resolving the product names the model answers with against the catalogue, the id-to-reason record, the image payload cut from a data URL, and its loading, error and result fields;
- **the coach page**: its state slots and the phases idle, uploading, analyzing, success and error, including a "Cancel" that does not stop a run;
- **the upload service**: the upload reply, a sequence of observed file states polled while they read PROCESSING, the terminal-state checks, the progress reports and the rewriting of error messages; and the single error of the analysis call;
- **the two file pickers**: a MIME-prefix check followed by an inclusive size ceiling.

Each source file is one module:

- `types.dfy`: the shared entities and the fixture data.
- `text.dfy`: the JavaScript string operations used.
- `app.dfy`, `cart_modal.dfy`, `store_page.dfy`, `ai_assistant.dfy`, `home_page.dfy`, `coach_service.dfy`, `upload_section.dfy`, `image_uploader.dfy`: one module each for the source file of that name.
- `file_check.dfy`: the check shared by both pickers.

Code that only computes is modelled as functions and lemmas. Components that rewrite state slots are classes whose methods state the new value of every slot:

- `App.AppState`, whose drawer flag is also closed by the module-level method `CartModal.HandleCheckout`
- `AIAssistant.Assistant`
- `HomePage.CoachWorkflow`
- `UploadSection.DropArea`
- `ImageUploader.Picker`

The cart methods and the loops are tied to specification functions, and the properties are proved about those functions:

- each cart method equals a pure cart function, and those functions keep ids unique and quantities positive;
- `UploadVideoFile`, with its polling loop `PollStatus` and the checks `CheckSettled`, is proved equal to the reference `UploadSpec`;
- `BuildReasons` is a loop proved to yield the map of last occurrences.

The other methods (the coach page's steps, the drop area, the image picker and the assistant's request) give each slot's new value directly in their contracts.

Remote services, the file reader and the browser are inputs:

- the upload service is the reply of the upload call plus the replies of successive status queries;
- the model's answers are given values;
- the data URL the reader produced is a parameter.

Prices are integer cents. Lower-casing is ASCII only. An absent string field (upload name, uri, MIME type) is the empty string, because the source's `!x` test treats the two alike.

## Model

| member | source | states |
|---|---|---|
| Text.Lower | components/AIAssistant.tsx:50 | lower-casing keeps the length, maps each character by ASCII lower-casing and leaves no upper-case letter |
| Text.LowerIdempotent | components/AIAssistant.tsx:50 | lower-casing a lower-cased name changes nothing |
| Text.NatToString | components/ImageUploader.tsx:21 | the numeral printed for a whole number is non-empty, all digits, without a leading zero |
| Text.NatToStringRoundTrip | components/ImageUploader.tsx:21 | reading the printed numeral back gives the number |
| Text.MessageOr | services/geminiCoachService.ts:95 | `message \|\| fallback`: a non-empty message is kept, an empty one is replaced by the fallback, so the result is non-empty when the fallback is |
| App.Incremented | App.tsx:22-24 | same lines and products in the same order; lines with the id gain one unit, every other line is unchanged |
| App.Requantified | App.tsx:39-43 | same lines and products in the same order; lines with the id get the new quantity, every other line is unchanged |
| App.Without | App.tsx:32 | the filtered cart is no longer and holds only lines of the cart without the id |
| App.AddedToCart | App.tsx:18-27 | a product already in the cart bumps its line in place; a new one is appended as the last line with quantity 1 |
| App.RemovedFromCart | App.tsx:31-33 | no line with the id remains, every other line remains, and an absent id leaves the cart as it was |
| App.WithUpdatedQuantity | App.tsx:35-45 | a quantity of 0 or less removes the line; otherwise the line takes the new quantity; an absent id changes nothing |
| App.AddExistingBumpsOneLine | App.tsx:20-24 | with unique ids, adding the product of line k adds one unit to line k and changes no other line |
| App.WithoutKeepsOthers | App.tsx:32 | every line with another id survives removal |
| App.WithoutAppend | App.tsx:32 | removal works line by line, so the order of the kept lines is preserved |
| App.WithoutAbsent | App.tsx:32 | removing an id that is not in the cart returns the cart unchanged |
| App.RemovePresentDropsOneLine | App.tsx:32 | with unique ids, removing line k's id leaves exactly the other lines, in order |
| App.WithoutKeepsUnique | App.tsx:32 | removal keeps ids unique |
| App.WithoutKeepsPositive | App.tsx:32 | removal keeps every quantity at least 1 |
| App.ApplyKeepsWellFormed | App.tsx:18-45 | add, remove and update each keep ids unique and quantities at least 1 |
| App.ReplayKeepsWellFormed | App.tsx:18-45 | any sequence of cart intents keeps ids unique and quantities at least 1 |
| App.ReplayFromEmptyWellFormed | App.tsx:13-45 | every cart reachable from the initial empty cart has unique ids and positive quantities |
| App.CartItemCountAppend | App.tsx:51 | the badge count of two carts joined is the sum of their counts |
| App.CartItemCount | App.tsx:51 | the badge count is non-negative for non-negative quantities, and with positive quantities at least the number of lines |
| App.IncrementedAbsent | App.tsx:22-24 | bumping an id that is not in the cart changes nothing |
| App.IncrementedAppend | App.tsx:22-24 | bumping works line by line over a joined cart |
| App.IncrementedAt | App.tsx:22-24 | with unique ids, bumping line k's id replaces only line k, by one more unit |
| App.AddIncrementsCount | App.tsx:18-29 | every add raises the badge count by exactly one |
| App.RemoveDecrementsCount | App.tsx:31-33 | with unique ids, removing line k lowers the badge count by its quantity |
| App.AppState.constructor | App.tsx:12-16 | the application starts with an empty cart on the coach page, fighter "The Natural" and the drawer closed |
| App.AppState.AddToCart | App.tsx:18-29 | the cart becomes the added-to cart, the badge rises by one, the other slots are unchanged, the cart stays well formed |
| App.AppState.RemoveFromCart | App.tsx:31-33 | the cart becomes the filtered cart, the other slots are unchanged, the cart stays well formed |
| App.AppState.UpdateCartQuantity | App.tsx:35-45 | the cart becomes the updated cart (a removal when the quantity is 0 or less); the other slots are unchanged |
| App.AppState.Navigate | App.tsx:47-49 | only the current page changes |
| App.AppState.SetCartOpen | App.tsx:16 | only the drawer flag changes |
| App.AppState.SetFighterName | App.tsx:15 | only the fighter name changes |
| CartModal.SubtotalAppend | components/CartModal.tsx:22 | the subtotal of two carts joined is the sum of their subtotals |
| CartModal.Subtotal | components/CartModal.tsx:22 | with non-negative prices and quantities the subtotal is non-negative |
| CartModal.AddNewRaisesSubtotal | components/CartModal.tsx:22 | adding a product not in the cart raises the subtotal by its price |
| CartModal.AddExistingRaisesSubtotal | components/CartModal.tsx:22 | with unique ids, adding a product already on line k raises the subtotal by the price stored on that line |
| CartModal.IncrementedSubtotal | components/CartModal.tsx:22 | with unique ids, one more unit on line k raises the subtotal by that line's price |
| CartModal.RemoveLowersSubtotal | components/CartModal.tsx:22 | with unique ids, removing line k lowers the subtotal by that line's amount |
| CartModal.DecrementIntent | components/CartModal.tsx:60 | "-" asks for one unit less: on a line of one unit (or less) it removes the line's id, otherwise it sets the line to one unit less |
| CartModal.IncrementIntent | components/CartModal.tsx:62 | "+" sets the line's id to one unit more |
| CartModal.TrashIntent | components/CartModal.tsx:65 | the trash button removes the line's id from any cart |
| CartModal.DecrementLastUnitRemovesLine | components/CartModal.tsx:60 | "-" on a line of one unit removes that line and only that line |
| CartModal.DecrementLowersQuantity | components/CartModal.tsx:60 | "-" on a line of more units takes one unit off that line and changes no other |
| CartModal.IncrementIsAddAgain | components/CartModal.tsx:62 | "+" has the same effect as adding the line's product again |
| CartModal.TrashRemovesLine | components/CartModal.tsx:65 | the trash button removes exactly its own line |
| CartModal.Render | components/CartModal.tsx:20-90 | a closed drawer renders nothing; an open one renders every line with its "-", "+" and trash intents, the trash one removing it; it shows the subtotal of the lines; the empty notice shows and checkout is disabled exactly when there are no lines |
| CartModal.CheckoutAlertFor | components/CartModal.tsx:24-31 | a cart with lines is announced with its line count and subtotal; an empty one gets the empty-cart alert |
| CartModal.HandleCheckout | components/CartModal.tsx:24-31 | with lines, it announces their count and the subtotal and closes the drawer; with none, it announces the empty cart and leaves the drawer; the cart is unchanged |
| CartModal.CheckoutCountsLinesNotUnits | components/CartModal.tsx:26 | one line of three units is announced as one item while the badge counts three |
| CartModal.CheckoutProceedsIffEnabled | components/CartModal.tsx:24-90 | checkout proceeds exactly when its button is enabled |
| StorePage.Distinct | pages/StorePage.tsx:20 | the same members without duplicates, in order of first appearance |
| StorePage.CategoriesOf | pages/StorePage.tsx:20 | the categories of the products, one per product, in order |
| StorePage.Categories | pages/StorePage.tsx:20 | "All" first, then every category of the products exactly once, in order of first appearance |
| StorePage.InCategory | pages/StorePage.tsx:26 | exactly the products of the category are kept |
| StorePage.InCategoryAppend | pages/StorePage.tsx:26 | the filter keeps the catalogue's order |
| StorePage.Filtered | pages/StorePage.tsx:22-27 | "All" keeps the whole catalogue; another category keeps exactly the catalogue's products of that category |
| StorePage.Insert | pages/StorePage.tsx:31 | inserting adds exactly the one product |
| StorePage.InsertSorted | pages/StorePage.tsx:31 | inserting into a price-ordered list keeps it ordered |
| StorePage.SortByKey | pages/StorePage.tsx:29-34 | the sort is a permutation of its input and ordered by price, ascending or descending |
| StorePage.InsertStable | pages/StorePage.tsx:31 | products of one price keep their relative order when one is inserted |
| StorePage.SortStable | pages/StorePage.tsx:29-34 | products of equal price keep their catalogue order after sorting |
| StorePage.DisplayedProducts | pages/StorePage.tsx:22-37 | the displayed list is a permutation of the filtered products; ascending or descending by price for the two sort values; the filtered list itself for any other value |
| StorePage.DisplayedMembership | pages/StorePage.tsx:22-37 | a product is displayed exactly when it is in the catalogue and in the selected category, or the category is "All" |
| StorePage.AscendingStable | pages/StorePage.tsx:29-31 | under "price-asc", the displayed products of any one price are the filtered products of that price, in catalogue order |
| StorePage.DescendingStable | pages/StorePage.tsx:32-33 | under "price-desc", the displayed products of any one key (the negated price) are the filtered products of that key, in catalogue order |
| StorePage.DefaultsShowCatalog | pages/StorePage.tsx:17-37 | with the initial category "All" and sort "default" the whole catalogue is shown in catalogue order |
| AIAssistant.FindByName | components/AIAssistant.tsx:50 | the first product whose lower-cased name equals the lower-cased name asked for, or none when no product matches |
| AIAssistant.Resolve | components/AIAssistant.tsx:49-52 | at most one product per entry, and every resolved product is in the catalogue |
| AIAssistant.ResolveOne | components/AIAssistant.tsx:49-52 | an entry resolves to the first matching product with its reason, or is dropped |
| AIAssistant.ResolveAppend | components/AIAssistant.tsx:49-52 | resolution works entry by entry: reply order is kept and duplicates are not merged |
| AIAssistant.ResolveEmptyIff | components/AIAssistant.tsx:49-56 | nothing resolves exactly when no entry names a catalogue product |
| AIAssistant.BuildReasons | components/AIAssistant.tsx:59-62 | the record's keys are exactly the found ids, and each id maps to the reason of its last entry |
| AIAssistant.ReasonsStep | components/AIAssistant.tsx:59-62 | one step of the reduce keeps the record equal to the one built from the entries seen so far |
| AIAssistant.Base64Payload | components/AIAssistant.tsx:42 | the payload is absent exactly when the data URL has no comma, and never contains a comma |
| AIAssistant.Base64PayloadOf | components/AIAssistant.tsx:42 | a data URL `header,payload` yields the payload, whatever follows a further comma |
| AIAssistant.Assistant.constructor | components/AIAssistant.tsx:22-27 | no image, the default prompt, not loading, no error, no recommendations or reasons |
| AIAssistant.Assistant.SetImageFile | components/AIAssistant.tsx:90 | the image becomes what the picker reported; nothing else changes |
| AIAssistant.Assistant.SetPrompt | components/AIAssistant.tsx:98 | only the prompt changes |
| AIAssistant.Assistant.StartLoading | components/AIAssistant.tsx:34-37 | loading, with no error, recommendations or reasons, and the request button disabled |
| AIAssistant.Assistant.CanRequest | components/AIAssistant.tsx:103 | the button is disabled while a request is loading (stated by `StartLoading`) and enabled again once it ends (stated by `GetRecommendations`) |
| AIAssistant.Assistant.GetRecommendations | components/AIAssistant.tsx:29-71 | no image: the no-image error and no request; otherwise the request carries the payload, the file's type and the prompt; a failure shows its message or the generic one; an answer shows the resolved products, or the nothing-found error when none resolve, and each shown product id holds the reason of its last entry; an enabled button sends the request once the image is read; loading ends on every path that started it, enabling the button again |
| AIAssistant.RefusedImageReplacesAccepted | components/ImageUploader.tsx:13-31 | after a refused image the picker has reported no image, so the next request is refused for want of one |
| CoachService.RewriteUploadError | services/geminiCoachService.ts:90-96 | a message with the upload-URL marker becomes the fixed explanation; an empty one the retry message; any other is kept |
| CoachService.ThrownMessagesKept | services/geminiCoachService.ts:66-96 | the three messages thrown inside the upload pass through the rewrite unchanged |
| CoachService.ReplacementsKept | services/geminiCoachService.ts:92-95 | the two replacement messages pass through a second rewrite unchanged |
| CoachService.MarkedMessageReplaced | services/geminiCoachService.ts:92 | a message holding the upload-URL marker anywhere becomes the fixed explanation |
| CoachService.UnmarkedKept | services/geminiCoachService.ts:92 | a non-empty message without an 'x' is never rewritten |
| CoachService.RewriteUploadErrorSettles | services/geminiCoachService.ts:90-96 | every message leaving the upload is non-empty, and rewriting it again changes nothing |
| CoachService.FirstSettled | services/geminiCoachService.ts:74-77 | the first status that is not PROCESSING, with every earlier one PROCESSING; none when all are |
| CoachService.Settle | services/geminiCoachService.ts:79-89 | the status that ends polling succeeds exactly when it is a non-FAILED state with a uri and a MIME type, returning those; FAILED and a thrown query each fail with their message |
| CoachService.UploadSpec | services/geminiCoachService.ts:60-97 | the reference outcome: still polling exactly when a named upload sees only PROCESSING, otherwise the verdict on the first settled status |
| CoachService.PollStatus | services/geminiCoachService.ts:73-77 | the loop stops at the first status that is not PROCESSING and has queried exactly up to it, in order; it queries every answer when all read PROCESSING |
| CoachService.CheckSettled | services/geminiCoachService.ts:79-89 | the checks on the settled status give the verdict `Settle` |
| CoachService.UploadVideoFile | services/geminiCoachService.ts:60-97 | the upload reports the progress and ends with the outcome of the reference `UploadSpec`, after exactly as many status queries as it took to settle, and none when the upload threw or returned no name; 50 is reported before the first status query and 100 after the last |
| CoachService.UploadProgressShape | services/geminiCoachService.ts:71-87 | progress is reported as nothing, 50, or 50 then 100; 50 exactly when the upload returned a named file, 100 exactly on success |
| CoachService.UnnamedUploadFails | services/geminiCoachService.ts:66-69 | an upload reply without a name fails with the invalid-object message and reports no progress |
| CoachService.FailedStateFails | services/geminiCoachService.ts:79-81 | a FAILED status fails with the processing message after reporting only 50 |
| CoachService.SettledWithDataSucceeds | services/geminiCoachService.ts:83-89 | any state other than PROCESSING and FAILED with a uri and a MIME type reports 50 and 100 and returns exactly those two values |
| CoachService.SettledWithoutDataFails | services/geminiCoachService.ts:83-85 | a settled non-FAILED state missing the uri or the MIME type fails with the missing-data message and never reports 100 |
| CoachService.UploadedOnlyWithData | services/geminiCoachService.ts:79-89 | a successful upload had a named file and a settled, non-FAILED status carrying both values, which it returns |
| CoachService.FirstSettledAt | services/geminiCoachService.ts:74-77 | polling stops at the first status that is not PROCESSING |
| CoachService.PollingOutcomeIgnoresWaits | services/geminiCoachService.ts:74-77 | any number of PROCESSING answers before the settling one leaves the outcome unchanged |
| CoachService.SkipProcessing | services/geminiCoachService.ts:74-77 | one PROCESSING answer is only a wait |
| CoachService.AnalyzeFightVideo | services/geminiCoachService.ts:114-131 | a parsed reply is returned as is; a service failure and a parse failure both give the one fixed message |
| CoachService.AnalysisFailuresIndistinguishable | services/geminiCoachService.ts:128-131 | the caller cannot tell a service failure from a parse failure, and the message is non-empty |
| HomePage.CoachWorkflow.constructor | pages/HomePage.tsx:19-26 | the page starts in its initial state: no file, idle, 0%, no status, error or results, the default fight details |
| HomePage.CoachWorkflow.CanAnalyze | pages/HomePage.tsx:168 | the button is enabled only with a file and both names, never while processing, and then reads "Analyze Fight" |
| HomePage.CoachWorkflow.ResetShown | pages/HomePage.tsx:158 | a run in progress always shows the reset button, labelled "Cancel" |
| HomePage.CoachWorkflow.SetFighterName | pages/HomePage.tsx:101 | only the fighter name changes |
| HomePage.CoachWorkflow.SetOpponentName | pages/HomePage.tsx:113 | only the opponent name changes |
| HomePage.CoachWorkflow.SetWeightClass | pages/HomePage.tsx:124 | only the weight class changes |
| HomePage.CoachWorkflow.SelectFile | pages/HomePage.tsx:28-33 | the file is stored, error and results are cleared, the phase is idle; progress, status and fight details stay |
| HomePage.CoachWorkflow.Reset | pages/HomePage.tsx:35-45 | every slot returns to its initial value; the reset button disappears and the analyze button is disabled |
| HomePage.CoachWorkflow.Analyze | pages/HomePage.tsx:47-57 | a run starts exactly with a file and both names; it captures them, clears error and results, and enters uploading at 0% with the uploading status; otherwise nothing changes; an enabled button always starts a run, which disables it |
| HomePage.CoachWorkflow.OnUploadProgress | pages/HomePage.tsx:59-61 | only the progress changes, to the reported value |
| HomePage.CoachWorkflow.OnUploadDone | pages/HomePage.tsx:59-77 | an upload that succeeded enters analyzing at 0% and requests the analysis of exactly the returned uri and MIME type with the details the run captured; a failed one enters error with its message or the unknown-error text |
| HomePage.CoachWorkflow.OnAnalysisDone | pages/HomePage.tsx:68-77 | a parsed report is stored and the phase is success; a failure enters error with the fixed analysis message, results unchanged |
| HomePage.SuccessfulRun | pages/HomePage.tsx:47-78 | a run whose upload and analysis succeed ends in success with the report, having asked about the uploaded file and the entered details |
| HomePage.CancelDoesNotStopRun | pages/HomePage.tsx:35-78 | after "Cancel" mid-upload, the upload's completion still enters analyzing and requests the analysis with the details entered before the reset, which the page no longer shows |
| HomePage.FailedUploadRun | pages/HomePage.tsx:47-78 | a run whose upload fails ends in error with the upload's message and no results |
| HomePage.DropWhileProcessingIgnored | pages/HomePage.tsx:135 | while a run is in progress the drop area is disabled: a dropped video does not reach the page, which keeps its run and file, and a click does not open the picker |
| FileCheck.CheckFile | components/UploadSection.tsx:25-33 | a file is accepted exactly when its type starts with the prefix and its size does not exceed the ceiling |
| FileCheck.TypeCheckedFirst | components/UploadSection.tsx:25-33 | a file of the wrong type gets the type message whatever its size |
| FileCheck.SizeCheckedSecond | components/ImageUploader.tsx:15-24 | a file of the right type is refused only when strictly larger than the ceiling, with the size message |
| FileCheck.VerdictIgnoresName | components/UploadSection.tsx:25-33 | only the declared type and the size decide the verdict |
| FileCheck.CeilingMonotone | components/ImageUploader.tsx:20 | raising the ceiling never turns an accepted file away |
| UploadSection.CheckVideo | components/UploadSection.tsx:25-33 | a video is accepted exactly when its type starts with "video/" and it is at most 104857600 bytes; a refusal carries one of the two messages |
| UploadSection.VideoCeilingInclusive | components/UploadSection.tsx:30-33 | exactly 104857600 bytes is accepted, one byte more is refused with the size message |
| UploadSection.VideoPrefixCaseSensitive | components/UploadSection.tsx:25 | the prefix test is case-sensitive: "VIDEO/MP4" is refused as not a video |
| UploadSection.DropArea.constructor | components/UploadSection.tsx:18-19 | no highlight and no file |
| UploadSection.DropArea.HandleFile | components/UploadSection.tsx:22-36 | a missing file does nothing; a refused file alerts its message and changes nothing; an accepted file is remembered and handed to the page exactly once |
| UploadSection.DropArea.DragOver | components/UploadSection.tsx:39-42 | the area highlights only when enabled |
| UploadSection.DropArea.DragLeave | components/UploadSection.tsx:44-47 | the highlight is always removed |
| UploadSection.DropArea.Drop | components/UploadSection.tsx:49-55 | the highlight is always removed; when disabled nothing else happens, otherwise the first dropped file is handled |
| UploadSection.DropArea.FileChange | components/UploadSection.tsx:64-66 | the first picked file, if any, is handled |
| ImageUploader.CheckImage | components/ImageUploader.tsx:13-24 | an image is accepted exactly when its type starts with "image/" and its size is at most maxSizeMb·1048576; a refusal carries one of the two messages |
| ImageUploader.DefaultImageCeiling | components/ImageUploader.tsx:8-24 | with the default limit exactly 5242880 bytes is accepted and one more is refused with "File size cannot exceed 5MB." |
| ImageUploader.TooLargeMessageNamesLimit | components/ImageUploader.tsx:20-21 | the number written in the size message is the limit enforced |
| ImageUploader.Picker.constructor | components/ImageUploader.tsx:8-10 | the given limit, no preview and no error |
| ImageUploader.Picker.ProcessFile | components/ImageUploader.tsx:13-32 | the error is cleared, then set only for a refused file; the owner is told once: the file when accepted, no image when refused; the preview is left as it was |
| ImageUploader.Picker.PreviewLoaded | components/ImageUploader.tsx:27-29 | the preview becomes the data URL read |
| ImageUploader.Picker.HandleChange | components/ImageUploader.tsx:34-39 | a change without a file does nothing and tells the owner nothing; otherwise the first file is processed |
| ImageUploader.Picker.RemoveImage | components/ImageUploader.tsx:41-49 | no preview, no error, and the owner is told there is no image |

## Left out

- Network calls are not modelled: the file upload, the status query, the analysis call and the recommendation call. Their results are inputs.
- services/geminiService.ts is not part of this model: it assembles prompts and calls the network. Its failure message reaches the assistant as the error message of the reply, which the model leaves arbitrary. Its "an array or nothing" rule is reflected by taking the reply as a sequence.
- The data URL read by the file reader is a parameter, including the preview's. A reader failure reaches the assistant as an error whose message the model leaves arbitrary.
- `alert` texts are not modelled: "Added … to cart!" is left out, and the checkout message is modelled by its line count and subtotal, without the `Intl` currency formatting.
- `formatFileSize`, `formatPrice` and all other floating-point display are left out. Prices are integer cents; the analysis figures are carried as reals and never computed on.
- ImageUploader.CheckImage: the size limit `maxSizeMb` is a whole number of megabytes. The source's prop is a JavaScript number, so a fractional limit is possible there and is printed as is in the size message; the model does not cover it.
- Lower-casing covers ASCII letters only; JavaScript's full Unicode case mapping is not modelled.
- UploadVideoFile: a gateway observation whose every status reads PROCESSING ends in `StillPolling`. The source keeps polling forever, with a fixed 2000 ms wait that is not modelled.
- Asynchrony is not modelled: each await of the coach page and of the assistant is a separate step (`OnUploadDone`, `OnAnalysisDone`), and React's batching of updates is not modelled. `GetRecommendations` runs its two awaits in one call, so an interleaving edit of the prompt or image is not captured.
- AnalyzeFightVideo: the parsed JSON is cast without local checks, so a reply missing required fields or day keys would reach the page. The model's `AnalysisResult` always has every field, so this case is not represented.
- A thrown value that is not an `Error` (no `message`) is modelled as an error with an empty message.
- An `onProgress` callback that throws is not modelled.
- The `fileInputRef` null check and the clearing of the input's value in the pickers are browser details that are not modelled. `UploadSection.OpensPicker` models the disabled gate only.
- HomePage.CoachWorkflow: the fighter name is a slot of the application passed down as props; the page's copy is modelled as its own field.
- Not modelled: the assistant's open and close handling and its "add to cart" button on a recommendation, the header, footer, hero, product cards, results, schedule, progress tracker and merchandise search components.
- The fixture catalogue and weight classes are data only: no property is proved about the concrete catalogue.
