# Learning Destiny site: the sequential core, modelled and proved in Dafny

The site has three small server routes and several client components.

- **Event catalogue handler.** A module-level array of event records. GET, POST, PUT and DELETE read and change it; any other verb gets 405.
- **Payment verification route.** It recomputes the gateway's HMAC-SHA256 signature over `orderId|paymentId` and accepts or rejects the payment.
- **Sitemap route.** It renders a fixed list of thirteen pages into a Sitemaps 0.9 `<urlset>` document.
- **Payment button.** It loads the gateway script once and runs the checkout sequence: order, widget, verification, save, success callback.
- **Admin events page.** It loads, selects, edits, saves, deletes and adds events. List updates are pure copies, plus one in-place mutation of agenda rows.
- **Enrolment page.** It loads one event, picks a screen, validates and saves the enrolment form, computes label text and input types, and strips the price text.
- **Workshop page.** It computes the price rule, the "popular" slice and the search query.

The code is modelled as written, with its inconsistencies kept:

- The admin page deletes through a path-style URL, but the handler reads a query parameter (`AdminPage.DeleteRequestNotUnderstood`).
- The enrolment form posts to `/api/googleSheetss`.
- PUT compares ids without `Number` conversion; GET and DELETE convert (`EventCatalog.PutDoesNotConvert`).
- A POST body's `id` overrides the generated timestamp. As a result POST does not keep ids distinct (`EventCatalog.PostedBodyIdCanDuplicate`).
- The workshop page mounts the payment button without `onPaymentSuccess`. After a fully successful payment the user therefore sees the success toast followed by an error toast (`Checkout.MissingCallbackEndsInError`).

How the modules are laid out:

- **JavaScript values.** `Js` covers JSON-shaped values, `undefined` as a missing property, truthiness, `===` and spread. `JsNumber` gives `Number(string)` by the StringToNumber grammar of ECMA-262 (section 7.1.4.1.1), with exact values.
- **Shared UI pieces.** `Ui` holds toasts, fetch results and property reads.
- **State that changes step by step becomes a class with a trace.** That means `EventCatalog.Catalog`, `Checkout.PaymentButton`, `AdminPage.Page`, `EnrolPage.EventDetailsPage` and `EnrolPage.EventForm`. Each method is proved against a specification function. The network, the SDK, the clock and the key secret are inputs. Requests, toasts and widget openings are recorded in logs.

## Model

| member | source | states |
|---|---|---|
| Js.Spread | src/app/adminDetail/Eventdetail/api/eventdetail.ts:52 | `{...a, ...b}` has the keys of both; `b`'s values win, `a`'s are kept elsewhere |
| Js.Truthy | src/app/adminDetail/Eventdetail/api/eventdetail.ts:41 | ToBoolean: falsy exactly for `undefined`, `null`, `false`, NaN, 0 and "" |
| Js.StrictEquals | src/app/adminDetail/Eventdetail/api/eventdetail.ts:42 | `===` holds exactly for equal primitives other than NaN; separately parsed arrays and objects are never equal |
| Js.StrictEqualsSymmetric | src/app/adminDetail/Eventdetail/api/eventdetail.ts:42 | `===` is symmetric |
| Js.StrictEqualsTransitive | src/app/adminDetail/Eventdetail/api/eventdetail.ts:42 | `===` is transitive |
| Js.NothingEqualsNaN | src/app/adminDetail/Eventdetail/api/eventdetail.ts:66 | no value is `===` NaN |
| JsNumber.NatToDecimal | src/enrollpages/EventsDetails.jsx:37 | how a status code (or a numeric id in an `<option value>`) prints: non-empty, all digits, without a leading zero |
| JsNumber.NumberOfDecimal | src/app/adminDetail/Eventdetail/api/eventdetail.ts:42 | `Number(String(n))` is `n` for every natural `n` |
| JsNumber.EmptyStringIsZero | src/app/adminDetail/Eventdetail/api/eventdetail.ts:66 | `Number` of an all-white-space string is 0; `Number(undefined)` is NaN |
| JsNumber.Trim | src/app/adminDetail/Eventdetail/api/eventdetail.ts:42 | the trimmed text neither starts nor ends with white space, and a text that already does neither is unchanged |
| JsNumber.StringToNumber | src/app/adminDetail/Eventdetail/api/eventdetail.ts:42 | `Number(text)`: a blank text is 0, and the only infinite values are the `Infinity` literals |
| JsNumber.SurroundingWhiteSpaceIgnored | src/app/adminDetail/Eventdetail/api/eventdetail.ts:42 | white space around the text does not change `Number(text)` |
| JsNumber.QueryToNumber | src/app/adminDetail/Eventdetail/api/eventdetail.ts:66 | `Number(id)` for a query parameter: NaN when absent, else `Number` of its text |
| EventCatalog.FirstIndex | src/app/adminDetail/Eventdetail/api/eventdetail.ts:57 | `findIndex`: -1 exactly when nothing matches, else the first matching index |
| EventCatalog.Matches | src/app/adminDetail/Eventdetail/api/eventdetail.ts:57 | the scan predicate `e.id === target` |
| EventCatalog.QueryTarget | src/app/adminDetail/Eventdetail/api/eventdetail.ts:42 | the target of a GET or DELETE lookup is `Number(id)` |
| EventCatalog.FindIndex | src/app/adminDetail/Eventdetail/api/eventdetail.ts:66 | the loop scan returns `FirstIndex` |
| EventCatalog.NewRecord | src/app/adminDetail/Eventdetail/api/eventdetail.ts:52 | the new record's keys are the body's plus `id`; its id is the body's if present, else the timestamp |
| EventCatalog.GetResponse | src/app/adminDetail/Eventdetail/api/eventdetail.ts:39-50 | no id: 200 with the whole list; id: 200 with the first record equal to `Number(id)`, else 404 "Event not found" |
| EventCatalog.PostOutcome | src/app/adminDetail/Eventdetail/api/eventdetail.ts:51-54 | exactly one record appended, earlier records unchanged, 201 with that record |
| EventCatalog.PutOutcome | src/app/adminDetail/Eventdetail/api/eventdetail.ts:55-63 | the first record strictly equal to the body id is overlaid with the body, nothing else changes, 200 with it; else 404 with the store unchanged |
| EventCatalog.DeleteOutcome | src/app/adminDetail/Eventdetail/api/eventdetail.ts:64-72 | the first match for `Number(id)` is spliced out, order kept, 200 with it; else 404 unchanged |
| EventCatalog.HandleOutcome | src/app/adminDetail/Eventdetail/api/eventdetail.ts:38-76 | dispatch on the verb; anything else is 405 "Method not allowed" with the store unchanged |
| EventCatalog.Catalog.constructor | src/app/adminDetail/Eventdetail/api/eventdetail.ts:3-36 | the store starts as the two seed events |
| EventCatalog.Catalog.Get | src/app/adminDetail/Eventdetail/api/eventdetail.ts:39-50 | answers `GetResponse` and changes nothing |
| EventCatalog.Catalog.Post | src/app/adminDetail/Eventdetail/api/eventdetail.ts:51-54 | new store and response are `PostOutcome` |
| EventCatalog.Catalog.Put | src/app/adminDetail/Eventdetail/api/eventdetail.ts:55-63 | new store and response are `PutOutcome` |
| EventCatalog.Catalog.Delete | src/app/adminDetail/Eventdetail/api/eventdetail.ts:64-72 | new store and response are `DeleteOutcome` |
| EventCatalog.Catalog.Handle | src/app/adminDetail/Eventdetail/api/eventdetail.ts:38-76 | new store and response are `HandleOutcome` |
| EventCatalog.SeedIsWellFormed | src/app/adminDetail/Eventdetail/api/eventdetail.ts:3-36 | every seed record has an id and no two ids are equal |
| EventCatalog.PutPreservesIds | src/app/adminDetail/Eventdetail/api/eventdetail.ts:59 | PUT never removes a record's `id` property |
| EventCatalog.RemoveAt | src/app/adminDetail/Eventdetail/api/eventdetail.ts:68 | `splice(k, 1)` keeps the other records in order |
| EventCatalog.DeletePreservesIds | src/app/adminDetail/Eventdetail/api/eventdetail.ts:64-72 | DELETE keeps every remaining record's id |
| EventCatalog.HandlePreservesIds | src/app/adminDetail/Eventdetail/api/eventdetail.ts:38-76 | no request leaves a record without an `id` property |
| EventCatalog.PostThenGet | src/app/adminDetail/Eventdetail/api/eventdetail.ts:42-53 | a record POSTed without an id at a fresh time is returned by GET with the decimal time |
| EventCatalog.PostKeepsIdsUnique | src/app/adminDetail/Eventdetail/api/eventdetail.ts:52-53 | posting a body without an id at a fresh time keeps ids unique |
| EventCatalog.PostedBodyIdCanDuplicate | src/app/adminDetail/Eventdetail/api/eventdetail.ts:52 | a body `{ id: 1 }` creates a second record with id 1 |
| EventCatalog.RemovingFirstMatchLeavesNone | src/app/adminDetail/Eventdetail/api/eventdetail.ts:66-68 | with unique ids, after the splice nothing matches the deleted id |
| EventCatalog.DeleteTwiceNotFound | src/app/adminDetail/Eventdetail/api/eventdetail.ts:64-72 | with unique ids, a second DELETE of the same id is 404 and changes nothing |
| EventCatalog.DeleteWithoutQueryIdNotFound | src/app/adminDetail/Eventdetail/api/eventdetail.ts:65-71 | a DELETE without `id` compares with NaN and is always 404 |
| EventCatalog.SeedIds | src/app/adminDetail/Eventdetail/api/eventdetail.ts:5-21 | the seed ids are 1 and 2 |
| EventCatalog.GetFindsFirstMatch | src/app/adminDetail/Eventdetail/api/eventdetail.ts:41-49 | a GET with a non-empty id answers 200 with the first record strictly equal to `Number(id)` |
| EventCatalog.GetConvertsQuery | src/app/adminDetail/Eventdetail/api/eventdetail.ts:42 | GET with the decimal text of `n` finds the first record whose id is the number `n` |
| EventCatalog.PutDoesNotConvert | src/app/adminDetail/Eventdetail/api/eventdetail.ts:56-57 | a PUT body whose id is a string matches no record with a numeric id: 404, store unchanged |
| PaymentVerification.GeneratedSignature | src/app/api/verify/route.js:6-18 | throws exactly for a missing or empty secret; else `Hmac(secret, orderId + "\|" + paymentId)` |
| PaymentVerification.SignedMessage | src/app/api/verify/route.js:15 | the order id, `\|`, the payment id; `undefined` prints as "undefined" |
| PaymentVerification.Verify | src/app/api/verify/route.js:20-43 | a body that is not JSON or is `null` throws first; otherwise throws exactly for a falsy secret; 200 success iff the supplied signature equals the computed one; otherwise 400 "Payment verification failed." |
| PaymentVerification.BodyReadBeforeSecret | src/app/api/verify/route.js:21-24 | an unreadable body throws its own exception even when the secret is also missing |
| PaymentVerification.DependsOnlyOnThreeFields | src/app/api/verify/route.js:21-24 | the decision reads only the three body fields and the secret |
| PaymentVerification.OtherSignatureRejected | src/app/api/verify/route.js:26-33 | any other signature is rejected with 400 |
| PaymentVerification.WorkedExample | src/app/api/verify/route.js:13-42 | order `order_abc`, payment `pay_123`, secret `s3cr3t` verify exactly against the HMAC of "order_abc\|pay_123" |
| PaymentVerification.MissingSignatureRejected | src/app/api/verify/route.js:21-33 | a body without a signature is rejected |
| PaymentVerification.MessageDeterminesIds | src/app/api/verify/route.js:15 | when order ids hold no `\|`, the signed message determines both ids |
| PaymentVerification.SeparatorInOrderIdCollides | src/app/api/verify/route.js:15 | otherwise two id pairs can sign the same message |
| Sitemap.RenderPriority | src/app/api/sitemap.xml.js:37 | priority 1.0 prints "1", 0.8 prints "0.8" |
| Sitemap.UrlBlock | src/app/api/sitemap.xml.js:32-38 | one `<url>` block: loc, lastmod, changefreq and priority inside their tags, in that order |
| Sitemap.Blocks | src/app/api/sitemap.xml.js:30-40 | the blocks of all pages joined with no separator, in list order |
| Sitemap.Document | src/app/api/sitemap.xml.js:28-41 | the XML declaration, the `<urlset>` opening tag, the blocks and `</urlset>` |
| Sitemap.ParseDocument | src/app/api/sitemap.xml.js:28-41 | the read-back: strips the header and footer and reads the blocks, or fails |
| Sitemap.Handler | src/app/api/sitemap.xml.js:43-48 | success: 200, `application/xml`, the document; failure: 500 "Error generating sitemap" |
| Sitemap.Entries | src/app/api/sitemap.xml.js:30-40 | one entry per page, in order, with the page's fields and the shared lastmod |
| Sitemap.ParseBlockOf | src/app/api/sitemap.xml.js:32-38 | one `<url>` block reads back as its page's loc, lastmod, changefreq and priority |
| Sitemap.ParseBlocksOf | src/app/api/sitemap.xml.js:30-40 | the joined blocks read back as the entries, in order |
| Sitemap.RoundTrip | src/app/api/sitemap.xml.js:28-41 | the document reads back as exactly the entries of the page list |
| Sitemap.DocumentFraming | src/app/api/sitemap.xml.js:28-41 | every document starts with the XML declaration and `<urlset>` and ends with `</urlset>` |
| Sitemap.W3cDateTimeHasNoAngle | src/app/api/sitemap.xml.js:25 | a `yyyy-MM-dd'T'HH:mm:ssXXX` stamp contains no `<` |
| Sitemap.StaticPagesReadable | src/app/api/sitemap.xml.js:8-22 | every listed page has a known priority and no `<` in its fields |
| Sitemap.PageReadable | src/app/api/sitemap.xml.js:8-22 | each listed page's URL and change frequency hold no `<` |
| Sitemap.ServedDocument | src/app/api/sitemap.xml.js:8-48 | the served body starts with the declaration and `<urlset>`, ends with `</urlset>`, and has 13 entries in list order, each with its page's loc and the one lastmod |
| Ui.Property | src/components/PaymentHandlerButton.jsx:55 | reading a property of `null` throws; of an object, yields the property or `undefined` |
| Checkout.AfterLoadScript | src/components/PaymentHandlerButton.jsx:20-30 | with a `razorpay-script` element the document is unchanged, else the script is appended |
| Checkout.ScriptAddedAtMostOnce | src/components/PaymentHandlerButton.jsx:21-29 | the script count becomes 1 if it was 0 and stays otherwise; loading again changes nothing |
| Checkout.ErrorToast | src/components/PaymentHandlerButton.jsx:104-108 | an error toast shows `error.message`, or the fallback text when it is empty |
| Checkout.ClickEffects | src/components/PaymentHandlerButton.jsx:34-132 | a click is loading-on, the order request, one outcome, loading-off |
| Checkout.ClickSteps | src/components/PaymentHandlerButton.jsx:38-128 | the outcome of a click: an error toast for a failed or unparsable order or a missing SDK, else the widget opens |
| Checkout.HandlerEffects | src/components/PaymentHandlerButton.jsx:56-110 | the verify request, then an error toast, or the save steps when `verifyData.success` is truthy |
| Checkout.SaveSteps | src/components/PaymentHandlerButton.jsx:73-108 | the save request outcome: success toast and callback when `saveData.success` is truthy, else an error toast |
| Checkout.PaymentButton.constructor | src/components/PaymentHandlerButton.jsx:16 | `loading` starts false, nothing recorded |
| Checkout.PaymentButton.LoadScript | src/components/PaymentHandlerButton.jsx:19-32 | the document becomes `AfterLoadScript` of the old one |
| Checkout.PaymentButton.ProcessPayment | src/components/PaymentHandlerButton.jsx:34-132 | the trace grows by `ClickEffects`, `loading` ends false, and a widget is recorded exactly when one opens |
| Checkout.PaymentButton.PaymentHandler | src/components/PaymentHandlerButton.jsx:56-110 | the trace grows by `HandlerEffects`; `loading` is not touched |
| Checkout.ClickBracketsLoading | src/components/PaymentHandlerButton.jsx:36-130 | `loading` is set first and cleared last, and a click never verifies, saves or calls back |
| Checkout.WidgetOpensOnlyWithSdk | src/components/PaymentHandlerButton.jsx:45-49 | the widget opens iff the order parsed, the SDK is present and the data is not null; a missing SDK shows the error toast |
| Checkout.SameAmountEverywhere | src/components/PaymentHandlerButton.jsx:41-82 | the order, the widget and the saved row all carry `finalAmt`, in INR |
| Checkout.RowPairsIds | src/components/PaymentHandlerButton.jsx:62-84 | verify sends the order id with the gateway ids; the row pairs the payment id with that order id |
| Checkout.SaveOnlyAfterVerification | src/components/PaymentHandlerButton.jsx:71-100 | a save request is sent iff verification succeeded; else "Payment verification failed." |
| Checkout.CallbackLastAfterSuccessToast | src/components/PaymentHandlerButton.jsx:90-95 | `onPaymentSuccess` runs iff verify and save succeed (and it was passed), last, right after the success toast |
| Checkout.MissingCallbackEndsInError | src/components/PaymentHandlerButton.jsx:95-108 | without the callback, success is followed by an error toast |
| Checkout.VerifyRequestAgainstRoute | src/components/PaymentHandlerButton.jsx:59-67 | the request the handler sends is accepted by the route iff the signature is the HMAC of "orderId\|paymentId" |
| AdminPage.PropsOf | src/app/adminDetail/Eventdetail/page.jsx:53 | spreading `null` or `undefined` copies no properties |
| AdminPage.IdOf | src/app/adminDetail/Eventdetail/page.jsx:79 | `eventDetails?.id`: the id of an object, `undefined` otherwise |
| AdminPage.WithField | src/app/adminDetail/Eventdetail/page.jsx:51-54 | exactly the named property changes |
| AdminPage.ReplaceAt | src/app/adminDetail/Eventdetail/page.jsx:59-60 | same length, only position `index` replaced |
| AdminPage.SavedList | src/app/adminDetail/Eventdetail/page.jsx:87-93 | update: same length, entries with the returned id replaced; create: the record appended |
| AdminPage.RemoveById | src/app/adminDetail/Eventdetail/page.jsx:119 | no remaining entry has the deleted id; every kept entry came from the list |
| AdminPage.SameObjects | src/app/adminDetail/Eventdetail/page.jsx:27-29 | list entries that are one object are equal |
| AdminPage.FreshObjects | src/app/adminDetail/Eventdetail/page.jsx:27-29 | a parsed list is that many distinct fresh objects |
| AdminPage.SavedObjects | src/app/adminDetail/Eventdetail/page.jsx:87-93 | update: the returned object sits exactly where `SavedList` puts the returned record; create: it is appended |
| AdminPage.RemainingObjects | src/app/adminDetail/Eventdetail/page.jsx:119 | the identities of the kept entries, one per kept entry, each an old identity |
| AdminPage.RemainingCorrespond | src/app/adminDetail/Eventdetail/page.jsx:119 | each kept entry is an old entry together with its identity |
| AdminPage.RemoveKeepsSameObjects | src/app/adminDetail/Eventdetail/page.jsx:119 | filtering keeps entries that are one object equal |
| AdminPage.EditedRows | src/app/adminDetail/Eventdetail/page.jsx:65-72 | editing a row in place changes every entry that is the rows' owner and no other |
| AdminPage.SavedKeepsValid | src/app/adminDetail/Eventdetail/page.jsx:87-93 | a save keeps the identities consistent and leaves the rows' owner untouched |
| AdminPage.Synced | src/app/adminDetail/Eventdetail/page.jsx:44-49 | with a truthy selection the details become the first event with that id (and share its agenda rows), or `undefined` |
| AdminPage.Page.constructor | src/app/adminDetail/Eventdetail/page.jsx:14-17 | empty list, null selection and details, not editing |
| AdminPage.Page.SyncSelection | src/app/adminDetail/Eventdetail/page.jsx:44-49 | the details become `Synced` of the selection |
| AdminPage.Page.LoadEvents | src/app/adminDetail/Eventdetail/page.jsx:21-42 | on success the list is replaced and the first id selected, then synced; on failure an error toast |
| AdminPage.Page.SelectFromDropdown | src/app/adminDetail/Eventdetail/page.jsx:178 | the selection becomes `Number(value)`; the details re-sync only when it changed |
| AdminPage.Page.InputChange | src/app/adminDetail/Eventdetail/page.jsx:51-54 | the details become `WithField` of the old details |
| AdminPage.Page.ArrayChange | src/app/adminDetail/Eventdetail/page.jsx:56-63 | the named array is copied with one position replaced |
| AdminPage.Page.AgendaChange | src/app/adminDetail/Eventdetail/page.jsx:65-72 | the row changes in the details and, through the shared row object, in every list entry that is the object the rows came from; no other entry changes |
| AdminPage.Page.StartEditing | src/app/adminDetail/Eventdetail/page.jsx:204 | editing is enabled and nothing else changes |
| AdminPage.Page.SaveEvent | src/app/adminDetail/Eventdetail/page.jsx:74-108 | editing ends; PUT if the details id is truthy, else POST; on success the list becomes `SavedList`, the one returned object stands at every replaced index, and the selection re-syncs |
| AdminPage.Page.Delete | src/app/adminDetail/Eventdetail/page.jsx:110-137 | after confirmation a DELETE to the item path; on success the list is filtered and details and selection cleared |
| AdminPage.Page.AddNewEvent | src/app/adminDetail/Eventdetail/page.jsx:139-152 | blank record, null selection, editing on |
| AdminPage.PrimitiveIdFound | src/app/adminDetail/Eventdetail/page.jsx:46 | a primitive non-NaN id finds the first event carrying it |
| AdminPage.LoadSelectsFirst | src/app/adminDetail/Eventdetail/page.jsx:27-49 | after a load with a truthy primitive first id, the details are the first event |
| AdminPage.SyncedFindsFirst | src/app/adminDetail/Eventdetail/page.jsx:44-49 | a truthy selection takes its first match and that entry's rows |
| AdminPage.ObjectIdNeverSelected | src/app/adminDetail/Eventdetail/page.jsx:46 | an object id is never strictly equal, so the details become `undefined` |
| AdminPage.DropdownRoundTrip | src/app/adminDetail/Eventdetail/page.jsx:178-184 | choosing the option of numeric id `n` selects `n` |
| AdminPage.WithFieldLaws | src/app/adminDetail/Eventdetail/page.jsx:53 | edits to different fields commute; the last edit of one field wins |
| AdminPage.SavedListReplacesMatches | src/app/adminDetail/Eventdetail/page.jsx:89 | after an update, matching entries are the returned record and others are untouched |
| AdminPage.RemoveByIdDistributes | src/app/adminDetail/Eventdetail/page.jsx:119 | filtering distributes over concatenation, so order is kept |
| AdminPage.RemoveByIdKeepsOthers | src/app/adminDetail/Eventdetail/page.jsx:119 | every entry with another id is kept |
| AdminPage.RemoveByIdWithoutMatches | src/app/adminDetail/Eventdetail/page.jsx:119 | filtering a list without the id changes nothing |
| AdminPage.BlankEventStoredWithNullId | src/app/adminDetail/Eventdetail/page.jsx:139-149 | the blank record is POSTed and the catalogue stores it with id null |
| AdminPage.DeleteRequestNotUnderstood | src/app/adminDetail/Eventdetail/page.jsx:113 | the path-style DELETE carries no query id, so the catalogue answers 404 and changes nothing |
| AdminPage.DuplicateIdsShareRows | src/app/adminDetail/Eventdetail/page.jsx:44-92 | load `[a, b, c]` with a and c both id 1, edit, save: the reply is one object at indices 0 and 2, so a row edit reaches both |
| AdminPage.LoadAndRetitle | src/app/adminDetail/Eventdetail/page.jsx:21-54 | the load selects a and the title edit keeps its id |
| AdminPage.SaveDuplicates | src/app/adminDetail/Eventdetail/page.jsx:74-93 | the update reply replaces a and c by one object, which becomes the details |
| AdminPage.EditSharedRow | src/app/adminDetail/Eventdetail/page.jsx:65-72 | the row edit made through the details reaches both entries that are that object |
| EnrolPage.LoadResult | src/enrollpages/EventsDetails.jsx:36-47 | loads iff the status is ok, the JSON parsed and the data is truthy with keys; otherwise the HTTP or "No event data received" error |
| EnrolPage.KeyCount | src/enrollpages/EventsDetails.jsx:43 | `Object.keys(data).length`: properties of an object, positions of an array or a string, none otherwise |
| EnrolPage.ScreenOf | src/enrollpages/EventsDetails.jsx:181-191 | loading first, then a non-empty error, then not-found, then the event |
| EnrolPage.EventDetailsPage.constructor | src/enrollpages/EventsDetails.jsx:15-18 | null event, form hidden, loading, no error |
| EnrolPage.EventDetailsPage.Mount | src/enrollpages/EventsDetails.jsx:22-64 | nothing happens without a truthy id; otherwise one request, then event or error and toast, and `isLoading` false |
| EnrolPage.EventDetailsPage.RegisterNow | src/enrollpages/EventsDetails.jsx:66-68 | the form becomes visible |
| EnrolPage.EventDetailsPage.CloseForm | src/enrollpages/EventsDetails.jsx:70-72 | the form is hidden |
| EnrolPage.ScreenAfterLoad | src/enrollpages/EventsDetails.jsx:181-191 | after loading, the page shows the event, or the error message |
| EnrolPage.NoIdStaysLoading | src/enrollpages/EventsDetails.jsx:15-63 | a fresh page mounted without an id (or with an empty one) shows the loading screen and sends no request, whatever the server would answer |
| EnrolPage.EmptyPayloads | src/enrollpages/EventsDetails.jsx:43-45 | `{}`, `null` and `[]` are "No event data received"; an object with a key loads |
| EnrolPage.UnknownIdReportsHttpError | src/enrollpages/EventsDetails.jsx:36-38 | an id unknown to the catalogue gets 404, reported as "HTTP error! status: 404" |
| EnrolPage.NotFoundText | src/enrollpages/EventsDetails.jsx:37 | the 404 error text |
| EnrolPage.KnownIdLoads | src/enrollpages/EventsDetails.jsx:28-47 | an id the catalogue knows loads that record |
| EnrolPage.EventForm.constructor | src/enrollpages/EventsDetails.jsx:75-81 | four empty fields, payment hidden |
| EnrolPage.HasEmptyField | src/enrollpages/EventsDetails.jsx:90 | some form value is the empty string |
| EnrolPage.SaveAccepted | src/enrollpages/EventsDetails.jsx:104-105 | the reply is a JSON object whose `success` is truthy |
| EnrolPage.EventForm.InputChange | src/enrollpages/EventsDetails.jsx:83-86 | the named field takes the value |
| EnrolPage.EventForm.Submit | src/enrollpages/EventsDetails.jsx:88-123 | an empty field: toast, no request; else one request to `/api/googleSheetss`, and `showPayment` turns on only when the save is accepted |
| EnrolPage.FreshFormIsRejected | src/enrollpages/EventsDetails.jsx:75-97 | the empty initial form cannot be submitted |
| EnrolPage.SubmitIffAllFilled | src/enrollpages/EventsDetails.jsx:90 | submission goes ahead iff every field is non-empty |
| EnrolPage.Label | src/enrollpages/EventsDetails.jsx:143 | same length, first character upper-cased, the rest unchanged |
| EnrolPage.FieldLabels | src/enrollpages/EventsDetails.jsx:140-143 | the labels are Name, ContactNumber, Stream, Qualification |
| EnrolPage.LabelIdempotent | src/enrollpages/EventsDetails.jsx:143 | capitalising twice is capitalising once |
| EnrolPage.InputType | src/enrollpages/EventsDetails.jsx:146 | 'tel' iff the key is contactNumber, 'text' otherwise |
| EnrolPage.FieldTypes | src/enrollpages/EventsDetails.jsx:146 | only the second field is a telephone input |
| EnrolPage.PriceFloatText | src/enrollpages/EventsDetails.jsx:133 | a falsy price gives "0", a string is stripped, any other value throws |
| EnrolPage.FreeIsNotSpecial | src/enrollpages/EventsDetails.jsx:133 | "Free" strips to the empty text: no special case |
| EnrolPage.SeedPrice | src/enrollpages/EventsDetails.jsx:133 | the seed price "1,999 Rs" becomes "1999" |
| PriceText.StripNonNumeric | src/app/workshop/page.js:53 | only digits, `.` and `-` remain |
| PriceText.ReplaceFirst | src/app/workshop/page.js:53 | only the first occurrence is removed; none present means no change |
| PriceText.PriceText | src/app/workshop/page.js:53 | the text `parseFloat` receives holds only digits, `.` and `-`, and is no longer than the price |
| PriceText.StripKeepsExactly | src/app/workshop/page.js:53 | each numeric character occurs as often as in the input, any other not at all |
| PriceText.CommaReplaceIsNoOp | src/app/workshop/page.js:53 | the comma replacement after stripping changes nothing |
| PriceText.StripDistributes | src/app/workshop/page.js:53 | stripping distributes over concatenation, so order is kept |
| PriceText.StripIdempotent | src/app/workshop/page.js:53 | stripping twice is stripping once |
| PriceText.StripKeepsNumeric | src/app/workshop/page.js:53 | an all-numeric text is unchanged |
| PriceText.Example | src/app/workshop/page.js:52-54 | the text "1,999 Rs" becomes "1999" |
| WorkshopPage.Price | src/app/workshop/page.js:48-57 | 1 iff the price is "Free"; otherwise the stripped text |
| WorkshopPage.PriceExamples | src/app/workshop/page.js:49-54 | "Free" is 1 and "1,999 Rs" is `parseFloat("1999")` |
| WorkshopPage.Popular | src/app/workshop/page.js:42 | the first min(2, n) workshops, in order |
| WorkshopPage.SearchQuery | src/app/workshop/page.js:18 | "" when absent, else the lower-cased parameter |
| WorkshopPage.ToLower | src/app/workshop/page.js:18 | same length, each character lower-cased (A-Z only) |
| WorkshopPage.SearchQueryIdempotent | src/app/workshop/page.js:18 | normalising twice is normalising once |
| WorkshopPage.SearchQueryIgnoresCase | src/app/workshop/page.js:18 | queries that differ only in A-Z case normalise alike |

## Left out

- JsNumber.StringToNumber: finite values are exact reals. Rounding to IEEE-754 doubles and overflow to Infinity are not modelled.
- Object key order is not modelled (objects are maps). The same goes for `Object.values` order, which does not affect the validation.
- Reference identity: parsed arrays and objects never compare `===`. Object identity is modelled only on the admin page: which list entries are one object, and which object's agenda rows the edited record shares.
- EventCatalog: request bodies that are not JSON objects, array-valued query parameters, and concurrent requests are not modelled. Each request is handled alone.
- PaymentVerification.Verify: body fields that are JSON numbers, booleans, arrays or objects are not modelled (only string fields), and the exceptions' messages are not modelled. HMAC-SHA256 and Node's `crypto` are a function parameter.
- Sitemap: the clock and date-fns formatting are not modelled; `lastmod` is an input. The page's fields are not XML-escaped, which is also true of the code. The read-back needs fields without `<`.
- Checkout: props are fixed for a button's lifetime. `new Razorpay(...)` is assumed not to throw, and the widget's own behaviour, the environment key and the disabled rendering are not modelled.
- AdminPage.Page.ArrayChange: the page renders it only for the highlights. Called with "agenda", the JavaScript copy would still share its untouched row objects with the list; the model drops that sharing instead.
- AdminPage: list and save replies whose JSON is not a list of objects or an object are not modelled. The rules that decide when React re-runs the effect are written out by hand in each method, and so is the selection's `Object.is` comparison.
- EnrolPage: the effect re-running when `toast` changes is not modelled. Neither is the remount of the nested form component on parent renders, which resets its state.
- `parseFloat`: price modelling stops at the stripped text.
- Fetch, the Razorpay SDK, DOM injection mechanics, toasts' display, router navigation and all JSX rendering and styling are I/O. Their results are inputs and their effects are recorded.
- Case mapping covers ASCII A-Z only. `toLowerCase`/`toUpperCase` on other scripts is not modelled.
- src/app/api/googleSheeta/route.js, src/app/api/saveToSheet/route.js and src/app/layout.js are not part of this model: they forward to googleapis or compose pages.
- The workshop page's `fetchWorkshops` loading flags and its hover state are not modelled.
