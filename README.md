# Ecos Oráculo: the paywall and the MercadoPago checkout

Ecos Oráculo is an Angular front end for esoteric consultations. It has eight
chat widgets (love calculator, zodiac information, inner animal, Chinese
zodiac, vocational map, numerology, dream meaning, birth chart) and a tarot
reading page. They share a MercadoPago service and a buyer-data form. An
Express back end turns an order into a MercadoPago checkout preference.

This project models the part that decides who may read what and how a
payment travels through checkout:

- The back end's service table, `createOrder` and `getServices`: module
  `OrderController`.
- The front end's payment service:
  - the order defaults;
  - reading the result from the return address;
  - the snapshot kept in `localStorage` across the redirect;
  - cleaning the address;
  - the per-service paid flag.

  Module `PaymentService` holds these, over the browser state of module
  `BrowserState`.
- How the return addresses the back end builds are read back by the front
  end: module `CheckoutFlow`.
- The buyer-data form (`recolecta-datos`), as class `DataCollection.DataForm`.
- The paywall every chat widget repeats:
  - the free-message counter;
  - holding a message back for checkout;
  - blocking a reply;
  - free consultations and prizes;
  - the snapshot before checkout;
  - the four ways a page can load (approved, pending or rejected return, or
    an ordinary visit).

  Module `Paywall` writes this once as pure steps over a `ChatView`,
  parameterised by a `Widget` record. `PaywallLaws` and `PaywallReturns`
  prove its laws. Class `ChatWidgets.ChatWidget` updates its fields in place
  and is proved to perform those steps.
- One module per widget. Each holds the widget's configuration (keys,
  threshold, service id, history rule) and instantiates the laws. It also
  models what only that widget does: a form, a questionnaire, a message box,
  the chart signs, the numerology numbers.
- The cross-widget effect of the paid flags: module `PaidFlags`.
- The tarot page: module `TarotDescription`. It covers the description
  pipeline, the e-mail-derived buyer names, and class `Reading` with
  `ngOnInit` and `makePayment`.

Storage entries are `Text(s)` or `Json(doc)`, so `JSON.parse` of what
`JSON.stringify` wrote gives the document back. The JSON encoding itself is
not spelled out.

The following are parameters:

- browser state outside the storage areas and the address;
- the MercadoPago SDK;
- the chat services' answers;
- clocks and message ids;
- random picks.

Source paths below are relative to the repository root.

## Model

| member | source | states |
|---|---|---|
| OrderController.ServiceTable | Ecos-backend/src/controllers/mercadopago.ts:14-78 | The key list `Object.keys` gives is exactly the table's key set, without repetition, and every service has a name, a description and a positive price |
| OrderController.OrFallback | Ecos-backend/src/controllers/mercadopago.ts:106-108 | `value \|\| fallback`: the value when it is given and non-empty, the fallback otherwise |
| OrderController.FinalAmount | Ecos-backend/src/controllers/mercadopago.ts:106 | A missing amount and an amount of 0 both fall back to the service's price; any other amount is kept |
| OrderController.ExternalReferenceRoundTrip | Ecos-backend/src/controllers/mercadopago.ts:112 | The external reference splits back on `-` into the marker, the service id and the time, for an id without `-` |
| OrderController.BuildPreference | Ecos-backend/src/controllers/mercadopago.ts:105-155 | The preference has exactly one item, quantity 1, with the service id and a non-zero price equal to the final amount; its title and description are the caller's when non-empty and the table's otherwise, its category the caller's or `services`; its reference is the order's, its return addresses lead to the service's page, and it carries the webhook address, the two excluded methods, three instalments and automatic return on approval |
| OrderController.PayerDefaults | Ecos-backend/src/controllers/mercadopago.ts:84-93 | Each of the first name, the surname and the e-mail is the caller's value when given (an empty one stays empty) and its default only when left out |
| OrderController.CreateOrder | Ecos-backend/src/controllers/mercadopago.ts:82-177 | An id outside the table is refused with 400 and the list of valid ids; a created order answers with the SDK's result and the service's id, page and item title; a 500 answer comes only from an SDK failure |
| OrderController.CreateOrderStatus | Ecos-backend/src/controllers/mercadopago.ts:96-176 | 400 exactly for unknown ids, 200 exactly when the SDK created the preference, 500 otherwise |
| OrderController.GetServices | Ecos-backend/src/controllers/mercadopago.ts:180-192 | One listing per table key, in key order, each carrying that key's row of the table |
| OrderController.ListedIdsAreAccepted | Ecos-backend/src/controllers/mercadopago.ts:180-192 | Every listed id is accepted by `createOrder`, and every accepted id is listed exactly once |
| OrderController.SuccessUrlAsWritten | Ecos-backend/src/controllers/mercadopago.ts:96-103 | The success address as written: present exactly when the literal lookup passes, on the page `undefined` for an inherited name |
| OrderController.InheritedNamePassesLookup | Ecos-backend/src/controllers/mercadopago.ts:96-103 | `toString` passes the lookup as written and gets a success address on page `undefined`, while the modelled `createOrder` refuses it |
| OrderController.LookupAgreesOnTableIds | Ecos-backend/src/controllers/mercadopago.ts:96-103 | On every id that is not an inherited name, the written lookup passes exactly the table's ids and gives the same success address |
| PaymentService.WithDefaultsExtremes | Ecos-oraculo/src/app/services/mercadopago.service.ts:52-63 | Supplying every field sends exactly those values; supplying none sends the service defaults |
| PaymentService.WithDefaultsFieldwise | Ecos-oraculo/src/app/services/mercadopago.service.ts:52-63 | Field by field the merged body carries the caller's value where one was given and the default otherwise; other fields do not influence it |
| PaymentService.RedirectToPayment | Ecos-oraculo/src/app/services/mercadopago.service.ts:230-238 | An empty address is refused with an error and the page stays; any other becomes the location |
| PaymentService.CheckPaymentStatus | Ecos-oraculo/src/app/services/mercadopago.service.ts:83-143 | Approval wins over pending, which wins over rejection; `failure` is folded into rejection; the return is paid only when approved; without parameters there is no status |
| PaymentService.StatusPrecedence | Ecos-oraculo/src/app/services/mercadopago.service.ts:103-128 | The status for each combination of signals, spelled out as the order of precedence |
| PaymentService.PaymentIdChoice | Ecos-oraculo/src/app/services/mercadopago.service.ts:89-90 | `payment_id` when present and non-empty, `collection_id` otherwise |
| PaymentService.StatusNeedsParams | Ecos-oraculo/src/app/services/mercadopago.service.ts:146-153 | A classified status needs one of the parameters `hasPaymentParams` looks for; a lone `payment_id` passes the test and yields no status |
| PaymentService.CleanedUrl | Ecos-oraculo/src/app/services/mercadopago.service.ts:243-272 | With any listed parameter present the address becomes the bare path (every parameter goes); otherwise it is unchanged |
| PaymentService.CleanedUrlHasNoPaymentParams | Ecos-oraculo/src/app/services/mercadopago.service.ts:243-272 | After cleaning the page no longer looks like a checkout return, and cleaning again changes nothing |
| PaymentService.CleanPaymentParamsFromUrl | Ecos-oraculo/src/app/services/mercadopago.service.ts:243-272 | The loop over the listed parameters leaves the browser at the cleaned address and changes neither storage area |
| PaymentService.SavedPaymentData | Ecos-oraculo/src/app/services/mercadopago.service.ts:158-181 | The same time-stamped record is stored under both payment keys |
| PaymentService.PaymentDataKeysOnly | Ecos-oraculo/src/app/services/mercadopago.service.ts:158-225 | Saving and clearing touch the two payment keys and no other entry |
| PaymentService.GetPaymentData | Ecos-oraculo/src/app/services/mercadopago.service.ts:186-212 | The primary copy when present and non-empty, else the backup; a copy that does not parse gives nothing, without trying the other |
| PaymentService.SaveThenGet | Ecos-oraculo/src/app/services/mercadopago.service.ts:158-225 | Saving then reading gives the record back; after clearing nothing is read |
| PaymentService.BackupFallback | Ecos-oraculo/src/app/services/mercadopago.service.ts:192-195 | With the primary copy gone the backup is read; a broken primary hides a good backup |
| PaymentService.SavePaymentData | Ecos-oraculo/src/app/services/mercadopago.service.ts:158-181 | The browser's local storage becomes the saved record under both keys; the session and the address are unchanged |
| PaymentService.ClearPaymentData | Ecos-oraculo/src/app/services/mercadopago.service.ts:217-225 | Both payment keys are removed and nothing else changes |
| PaymentService.ServicePaidKeyInjective | Ecos-oraculo/src/app/services/mercadopago.service.ts:277-294 | Different services use different flag keys |
| PaymentService.ServicePaidReadAfterWrite | Ecos-oraculo/src/app/services/mercadopago.service.ts:277-294 | A flag reads back as written, other services' flags are untouched, and writing twice is writing once |
| PaymentService.SaveServicePaymentStatus | Ecos-oraculo/src/app/services/mercadopago.service.ts:277-283 | The session gains the service's flag with the written value and nothing else changes |
| CheckoutFlow.StatusQuery | Ecos-backend/src/controllers/mercadopago.ts:141-146 | `status=<s>&service=<id>` parses as exactly those two parameters |
| CheckoutFlow.AddressParts | Ecos-backend/src/controllers/mercadopago.ts:141-146 | An address on the site's origin followed by `/<page>?<query>` shows page `/<page>` with the parsed query |
| CheckoutFlow.TableIsAddressSafe | Ecos-backend/src/controllers/mercadopago.ts:14-78 | No id or page in the table holds an address delimiter |
| CheckoutFlow.ReturnQueriesClassify | Ecos-oraculo/src/app/services/mercadopago.service.ts:83-143 | The success query classifies as an approved, paid return naming the service; failure as rejected; pending as pending |
| CheckoutFlow.ReturnUrlsLand | Ecos-backend/src/controllers/mercadopago.ts:141-146 | Every return address built for a table service carries exactly the status and the id; success lands on the service's page and is read as approved and paid for that service, failure and pending land on `/welcome` and are read as rejected and pending, neither paid |
| DataCollection.PatternShape | Ecos-oraculo/src/app/components/recolecta-datos/recolecta-datos.component.ts:65 | An accepted address has exactly one `@`, no white space, and a `.` after the `@` |
| DataCollection.ValidationErrorsMeaning | Ecos-oraculo/src/app/components/recolecta-datos/recolecta-datos.component.ts:61-75 | The e-mail is required and must match the pattern once trimmed; no other field is checked; a valid e-mail leaves no error |
| DataCollection.ValidEmailIsNotEmpty | Ecos-oraculo/src/app/components/recolecta-datos/recolecta-datos.component.ts:113-117 | A blank e-mail never validates, so the later empty-e-mail check cannot fire |
| DataCollection.BuyerIdempotent | Ecos-oraculo/src/app/components/recolecta-datos/recolecta-datos.component.ts:108-112 | The stored buyer has trimmed, filled-in names; storing it again changes nothing |
| DataCollection.FilledIdempotent | Ecos-oraculo/src/app/components/recolecta-datos/recolecta-datos.component.ts:108-112 | Trimming and filling a field twice gives the same value as once |
| DataCollection.BuyerOrderUsesNoDefaults | Ecos-oraculo/src/app/components/recolecta-datos/recolecta-datos.component.ts:164-176 | The order supplies every field, so no service default reaches the back end |
| DataCollection.SubmitStopsAtEmail | Ecos-oraculo/src/app/components/recolecta-datos/recolecta-datos.component.ts:81-87 | A rejected e-mail stops the submission with its error recorded and nothing else changed |
| DataCollection.SubmitChecksBoxesInOrder | Ecos-oraculo/src/app/components/recolecta-datos/recolecta-datos.component.ts:89-99 | Past the e-mail both box errors are cleared; the terms box is checked first, the truthful-data box only when terms are accepted |
| DataCollection.FailedSubmitChangesNothingOutside | Ecos-oraculo/src/app/components/recolecta-datos/recolecta-datos.component.ts:81-99 | A submission stopped at a gate stores, emits, posts and redirects nothing |
| DataCollection.PassedSubmitStoresBuyer | Ecos-oraculo/src/app/components/recolecta-datos/recolecta-datos.component.ts:104-121 | Past the gates, the trimmed, filled-in buyer is what the session reads back as `userData` |
| DataCollection.DataOnlySubmitEmits | Ecos-oraculo/src/app/components/recolecta-datos/recolecta-datos.component.ts:130-140 | In data-only mode the buyer is emitted once and nothing reaches the payment side |
| DataCollection.CheckoutSavesBeforeOrdering | Ecos-oraculo/src/app/components/recolecta-datos/recolecta-datos.component.ts:147-176 | In checkout mode the snapshot is stored whatever the order's fate, and exactly one order goes out with the service's figures and the stored buyer |
| DataCollection.CheckoutOutcome | Ecos-oraculo/src/app/components/recolecta-datos/recolecta-datos.component.ts:177-192 | With a payment address the buyer is emitted and the browser sent there; otherwise the error is shown and the form released |
| DataCollection.CancelOnlyWhenIdle | Ecos-oraculo/src/app/components/recolecta-datos/recolecta-datos.component.ts:194-198 | The form never closes while a payment is under way, and otherwise closes once |
| DataCollection.DataForm.constructor | Ecos-oraculo/src/app/components/recolecta-datos/recolecta-datos.component.ts:43-58 | A fresh form: empty buyer, boxes unticked, no errors, nothing attempted, submitted, closed or ordered |
| DataCollection.DataForm.ValidateUserData | Ecos-oraculo/src/app/components/recolecta-datos/recolecta-datos.component.ts:61-75 | Records the errors `ValidationErrorsMeaning` describes and returns true exactly when none was recorded |
| DataCollection.DataForm.HasError | Ecos-oraculo/src/app/components/recolecta-datos/recolecta-datos.component.ts:77-79 | Shows a field's error only after an attempt, as `ErrorShown` of the form's state, whose meaning the next three rows state |
| DataCollection.EmailErrorShownAfterSubmit | Ecos-oraculo/src/app/components/recolecta-datos/recolecta-datos.component.ts:61-79 | Nothing is shown before the first attempt; after a submission the e-mail error shows exactly when the e-mail is rejected, with the blank or the malformed wording |
| DataCollection.OtherErrorsShownAfterSubmit | Ecos-oraculo/src/app/components/recolecta-datos/recolecta-datos.component.ts:61-79 | After a submission only the e-mail and the general error can show, the general one exactly when all gates passed and checkout failed |
| DataCollection.AcceptedFormShowsNoError | Ecos-oraculo/src/app/components/recolecta-datos/recolecta-datos.component.ts:61-79 | Once validation accepts the e-mail, no field shows an error, whether or not a submission was attempted |
| DataCollection.DataForm.SubmitUserData | Ecos-oraculo/src/app/components/recolecta-datos/recolecta-datos.component.ts:81-144 | The form and the browser end as the submission specification says, so the gate, storage and checkout lemmas hold of it |
| DataCollection.DataForm.ProcessPaymentWithMercadoPago | Ecos-oraculo/src/app/components/recolecta-datos/recolecta-datos.component.ts:147-192 | Snapshot, order and redirect or error, as `CheckoutSavesBeforeOrdering` and `CheckoutOutcome` state |
| DataCollection.DataForm.CancelDataModal | Ecos-oraculo/src/app/components/recolecta-datos/recolecta-datos.component.ts:194-198 | Closes the form only when no payment is under way |
| Paywall.AnswerFrom | Ecos-oraculo/src/app/components/significado-suenos/significado-suenos.component.ts:434-485 | The subscribers' shared rule (the love calculator, dreams, inner animal and Chinese zodiac use it with their own texts): a successful non-empty text is the reply; an unsuccessful or empty body shows the no-answer text and a failed request the failure text, saved as the widget saves errors |
| PaywallLaws.SameCreditsMeans | Ecos-oraculo/src/app/components/calculadora-amor/calculadora-amor.component.ts:735-753 | Equal free-consultation entries read as equal counts |
| PaywallLaws.UserDataIsNoServiceFlag | Ecos-oraculo/src/app/services/mercadopago.service.ts:277-294 | The shared buyer key is never a per-service flag |
| PaywallLaws.StateSavedParts | Ecos-oraculo/src/app/components/calculadora-amor/calculadora-amor.component.ts:572-603 | Saving before checkout changes only the two storage areas, and the snapshot is of the state it was given |
| PaywallLaws.StateSavedTouchesOnly | Ecos-oraculo/src/app/components/calculadora-amor/calculadora-amor.component.ts:572-603 | Saving before checkout touches only the conversation, the counter, the block and the widget's extra entries |
| PaywallLaws.StateSavedReads | Ecos-oraculo/src/app/components/calculadora-amor/calculadora-amor.component.ts:572-603 | After saving, the conversation and counter read back from the session, the block where set, and the snapshot from local storage |
| PaywallLaws.IgnoredSend | Ecos-oraculo/src/app/components/calculadora-amor/calculadora-amor.component.ts:424 | A blank message, or a send while an answer is awaited, changes nothing and asks nothing |
| PaywallLaws.ProcessedCounts | Ecos-oraculo/src/app/components/calculadora-amor/calculadora-amor.component.ts:477-498 | Processing counts one message, stores the count, shows the message and waits; credits and the pending message stay |
| PaywallLaws.CreditSpent | Ecos-oraculo/src/app/components/calculadora-amor/calculadora-amor.component.ts:755-773 | Spending a free consultation takes exactly one credit and shows how many are left |
| PaywallLaws.NoCreditNoChange | Ecos-oraculo/src/app/components/calculadora-amor/calculadora-amor.component.ts:755-773 | Without credits there is nothing to spend and nothing changes |
| PaywallLaws.InterceptHoldsBack | Ecos-oraculo/src/app/components/calculadora-amor/calculadora-amor.component.ts:449-470 | An interception adds and counts no message; the message waits under the pending key, the payment modal closes and the data modal opens |
| PaywallLaws.SendOutcomes | Ecos-oraculo/src/app/components/calculadora-amor/calculadora-amor.component.ts:423-475 | A send that goes ahead uncaught counts exactly one message and ends with it; any other send counts none and shows nothing new |
| PaywallLaws.PaidAlwaysProcessed | Ecos-oraculo/src/app/components/calculadora-amor/calculadora-amor.component.ts:432-438 | A paid user's message is never held back |
| PaywallLaws.UnpaidSendBound | Ecos-oraculo/src/app/components/calculadora-amor/calculadora-amor.component.ts:440-475 | Unpaid and without credits, one send takes the counter at most to the threshold minus one |
| PaywallLaws.ReplyShown | Ecos-oraculo/src/app/components/calculadora-amor/calculadora-amor.component.ts:514-553 | A reply is shown with its id and the conversation saved; counter and paid state unchanged |
| PaywallLaws.ReplyKeepsCredits | Ecos-oraculo/src/app/components/calculadora-amor/calculadora-amor.component.ts:514-566 | A reply leaves the free consultations alone |
| PaywallLaws.BlockedAtSaves | Ecos-oraculo/src/app/components/calculadora-amor/calculadora-amor.component.ts:536-549 | Blocking stores the block and the snapshot with it, and opens the data modal |
| PaywallLaws.ReplyBlocks | Ecos-oraculo/src/app/components/calculadora-amor/calculadora-amor.component.ts:530-550 | A reply finding the user unpaid, without credits and past the free messages blocks that reply, stores the block and opens the data modal |
| PaywallLaws.ReplyDoesNotBlock | Ecos-oraculo/src/app/components/calculadora-amor/calculadora-amor.component.ts:530-553 | Any other reply neither blocks nor saves a snapshot nor opens a modal |
| PaywallLaws.ReplyBlocksIff | Ecos-oraculo/src/app/components/calculadora-amor/calculadora-amor.component.ts:530-550 | A reply blocks if and only if the block is due |
| PaywallLaws.NoticeNeverBlocks | Ecos-oraculo/src/app/components/calculadora-amor/calculadora-amor.component.ts:554-566 | An error notice gets no id and blocks nothing |
| PaywallLaws.NoticeStorage | Ecos-oraculo/src/app/components/calculadora-amor/calculadora-amor.component.ts:554-566 | A notice is saved when it is persisted or the widget saves every post; otherwise the session is untouched |
| PaywallLaws.ReceiveKeepsCount | Ecos-oraculo/src/app/components/calculadora-amor/calculadora-amor.component.ts:514-566 | Answers count no message, pay nothing and leave credits alone |
| PaywallLaws.BlockedOnlyWhileUnpaid | Ecos-oraculo/src/app/components/calculadora-amor/calculadora-amor.component.ts:626-628 | Once paid no message is blocked; unpaid, only the message with the blocked id is |
| PaywallLaws.FreeMessagesBound | Ecos-oraculo/src/app/components/calculadora-amor/calculadora-amor.component.ts:423-568 | The paywall's guarantee: over any run of typing, sending and answers, unpaid and without credits, the counter never passes the threshold |
| PaywallLaws.NonBlankOnlyKeeps | Ecos-oraculo/src/app/components/informacion-zodiaco/informacion-zodiaco.component.ts:550 | The filter keeps exactly the messages whose text is not blank, in order |
| PaywallLaws.TurnsAppend | Ecos-oraculo/src/app/components/animal-interior/animal-interior.component.ts:448-451 | The turns of two lists one after the other are the turns of the joined list |
| PaywallLaws.RequestedAfterAdding | Ecos-oraculo/src/app/components/calculadora-amor/calculadora-amor.component.ts:477-520 | A send that goes ahead asks about the trimmed message with the history built from the conversation once the message is added |
| PaywallLaws.HistoryRules | Ecos-oraculo/src/app/components/animal-interior/animal-interior.component.ts:448-451 | The history rules on a conversation ending with the user's message: none, everything, all before it, the last ten, the non-blank ones |
| PaywallLaws.RequestHistory | Ecos-oraculo/src/app/components/calculadora-amor/calculadora-amor.component.ts:477-520 | What a send that goes ahead asks the chat service, with the widget's history rule |
| PaywallReturns.MarkedPaidFacts | Ecos-oraculo/src/app/components/calculadora-amor/calculadora-amor.component.ts:191-204 | An approved return marks the user paid by both flags and lifts the block |
| PaywallReturns.MarkedPaidTouchesOnly | Ecos-oraculo/src/app/components/calculadora-amor/calculadora-amor.component.ts:191-204 | Marking paid touches only the two flags and the block |
| PaywallReturns.SnapshotRestored | Ecos-oraculo/src/app/components/calculadora-amor/calculadora-amor.component.ts:206-241 | The conversation comes back when the snapshot holds a non-empty one under the widget's field, and the counter and buyer when it holds them |
| PaywallReturns.NothingRestored | Ecos-oraculo/src/app/components/calculadora-amor/calculadora-amor.component.ts:206-241 | Without a snapshot nothing is restored |
| PaywallReturns.ClearedAndConfirmed | Ecos-oraculo/src/app/components/calculadora-amor/calculadora-amor.component.ts:244-262 | Whatever was recovered, the snapshot is cleared, the confirmation follows the conversation and is saved |
| PaywallReturns.ApprovedReturnPays | Ecos-oraculo/src/app/components/calculadora-amor/calculadora-amor.component.ts:191-275 | An approved return leaves the user paid by both flags with no block, the snapshot cleared and the payment parameters gone |
| PaywallReturns.ApprovedReturnRestores | Ecos-oraculo/src/app/components/calculadora-amor/calculadora-amor.component.ts:206-262 | The snapshot's conversation (or the one on screen) is shown followed by the confirmation, and saved |
| PaywallReturns.BuyerSnapshotRestoresNoConversation | Ecos-oraculo/src/app/components/recolecta-datos/recolecta-datos.component.ts:150-161 | When the data form's snapshot replaced the widget's, the approved return restores the buyer but no conversation |
| PaywallReturns.ApprovedReturnReplays | Ecos-oraculo/src/app/components/calculadora-amor/calculadora-amor.component.ts:265-272 | The message held back for checkout is handed back for replay, and none is left in storage |
| PaywallReturns.InitialPaidState | Ecos-oraculo/src/app/components/calculadora-amor/calculadora-amor.component.ts:179-181 | A load without an approved payment replays nothing, and the user is paid exactly when the widget's flag or the service flag says so |
| PaywallReturns.InitialisedUnblocksPaid | Ecos-oraculo/src/app/components/calculadora-amor/calculadora-amor.component.ts:313-317 | However a page loads, a paid user ends with no block |
| PaywallReturns.PlainLoadRestores | Ecos-oraculo/src/app/components/calculadora-amor/calculadora-amor.component.ts:339-369 | An ordinary load on an empty screen shows the stored conversation with its counter and block |
| PaywallReturns.ResetLeavesOneWelcome | Ecos-oraculo/src/app/components/calculadora-amor/calculadora-amor.component.ts:921-937 | A reset and the welcome leave exactly the greeting, a zero counter stored as such, no block, none of the removed entries |
| PaywallReturns.CreditsAddedCount | Ecos-oraculo/src/app/components/calculadora-amor/calculadora-amor.component.ts:735-746 | The stored free-consultation count reads back as the old one plus `n` |
| PaywallReturns.CreditPrize | Ecos-oraculo/src/app/components/calculadora-amor/calculadora-amor.component.ts:704-708 | Prize '1' adds three free consultations and lifts an unpaid user's block; counter and paid state stay |
| PaywallReturns.PremiumPrize | Ecos-oraculo/src/app/components/calculadora-amor/calculadora-amor.component.ts:709-728 | Prize '2' makes the user paid (and the service flag where the widget writes it), lifts the block, shows and saves the notice |
| PaywallReturns.OtherPrize | Ecos-oraculo/src/app/components/calculadora-amor/calculadora-amor.component.ts:668-679 | Any other prize is only announced |
| PaywallReturns.PendingReturnForgetsConversation | Ecos-oraculo/src/app/components/calculadora-amor/calculadora-amor.component.ts:276-285 | On a fresh page the pending notice is pushed before loading, so the stored conversation is not shown, the counter stays 0, and a widget saving every post overwrites it |
| PaywallReturns.PendingReturnKeepsConversation | Ecos-oraculo/src/app/components/informacion-zodiaco/informacion-zodiaco.component.ts:303-317 | Loading first, the stored conversation and counter come back with the notice after them, all saved |
| PaywallReturns.PromptNeedsBuyerEmail | Ecos-oraculo/src/app/components/animal-interior/animal-interior.component.ts:582-608 | The payment modal stays open exactly when a buyer with an e-mail is known; otherwise the data form opens with an error |
| PaywallReturns.WidgetOrderUsesNoDefaults | Ecos-oraculo/src/app/components/animal-interior/animal-interior.component.ts:630-645 | The widget's order supplies every field: its service's figures and the buyer |
| PaywallReturns.CheckoutSavesFirst | Ecos-oraculo/src/app/components/animal-interior/animal-interior.component.ts:611-659 | The snapshot is saved before the order is posted, whatever happens next |
| PaywallReturns.CheckoutOutcome | Ecos-oraculo/src/app/components/animal-interior/animal-interior.component.ts:611-659 | The page goes to checkout exactly when a buyer is known and the back end gave an address; otherwise an error is shown and the widget released |
| ChatWidgets.ChatWidget.constructor | Ecos-oraculo/src/app/components/calculadora-amor/calculadora-amor.component.ts:165-173 | A fresh component: nothing on screen, no count, unpaid, nothing blocked or loading, no modal, no buyer, no order, sharing the given browser |
| ChatWidgets.ChatWidget.SaveStateBeforePayment | Ecos-oraculo/src/app/components/calculadora-amor/calculadora-amor.component.ts:572-603 | The new state is the `StateSaved` step, so `StateSavedReads` and `StateSavedTouchesOnly` hold of it |
| ChatWidgets.ChatWidget.SendMessage | Ecos-oraculo/src/app/components/calculadora-amor/calculadora-amor.component.ts:423-475 | The new state is the `Sent` step and the request the one `Requested` describes, so `SendOutcomes` and `FreeMessagesBound` hold of it |
| ChatWidgets.ChatWidget.UseCredit | Ecos-oraculo/src/app/components/calculadora-amor/calculadora-amor.component.ts:755-773 | Performs the `CreditUsed` step, so `CreditSpent` and `NoCreditNoChange` hold of it |
| ChatWidgets.ChatWidget.ReceiveAnswer | Ecos-oraculo/src/app/components/calculadora-amor/calculadora-amor.component.ts:514-566 | The new state is the `Received` step, so `ReplyBlocksIff` and `NoticeStorage` hold of it |
| ChatWidgets.ChatWidget.IsMessageBlocked | Ecos-oraculo/src/app/components/calculadora-amor/calculadora-amor.component.ts:626-628 | True exactly when the user is unpaid and the message carries the blocked id |
| ChatWidgets.ChatWidget.OnUserDataSubmitted | Ecos-oraculo/src/app/components/calculadora-amor/calculadora-amor.component.ts:632-642 | The buyer is kept and stored in the session under `userData`, and the data modal closes |
| ChatWidgets.ChatWidget.CancelPayment | Ecos-oraculo/src/app/components/animal-interior/animal-interior.component.ts:661-666 | The payment modal closes, nothing is processing, and the payment error is cleared |
| ChatWidgets.ChatWidget.AddCredits | Ecos-oraculo/src/app/components/calculadora-amor/calculadora-amor.component.ts:735-746 | Performs `CreditsAdded`, whose count is `CreditsAddedCount` |
| ChatWidgets.ChatWidget.OnPrizeWon | Ecos-oraculo/src/app/components/calculadora-amor/calculadora-amor.component.ts:668-733 | Performs `PrizeWon`, whose cases are `CreditPrize`, `PremiumPrize` and `OtherPrize` |
| ChatWidgets.ChatWidget.PromptForPayment | Ecos-oraculo/src/app/components/animal-interior/animal-interior.component.ts:582-608 | Performs `PaymentPrompted`, so `PromptNeedsBuyerEmail` holds of it |
| ChatWidgets.ChatWidget.HandlePaymentSubmit | Ecos-oraculo/src/app/components/animal-interior/animal-interior.component.ts:611-659 | Performs the checkout step, so `CheckoutSavesFirst` and `CheckoutOutcome` hold of it |
| ChatWidgets.ChatWidget.LoadConversation | Ecos-oraculo/src/app/components/calculadora-amor/calculadora-amor.component.ts:339-369 | Performs `Loaded`: the stored conversation, counter and block, or the welcome |
| ChatWidgets.ChatWidget.Init | Ecos-oraculo/src/app/components/calculadora-amor/calculadora-amor.component.ts:175-337 | The new state and the replayed message are those of `Initialised`, whose laws are the `PaywallReturns` lemmas |
| ChatWidgets.ChatWidget.InitLoadingFirst | Ecos-oraculo/src/app/components/informacion-zodiaco/informacion-zodiaco.component.ts:164-371 | The same with the conversation loaded before the pending or rejected notice |
| LoveCalculator.ConfigFits | Ecos-oraculo/src/app/components/calculadora-amor/calculadora-amor.component.ts:339-369 | The widget's storage keys are distinct and apart from the shared ones |
| LoveCalculator.ClearLeavesOneWelcome | Ecos-oraculo/src/app/components/calculadora-amor/calculadora-amor.component.ts:921-937 | Exactly the welcome, a zero counter stored as "0", no block, neither conversation nor block stored; paid state kept |
| LoveCalculator.FormattedDateReadsBack | Ecos-oraculo/src/app/components/calculadora-amor/calculadora-amor.component.ts:1012-1018 | The date text is day, month from 1 and year; each part reads back as its number |
| LoveCalculator.FormatDateInjective | Ecos-oraculo/src/app/components/calculadora-amor/calculadora-amor.component.ts:1012-1018 | Different dates give different texts, and none gives the empty text |
| LoveCalculator.ThirdMessageHeldBack | Ecos-oraculo/src/app/components/calculadora-amor/calculadora-amor.component.ts:449-470 | Unpaid and without credits the third message is held back, uncounted, unshown, with the data modal open |
| LoveCalculator.BlocksFromThirdReply | Ecos-oraculo/src/app/components/calculadora-amor/calculadora-amor.component.ts:530-550 | A reply blocks exactly when unpaid, without credits, after three messages |
| LoveCalculator.PremiumMarksService | Ecos-oraculo/src/app/components/calculadora-amor/calculadora-amor.component.ts:709-713 | The premium prize unlocks the calculator and marks service '9' paid |
| ZodiacInfo.AnswerOf | Ecos-oraculo/src/app/components/informacion-zodiaco/informacion-zodiaco.component.ts:548-584 | A successful non-empty text is the reply; anything else becomes the fallback reply, so the error branch is never reached |
| ZodiacInfo.FallbackCanBlock | Ecos-oraculo/src/app/components/informacion-zodiaco/informacion-zodiaco.component.ts:472-546 | The fallback gets an id and can be blocked like any reply |
| ZodiacInfo.Init | Ecos-oraculo/src/app/components/informacion-zodiaco/informacion-zodiaco.component.ts:164-371 | The new state and the replay are the widget's own load, whose cases are `ApprovedFromSnapshot`, `ApprovedFromSession`, `PendingKeepsConversation` and `RejectedKeepsConversation` |
| ZodiacInfo.StartGreetsOnlyEmpty | Ecos-oraculo/src/app/components/informacion-zodiaco/informacion-zodiaco.component.ts:816-839 | The counter is zeroed and stored, and a greeting appears exactly when nothing is on screen |
| ZodiacInfo.ApprovedFromSnapshot | Ecos-oraculo/src/app/components/informacion-zodiaco/informacion-zodiaco.component.ts:181-302 | Paid, unblocked, the snapshot's conversation and counter followed by the confirmation, saved, the snapshot gone |
| ZodiacInfo.ApprovedFromSession | Ecos-oraculo/src/app/components/informacion-zodiaco/informacion-zodiaco.component.ts:181-302 | Without a conversation in the snapshot, the session's one and its counter come back with the confirmation |
| ZodiacInfo.PendingKeepsConversation | Ecos-oraculo/src/app/components/informacion-zodiaco/informacion-zodiaco.component.ts:303-317 | The stored conversation is loaded first and one notice follows it, saved |
| ZodiacInfo.RejectedKeepsConversation | Ecos-oraculo/src/app/components/informacion-zodiaco/informacion-zodiaco.component.ts:318-340 | The stored conversation, the payment error and one error message, saved |
| ZodiacInfo.ClearLeavesOneGreeting | Ecos-oraculo/src/app/components/informacion-zodiaco/informacion-zodiaco.component.ts:841-855 | One greeting, no count, no block, only the counter stored as "0" |
| ZodiacInfo.ThirdMessageHeldBack | Ecos-oraculo/src/app/components/informacion-zodiaco/informacion-zodiaco.component.ts:419-470 | The third unpaid message without credits is held back uncounted; the payment modal is left as it was |
| ZodiacInfo.BlocksFromThirdReply | Ecos-oraculo/src/app/components/informacion-zodiaco/informacion-zodiaco.component.ts:472-546 | A reply blocks exactly when unpaid, without credits, after three messages |
| ZodiacInfo.HistoryIsNonBlank | Ecos-oraculo/src/app/components/informacion-zodiaco/informacion-zodiaco.component.ts:548-556 | The history is the non-blank messages in order, the user's as `user`, others as `astrologer` |
| ZodiacInfo.PremiumMarksService | Ecos-oraculo/src/app/components/informacion-zodiaco/informacion-zodiaco.component.ts:740-769 | The premium prize also marks service '3' paid |
| InnerAnimal.AnswerOf | Ecos-oraculo/src/app/components/animal-interior/animal-interior.component.ts:428-522 | A successful non-empty text is the reply; otherwise a notice saved with the conversation |
| InnerAnimal.FailedAnswerNeverBlocks | Ecos-oraculo/src/app/components/animal-interior/animal-interior.component.ts:428-522 | A non-reply never blocks and is saved |
| InnerAnimal.ClearLeavesOneWelcome | Ecos-oraculo/src/app/components/animal-interior/animal-interior.component.ts:749-775 | Exactly the welcome, a zero counter, no block, none of the three keys stored |
| InnerAnimal.ThirdMessageHeldBack | Ecos-oraculo/src/app/components/animal-interior/animal-interior.component.ts:382-426 | The third unpaid message without credits is held back, uncounted, with the data modal open |
| InnerAnimal.HistoryIsLastTen | Ecos-oraculo/src/app/components/animal-interior/animal-interior.component.ts:448-451 | At most the last ten messages, the new one last, roles `user` and `guide` |
| InnerAnimal.PremiumLeavesServiceFlag | Ecos-oraculo/src/app/components/animal-interior/animal-interior.component.ts:851-880 | The premium prize sets the widget's own flag but leaves service '6' as it was |
| ChineseZodiac.FreshFormInvalid | Ecos-oraculo/src/app/components/zodiaco-chino/zodiaco-chino.component.ts:128-147 | A fresh or reset form cannot start a consultation: its birth year is empty |
| ChineseZodiac.Patched | Ecos-oraculo/src/app/components/zodiaco-chino/zodiaco-chino.component.ts:179-255 | Every control the saved object names takes its value; the others keep theirs |
| ChineseZodiac.HoroscopeForm.Reset | Ecos-oraculo/src/app/components/zodiaco-chino/zodiaco-chino.component.ts:668-693 | The form is the fresh one again (defaults, not completed, shown), on which `FreshFormInvalid` holds |
| ChineseZodiac.FormSurvivesCheckout | Ecos-oraculo/src/app/components/zodiaco-chino/zodiaco-chino.component.ts:388-414 | The form saved when a message was held back comes back after an approved return, completed and hidden, whatever it held in between |
| ChineseZodiac.Question | Ecos-oraculo/src/app/components/zodiaco-chino/zodiaco-chino.component.ts:480-533 | The form's question, or the opening text when it is empty |
| ChineseZodiac.AnswerOf | Ecos-oraculo/src/app/components/zodiaco-chino/zodiaco-chino.component.ts:577-653 | A successful non-empty text is the reply; otherwise an error message, saved |
| ChineseZodiac.ConsultationIgnoresPaywall | Ecos-oraculo/src/app/components/zodiaco-chino/zodiaco-chino.component.ts:480-533 | Whatever the counter and paid state, a valid form sends its question, counts it and shows it |
| ChineseZodiac.ConsultationAnswerNeverBlocks | Ecos-oraculo/src/app/components/zodiaco-chino/zodiaco-chino.component.ts:480-533 | The consultation's answer never blocks, keeps the counter and is saved |
| ChineseZodiac.StartConsultation | Ecos-oraculo/src/app/components/zodiaco-chino/zodiaco-chino.component.ts:480-533 | Performs the consultation step and sends its request, so `ConsultationIgnoresPaywall` holds of it |
| ChineseZodiac.ClearLeavesOneWelcome | Ecos-oraculo/src/app/components/zodiaco-chino/zodiaco-chino.component.ts:787-800 | One welcome and nothing loading |
| ChineseZodiac.ResetConsultationLeavesOneWelcome | Ecos-oraculo/src/app/components/zodiaco-chino/zodiaco-chino.component.ts:668-693 | One welcome, but an answer is still awaited |
| ChineseZodiac.ResetChatLeavesOneWelcome | Ecos-oraculo/src/app/components/zodiaco-chino/zodiaco-chino.component.ts:802-842 | One welcome, no modal, no pending message |
| ChineseZodiac.Init | Ecos-oraculo/src/app/components/zodiaco-chino/zodiaco-chino.component.ts:163-306 | The widget's `ngOnInit`, with the form restored on an approved return |
| ChineseZodiac.InitShowsSomething | Ecos-oraculo/src/app/components/zodiaco-chino/zodiaco-chino.component.ts:163-306 | After loading the conversation is never empty |
| ChineseZodiac.FourthMessageHeldBack | Ecos-oraculo/src/app/components/zodiaco-chino/zodiaco-chino.component.ts:535-575 | Unpaid, the fourth message is held back uncounted, with the data modal open |
| ChineseZodiac.ConsultationBypassesHold | Ecos-oraculo/src/app/components/zodiaco-chino/zodiaco-chino.component.ts:480-575 | Where a send would be held back, a consultation with a valid form goes ahead and counts |
| ChineseZodiac.BlocksFromFourthReply | Ecos-oraculo/src/app/components/zodiaco-chino/zodiaco-chino.component.ts:577-653 | A reply blocks exactly when unpaid after four messages |
| ChineseZodiac.HistoryIsEverything | Ecos-oraculo/src/app/components/zodiaco-chino/zodiaco-chino.component.ts:577-653 | The whole conversation, the new message last, roles `user` and `master` |
| VocationalMap.AnswerOf | Ecos-oraculo/src/app/components/mapa-vocacional/mapa-vocacional.component.ts:418-501 | Any text is the reply; an error becomes a saved apology |
| VocationalMap.PersonalInfoNote | Ecos-oraculo/src/app/components/mapa-vocacional/mapa-vocacional.component.ts:646-657 | The note appears only after something was entered, and changes nothing but the conversation |
| VocationalMap.CategoryOfFirstMatch | Ecos-oraculo/src/app/components/mapa-vocacional/mapa-vocacional.component.ts:682-697 | The category of the first matching option, empty when none matches |
| VocationalMap.ProgressBounds | Ecos-oraculo/src/app/components/mapa-vocacional/mapa-vocacional.component.ts:708-713 | On any question progress is above 0 and at most 100, and 100 on the last |
| VocationalMap.StepsKeepValid | Ecos-oraculo/src/app/components/mapa-vocacional/mapa-vocacional.component.ts:678-706 | Every step keeps an answer for each question before the current one |
| VocationalMap.NextRecords | Ecos-oraculo/src/app/components/mapa-vocacional/mapa-vocacional.component.ts:682-697 | The selected option and its category become the current answer and the questionnaire moves on; without a selection nothing happens |
| VocationalMap.NextThenPrevious | Ecos-oraculo/src/app/components/mapa-vocacional/mapa-vocacional.component.ts:682-706 | Back after forward returns to the same question with the same option selected |
| VocationalMap.PreviousRestoresAnswer | Ecos-oraculo/src/app/components/mapa-vocacional/mapa-vocacional.component.ts:699-706 | Going back always selects the answer already given |
| VocationalMap.Assessment.NextQuestion | Ecos-oraculo/src/app/components/mapa-vocacional/mapa-vocacional.component.ts:682-697 | Performs the `nextQuestion` step, so `NextRecords` holds of it |
| VocationalMap.Assessment.PreviousQuestion | Ecos-oraculo/src/app/components/mapa-vocacional/mapa-vocacional.component.ts:699-706 | Performs the `previousQuestion` step, so `PreviousRestoresAnswer` holds of it |
| VocationalMap.Assessment.FinishAssessment | Ecos-oraculo/src/app/components/mapa-vocacional/mapa-vocacional.component.ts:715-728 | Records the selected option as the current question's answer, as `nextQuestion` does, without moving on |
| VocationalMap.Assessment.StartNewAssessment | Ecos-oraculo/src/app/components/mapa-vocacional/mapa-vocacional.component.ts:745-754 | Back to the first question with nothing selected, no answers and no results, on the questionnaire tab |
| VocationalMap.ResetChatLeavesOneWelcome | Ecos-oraculo/src/app/components/mapa-vocacional/mapa-vocacional.component.ts:773-821 | The welcome alone, a zero counter stored as "0", no block, no modal, nothing stored for the conversation, block or pending message |
| VocationalMap.FourthMessageHeldBack | Ecos-oraculo/src/app/components/mapa-vocacional/mapa-vocacional.component.ts:374-416 | Unpaid, the fourth message is held back uncounted with the data modal open |
| VocationalMap.BlocksFromFourthReply | Ecos-oraculo/src/app/components/mapa-vocacional/mapa-vocacional.component.ts:418-501 | A reply blocks exactly when unpaid after four messages |
| VocationalMap.HistoryIsLastTen | Ecos-oraculo/src/app/components/mapa-vocacional/mapa-vocacional.component.ts:436-439 | At most the last ten messages, the new one last, roles `user` and `counselor` |
| BirthChart.AnswerOf | Ecos-oraculo/src/app/components/tabla-nacimiento/tabla-nacimiento.component.ts:522-561 | A successful non-empty text, or else the fallback: every answer is a reply |
| BirthChart.FallbackCanBlock | Ecos-oraculo/src/app/components/tabla-nacimiento/tabla-nacimiento.component.ts:442-520 | The fallback gets an id and is blocked once the free message is used |
| BirthChart.ReadChart | Ecos-oraculo/src/app/components/tabla-nacimiento/tabla-nacimiento.component.ts:356-394 | The stored chart data when it parses, nothing otherwise |
| BirthChart.SignsOfMonth | Ecos-oraculo/src/app/components/tabla-nacimiento/tabla-nacimiento.component.ts:708-730 | A parsed date gives the month's sun sign, and moon and ascendant four and eight on; no date, no signs |
| BirthChart.SignsDiffer | Ecos-oraculo/src/app/components/tabla-nacimiento/tabla-nacimiento.component.ts:708-730 | The three signs of a chart differ |
| BirthChart.SunSignsDiffer | Ecos-oraculo/src/app/components/tabla-nacimiento/tabla-nacimiento.component.ts:708-730 | Different months give different sun signs |
| BirthChart.SessionCopyReadsBack | Ecos-oraculo/src/app/components/tabla-nacimiento/tabla-nacimiento.component.ts:627-640 | Saved chart data reads back with the form's values, whatever older values it held |
| BirthChart.SnapshotCopyRestores | Ecos-oraculo/src/app/components/tabla-nacimiento/tabla-nacimiento.component.ts:565-607 | After an approved return the chart data holds its own values where set and the form's elsewhere |
| BirthChart.CopiesAgreeAfterSave | Ecos-oraculo/src/app/components/tabla-nacimiento/tabla-nacimiento.component.ts:683-706 | After saving personal data the two copies agree |
| BirthChart.SavePersonalData | Ecos-oraculo/src/app/components/tabla-nacimiento/tabla-nacimiento.component.ts:683-706 | The form's fields are merged into the chart data, the signs recomputed when a birth date is given, the data saved, a note shown and the form hidden |
| BirthChart.Init | Ecos-oraculo/src/app/components/tabla-nacimiento/tabla-nacimiento.component.ts:157-322 | The widget's `ngOnInit`, with the chart data restored and loaded |
| BirthChart.ClearLeavesOneWelcome | Ecos-oraculo/src/app/components/tabla-nacimiento/tabla-nacimiento.component.ts:824-838 | The welcome alone, counter "0", no block, no conversation, block or chart stored, though the form keeps its values |
| BirthChart.SecondMessageHeldBack | Ecos-oraculo/src/app/components/tabla-nacimiento/tabla-nacimiento.component.ts:398-440 | Unpaid, the second message is held back uncounted with the data modal open |
| BirthChart.BlocksFromSecondReply | Ecos-oraculo/src/app/components/tabla-nacimiento/tabla-nacimiento.component.ts:442-520 | A reply blocks exactly when unpaid after two messages |
| BirthChart.HistoryIsNonBlank | Ecos-oraculo/src/app/components/tabla-nacimiento/tabla-nacimiento.component.ts:522-530 | Every non-blank message, the widget's as `astrologer`, then the new one |
| Numerology.AnswerOf | Ecos-oraculo/src/app/components/lectura-numerologia/lectura-numerologia.component.ts:441-529 | A non-empty text is the reply; an empty one or an error is shown but not saved |
| Numerology.EmptyAnswerNeverBlocks | Ecos-oraculo/src/app/components/lectura-numerologia/lectura-numerologia.component.ts:441-529 | No id, no block, counter and paid state kept, nothing loading, session untouched |
| Numerology.NumbersCalculated | Ecos-oraculo/src/app/components/lectura-numerologia/lectura-numerologia.component.ts:627-670 | The destiny number recomputed for a name, the life path for a birth date, each kept otherwise; the form hidden |
| Numerology.NumbersNoteShown | Ecos-oraculo/src/app/components/lectura-numerologia/lectura-numerologia.component.ts:627-670 | A note is added exactly when a number is set, and the stored conversation then reads as the screen's |
| Numerology.NumbersNoteFrame | Ecos-oraculo/src/app/components/lectura-numerologia/lectura-numerologia.component.ts:640-665 | The note starts with the heading and ends with the question |
| Numerology.SavePersonalData | Ecos-oraculo/src/app/components/lectura-numerologia/lectura-numerologia.component.ts:627-670 | Performs the step `NumbersCalculated` and `NumbersNoteShown` describe |
| Numerology.FourthMessageHeldBack | Ecos-oraculo/src/app/components/lectura-numerologia/lectura-numerologia.component.ts:397-439 | Unpaid, the fourth message is held back uncounted with the data modal open |
| Numerology.BlocksFromFourthReply | Ecos-oraculo/src/app/components/lectura-numerologia/lectura-numerologia.component.ts:441-529 | A reply blocks exactly when unpaid after four messages |
| Numerology.HistoryIsLastTen | Ecos-oraculo/src/app/components/lectura-numerologia/lectura-numerologia.component.ts:465-468 | At most the last ten messages, roles `user` and `numerologist` |
| Consultations.RenewalIsReset | Ecos-oraculo/src/app/components/lectura-numerologia/lectura-numerologia.component.ts:676-696 | Both branches of `newConsultation` do the same reset followed by the welcome |
| Consultations.RenewalLeavesOneWelcome | Ecos-oraculo/src/app/components/lectura-numerologia/lectura-numerologia.component.ts:676-696 | One welcome, counter "0", no block, neither conversation nor block stored, whatever the paid state |
| Consultations.NewConsultation | Ecos-oraculo/src/app/components/significado-suenos/significado-suenos.component.ts:586-606 | Performs the renewal step on the widget |
| Consultations.UnreadableLoadWelcomesOnce | Ecos-oraculo/src/app/components/significado-suenos/significado-suenos.component.ts:267-294 | A missing or broken stored conversation leaves the welcome alone and the keys cleared |
| DreamMeaning.FailedAnswerNeverBlocks | Ecos-oraculo/src/app/components/significado-suenos/significado-suenos.component.ts:404-485 | No block, counter kept, session exactly as it was |
| DreamMeaning.ClampedBounds | Ecos-oraculo/src/app/components/significado-suenos/significado-suenos.component.ts:575-584 | The height lies in [45, 120], is the content's when it fits, the nearest bound otherwise; idempotent and monotone |
| DreamMeaning.InitialHeightBelowMinimum | Ecos-oraculo/src/app/components/significado-suenos/significado-suenos.component.ts:89-91 | The initial height 25 is below the least height any adjustment gives |
| DreamMeaning.MessageBox.Adjust | Ecos-oraculo/src/app/components/significado-suenos/significado-suenos.component.ts:575-584 | The height becomes the clamped content height, within the bounds |
| DreamMeaning.KeyPress | Ecos-oraculo/src/app/components/significado-suenos/significado-suenos.component.ts:631-641 | Enter without Shift on an accepted input sends and shrinks the box to 45; anything else changes nothing |
| DreamMeaning.FourthMessageHeldBack | Ecos-oraculo/src/app/components/significado-suenos/significado-suenos.component.ts:360-402 | Unpaid, the fourth message is held back uncounted with the data modal open |
| DreamMeaning.BlocksFromFourthReply | Ecos-oraculo/src/app/components/significado-suenos/significado-suenos.component.ts:404-485 | A reply blocks exactly when unpaid after four messages |
| DreamMeaning.HistoryIsWithoutLast | Ecos-oraculo/src/app/components/significado-suenos/significado-suenos.component.ts:426 | The history is the conversation before the new message, roles `user` and `interpreter` |
| DreamMeaning.NewConsultationLeavesOneWelcome | Ecos-oraculo/src/app/components/significado-suenos/significado-suenos.component.ts:586-606 | One welcome, counter 0, no block, paid or not |
| DreamMeaning.MalformedLoadWelcomesOnce | Ecos-oraculo/src/app/components/significado-suenos/significado-suenos.component.ts:286-290 | A stored conversation that does not parse is dropped with its keys and the welcome shown alone |
| PaidFlags.SharedServiceUnlocks | Ecos-oraculo/src/app/services/mercadopago.service.ts:277-294 | A widget whose approved return sets the flag another reads opens that widget paid |
| PaidFlags.SeparateServicesApart | Ecos-oraculo/src/app/services/mercadopago.service.ts:277-294 | A widget writing neither of another's flags leaves its opening paid state as it was |
| PaidFlags.NumerologyPaymentUnlocksZodiac | Ecos-oraculo/src/app/components/lectura-numerologia/lectura-numerologia.component.ts:177 | An unpaid visitor who pays for numerology finds the zodiac information unlocked |
| PaidFlags.BirthChartPaymentUnlocksAnimal | Ecos-oraculo/src/app/components/tabla-nacimiento/tabla-nacimiento.component.ts:184 | Paying for the birth chart unlocks the inner animal, and the other way round |
| PaidFlags.OwnServiceIdsDistinct | Ecos-backend/src/controllers/mercadopago.ts:14-78 | With each widget on its own service id, the eight ids are pairwise different |
| PaidFlags.NumerologyAloneUnlocksVocational | Ecos-oraculo/src/app/components/mapa-vocacional/mapa-vocacional.component.ts:174-192 | Numerology moved to its own '4' while the vocational map keeps the '4' it uses: a payment for either unlocks the other |
| PaidFlags.CorrectedNumerologyKeepsApart | Ecos-oraculo/src/app/components/lectura-numerologia/lectura-numerologia.component.ts:83 | With its own id '4', numerology and the zodiac information leave each other's paid state alone |
| PaidFlags.CorrectedNumerologyApartFromLove | Ecos-oraculo/src/app/components/lectura-numerologia/lectura-numerologia.component.ts:83 | With its own id '4', numerology and the love calculator leave each other's paid state alone |
| PaidFlags.CorrectedNumerologyApartFromAnimal | Ecos-oraculo/src/app/components/lectura-numerologia/lectura-numerologia.component.ts:83 | With its own id '4', numerology and the inner animal leave each other's paid state alone |
| PaidFlags.CorrectedNumerologyApartFromChineseZodiac | Ecos-oraculo/src/app/components/lectura-numerologia/lectura-numerologia.component.ts:83 | With its own id '4', numerology and the Chinese zodiac leave each other's paid state alone |
| PaidFlags.CorrectedNumerologyApartFromVocational | Ecos-oraculo/src/app/components/mapa-vocacional/mapa-vocacional.component.ts:102 | With numerology on '4' and the vocational map on its own '5', the two leave each other's paid state alone |
| PaidFlags.CorrectedNumerologyApartFromDreams | Ecos-oraculo/src/app/components/significado-suenos/significado-suenos.component.ts:70 | With numerology on '4' and the dreams on their own '2', the two leave each other's paid state alone |
| PaidFlags.CorrectedNumerologyApartFromBirthChart | Ecos-oraculo/src/app/components/tabla-nacimiento/tabla-nacimiento.component.ts:112 | With numerology on '4' and the birth chart on its own '7', the two leave each other's paid state alone |
| PaidFlags.CorrectedBirthChartKeepsApart | Ecos-oraculo/src/app/components/tabla-nacimiento/tabla-nacimiento.component.ts:112 | With its own id '7', the birth chart and the inner animal leave each other's paid state alone |
| TarotDescription.Kept | Ecos-oraculo/src/app/components/tarot/description/description.component.ts:181 | The kept values are no more than given and all non-empty |
| TarotDescription.KeptAppend | Ecos-oraculo/src/app/components/tarot/description/description.component.ts:181 | The filter keeps exactly the present, non-empty values, in order |
| TarotDescription.KeptEmpty | Ecos-oraculo/src/app/components/tarot/description/description.component.ts:181 | Nothing is kept exactly when no value is usable |
| TarotDescription.FinishedEndsWithDot | Ecos-oraculo/src/app/components/tarot/description/description.component.ts:182-184 | A full stop is added only where there is none |
| TarotDescription.JoinAppend | Ecos-oraculo/src/app/components/tarot/description/description.component.ts:185 | Adding a part adds one separator and the part |
| TarotDescription.DescriptionStep | Ecos-oraculo/src/app/components/tarot/description/description.component.ts:170-186 | One card more adds nothing when it has no non-blank draw, else its trimmed description with a full stop after two spaces |
| TarotDescription.DescriptionShape | Ecos-oraculo/src/app/components/tarot/description/description.component.ts:170-186 | The description is empty exactly when no card gives a non-blank text; otherwise it ends with a full stop |
| TarotDescription.PositionRoundTrip | Ecos-oraculo/src/app/components/tarot/description/description.component.ts:512-515 | The first three indices have names that read back to them; every other index has the empty name |
| TarotDescription.BuyerEmail | Ecos-oraculo/src/app/components/tarot/description/description.component.ts:772-785 | Never empty; the stored e-mail when there is one |
| TarotDescription.NameParts | Ecos-oraculo/src/app/components/tarot/description/description.component.ts:788-791 | At least one piece, none holding a separator |
| TarotDescription.NamesOfPlainAddress | Ecos-oraculo/src/app/components/tarot/description/description.component.ts:788-791 | A plain local part is the first name, and the last name is `Ecos` |
| TarotDescription.NamesOfTwoPieceAddress | Ecos-oraculo/src/app/components/tarot/description/description.component.ts:788-791 | Two pieces give the first piece (or `Usuario`) and the second, even an empty second |
| TarotDescription.NamesHaveNoSeparators | Ecos-oraculo/src/app/components/tarot/description/description.component.ts:788-791 | Whatever the address, the first name is non-empty and neither name holds a separator |
| TarotDescription.DefaultBuyerNames | Ecos-oraculo/src/app/components/tarot/description/description.component.ts:785-791 | With no stored buyer the order goes out as `Usuario Ecos` at the default address, the service defaults |
| TarotDescription.TarotOrderOverridesDefaults | Ecos-oraculo/src/app/components/tarot/description/description.component.ts:803-813 | The order supplies every field itself, with a service name other than the default |
| TarotDescription.ApprovedReturnRestoresCards | Ecos-oraculo/src/app/components/tarot/description/description.component.ts:70-101 | Paid, the saved cards back on the page and in the card service, a fresh description, the payment data gone |
| TarotDescription.ApprovedWithoutCardsRoutesHome | Ecos-oraculo/src/app/components/tarot/description/description.component.ts:70-127 | Without saved cards on an empty page: paid, payment data cleared, sent to the welcome page |
| TarotDescription.RejectedReturnRoutesAway | Ecos-oraculo/src/app/components/tarot/description/description.component.ts:102-111 | A rejected return goes to the welcome page with the error and changes nothing else |
| TarotDescription.PendingReturnRoutesHome | Ecos-oraculo/src/app/components/tarot/description/description.component.ts:112-127 | A pending return on a fresh page has no cards and is sent home unpaid |
| TarotDescription.OrdinaryVisitShowsServiceCards | Ecos-oraculo/src/app/components/tarot/description/description.component.ts:116-127 | An ordinary visit shows the card service's cards, and goes home when there are none |
| TarotDescription.PaymentSavesCardsFirst | Ecos-oraculo/src/app/components/tarot/description/description.component.ts:794-813 | The cards and description are saved before the order and read back as they were; the order carries the buyer's address |
| TarotDescription.CheckoutRestoresCards | Ecos-oraculo/src/app/components/tarot/description/description.component.ts:63-136 | The cards on the page at payment are the cards after the approved return, now paid |
| TarotDescription.Reading.GenerateDescriptionText | Ecos-oraculo/src/app/components/tarot/description/description.component.ts:170-186 | The text becomes `Description` of the cards and draws, whose shape `DescriptionShape` gives |
| TarotDescription.Reading.Init | Ecos-oraculo/src/app/components/tarot/description/description.component.ts:63-136 | The new page state is `Initialised`, whose cases are the return lemmas above |
| TarotDescription.Reading.MakePayment | Ecos-oraculo/src/app/components/tarot/description/description.component.ts:767-827 | The new state is `PaymentMade`, so `PaymentSavesCardsFirst` holds of it |
| Text.TrimSpec | Ecos-oraculo/src/app/components/calculadora-amor/calculadora-amor.component.ts:424 | The trimmed text is a slice with no white space at either end and only white space around it |
| Text.TrimEmptyIffBlank | Ecos-oraculo/src/app/components/calculadora-amor/calculadora-amor.component.ts:424 | The trimmed text is empty exactly when the text is blank |
| Text.ParseNatToString | Ecos-oraculo/src/app/components/calculadora-amor/calculadora-amor.component.ts:353 | A counter written as decimal text reads back as the same number |
| Text.SplitOnProperties | Ecos-oraculo/src/app/components/tarot/description/description.component.ts:788-791 | No piece holds a separator, there is one piece more than separators, and the pieces hold the other characters in order |

## Left out

- Angular itself: change detection, view children, scrolling, typing
  indicators, `ngAfterViewChecked`, `ngOnDestroy`, GSAP animations, video
  speed, the fortune wheel, `formatMessage` and every purely visual method.
  None of them decides access or payment.
- Angular form validators: a form's validity is a boolean over its values
  (the Chinese zodiac's birth year, the numerology name and date).
- Fields of the chat requests beyond the message and its history: the
  love calculator's form, the numerology birth date and name, the birth
  chart's chart data, and `interpreterData` / `guideData`. They do not
  affect the paywall.
- Timers:
  - The 2 s replay of a pending message is handed back to the caller as an
    `Option`.
  - The 100 ms opening of the data modal and the 2 s save after a block are
    folded into the step.
  - The tarot loading timer is the separate method `Reading.LoadingDone`.
- Message ids, time stamps, random welcome texts and the tarot's random
  description picks are parameters:
  - a draw picks `descriptions[draw % |descriptions|]`;
  - a missing draw counts as 0.
- `Date` parsing and time zones. The birth chart takes the parsed month as a
  parameter; the love calculator's date is given as numbers.
- The numerology service's calculations (`calculateDestinyNumber`,
  `calculateLifePath`, meanings) are parameters. Its `success` flag in the
  answer is not read by the component and is not modelled.
- The birth chart's `handleError` is never reached (the request catches
  its own failure); it is not modelled.
- The vocational map's progress percentage is a floating-point number in
  the source and an exact real here, so rounding is not modelled.
- `alert()` in the tarot `makePayment` failure path changes nothing and is
  not modelled.
- The data form's fire-and-forget `recolecta.createProduct` request, which
  sends the e-mail to a separate endpoint, is not modelled.
- The card service (`card.service.ts`) is not part of this model. The
  tarot page's `serviceCards` field stands for the cards it holds.
- The tarot page's own `cleanUrlParams` deletes the same parameters as the
  service's `cleanPaymentParamsFromUrl`. It is modelled by that method.
- The tarot page compares the status with `'failure'`, but the status
  reader never yields `failure`, so that comparison is dead code. It is
  stated in `TarotDescription.RejectedReturnRoutesAway`, not as a separate
  branch.
- The back end's `receiveWebhook` only logs, and the routes file only wires
  the handlers; neither is modelled. The MercadoPago SDK is a parameter of
  `OrderController.CreateOrder`.
- OrderController.FinalAmount: the request's amount is typed as a number
  here, but the JSON body could carry a string. In JavaScript `"0"` is
  truthy and reaches the price as `"0"`, and `"abc"` gives `NaN`.
  `BuildPreference`'s non-zero price holds only because of that typing.
- Text.CountOf: the source's `parseInt(text || '0')` reads a numeral
  prefix, so `"12px"` gives 12, `" 7"` gives 7 and `"-3"` gives -3. It
  gives `NaN` only when there is no numeral prefix. The model reads only
  a plain decimal numeral and counts 0 for anything else. A `NaN` counter
  never satisfies `>=`, so in the source such a counter never intercepts a
  message and never blocks one. The model's 0 counts up and does both once
  the threshold is reached. The application itself only ever stores
  counters written with `toString`.
- Text.Capitalize (used by TarotDescription.TarotOrder for the buyer's
  names): the model's `ToUpper` maps only a–z and áéíóúüñ, so other
  letters such as ç, à or ö stay lowercase, whereas JavaScript upper-cases
  them. JavaScript also turns `ß` into `SS`, which lengthens the name; the
  model keeps the length.
- Cookies, `window.history` beyond the address, and network failures other
  than "the request failed" are not modelled.

## Findings

| source | as written | input that shows it | evidently intended | confidence | as-written member | corrected member |
|---|---|---|---|---|---|---|
| Ecos-oraculo/src/app/components/calculadora-amor/calculadora-amor.component.ts:276-285 | On a pending return the notice is pushed onto the fresh page's empty conversation before `loadLoveData` runs. Loading then sees a non-empty screen and skips the stored conversation. The same order is used by every chat widget except the zodiac information. | A page load with `?status=pending` and a stored conversation of two messages shows only the notice, with the counter at 0. | Load the stored conversation first and add the notice after it, as the zodiac-information widget does at informacion-zodiaco.component.ts lines 303-317. | not executed | PaywallReturns.PendingReturnForgetsConversation | PaywallReturns.PendingReturnKeepsConversation |
| Ecos-oraculo/src/app/components/lectura-numerologia/lectura-numerologia.component.ts:177 | Numerology writes and reads the paid flag of service '3'. That is the zodiac information's service; numerology's own is '4' (line 83). | An unpaid visitor who pays for numerology opens the zodiac information already paid. | Numerology uses service '4' for its flag. The vocational map reads and writes '4' too (mapa-vocacional.component.ts lines 174 and 192) while its own is '5' (line 102), so it moves to '5' as well; the dreams move from '1' to their own '2' alike. Numerology is then apart from each of the seven other widgets. | not executed | PaidFlags.NumerologyPaymentUnlocksZodiac | PaidFlags.CorrectedNumerologyKeepsApart |
| Ecos-oraculo/src/app/components/tabla-nacimiento/tabla-nacimiento.component.ts:184 | The birth chart writes and reads the paid flag of service '6'. That is the inner animal's service; the birth chart's own is '7' (line 112). | A payment for the birth chart unlocks the inner animal, and one for the inner animal unlocks the birth chart. | The birth chart uses service '7' for its flag. | not executed | PaidFlags.BirthChartPaymentUnlocksAnimal | PaidFlags.CorrectedBirthChartKeepsApart |
| Ecos-backend/src/controllers/mercadopago.ts:96-103 | `SERVICES_CONFIG[serviceId]` also finds the names an object inherits, so `!serviceConfig` lets them through. | `serviceId: "toString"` is not refused with 400, and its return address is built on page `undefined`. | Refuse every id that is not one of the table's own keys. | not executed | OrderController.InheritedNamePassesLookup | OrderController.LookupAgreesOnTableIds |
