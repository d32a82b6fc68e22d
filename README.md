# Carva request lifecycle in Dafny

Carva is a car-rescue app. A car owner asks for a tow or a repair. A workshop negotiates
a bill with the owner. A flatbed driver takes the tow, and both sides confirm pickup and
arrival. The owner then pays the trip out of an in-app wallet, and the finished request
moves to the order history. All of it lives in `App.tsx`, as handlers that read a list of
records from the browser store, rewrite the matching record, and write the list back.

This project models that lifecycle and proves its rules:

- `types.dfy` declares the records: requests, users, workshops, chat messages and bill lines.
  It also gives JavaScript's `||` defaults for optional fields.
- `text.dfy` models `trim` with the ECMAScript whitespace set and decimal rendering of numbers.
  It also models the `m:ss` countdown display, with a parser proved to invert it.
- `billing.dfy` holds the bill total (the `reduce` fold, proved equal to the sum of price times
  quantity plus labor). It also holds the four edit handlers of the bill screen and their shared lock.
- `seqs.dfy` defines `filter` and JavaScript's stable `sort`, with a comparator of the form
  `key(a) - key(b)`, over sequences.
- `requests.dfy` holds what each handler's `map` callback does to one record.
  - `updateRequestStatus`.
  - Driver accept.
  - The two-phase confirmation, with the trip price.
  - Bill update, finish and agreement.
  - Payment marking.
  - Chat append and its guard.
  - Creation and re-entry of a request.
- `wallet.dfy` models the payment's wallet transfer: debit the payer, then credit the first
  flatbed account with the driver's name.
- `listings.dfy` models the driver's queue and the workshop's inbox.
- `countdown.dfy` models the workshop's five-minute reply window.
- `lifecycle.dfy` holds the store-level rewrites, such as creation or re-entry and the timeout
  filter. It also proves the invariant every handler keeps: one active request per owner, and
  every stored bill total consistent with its lines.
- `store.dfy` is the store itself, `CarvaStore.Store`. It is a class whose fields are the active
  requests, the history, the users, this driver's rejected ids and the workshop countdown. It has
  one method per handler. Each method states its whole new state in terms of the functions above
  and keeps `Valid()`.

Some reads come from the copies on screen rather than the stored records: the guards (the
request shown and the signed-in user), the payer's balance, the trip cost, the owner's
can-drive choice and the agreement message's name, destination and total. The methods take
those copies as parameters. The record rewrites themselves, such as the arrival confirmation's
flags and status, read the stored record.
Clock readings (`Date.now()`, the formatted time of day) are parameters too. Distance is an
abstract function giving hundredths of a kilometre, because the source rounds it to two decimals.

The model follows the code where it departs from what one might expect:

- The `picked_up → arrived_at_dest` step does not reset the two confirmation flags. Both stay
  set (`Requests.ArrivalHandshake`). Only the pickup step clears them.
- `handleUserAgree` picks `completed` or `pending` from the screen's can-drive choice, not from
  the stored record's `canDrive`.
- `handlePayment` does not move the request to history. It marks the request paid and completed.
  The driver's payment poll does the archiving (`CarvaStore.Store.ArchivePaid`).
- No handler checks that the request is in a non-terminal status. Cancel, accept, status change
  and agreement act on any record with the id. Only the chat and the bill screen refuse
  completed or cancelled requests.
- A request with a trip cost of 0 cannot be paid: the handler returns early when the cost is falsy.

## Model

| member | source | states |
|---|---|---|
| Types.StringOr | App.tsx:1221 | definition of `s \|\| d` on an optional string; see Requests.AcceptTouchesOnlyAssignment |
| Types.RealOr | App.tsx:715-716 | definition of `x \|\| d` on an optional number; see Requests.NewRequestIsClean and Lifecycle.SubmitSpec |
| Text.TrimStart | App.tsx:1179 | the result is a suffix of the input, starts with a non-whitespace character, and what was dropped is all whitespace |
| Text.TrimEnd | App.tsx:1179 | the result is a prefix of the input, ends with a non-whitespace character, and what was dropped is all whitespace |
| Text.Trim | App.tsx:1179 | definition of `trim`; see Text.TrimEmptyIffBlank |
| Text.TrimEmptyIffBlank | App.tsx:1179 | `!text.trim()` holds exactly when the text is made only of whitespace |
| Text.NatToString | App.tsx:579 | a number prints as digits only, with no leading zero, and the digits denote the number |
| Text.IntToString | App.tsx:1469 | the bill total in the agreement message prints as decimal digits denoting it with no leading zero (as a template string renders it), or, when negative, a minus sign followed by such digits for its magnitude |
| Text.FormatTime | App.tsx:576-580 | definition of `formatTime`; see Text.ParseFormatTime and Text.FiveMinuteDisplay |
| Text.ParseFormatTime | App.tsx:576-580 | the `m:ss` countdown display of any number of seconds reads back to that number: the display loses nothing |
| Text.ParseTimeOf | App.tsx:576-580 | a display of minute digits, a colon and two second digits below 60 reads as minutes times 60 plus seconds |
| Text.FiveMinuteDisplay | App.tsx:576-580 | the 300-second window first displays as "5:00" |
| Billing.ReduceIsSigma | App.tsx:181 | the left fold over the bill lines equals its start value plus the sum of price times quantity |
| Billing.Reduce | App.tsx:181 | definition of the `reduce` fold over the lines; see Billing.ReduceIsSigma |
| Billing.BillTotal | App.tsx:181 | definition of the bill screen's total; see Billing.BillTotalIsSum |
| Billing.BillTotalIsSum | App.tsx:181 | the bill screen's total is the sum of price times quantity over the lines, plus labor |
| Billing.WithoutItem | App.tsx:194 | the delete filter keeps exactly the lines whose id differs, and is no longer than the input |
| Billing.WithoutItemIsFilter | App.tsx:194 | the delete is the `filter` on a different id, so (by Seqs.FilterAppend and Seqs.FilterOne) it keeps the other lines in order, repetitions included |
| Billing.SigmaWithoutItem | App.tsx:192-196 | deleting lines lowers the sum by exactly the deleted lines' totals |
| Billing.EditLocked | App.tsx:182-187 | definition of the early-return condition the four edit handlers share; see Billing.LockedBillIgnoresEdits and Billing.OpenBillAcceptsEdits |
| Billing.AddItem | App.tsx:186-190 | definition of the add handler; see Billing.AddItemKeepsTotal |
| Billing.DeleteItem | App.tsx:192-196 | definition of the delete handler; see Billing.DeleteItemLowersTotal |
| Billing.UpdateItem | App.tsx:198-207 | definition of the line-edit handler; see Billing.UpdateItemTouchesOnlyThatLine |
| Billing.ApplyEdit | App.tsx:202 | definition of the one-field rewrite of a line; see Billing.UpdateItemTouchesOnlyThatLine |
| Billing.ChangeLabor | App.tsx:209-212 | definition of the labor handler; see Billing.LockedBillIgnoresEdits and Billing.OpenBillAcceptsEdits |
| Billing.LockedBillIgnoresEdits | App.tsx:182-212 | with no request shown, a finalized bill, an agreed status (pending, accepted, picked_up, arrived_at_dest, completed) or a read-only status (completed, cancelled), adding, deleting, editing a line and changing labor all do nothing |
| Billing.OpenBillAcceptsEdits | App.tsx:186-212 | when none of those holds, all four edits go through |
| Billing.AddItemKeepsTotal | App.tsx:186-190 | adding appends one empty line (price 0, quantity 1), keeps labor, and leaves the total as displayed |
| Billing.DeleteItemLowersTotal | App.tsx:192-196 | deleting keeps exactly the other lines and labor, and lowers the total by the deleted lines' sum |
| Billing.UpdateItemTouchesOnlyThatLine | App.tsx:198-207 | an edit rewrites only the lines with that id and only the edited field; ids, labor and the other lines stay |
| Seqs.Filter | App.tsx:851 | the filter is no longer than its input and everything in it passes the test |
| Seqs.FilterMembers | App.tsx:851 | an element is in the filter exactly when it is in the input and passes the test |
| Seqs.FilterAppend | App.tsx:851 | the filter of a concatenation is the concatenation of the filters |
| Seqs.FilterOne | App.tsx:851 | a single element is kept exactly when it passes; with Seqs.FilterAppend this fixes the output of `filter` completely, order and repetitions included |
| Seqs.SortBySortsAndPermutes | App.tsx:858 | the sort by key returns a permutation of its input, ordered by the key |
| Seqs.InsertAfterSmaller | App.tsx:858 | the stable sort's insertion step puts an element right after every element with a smaller key |
| Requests.MapWhere | App.tsx:1214-1228 | the `map` rewrite keeps the length, applies the callback to exactly the records with the id and leaves the others as they were |
| Requests.FindById | App.tsx:877 | `find` by id returns the first stored record with that id, or reports that there is none |
| Requests.IndexOfUser | App.tsx:704 | `findIndex` by owner returns the first record of that owner, or reports that there is none |
| Requests.RemoveId | App.tsx:1253 | the cancel filter leaves no record with the id and keeps every other record; Lifecycle.RemoveIdIsFilter shows it is the `filter` itself, in order |
| Requests.StatusUpdateEffect | App.tsx:1253 | cancelling removes exactly the records with the id; any other status is written into exactly the matching records, with the length unchanged |
| Requests.StatusUpdated | App.tsx:1253 | definition of `updateRequestStatus`'s rewrite; see Requests.StatusUpdateEffect and Lifecycle.StatusUpdateKeepsWellFormed |
| Requests.AcceptedBy | App.tsx:1214-1225 | definition of the accept callback; see Requests.AcceptTouchesOnlyAssignment |
| Requests.AcceptTouchesOnlyAssignment | App.tsx:1214-1225 | accepting sets status accepted, the driver's name, the plate or "Unknown", the driver's position and a cleared driver flag, and changes nothing else |
| Requests.TripCost | App.tsx:1372-1373 | the fare is the ceiling of 15 per km: the least whole amount not below 15 times the distance |
| Requests.Confirmed | App.tsx:1355-1378 | definition of the confirmation callback; see Requests.FirstConfirmationSetsOnlyOwnFlag, PickupHandshake, ArrivalHandshake, ConfirmationOutsideTripLegs and TripHandshakes |
| Requests.FirstConfirmationSetsOnlyOwnFlag | App.tsx:1355-1358 | when the other party has not confirmed, a confirmation sets only the actor's flag (driver flag for the flatbed role, owner flag otherwise) and keeps the status |
| Requests.PickupHandshake | App.tsx:1361-1367 | the second pickup confirmation moves accepted to picked_up and clears both flags, and nothing else |
| Requests.ArrivalHandshake | App.tsx:1368-1376 | the second arrival confirmation moves picked_up to arrived_at_dest, sets the trip cost from the owner-to-destination distance, marks the trip unpaid and leaves both flags set |
| Requests.ConfirmationOutsideTripLegs | App.tsx:1360-1378 | in any status other than accepted and picked_up a confirmation only sets the actor's flag |
| Requests.ConfirmedKeepsOwnerAndBill | App.tsx:1346-1378 | a confirmation changes neither the owner nor the bill lines, labor or total |
| Requests.TripHandshakes | App.tsx:1346-1378 | from a fresh acceptance, four confirmations (either party first, chosen separately for pickup and for arrival) reach arrived_at_dest, priced, unpaid, with both flags set; the middle state is picked_up with both flags cleared |
| Requests.UpdatedBillIsConsistent | App.tsx:1461 | the stored total after a bill update is the sum of price times quantity plus labor, and the bill screen shows that same figure for the stored record |
| Requests.WithBill | App.tsx:1461 | definition of the bill-update callback; see Requests.UpdatedBillIsConsistent |
| Requests.Finalized | App.tsx:1462 | definition of the finish callback; see Requests.FinishLocksBill |
| Requests.FinishLocksBill | App.tsx:1462 | finishing sets only the finalized flag, keeps a consistent bill consistent, and the finalized record is edit-locked |
| Requests.FinalizedIsPermanent | App.tsx:1209-1504 | no handler's record rewrite (status update, accept, confirmation, bill update, finish, agreement, payment mark, chat append, re-entry) clears the finalized flag, so every later copy of the record stays edit-locked |
| Requests.AgreementEffect | App.tsx:1463-1485 | agreeing appends exactly one message to the negotiation chat, the system's "<owner> agreed with <destination> on <total>" built from the on-screen request, sets completed when the screen's can-drive choice is on and pending otherwise, and changes nothing else |
| Requests.AgreementMessage | App.tsx:1466-1471 | definition of the system message "<owner> agreed with <destination> on <total>"; see Requests.WorkshopBillScenario |
| Requests.Agreed | App.tsx:1476-1485 | definition of the agreement callback; see Requests.AgreementEffect and Requests.AgreementLocksBill |
| Requests.AgreementLocksBill | App.tsx:183-184 | after agreement the bill is locked whichever status was chosen, and its total is unchanged |
| Requests.WorkshopBillScenario | App.tsx:1461-1485 | one oil filter at 50 plus labor 100 stores a total of 150; after finish the bill is locked; agreement without self-driving gives pending and appends "<owner> agreed with <workshop> on 150" |
| Requests.MessageGoesToOneList | App.tsx:1190-1193 | sending appends exactly the message to exactly one list, negotiation or trip chat; the other list and every other field stay |
| Requests.WithMessage | App.tsx:1190-1193 | definition of the chat-append callback; see Requests.MessageGoesToOneList |
| Requests.SenderFor | App.tsx:1185 | definition of the sender tag by role; see CarvaStore.Store.SendMessage |
| Requests.MessageAccepted | App.tsx:1179-1183 | definition of the send guard; see Requests.MessageRefusals |
| Requests.MessageRefusals | App.tsx:1179-1183 | a blank message with no image is refused, a message on a completed or cancelled request is refused, and a non-blank one on an open request is accepted |
| Requests.InitialStatus | App.tsx:724 | definition of the initial status; see Requests.NewRequestIsClean |
| Requests.Destination | App.tsx:710-722 | definition of the destination coordinates and label; see Requests.NewRequestIsClean |
| Requests.NewRequest | App.tsx:727-748 | definition of the new record; see Requests.NewRequestIsClean |
| Requests.YearOr | App.tsx:733-760 | definition of `selectedYear \|\| d`; see Requests.NewRequestIsClean and Requests.RefreshKeepsIdentityAndBill |
| Requests.Refreshed | App.tsx:750-763 | definition of the re-entry rewrite; see Requests.RefreshKeepsIdentityAndBill |
| Requests.NewRequestIsClean | App.tsx:727-748 | a new request has the clock's id and the owner's username, the chosen year or 2024, the right initial status, no driver, no flags, empty chats, an empty and consistent zero bill, no trip cost and is unpaid |
| Requests.RefreshKeepsIdentityAndBill | App.tsx:750-763 | re-entering keeps id, owner, timestamp, chats, bill and driver, takes the chosen year or keeps the old one, and changes the status only from negotiation to pending on the flatbed-search screen |
| Requests.MarkedPaid | App.tsx:1448-1451 | definition of the payment mark; see Lifecycle.PaidRequestIsArchivable |
| Wallet.FirstDriver | App.tsx:1429 | the credit goes to the first account with the driver's name and the flatbed role, if any |
| Wallet.Debited | App.tsx:1420-1424 | the `map` keeps the length, puts the payer's on-screen copy less the cost at exactly the entries with the payer's username, and leaves every other entry as it was |
| Wallet.PaidUsers | App.tsx:1417-1434 | definition of the whole user list after a payment; see Wallet.PaymentBalances and Wallet.Transfer |
| Wallet.Transfer | App.tsx:1420-1434 | the in-place form of Wallet.PaidUsers, as the handler performs it (the debit map, then the credit assigned at the found driver's index), is proved to yield exactly Wallet.PaidUsers |
| Wallet.PayerAfter | App.tsx:1416-1417 | definition of the payer's updated copy; see Wallet.PaymentBalances |
| Wallet.CreditIndex | App.tsx:1427-1429 | definition of where the credit goes; see Wallet.PaymentBalances |
| Wallet.DebitedIsPointUpdate | App.tsx:1424 | when the payer is stored once, the debit map rewrites only that entry and keeps every name and role |
| Wallet.PaymentBalances | App.tsx:1417-1434 | after a payment every account with the payer's username holds the on-screen copy's balance less the cost (so a stale copy overwrites the stored balance), the credited driver gains the cost on top of that, and every other account is exactly as it was |
| Wallet.PaymentConservesTotal | App.tsx:1417-1434 | when the payer's copy is the stored one and a flatbed account with the driver's name exists, the sum of all balances is unchanged |
| Wallet.PaymentWithoutDriverLosesCost | App.tsx:1427-1436 | without such an account (or without a driver name) the payer is still charged, and the sum of balances drops by the cost |
| Wallet.PaymentKeepsBalancesNonNegative | App.tsx:1410-1434 | a payment the payer can afford never drives a balance below zero |
| Listings.Annotate | App.tsx:853-857 | each queued request carries the driver's distance to the customer and to the destination |
| Listings.DriverQueue | App.tsx:851-858 | definition of the driver's queue; see Listings.DriverQueueSpec |
| Listings.DriverQueueSpec | App.tsx:851-858 | the driver's queue is sorted by distance to the customer, is a permutation of the pending, cannot-drive, not-rejected requests with their distances, and misses none of them |
| Listings.QueuedAreOpen | App.tsx:851-857 | every listing in the queue is a pending, cannot-drive, not-rejected request of the store, with its true distances |
| Listings.OpenAreQueued | App.tsx:851-858 | every pending, cannot-drive, not-rejected request of the store is listed |
| Listings.RejectedLeavesQueue | App.tsx:1239-1244 | once rejected, a request never appears in that driver's queue |
| Listings.FindMyWorkshop | App.tsx:1514 | the workshop account's entry is the first one matching its name (Arabic or English) or its non-zero coordinates, and with none matching there is none |
| Listings.ForWorkshop | App.tsx:1515 | definition of the inbox filter's test; see Listings.WorkshopInboxSpec |
| Listings.InboxSortIsPartition | App.tsx:1516 | sorting with the comparator that ranks waiting_workshop first is the stable partition: the waiting requests in store order, then the others in store order |
| Listings.InboxKey | App.tsx:1516 | definition of the comparator as a key; see Listings.InboxSortIsPartition |
| Listings.WorkshopInbox | App.tsx:1515-1516 | definition of the workshop's inbox; see Listings.WorkshopInboxSpec |
| Listings.WorkshopInboxSpec | App.tsx:1515-1516 | the inbox is the requests addressed to the workshop (by name or within 0.0001 degrees), those awaiting its answer first, each group in store order; a request is listed exactly when it is addressed to it |
| Countdown.Tick | App.tsx:820-835 | definition of one tick; see Countdown.RunBeforeExpiry and Countdown.RunExpires |
| Countdown.Run | App.tsx:817-836 | definition of the clock after k ticks; see Countdown.RunBeforeExpiry and Countdown.RunExpires |
| Countdown.RunBeforeExpiry | App.tsx:817-836 | before the start-th tick the window is open and shows start minus the ticks so far |
| Countdown.RunExpires | App.tsx:817-835 | the window closes on exactly the start-th tick and stays closed at zero |
| Countdown.FiveMinuteWindow | App.tsx:817-835 | from 300 seconds the window is still open after 299 ticks and closed at the 300th |
| Lifecycle.MapWhereKeepsWellFormed | App.tsx:1214-1228 | a per-record rewrite that keeps the owner and keeps a consistent bill consistent keeps one request per owner and all bills consistent |
| Lifecycle.FilterKeepsWellFormed | App.tsx:1253 | dropping records keeps one request per owner and all bills consistent |
| Lifecycle.RemoveIdIsFilter | App.tsx:1253 | the cancel rewrite is the filter on a different id |
| Lifecycle.StatusUpdateKeepsWellFormed | App.tsx:1253 | a status update or cancellation keeps one request per owner and all bills consistent |
| Lifecycle.Submitted | App.tsx:697-767 | definition of the creation effect on the store; see Lifecycle.SubmitSpec |
| Lifecycle.WithoutOwner | App.tsx:827 | definition of the timeout filter; see Lifecycle.TimeoutRemovesOwner |
| Lifecycle.ConfirmationKeepsWellFormed | App.tsx:1346-1403 | an arrival confirmation keeps one request per owner and all bills consistent |
| Lifecycle.PaymentKeepsWellFormed | App.tsx:1443-1453 | marking a request paid keeps one request per owner and all bills consistent |
| Lifecycle.SubmitSpec | App.tsx:697-763 | creation or re-entry keeps one request per owner, leaves other owners' requests in place, and leaves the owner with a request (the new one, at the end, when there was none); for a request past negotiation nothing is written |
| Lifecycle.TimeoutRemovesOwner | App.tsx:827 | on timeout exactly the signed-in owner's requests are removed (none when nobody is signed in), and the store stays well formed |
| Lifecycle.PaidRequestIsArchivable | App.tsx:877-894 | after payment the request is found paid and completed, and archiving leaves no active record with its id |
| Lifecycle.FoundIsRewritten | App.tsx:877 | with a rewrite that keeps ids, looking the id up afterwards finds the rewritten copy of what was found before, and nothing when there was nothing |
| CarvaStore.Store.constructor | App.tsx:428-453 | a fresh store holds the registered accounts, no requests, no history and no rejected ids; the countdown holds 300 seconds (its `useState(300)` at App.tsx line 519) and is not running |
| CarvaStore.Store.Submit | App.tsx:697-767 | on the flatbed-search or waiting-for-workshop screen, with a signed-in owner and a chosen car, the active list becomes the creation/re-entry result and is marked written when it changed; otherwise nothing changes |
| CarvaStore.Store.UpdateStatus | App.tsx:1253 | reports whether the store existed, and if so rewrites the active list by the status update |
| CarvaStore.Store.AcceptRequest | App.tsx:1209-1237 | with the store present and a signed-in driver, the matching records become accepted by that driver; nothing else changes |
| CarvaStore.Store.RejectRequest | App.tsx:1239-1244 | the id is appended to the rejected list; nothing else changes |
| CarvaStore.Store.SendMessage | App.tsx:1178-1207 | the message is stored exactly when it passes the guard and the store exists: the sender follows the role, and the message is appended to one list of the matching records |
| CarvaStore.Store.ConfirmArrival | App.tsx:1346-1403 | with the store present and a request on screen, the matching records take the confirmation of the signed-in party |
| CarvaStore.Store.Pay | App.tsx:1405-1459 | refused exactly without a request, with a missing or zero cost, without a payer, or when the balance is below the cost; otherwise the users become the debited-and-credited list, and with the store present the request is marked paid and completed; balances that were non-negative stay so |
| CarvaStore.Store.UpdateBill | App.tsx:1461 | with the store present and a request on screen, the matching records take the new lines and labor with the total recomputed; the store stays well formed |
| CarvaStore.Store.FinishBill | App.tsx:1462 | with the store present and a request on screen, the matching records are finalized |
| CarvaStore.Store.UserAgree | App.tsx:1463-1504 | a no-op unless the shown bill is finalized and the store exists; otherwise the matching records take the agreement with the system message |
| CarvaStore.Store.ArchivePaid | App.tsx:877-895 | a request found paid moves to the end of the history and out of the active list; otherwise nothing changes |
| CarvaStore.Store.StartWorkshopTimer | App.tsx:816-817 | the countdown restarts at 300 seconds |
| CarvaStore.Store.StopWorkshopTimer | App.tsx:839 | leaving the screen stops the countdown |
| CarvaStore.Store.WorkshopTimerTick | App.tsx:818-836 | a running countdown ticks; on expiry it stops and, with the store present, the signed-in owner's requests are removed |

## Left out

- Distance: the haversine formula, `deg2rad` and the rounding to two decimals are not modelled.
  The distance is an abstract function, so no fare is computed for literal coordinates.
- Requests.TripCost: computes the ceiling exactly on hundredths of a kilometre, not with
  floating point, so float rounding in `dist * 15` is not modelled.
- Persistence: `localStorage`, JSON parsing and its failures, and the cross-tab change event
  are not modelled. The store is plain fields. A missing active-requests key is the
  `activeSaved` flag. Failed parses and `null` entries in the list are not represented.
- Timers: the polling loops and the timing of `setInterval` are not modelled. Each poll step
  of interest is a method: the payment poll's archive is `ArchivePaid`, and the timeout tick
  is `WorkshopTimerTick`.
- The on-screen copies: the `setMatchedRequest` / `setCurrentUser` updates, popups,
  notifications, navigation, JSX and the translation function `t` are not modelled.
  The payment poll's refresh of the driver's on-screen balance is also left out.
- Signup, login, OTP and the demo accounts are not modelled.
- The presentational components (`components/*.tsx`) are not part of this model.
- Map, geolocation, photo upload and `FileReader` become plain parameters (positions, an
  optional image string).
- `Number(value)` conversion of edited prices, quantities and labor is not modelled: they
  arrive as integers. Balances, prices and totals are integers, not IEEE doubles (no NaN,
  no fractions).
- Text.FormatTime: takes a natural number. The countdown never goes below zero, so negative
  seconds are not modelled.
- Ids and timestamps come from the caller. Their clashes (two records created in the same
  millisecond) are not modelled. `Requests.NewRequest` takes one `now` for both the id and the
  timestamp, while the source reads `Date.now()` twice, so the two can differ there.
- Listings.ForWorkshop / Requests.Destination: coordinates are exact reals, not IEEE doubles.
  The fallback `24.7136 + id * 0.01` and the 0.0001-degree test are computed exactly, so at the
  boundary a request the source lists (its rounded difference falls just below 0.0001) can be
  left out of the model's inbox.
