# Clinic staff front end: queue session, dashboards and decision rules

This project models the behavioural core of the staff front end of a clinic:

- **The examination-flow queue session.** A singleton STOMP client connects with a staff id, tracks its subscriptions in a map under fixed keys, reconnects at most five times and publishes take-next, in-process and queue-size commands.
  - Module `QueueSession` is its pure state machine. It is driven by the service's public calls and by the library's callbacks, which are abstract events here.
  - Module `QueueService` is the same service as a class whose fields the methods update in place. Each method is proved to perform the corresponding transition.
  - Module `StompDestinations` holds the destinations, the map keys and the JSON body of the take-next command.
- **The two queue consumers.** `DoctorDashboard` models the doctor's dashboard and `BillingDashboard` the receptionist's billing dashboard.
  - Each is a view model holding a reference to the shared service.
  - Its gates decide when "take next" is published and when the held queue item is replaced or cleared.
- **The token-refresh coordinator** of the shared HTTP client (`TokenRefresh`). One refresh runs at a time, and other 401 responses wait in a queue that is settled all at once.
- **Small decision rules:**
  - `PaymentPolling`: when payment queries run and stop polling;
  - `PaymentResult`: the payment-return page;
  - `BulkImport`: the manager's CSV export and bounded import polling;
  - `Pagination`: the page controls;
  - `PackageForm`: the service toggle of the package form;
  - `RouteGuard`: the role-protected routes;
  - `Login`: the sign-in page.

Shared pieces are `Wrappers` (an `Option` type and JavaScript truthiness of optional strings) and `QueueItems` (the shape of a queue item).

The library events are `LibraryConnected`, `LibraryStompError`, `LibraryWebSocketError`, `LibraryDisconnected` and the firing of a scheduled reconnect timer. Besides the tracked `subscriptions` map, the session keeps a `live` set: the subscriptions made on the broker and not yet unsubscribed. With it, the model can say which handlers an inbound message reaches.

## Model

| member | source | states |
|---|---|---|
| QueueSession.ConnectIdempotent | src/services/examinationFlowService.ts:70-74 | Connecting while connected (flag set and client active) creates no client and only invokes `onConnected`, each time. |
| QueueSession.ConnectReplacesClient | src/services/examinationFlowService.ts:65-114 | Otherwise `connect` installs a new active client with a fresh id and the given token. It leaves the map, the counter and `connected` as they were. |
| QueueSession.OnlyOnConnectResetsAttempts | src/services/examinationFlowService.ts:90-110 | The reconnect counter decreases only on a successful STOMP connection, and no other event decreases it. |
| QueueSession.ReconnectAttemptsBounded | src/services/examinationFlowService.ts:56 | In every run of events from a fresh service, `reconnectAttempts` never exceeds 5. |
| QueueSession.ReconnectBudget | src/services/examinationFlowService.ts:116-133 | Without a successful connection, the reconnects a run schedules are exactly the counter's increase, and never more than 5 minus the starting counter. |
| QueueSession.ConsecutiveDisconnects | src/services/examinationFlowService.ts:106-133 | `n` disconnects schedule `min(n, remaining budget)` reconnects with the same token. Each further one reports "max attempts reached" once. Client and map are unchanged. |
| QueueSession.StepPreservesValid | src/services/examinationFlowService.ts:65-326 | Every event keeps the invariant: counter at most 5, every tracked subscription live, and ids below the next fresh id. |
| QueueSession.RunPreservesValid | src/services/examinationFlowService.ts:65-326 | Every sequence of events keeps that invariant. |
| QueueSession.InactiveClientIgnoresCalls | src/services/examinationFlowService.ts:164-167 | While the client is not active, any sequence of subscribe and publish calls leaves the whole state unchanged. |
| QueueSession.SubscribeTracksFreshHandle | src/services/examinationFlowService.ts:169-182 | On an active client a subscribe stores a fresh, newly live handle under its key and keeps every other entry. |
| QueueSession.DisconnectInactiveIsNoop | src/services/examinationFlowService.ts:138-150 | `disconnect` on an inactive or absent client changes nothing. |
| QueueSession.DisconnectTearsDown | src/services/examinationFlowService.ts:138-150 | On an active client the map is emptied, the client deactivated and the session not connected. Every tracked handle leaves the broker and every untracked live one stays. |
| QueueSession.ResubscribeLeavesStaleSubscription | src/services/examinationFlowService.ts:251-264 | Subscribing twice to one broadcast drops the first handle from the map. It stays live, even after `disconnect`. |
| QueueSession.MalformedBodyReachesOnlyErrorHandlers | src/services/examinationFlowService.ts:171-178 | A body that fails `JSON.parse` reaches only error-queue handlers, as raw text. Every such live handler on the destination receives it. |
| QueueSession.BroadcastIsolation | src/services/examinationFlowService.ts:251-262 | A broadcast for one queue never reaches the broadcast handler of another queue. |
| QueueSession.NoDeliveryToTrackedAfterDisconnect | src/services/examinationFlowService.ts:138-150 | After `disconnect` on an active client, no message reaches a handler that was tracked. |
| QueueSession.EndToEndTakeNext | src/services/examinationFlowService.ts:279-291 | Connect, acknowledge, subscribe to items and take next. Exactly the take-next frame is published, and an item message reaches the item callback once. |
| QueueSession.Repeat | src/services/examinationFlowService.ts:121-128 | `n` copies of a value (the tokens of scheduled reconnects). |
| StompDestinations.StripAffixesOf | src/services/examinationFlowService.ts:252 | Stripping a prefix and a suffix recovers what was put between them. |
| StompDestinations.BroadcastRoundTrip | src/services/examinationFlowService.ts:252 | The queue id reads back from `/topic/exam-workflow/queue/{queueId}/list`. |
| StompDestinations.BroadcastInjective | src/services/examinationFlowService.ts:252 | Two queues share a broadcast topic if and only if they are the same queue. |
| StompDestinations.FixedDestinationsAreNotBroadcasts | src/services/examinationFlowService.ts:170-321 | No private or command destination is any queue's broadcast topic. |
| StompDestinations.BroadcastKeysDistinct | src/services/examinationFlowService.ts:182-264 | Broadcast map keys are distinct per queue and never equal "queueItems", "queueSize" or "errors". |
| StompDestinations.EscapeChar | src/services/examinationFlowService.ts:287 | A character escapes to 1 to 6 characters, and to itself exactly when it needs no escape. |
| StompDestinations.Hex4 | src/services/examinationFlowService.ts:287 | Four hex digits denote a number below 65536. |
| StompDestinations.ShortEscapeRoundTrip | src/services/examinationFlowService.ts:287 | Each short escape (`\"`, `\\`, `\b` …) reads back as its character. |
| StompDestinations.UnicodeEscapeRoundTrip | src/services/examinationFlowService.ts:287 | A `\u00xx` escape of a control character reads back as that character. |
| StompDestinations.UnescapeEscapeChar | src/services/examinationFlowService.ts:287 | Reading an escaped character back yields it and continues with the rest. |
| StompDestinations.UnescapeEscape | src/services/examinationFlowService.ts:287 | Escaping as `JSON.stringify` does loses nothing: unescaping gives the original string. |
| StompDestinations.TakeNextBodyRoundTrip | src/services/examinationFlowService.ts:285-288 | The take-next body `{"queueId":"…"}` carries exactly the queue id it was built from. |
| QueueService.ExaminationFlowService.constructor | src/services/examinationFlowService.ts:50-57 | A new service is the initial session: not connected, no client, empty map, counter 0. |
| QueueService.ExaminationFlowService.Connect | src/services/examinationFlowService.ts:65-114 | Updates the fields exactly as the `connect` transition and keeps the invariant. |
| QueueService.ExaminationFlowService.OnConnect | src/services/examinationFlowService.ts:90-95 | Sets `connected`, resets the counter and invokes `onConnected`. |
| QueueService.ExaminationFlowService.OnStompError | src/services/examinationFlowService.ts:96-100 | Clears `connected` and forwards the error to `onError`. |
| QueueService.ExaminationFlowService.OnWebSocketError | src/services/examinationFlowService.ts:101-105 | Clears `connected` and forwards the error to `onError`. |
| QueueService.ExaminationFlowService.OnDisconnect | src/services/examinationFlowService.ts:106-110 | Clears `connected` and runs `handleReconnect` with the creating call's token. |
| QueueService.ExaminationFlowService.HandleReconnect | src/services/examinationFlowService.ts:116-133 | Below 5 attempts it increments the counter and schedules a reconnect; otherwise it reports once. The counter stays at most 5. |
| QueueService.ExaminationFlowService.ReconnectTimerFired | src/services/examinationFlowService.ts:125-127 | The oldest scheduled reconnect calls `connect` with its token. |
| QueueService.ExaminationFlowService.Disconnect | src/services/examinationFlowService.ts:138-150 | Its loop unsubscribes every tracked handle and then clears the map, as the `disconnect` transition states. |
| QueueService.ExaminationFlowService.IsConnected | src/services/examinationFlowService.ts:155-157 | True exactly when `connected` is set and the client is active. |
| QueueService.ExaminationFlowService.Subscribe | src/services/examinationFlowService.ts:163-183 | The gated subscribe common to the `subscribeTo*` methods. |
| QueueService.ExaminationFlowService.SubscribeToQueueItems | src/services/examinationFlowService.ts:163-183 | Subscribes to the item-details queue under "queueItems" when active. |
| QueueService.ExaminationFlowService.SubscribeToQueueSize | src/services/examinationFlowService.ts:189-209 | Subscribes to the size-reply queue under "queueSize" when active. |
| QueueService.ExaminationFlowService.SubscribeToErrors | src/services/examinationFlowService.ts:215-235 | Subscribes to the error queue under "errors" when active. |
| QueueService.ExaminationFlowService.SubscribeToQueueBroadcast | src/services/examinationFlowService.ts:242-265 | Subscribes to the queue's broadcast topic under "queueBroadcast-" + id when active. |
| QueueService.ExaminationFlowService.SubscribeToReceptionQueue | src/services/examinationFlowService.ts:271-273 | The broadcast subscription of queue "reception". |
| QueueService.ExaminationFlowService.Publish | src/services/examinationFlowService.ts:279-291 | The gated publish common to the three commands. |
| QueueService.ExaminationFlowService.TakeNextItem | src/services/examinationFlowService.ts:279-291 | Publishes `{"queueId":…}` to the take-next destination when active. |
| QueueService.ExaminationFlowService.GetInProgressItem | src/services/examinationFlowService.ts:296-308 | Publishes an empty body to the in-process destination when active. |
| QueueService.ExaminationFlowService.QueryQueueSize | src/services/examinationFlowService.ts:314-326 | Publishes the raw queue id to the queue-size destination when active. |
| QueueService.ReconnectBudgetScenario | src/services/examinationFlowService.ts:106-133 | On the class: after a connection, six disconnects schedule five reconnects and report "max attempts reached" once. |
| QueueItems.ExaminationId | src/pages/doctor/Doctor.tsx:366 | The examination id is present exactly when the item's form holds an examination. |
| QueueItems.RequestedServiceId | src/pages/doctor/Doctor.tsx:367 | The requested service id is present exactly when the item has a requested service. |
| QueueItems.InvoiceId | src/pages/receptionist/billing/BillingDashboard.tsx:162 | The invoice id is present exactly when the item's form holds an invoice. |
| DoctorDashboard.CommonConnectedCallsEffect | src/pages/doctor/Doctor.tsx:99-120 | On an active client, the item, size and error subscriptions take three fresh handles under the three fixed keys, and the in-progress query is the one frame published. |
| DoctorDashboard.DepartmentCallsEffect | src/pages/doctor/Doctor.tsx:123-140 | Broadcast, size query, broadcast again: one query frame, one new key, and the first broadcast handle live but untracked, even after `disconnect`. |
| DoctorDashboard.OnConnectedLeavesUntrackedBroadcast | src/pages/doctor/Doctor.tsx:93-141 | With a department, `onConnected` asks for the in-progress item and the size. Its first broadcast subscription ends up live but untracked, and survives `disconnect`. |
| DoctorDashboard.DoctorView.constructor | src/pages/doctor/Doctor.tsx:19-25 | Starts disconnected, with size 0, no item or form data, no toasts and no submissions. The staff and department ids are fixed for the view. |
| DoctorDashboard.DoctorView.ConnectEffect | src/pages/doctor/Doctor.tsx:77-165 | Connects with the staff id only when staff and department ids are known, the service is not connected and tokens are stored. |
| DoctorDashboard.DoctorView.OnConnected | src/pages/doctor/Doctor.tsx:93-141 | Marks connected and reports it, changing no other state, and makes exactly the subscriptions and commands of `onConnected` for the view's department. |
| DoctorDashboard.DoctorView.OnConnectError | src/pages/doctor/Doctor.tsx:142-146 | Marks not connected and reports the failure; no other state changes. |
| DoctorDashboard.DoctorView.OnQueueItem | src/pages/doctor/Doctor.tsx:99-105 | Every received item replaces the held one, also while a submission is pending, and is reported; no other state changes. |
| DoctorDashboard.DoctorView.OnQueueSize | src/pages/doctor/Doctor.tsx:108-111 | The queue size becomes the received value; no other state changes, so the take-next gate stays as it was. |
| DoctorDashboard.DoctorView.OnQueueError | src/pages/doctor/Doctor.tsx:114-117 | The received error text is reported; no other state changes. |
| DoctorDashboard.DoctorView.OnFormChange | src/pages/doctor/Doctor.tsx:48-49 | A form-change message replaces the form data; no other state changes. |
| DoctorDashboard.DoctorView.HandleTakeNextPatient | src/pages/doctor/Doctor.tsx:168-181 | Publishes take-next for the view's department only when it is set and the service is connected. Otherwise it reports which is missing and publishes nothing. Only the toasts change in the view. |
| DoctorDashboard.DoctorView.PressTakeNext | src/pages/doctor/Doctor.tsx:263-264 | An enabled click (connected, no item held) runs `handleTakeNextPatient` with its exact effect. A disabled click changes nothing. The click does not close the gate. |
| DoctorDashboard.DoctorView.BeginComplete | src/pages/doctor/Doctor.tsx:184-207 | A submission is sent exactly when an item is held and the staff id is known, and it carries the given examination, service and form data. Otherwise it only reports which is missing. Only the toasts and the submissions change. Nothing marks the submission as in flight. |
| DoctorDashboard.DoctorView.FinishComplete | src/pages/doctor/Doctor.tsx:208-214 | Success clears whatever item and form data are held when the submission settles, and reports. Failure only reports. |
| DoctorDashboard.DoctorView.PressComplete | src/pages/doctor/Doctor.tsx:363-377 | The button is never disabled. Every click sends the held item's result when its examination and requested service ids are both present and the staff id is known. Otherwise it reports missing information, or the missing doctor. Only the toasts and the submissions change. |
| DoctorDashboard.CompletionDuringAwait | src/pages/doctor/Doctor.tsx:184-214 | Two clicks before the first submission settles send the same result twice. An item pushed in the meantime is cleared by the first success although its result was never sent. |
| DoctorDashboard.DoctorView.Unmount | src/pages/doctor/Doctor.tsx:159-164 | Disconnects and marks not connected only when the service reports connected; otherwise nothing changes. |
| BillingDashboard.Overlay | src/pages/receptionist/billing/BillingDashboard.tsx:393-512 | Success panel exactly on "SUCCEEDED", failure panel exactly on "FAILED". Otherwise it waits, showing "PENDING" as waiting, another status as itself, and none as processing. |
| BillingDashboard.SucceededPanelKeepsPolling | src/pages/receptionist/billing/BillingDashboard.tsx:396 | While the success panel shows, status polling continues every 2000 ms. A "SUCCESS" status stops polling while the overlay still waits. |
| BillingDashboard.FinalPanelStopsSettledPolling | src/services/paymentService.ts:97-106 | With the corrected rule, polling has stopped whenever the overlay shows a final panel, and still runs before data and while pending. |
| BillingDashboard.ReceptionConnectLeavesUntrackedBroadcast | src/pages/receptionist/billing/BillingDashboard.tsx:76-122 | The reception `onConnected` asks for the in-progress item and the size. Its first "reception" broadcast subscription outlives `disconnect`. |
| BillingDashboard.BillingView.constructor | src/pages/receptionist/billing/BillingDashboard.tsx:29-56 | Starts with cash, not processing, no transaction, disconnected, size 0, no item, and nothing reported, requested or opened. The staff id is fixed for the view. |
| BillingDashboard.BillingView.OverlayShown | src/pages/receptionist/billing/BillingDashboard.tsx:393 | The overlay shows exactly when the transaction-status query is enabled. |
| BillingDashboard.BillingView.ConnectEffect | src/pages/receptionist/billing/BillingDashboard.tsx:59-146 | Connects only with a staff id, when not connected and tokens are stored. |
| BillingDashboard.BillingView.OnConnected | src/pages/receptionist/billing/BillingDashboard.tsx:76-122 | Marks connected and reports it, changing no other state, and makes exactly the reception subscriptions and commands. |
| BillingDashboard.BillingView.OnConnectError | src/pages/receptionist/billing/BillingDashboard.tsx:123-127 | Marks not connected and reports the failure; no other state changes. |
| BillingDashboard.BillingView.OnQueueItem | src/pages/receptionist/billing/BillingDashboard.tsx:82-88 | Every received item replaces the held one and is reported; no other state changes. |
| BillingDashboard.BillingView.OnQueueSize | src/pages/receptionist/billing/BillingDashboard.tsx:91-94 | The queue size becomes the received value; no other state changes. |
| BillingDashboard.BillingView.OnQueueError | src/pages/receptionist/billing/BillingDashboard.tsx:97-100 | The received error text is reported; no other state changes. |
| BillingDashboard.BillingView.HandleTakeNextPatient | src/pages/receptionist/billing/BillingDashboard.tsx:149-157 | Publishes take-next for "reception" only when connected; otherwise it reports and publishes nothing. Only the toasts change in the view. |
| BillingDashboard.BillingView.PressTakeNext | src/pages/receptionist/billing/BillingDashboard.tsx:240-241 | An enabled click runs `handleTakeNextPatient` with its exact effect. A disabled click (not connected, or an item held) changes nothing. |
| BillingDashboard.BillingView.ChooseMethod | src/pages/receptionist/billing/BillingDashboard.tsx:335-346 | The chosen payment method is recorded; no other state changes. |
| BillingDashboard.BillingView.PaymentRequest | src/pages/receptionist/billing/BillingDashboard.tsx:159-176 | A request exists exactly with an item, a staff id and an invoice id, and it carries that invoice, the chosen method and the staff id. |
| BillingDashboard.BillingView.BeginPayment | src/pages/receptionist/billing/BillingDashboard.tsx:159-177 | The request is exactly `PaymentRequest` of the state before the call. With an item and a staff id but no invoice id it reports. Processing starts exactly when a request is sent. Nothing else changes. |
| BillingDashboard.BillingView.FinishPayment | src/pages/receptionist/billing/BillingDashboard.tsx:178-191 | VNPAY with a URL opens it and tracks the transaction, keeping the item. Any other created transaction clears the item. A rejection only reports. Processing ends on every path, and nothing else changes. |
| BillingDashboard.BillingView.PressPay | src/pages/receptionist/billing/BillingDashboard.tsx:369-370 | While processing, a click changes nothing. Otherwise it runs `handlePayment` up to the call: the request is `PaymentRequest`, and the state changes as in `BeginPayment`. |
| BillingDashboard.BillingView.PressOverlayButton | src/pages/receptionist/billing/BillingDashboard.tsx:424-427 | Finish clears transaction and item and reports. The failure close and a confirmed cancel clear only the transaction. Status polling stays enabled exactly after an unconfirmed cancel. Nothing else changes. |
| BillingDashboard.BillingView.Unmount | src/pages/receptionist/billing/BillingDashboard.tsx:140-145 | Disconnects and marks not connected only when the service reports connected; otherwise nothing changes. |
| PaymentPolling.RefetchIntervalStopsAtStopStatuses | src/services/paymentService.ts:97-106 | Polling stops exactly at "SUCCESS", "FAILED" and "CANCELLED". Before data, at "PENDING" and at every other status it polls every 2000 ms. |
| PaymentPolling.SucceededKeepsPolling | src/services/paymentService.ts:102 | "SUCCEEDED" does not stop polling. |
| PaymentPolling.SettledRefetchInterval | src/services/paymentService.ts:97-106 | The corrected rule stops exactly at the four final statuses, "SUCCEEDED" included. |
| PaymentPolling.SettledRefetchIntervalDiffersOnlyAtSucceeded | src/services/paymentService.ts:102 | The corrected rule and the written one differ exactly at "SUCCEEDED". |
| PaymentPolling.QueryEnabled | src/services/paymentService.ts:58 | A query runs exactly when its id is a non-empty string. |
| PaymentResult.Substring | src/pages/receptionist/billing/PaymentResult.tsx:66-71 | `substring` clamps both ends to the length, swaps them when out of order, and its length follows from that. |
| PaymentResult.FormatDateLength | src/pages/receptionist/billing/PaymentResult.tsx:63-73 | "" formats to "". Any other input gives its first 14 characters plus 5 separators. |
| PaymentResult.FormatDateFields | src/pages/receptionist/billing/PaymentResult.tsx:66-72 | On 14 or more characters: day/month/year hour:minute:second from the right slices, 19 characters. |
| PaymentResult.FormatDateRoundTrip | src/pages/receptionist/billing/PaymentResult.tsx:63-73 | A 14-character timestamp reads back unchanged from its formatted form. |
| PaymentResult.ParamsOfLastWins | src/pages/receptionist/billing/PaymentResult.tsx:23-26 | A key is collected exactly when some parameter has it, and its value is that of the last one. |
| PaymentResult.HandlePaymentResult | src/pages/receptionist/billing/PaymentResult.tsx:21-51 | Without a secure hash: invalid-info error and never sent. If processing throws: processing error. After processing: success exactly when the response code is "00". |
| BulkImport.ExportFileName | src/pages/manager/Manager.tsx:130-162 | A file name exists exactly on the package and service tabs, and it ends in ".csv". |
| BulkImport.ExportFileNamesDistinct | src/pages/manager/Manager.tsx:139-144 | The two export names differ. |
| BulkImport.HandleFileChange | src/pages/manager/Manager.tsx:168-233 | No file does nothing. An import starts only on the package and service tabs. At most 60 checks, all but the last pending, stopping at the first COMPLETED, FAILED or error. Timeout only after 60 pending statuses. The input is cleared after every upload attempt. |
| Pagination.Rendered | src/pages/admin/components/Pagination.tsx:12 | The controls render exactly when there are at least 2 pages. |
| Pagination.PreviousPageBounds | src/pages/admin/components/Pagination.tsx:17 | "Previous" never asks for a page below 1 and goes back one page whenever there is one. |
| Pagination.NextPageBounds | src/pages/admin/components/Pagination.tsx:27 | "Next" never asks beyond the last page and goes on one page whenever there is one. |
| Pagination.RequestsStayInRange | src/pages/admin/components/Pagination.tsx:12-28 | From a page in range, both requests stay in range. An enabled button moves one page, and a disabled one would request the current page. |
| PackageForm.RemoveCounts | src/pages/admin/components/MedicalPackageFormModal.tsx:31 | The filter drops every occurrence of the id, keeps every other id exactly as often, and shrinks by the number dropped. |
| PackageForm.RemoveConcat | src/pages/admin/components/MedicalPackageFormModal.tsx:31 | The filter respects concatenation, so the kept ids stay in order. |
| PackageForm.RemoveAbsent | src/pages/admin/components/MedicalPackageFormModal.tsx:31 | Filtering an absent id changes nothing. |
| PackageForm.ToggleFlipsOnlyItsCheckbox | src/pages/admin/components/MedicalPackageFormModal.tsx:28-34 | A toggle flips its own checkbox and leaves every other checkbox unchanged. |
| PackageForm.ToggleShape | src/pages/admin/components/MedicalPackageFormModal.tsx:29-32 | An absent id is appended at the end (a missing list counts as empty). A present id is removed everywhere. |
| PackageForm.ToggleTwiceRestores | src/pages/admin/components/MedicalPackageFormModal.tsx:30-32 | Toggling an absent id twice restores the list. |
| RouteGuard.RoleHome | src/components/ProtectedRoute.tsx:35-45 | Exactly the four roles have a dashboard, a path other than "/login". |
| RouteGuard.RoleHomeInjective | src/components/ProtectedRoute.tsx:35-42 | Different roles have different dashboards. |
| RouteGuard.Guard | src/components/ProtectedRoute.tsx:14-48 | A pending account triggers a refetch. The spinner shows exactly while loading. No data goes to "/login". Children render exactly with no required role or a matching role. A loaded mismatch always redirects to the user's dashboard, or to "/login". |
| RouteGuard.MismatchRedirectSettles | src/components/ProtectedRoute.tsx:33-46 | A known role sent away on a mismatch is admitted by the guard requiring that role. |
| Login.ErrorMessage | src/pages/auth/Login.tsx:58-62 | Wrong-credentials message exactly when either status field is 400; the generic message otherwise. |
| Login.LoginRoute | src/pages/auth/Login.tsx:42-54 | A known role goes to its dashboard, anything else to "/". |
| Login.LoginRouteAgreesWithGuard | src/pages/auth/Login.tsx:42-54 | Login sends a known role where the guard admits it. |
| Login.LoginPage.constructor | src/pages/auth/Login.tsx:17-21 | Starts with empty fields, not loading, no error. |
| Login.LoginPage.StartSubmit | src/pages/auth/Login.tsx:31-32 | Loading starts and the previous error is cleared, which disables the submit button. |
| Login.LoginPage.CompleteSubmit | src/pages/auth/Login.tsx:34-66 | A login error sets the message and skips the account fetch. Otherwise the account is fetched and the page navigates by role. Loading ends either way. |
| Login.LoginPage.Submit | src/pages/auth/Login.tsx:28-67 | A failed sign-in shows a non-empty message, fetches no account and navigates nowhere. A successful one shows none, fetches the account once and navigates by role. The fields are kept and loading ends. |
| TokenRefresh.AuthorizationFor | src/services/axios-instance.ts:41-49 | `Bearer <token>` is attached exactly when the stored tokens parse and hold a token. |
| TokenRefresh.AuthorizationIsBearerCredentials | src/services/axios-instance.ts:46 | The header conforms to section 2.1 of RFC 6750 when the token is a b64token, and only then for a token not starting with a space. The token reads back from the header. |
| TokenRefresh.SettleAllSettlesEachAlike | src/services/axios-instance.ts:22-32 | Every waiter is settled once, in queue order, all the same way. |
| TokenRefresh.RefreshCoordinator.constructor | src/services/axios-instance.ts:16-20 | Starts not refreshing, with an empty queue. |
| TokenRefresh.RefreshCoordinator.ProcessQueue | src/services/axios-instance.ts:22-32 | Its loop settles every queued waiter with the one outcome, then empties the queue. |
| TokenRefresh.RefreshCoordinator.FailRefresh | src/services/axios-instance.ts:129-137 | Rejects every waiter with the error, removes the tokens, redirects to login and ends the refresh. |
| TokenRefresh.RefreshCoordinator.OnResponseError | src/services/axios-instance.ts:63-140 | Only a 401 on a request without the `_retry` mark is handled, so a request already re-sent after a refresh is rejected unchanged. While refreshing it is queued unmarked, and no second refresh starts. Otherwise the request gets the `_retry` mark and the refresh is marked. No tokens: redirect, with the refresh still marked. Unreadable tokens, or tokens without a refresh token, fail at once and end the refresh. Otherwise the refresh is sent. |
| TokenRefresh.RefreshCoordinator.OnRefreshReply | src/services/axios-instance.ts:109-137 | Success stores the new tokens (keeping the old refresh token if none is returned), sets the default header, resolves the waiters with the new token and retries the request, which keeps its `_retry` mark. Failure rejects them. Either way the refresh ends. |
| TokenRefresh.NoTokensPathParksLaterRequests | src/services/axios-instance.ts:82-91 | After the no-tokens path the refresh stays marked, so every later 401 on another request is queued and never settled. |
| TokenRefresh.ResentRequestIsNotRefreshedAgain | src/services/axios-instance.ts:67-83 | After a successful refresh, a second 401 on the request that started it is rejected unchanged and no refresh is in progress. |
| TokenRefresh.ResentWaiterStartsAnotherRefresh | src/services/axios-instance.ts:67-83 | A waiter resolved by a refresh is re-sent without the `_retry` mark, so a 401 on it starts a second refresh with the newly stored refresh token. |

## Left out

- The STOMP and SockJS libraries are outside the model. Framing, heart-beats and the library's own `reconnectDelay` auto-reconnect are not modelled. Neither is what `deactivate` does on the broker to subscriptions that were not unsubscribed. Activation, connection, errors and disconnection are abstract events.
- Timing is not modelled. The 3000 ms reconnect delay, the 2000 ms payment and import polling periods and toast durations become events or constants.
- QueueSession: which client fired a callback is not checked. An event from a replaced client acts on the current session, as the shared fields of the source do.
- I/O and browser globals are parameters of the operations that use them: local storage, `window.location`, `window.open`, `confirm`, FingerprintJS, the embedded form's `postMessage` channel and console logging.
- JSON values are abstract. `JSON.parse` is a parameter (`parsed`) of an inbound message. Numbers are integers.
- The REST hook services are request wrappers without logic of their own. Their results are parameters: the login and account queries, result submission, transaction creation, upload, import start and status checks.
- Toast and message texts are kinds, except where the text is the property, as in the payment-return, login and guard messages.
- Currency formatting and `Intl` are not modelled.
- Rendering and styling are not modelled. App.tsx's route table is not part of this model.
- The `catch` around `connect` in both dashboards is not modelled (Doctor.tsx:148-151, BillingDashboard.tsx:129-132). In the model `connect` does not throw, so that branch is unreachable.
- The staff and department ids are constants of a view. In React they come from the account and staff queries and can change between renders; the model fixes them for the view's lifetime, which is what each handler sees during one call.
- BillingDashboard.BillingView.FinishPayment: the method taken from the request stands for the `paymentMethod` that the handler's closure captured when it was created.
- BulkImport.HandleFileChange: the loading toast of an upload on a tab without import is left as it is. The outcome `NotImported` records that nothing was polled.
- Strings are sequences of Unicode code points, not of UTF-16 code units. `JSON.stringify` escaping (StompDestinations.EscapeChar, StompDestinations.UnescapeEscape) does not cover lone surrogates, and `PaymentResult.Substring` counts an astral character as one position where JavaScript counts two. The queue ids and VNPAY dates involved are ASCII.
- TokenRefresh.RefreshCoordinator.OnResponseError: a request is identified by its id, and its `_retry` mark is membership of that id in `marked`. A request config that is re-sent keeps its id.
- TokenRefresh.RefreshCoordinator.OnResponseError: a missing and an empty "tokens" entry are both `Absent`. A value that `JSON.parse` rejects and one that parses to `null` are both `Unparseable`.

## Findings

| source | as written | input that shows it | evidently intended | confidence | as-written member | corrected member |
|---|---|---|---|---|---|---|
| src/services/paymentService.ts:102 | Status polling stops on "SUCCESS", "FAILED" and "CANCELLED", but the billing overlay (BillingDashboard.tsx:396) treats "SUCCEEDED" as success. | Status "SUCCEEDED": the success panel shows while the status is refetched every 2000 ms until the overlay is closed. Status "SUCCESS": polling stops while the overlay keeps waiting. | Polling stops at every final status the pages recognise, "SUCCEEDED" included. | medium, not executed | PaymentPolling.SucceededKeepsPolling | PaymentPolling.SettledRefetchInterval |
