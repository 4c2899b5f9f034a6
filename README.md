# GreenLedger core in Dafny

GreenLedger is a farm-to-consumer traceability demo. Farmers register
crops. Transporters move them. Retailers receive them, and buyers verify a
product by the code in its QR image. Every step is "minted" on a mock
blockchain. The whole application state lives in one reducer-driven store
that is persisted to browser storage.

This project models the core of that application in Dafny:

- `types.dfy` (`Types`): the entities (users, products, shipments, events,
  ratings, payments), the application state, the partial patches the update
  actions carry, and the closed set of store actions.
- `store.dfy` (`DemoStore`): the store's reducer, the provider's start-up
  decision and persistence rule, and the demo seed data.
- `store_utils.dfy` (`StoreUtils`): the store's read-only queries: the trust
  score, the role, farmer and transporter filters, product lookup, and a
  product's timeline sorted by time.
- `qr.ts` is modelled in `qr.dfy` (`Qr`): the `gl-` verification code scheme,
  its format check as an automaton, and the verification URL.
- `storage.ts` is modelled in `storage.dfy` (`Storage`): the versioned storage
  service, as a class over one storage slot.
- `blockchain.ts` is modelled in `blockchain.dfy` (`Blockchain`): the mock
  transaction generator and its five mint operations. The random draws and the
  clock are parameters.
- `Verify.tsx` is modelled in `verify.dfy` (`Verification`): the verify page's
  decision chain, its state as a class, scan-text extraction and the status
  colours.
- `GenerateReport.tsx` is modelled in `report.dfy` (`Reports`): the five
  administrator reports, with the per-key tallies written as a loop.
- `PaymentEscrow.tsx` is modelled in `escrow.dfy` (`Escrow`): which payments a
  viewer sees, the escrow totals, the progress per state, and the button
  guards.
- `ViewAllAlerts.tsx` is modelled in `alerts.dfy` (`Alerts`): the alert board
  as a class, resolve and dismiss, the filters, and the `cn` class joiner.
- `wrappers.dfy` and `seqs.dfy`: `Option`, and the generic sequence
  operations (`filter`, `find`, `map`-update, `reduce`-sum, counting) with
  their lemmas.

Clock readings (`Date.now()`) are `now` parameters. `Math.random()` draws are
reals in [0, 1) passed in as parameters. Browser storage is the content of
one slot.

## Model

| member | source | states |
|---|---|---|
| DemoStore.ReduceChangesOnlyTarget | src/state/demoStore.tsx:22-101 | For every action, each slice of the state that the action does not target keeps its value. |
| DemoStore.AddAppends | src/state/demoStore.tsx:27-76 | Each ADD action appends its payload as the last element of its own list, one longer, with the earlier elements unchanged. |
| DemoStore.UpdateUserTargetsById | src/state/demoStore.tsx:30-41 | UPDATE_USER keeps the list length and patches exactly the users with the target id. It patches the session's user exactly when that user has the id, and leaves the list unchanged when no user has it. |
| DemoStore.UpdateUserKeepsSessionInSync | src/state/demoStore.tsx:30-41 | If the session's user is the i-th list entry before an UPDATE_USER, it is still the i-th entry afterwards, whichever user was targeted. |
| DemoStore.UpdateProductTargetsById | src/state/demoStore.tsx:46-54 | UPDATE_PRODUCT keeps the length, patches exactly the products with the target id, and is the identity when no product has it. |
| DemoStore.StatusOnlyUpdate | src/state/demoStore.tsx:46-54 | A status-only patch changes only the status of the targeted products and leaves users untouched. |
| DemoStore.UpdateShipmentTargetsById | src/state/demoStore.tsx:59-67 | UPDATE_SHIPMENT keeps the length, patches exactly the shipments with the target id, and is the identity when none has it. |
| DemoStore.UpdatePaymentTargetsById | src/state/demoStore.tsx:78-86 | UPDATE_PAYMENT keeps the length, patches exactly the payments with the target id, and is the identity when none has it. |
| DemoStore.ResetSeedsDemo | src/state/demoStore.tsx:94-95 | RESET_DEMO_DATA installs the demo data whatever the prior state. The result has 7 users with `farmer-1` as the session user, 3 products, 2 shipments, 11 events, 2 ratings and 2 payments, and is not loading and has no error. |
| DemoStore.LoadInstallsPayload | src/state/demoStore.tsx:97-98 | LOAD_STATE yields exactly its payload. |
| DemoStore.StartupAction | src/state/demoStore.tsx:116-125 | The mount effect dispatches LOAD_STATE exactly when a saved state exists, and RESET_DEMO_DATA otherwise. |
| DemoStore.StartupOutcome | src/state/demoStore.tsx:116-132 | Start-up yields the saved state when there is one. Otherwise it yields the demo data, which has users and so passes the persistence guard. |
| DemoStore.DemoUsers | src/state/demoStore.tsx:155-232 | Seven seeded users, the first being `farmer-1`. |
| DemoStore.DemoProducts | src/state/demoStore.tsx:235-291 | Three seeded products. |
| DemoStore.DemoShipments | src/state/demoStore.tsx:294-324 | Two seeded shipments. |
| DemoStore.DemoRatings | src/state/demoStore.tsx:327-350 | Two seeded ratings. |
| DemoStore.DemoPayments | src/state/demoStore.tsx:353-377 | Two seeded payments. |
| DemoStore.DemoEvents | src/state/demoStore.tsx:380-506 | Eleven seeded events. |
| StoreUtils.FindUser | src/state/demoStore.tsx:524-525 | The user found is the first in the list with the id: it has the id and no earlier user does. There is none exactly when no user has the id. |
| StoreUtils.Round | src/state/demoStore.tsx:538 | `Math.round` gives the integer within half a unit, with a half rounded upwards. |
| StoreUtils.StarTotalBounds | src/state/demoStore.tsx:530 | Star counts of 1..5 sum to between 1 and 5 times the number of ratings. |
| StoreUtils.BlendInRange | src/state/demoStore.tsx:530-538 | With a mean rating in 1..5 and a success rate in 0..100%, the unrounded blend lies in 14..100. |
| StoreUtils.TrustScoreInRange | src/state/demoStore.tsx:523-539 | With sane inputs the trust score is in 0..100, and it is at least 14 once the user has been rated. |
| StoreUtils.TrustScoreExample | src/state/demoStore.tsx:523-539 | Ratings of 5 and 3 stars with 9 of 10 deliveries give round(0.7·80 + 0.3·90) = 83. |
| StoreUtils.UsersByRole | src/state/demoStore.tsx:541-543 | In list order, exactly the users with that role, each as often as in the list. |
| StoreUtils.ProductsByFarmer | src/state/demoStore.tsx:545-547 | In list order, exactly that farmer's products, each as often as in the list. |
| StoreUtils.ShipmentsByTransporter | src/state/demoStore.tsx:549-551 | In list order, exactly the shipments assigned to that transporter, each as often as in the list. |
| StoreUtils.ProductById | src/state/demoStore.tsx:553-555 | The first product in the list with that id: it has the id and no earlier product does. There is none exactly when no product has the id. |
| StoreUtils.InsertByTime | src/state/demoStore.tsx:558 | Insertion step of the sort: the result is the input plus the event, as a multiset. |
| StoreUtils.InsertKeepsBound | src/state/demoStore.tsx:558 | Inserting an event no earlier than a bound keeps every event of the timeline at or after that bound. |
| StoreUtils.InsertKeepsSorted | src/state/demoStore.tsx:558 | Inserting into a time-ordered timeline keeps it time-ordered. |
| StoreUtils.InsertKeepsTies | src/state/demoStore.tsx:558 | Among the events stamped with the inserted event's time, the inserted one comes first, and the events stamped with any other time keep their order. |
| StoreUtils.SortByTime | src/state/demoStore.tsx:558 | The sort's result is time-ordered, a permutation of its input, and stable: the events stamped with any one time appear in their input order. |
| StoreUtils.EventsForProduct | src/state/demoStore.tsx:557-559 | The product's events, each as often as in the log and in timestamp order, with events of equal timestamp in log order. The result is empty exactly when no event is attached to the product. |
| Qr.GenerateCode | src/services/qr.ts:46-50 | The code starts with `gl-` and is 3 + min(8, length of the id) long. |
| Qr.ExtractProductId | src/services/qr.ts:52-56 | None exactly when the code lacks the `gl-` prefix. Otherwise, `gl-` followed by the result is the code. |
| Qr.ValidateCodeIff | src/services/qr.ts:58-61 | The automaton for `^gl-[a-zA-Z0-9]+$` accepts exactly `gl-` followed by one or more ASCII letters or digits. |
| Qr.ExtractGenerated | src/services/qr.ts:46-56 | Extracting from a generated code gives back the first eight characters of the id. |
| Qr.ValidCodeExtracts | src/services/qr.ts:52-61 | A valid code always yields a non-empty alphanumeric id. |
| Qr.GeneratedCodeValidIff | src/services/qr.ts:46-61 | A generated code is valid exactly when the id is non-empty and its first eight characters are ASCII letters or digits. |
| Qr.DashedIdCodeRejected | src/services/qr.ts:46-61 | Codes of `prod-<suffix>` ids fail validation, because the dash falls within the kept eight characters. |
| Qr.VerifyUrl | src/services/qr.ts:10 | The QR payload is the origin, then `/verify/`, then the code. |
| Storage.StorageService.Save | src/services/storage.ts:13-25 | An accepted write leaves the slot holding a version-`1.0.0` envelope stamped `now` around the data. A refused write leaves the slot as it was. |
| Storage.StorageService.Load | src/services/storage.ts:27-46 | An empty or unparsable slot gives nothing and is left alone. A version mismatch gives nothing and clears the slot. A matching envelope gives its data. |
| Storage.StorageService.Clear | src/services/storage.ts:48-54 | The slot is empty afterwards. |
| Storage.StorageService.GetStorageInfo | src/services/storage.ts:56-69 | Version and timestamp exactly when the slot holds a parsed envelope, and nothing otherwise. Nothing changes. |
| Storage.SaveLoadClearScenario | src/services/storage.ts:13-69 | Save then load round-trips the data, clearing twice equals clearing once, and a stale version is gone after one load. |
| Blockchain.ScaledDraw | src/services/blockchain.ts:37 | `Math.floor(r * n)` for a draw in [0, 1) is an index below n. |
| Blockchain.GenerateTxHash | src/services/blockchain.ts:32-40 | `0x` followed by 64 characters, each the hex digit chosen by its draw, all lower-case hex. |
| Blockchain.GenerateBlockNumber | src/services/blockchain.ts:42-47 | The block number lies in [30,000,000, 31,000,000). |
| Blockchain.VerifyAcceptsAnyDigits | src/services/blockchain.ts:93-96 | `verifyTransaction` accepts `0x` plus any 64 characters, hex or not. |
| Blockchain.ShortHash | src/services/blockchain.ts:23 | For a hash of six or more characters: the first 6 characters, `...`, then the last 4, 13 characters in all. Each slice takes the whole string when it is shorter. |
| Blockchain.GenerateTransaction | src/services/blockchain.ts:16-30 | The transaction passes `verifyTransaction`, its hash is lower-case hex, its short form and explorer URL derive from the hash, its block is in range, and it carries the given type, data and time. |
| Blockchain.TypeTagIdentifiesKind | src/services/blockchain.ts:50-91 | The five payload kinds are minted under five distinct transaction types, and their payloads carry five distinct event names. |
| Blockchain.Mint | src/services/blockchain.ts:50-91 | Each mint operation yields a valid transaction of its payload's type carrying the payload. |
| Verification.VerifyDecisionMeaning | src/pages/Verify.tsx:57-108 | Blank input is refused first. Otherwise, input failing the format check is a format error. Otherwise, a code no product carries is not found. Otherwise, the first product with that code is shown with its sorted events and its farmer. |
| Verification.LeadingSpaceRejected | src/pages/Verify.tsx:58-73 | A code typed with a leading space is refused for its format, because only the blank check trims. |
| Verification.DashedProductNeverVerified | src/pages/Verify.tsx:71-79 | Products with `prod-` ids, as the registration form assigns them, can never be verified. |
| Verification.ValidCodeOfStoredProductFound | src/pages/Verify.tsx:71-89 | A stored product whose code is well formed is always found. |
| Verification.FarmerLabel | src/pages/Verify.tsx:93 | The farmer's name when present and non-empty, else `Unknown farmer`. The label is never empty. |
| Verification.VerifyPage.constructor | src/pages/Verify.tsx:153-159 | The input starts as the route code. The page verifies at once exactly when that code is present, non-empty and not `demo`. |
| Verification.VerifyPage.HandleVerify | src/pages/Verify.tsx:57-108 | The page ends in the state the decision's outcome prescribes. Blank input leaves everything as it was. A failure clears product, events and farmer. A success shows them. The busy flag is down afterwards. |
| Verification.VerifyPage.Display | src/pages/Verify.tsx:67-107 | After the blank check: the product, events and farmer shown, or cleared on failure, and the busy flag reset. |
| Verification.VerifyPage.HandleScanResult | src/pages/Verify.tsx:114-119 | The input becomes the code extracted from the scanned text. Nothing else changes. |
| Verification.FirstMatch | src/pages/Verify.tsx:116 | The leftmost place where `/\/verify\/([^?]+)/` matches, or none when it matches nowhere. |
| Verification.UpToQuery | src/pages/Verify.tsx:116 | The maximal prefix without `?`, which is what `[^?]+` consumes. |
| Verification.ExtractScannedCode | src/pages/Verify.tsx:116-117 | The whole text when the expression does not match. Otherwise, the non-empty capture after the leftmost match, ending at the next `?` or the end. |
| Verification.ScanRoundTrip | src/pages/Verify.tsx:114-119 | Scanning a URL generated for a non-empty code without `?` gives back that code, when the origin does not contain `/verify/`. |
| Verification.StatusColor | src/pages/Verify.tsx:134-146 | Each colour class is shown for exactly its group of statuses, in both directions. |
| Reports.Tally | src/components/admin/GenerateReport.tsx:53-56 | The tally has a key exactly for the keys that occur, and each count equals the number of occurrences. |
| Reports.RoleDistributionTotal | src/components/admin/GenerateReport.tsx:53-56 | The role counts add up to the number of users. |
| Reports.CropDistributionTotal | src/components/admin/GenerateReport.tsx:103-106 | The category counts add up to the number of products. |
| Reports.StatusDistributionTotal | src/components/admin/GenerateReport.tsx:108-111 | The status counts add up to the number of products. |
| Reports.GenerateUserReport | src/components/admin/GenerateReport.tsx:52-77 | The user total, the role distribution (exact counts that sum to the total), and the joins of the last 30 days (at most the total). |
| Reports.GenerateProductReport | src/components/admin/GenerateReport.tsx:102-132 | The product total, the category and status distributions (each summing to the total), and the organic count (at most the total). |
| Reports.GenerateTransactionReport | src/components/admin/GenerateReport.tsx:79-100 | The payment total. Completed is the released payments. Pending is the rest, never negative. The amount total splits into released and pending. Transactions sum the users' counters. |
| Reports.TotalTransactionsNonNegative | src/components/admin/GenerateReport.tsx:80 | With non-negative counters, the transaction total is non-negative. |
| Reports.GenerateTrustScoreReport | src/components/admin/GenerateReport.tsx:134-160 | The high, medium and low buckets are exactly the users at ≥90, 70..89 and <70, and they add up to the number of users. |
| Reports.GenerateDeliveryReport | src/components/admin/GenerateReport.tsx:162-183 | Delivered and in-transit counts. Pending is exactly the shipments in neither state, so it is never negative. |
| Escrow.RelevantPayments | src/components/payments/PaymentEscrow.tsx:19-30 | With no role or user, and for an admin, every payment. A farmer sees exactly the payments to them and a retailer the payments they made, each as often as in the list. The list order is kept. |
| Escrow.TotalsBounded | src/components/payments/PaymentEscrow.tsx:81-87 | With non-negative amounts, the escrowed and released totals are non-negative and together at most the total amount shown. |
| Escrow.Progress | src/components/payments/PaymentEscrow.tsx:47-55 | Progress is in (0, 100] and is 100 exactly for released payments. |
| Escrow.ReleaseButtonGuard | src/components/payments/PaymentEscrow.tsx:224-233 | "Release Funds" appears exactly for escrowed payments seen by an admin, which then also offer "Track Delivery" and show 50%. Over the listed payments, an admin is offered it on exactly the escrowed ones, in order, and any other viewer on none. |
| Alerts.ResolvedIn | src/components/admin/ViewAllAlerts.tsx:152-159 | Same length. Alerts with the id are resolved at `now`. The others are unchanged. |
| Alerts.DismissedIn | src/components/admin/ViewAllAlerts.tsx:161-168 | Same length. Alerts with the id are dismissed with their resolution time kept. The others are unchanged. |
| Alerts.AlertBoard.constructor | src/components/admin/ViewAllAlerts.tsx:109 | The board starts with the given alerts. |
| Alerts.AlertBoard.ResolveAlert | src/components/admin/ViewAllAlerts.tsx:152-159 | The board's list becomes the resolved list. |
| Alerts.AlertBoard.DismissAlert | src/components/admin/ViewAllAlerts.tsx:161-168 | The board's list becomes the dismissed list. |
| Alerts.ResolveRetiresActions | src/components/admin/ViewAllAlerts.tsx:152-159 | Resolving never increases the active count, and no alert with the id still offers the Resolve and Dismiss buttons. |
| Alerts.DismissRetiresActions | src/components/admin/ViewAllAlerts.tsx:161-168 | Dismissing never increases the active count, and no alert with the id still offers the buttons. |
| Alerts.UpdatesIdempotent | src/components/admin/ViewAllAlerts.tsx:152-168 | Dismissing twice equals dismissing once, and resolving twice at one time equals resolving once. |
| Alerts.FilteredAlerts | src/components/admin/ViewAllAlerts.tsx:170-178 | In list order, exactly the alerts whose title or message contains the search term ignoring ASCII case, and that pass the severity, status and category filters, each as often as in the list. |
| Alerts.UnfilteredShowsAll | src/components/admin/ViewAllAlerts.tsx:170-178 | An empty search with every filter at `all` lists every alert, in order. |
| Alerts.ActiveAlerts | src/components/admin/ViewAllAlerts.tsx:180 | In list order, exactly the active alerts, each as often as in the list. |
| Alerts.CriticalAlerts | src/components/admin/ViewAllAlerts.tsx:181 | In order, exactly the active critical alerts, each as often as in the list. |
| Alerts.CriticalWithinActive | src/components/admin/ViewAllAlerts.tsx:180-181 | Critical ⊆ active ⊆ all, as subsequences, with the counts ordered to match. |
| Alerts.KeptClasses | src/components/admin/ViewAllAlerts.tsx:371 | `filter(Boolean)` keeps only non-empty class names, and none when every argument is off or empty. |
| Alerts.KeptIsFilter | src/components/admin/ViewAllAlerts.tsx:371 | Keeping the class names is filtering the argument values, with `false` read as empty, by truthiness. |
| Alerts.KeptClassesMeaning | src/components/admin/ViewAllAlerts.tsx:371 | The kept names are the non-empty class names in the order passed, each as often as passed, and nothing else. |
| Alerts.JoinWithSpaces | src/components/admin/ViewAllAlerts.tsx:371 | `join(' ')` lays the parts out in order, each at its offset, with one space after every part but the last, and nothing more. |
| Alerts.Cn | src/components/admin/ViewAllAlerts.tsx:370-372 | `cn` lays out the kept class names joined by single spaces, and is empty exactly when no argument is a non-empty class name. |
| Alerts.NothingKept | src/components/admin/ViewAllAlerts.tsx:371 | Nothing is kept exactly when every argument is off or an empty name. |
| Alerts.KeptSingle | src/components/admin/ViewAllAlerts.tsx:370-372 | When exactly one argument is switched on, `cn` keeps exactly that class. |
| Alerts.CardClasses | src/components/admin/ViewAllAlerts.tsx:297-303 | A card's classes are `border-l-4` and exactly one colour, the one for its severity. |

## Left out

- React rendering, toasts' visual form, icons and badges (`getPaymentStatusBadge`, `getPaymentIcon`, `getSeverityIcon`, `getSeverityBadge`, `getStatusBadge`, `getDistrictName`, `getProductName`) are not modelled. They only pick markup.
- JSON serialisation and browser storage are abstracted to one slot. The content is either an envelope read back as written or unparsable text. Storage errors are a refusal flag on `Save`. The storage key and console logging are not modelled.
- Floating-point averages and ratios are not modelled: `averageTrustScore`, `averageTransactionValue`, `averageScore`, `totalValue`, `successRate`. This includes their NaN on empty lists. The trust score uses exact reals in place of binary floating point.
- The per-user, per-payment, per-product, per-shipment detail lists of the reports, the dates formatted by `date-fns`, the `generateReport` dispatcher and the report download are not modelled.
- Verification.VerifyPage.HandleScanResult: the verification that `handleScanResult` schedules on a 100 ms timer is not modelled. It runs a closure captured before the input update. Timers and React re-rendering are outside the model.
- `handleSampleCode` and the scan error toast only set the input or show a message, and are not modelled.
- Strings are sequences of Unicode scalar values, not UTF-16 code units. `toLowerCase` lowers ASCII capitals only.
- The demo alert list the alert board starts with is a parameter of the board's constructor.
- QR image rendering (`generateDataUrl`, `generateSVG`) is done by a library, and `window.location.origin` is a parameter.
- `Math.random()` and `Date.now()` are parameters. The model does not claim the draws are uniform.
- Reports.GenerateTrustScoreReport: trust scores are integers, so the NaN that the user editor stores when its score field is emptied (`parseInt` of an empty string, in the user management dialog) cannot be represented. In the application such a user falls in no bucket, so there the buckets can add up to fewer than the users.
- Escrow.Progress: the payment card's `getProgress` is the same mapping and is not modelled separately.
- The reducer's `default` branch cannot be reached, because actions form a closed datatype.
- The short hash follows the code, `hash.slice(-4)`, that is the last four characters.
