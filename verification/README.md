# Verified model of the simple-ecommerce protocols

A Dafny 4.11 model of the parts of the shop where a mistake costs money, leaks a session or silently rewrites a
document. `dafny verify dfyconfig.toml` checks all of it.

| component | files |
|---|---|
| payments, refunds and one order's book | `PaymentTypes`, `Transitions`, `Settlement`, `SettlementInvariants`, `RefundProtocol`, `SettlementTheorems`, `RefundRace`, `RefundGuard`, `OutsideRefund`, `RefundGateway`, `RefundRuns`, `RefundAcceptance`, `RefundCalls`, `RefundRecovery`, `RefundService` |
| lease-fenced prepay of one payment row | `Prepay`, `PrepayService` |
| sessions and token rotation | `Sessions`, `SessionTheorems`, `AuthService` |
| OpenAPI document rewriter | `PathTemplates`, `YamlTree`, `StableSort`, `YamlSlices`, `PatchSpec`, `PatchTraversals`, `PatchTheorems`, `PatchIdempotence`, `PatchDocumentTwice`, `PatchManualRoutes`, `PatchInPlace`, `ProtoGraph` |
| orders, prices, images | `Decimals`, `Orders`, `Pricing`, `Media` |

## How it is modelled

Concurrent protocols are total step functions over labels; a label carries every choice of the environment (who acts,
lost acknowledgements, crashes, provider verdicts, clock readings) and a label that is not enabled changes nothing.
`Run` folds the step over a list of labels, so a theorem about `Run` holds for every interleaving. The database
transactions are modelled from the SQL and the repository code, one atomic function each. The Go methods that drive a
protocol are class methods that perform their own steps and let any list of foreign steps happen in each gap; their
`trace` ties the object's state to a run of the machine, so the theorems about runs apply to it.

The list surgery of the rewriter is done on a slice class with a backing array and a length, so that sharing and
capacity are visible: appending and inserting say what they leave in the array that other slices may still share. The
tree above the lists is a value.

### Assumptions

- PostgreSQL transactions are atomic, row locks and unique indexes hold as declared in the migration.
- The provider accepts a refund number at most once as a movement of money and answers a repeated number with its first
  acceptance; it never accepts a number it was not asked for; a query reports a success or a refund only if its ledger
  shows one.
- Lease tokens, session identifiers and refund numbers drawn by the generators are new.
- Redis runs a script atomically, shares the service's clock and drops a key once its clock has passed the expiry time.
- Refunds are prepared only for methods the gateway can refund, and a query reports the refunded state only where the
  adapter can (`RefundGateway.Obeys`; app/mall/internal/biz/payment_refund.go:28-34). The runs shown obey this, and the
  buyer of such a run pays with the action that was handed out.
- Tokens cannot be forged: only issued tokens parse. Accounts are not recreated under an old identifier.
- The object store creates an immutable object only if it is absent and never changes it; images are never deleted.
- Decoding an image is a function of its bytes. The JSON encoder writes integers in decimal and fields in order.
- Protobuf gives each message one patch per JSON name, no validation keyword is called `items` or
  `additionalProperties`, and no value the tool writes (numbers, booleans, `int64`, `uint64`, lists, mappings) has the
  text of a key it is written with (`ModelOk`; tools/openapi-doc/validate.go:99-220).
- A document is a parsed one: every mapping alternates keys and values (`Parsed`). Keys may repeat, and sequences and
  scalars may stand anywhere.

### Results that differ from what the code says about itself

- A refund marked failed does not mean that the money stayed: a rejection that is recorded late can overwrite nothing
  but a pending record, yet another execution of the same number may have been accepted in between, and the order can
  then be shipped. `RefundRuns.ShippedAlthoughRefunded` is such a run, for any order and any method that can be refunded; `RefundRace.FailedMeansUnmovedIff` gives the
  exact condition on the executions under way, sent or not. `RefundGuard.GuardedSendsKeepUnmoved` gives a rule for
  sending under which it never happens; `RefundRuns.LonelySendMovesFailed` shows that the rule may not be weakened to
  "no other execution and no open request of the number".
- A settled refund does not have an accepted number in every run the core allows: a query that reports a refund made
  outside the shop settles the pending record too. `RefundAcceptance.SettledMeansAcceptedIff` says when it has: exactly
  if no method can be both refunded and reported as refunded. The two adapters of the shop meet that condition
  (`RefundAcceptance.BuiltInSettlesAccepted`): Alipay refunds and never reports the state, WeChat Pay reports it and does
  not refund. An adapter that does both would break it.
- The provider's ledger can fall short of what the order is entitled to, exactly when a failed record's money moved.
- The repairs of a pending order that already has a captured payment, the decision that does nothing for a new success,
  and the branch for a pending payment without an action are never reached.
- The rewriter says that each of its steps is idempotent. On the tree it is not when the info block is no mapping
  (`PatchManualRoutes.SequenceInfoDrifts`), when a list of odd length stands where responses or a schema belong and lacks
  a written key (`PatchManualRoutes.OddResponsesDocument`), when a hand-written path equals a route with variables, or
  when two hand-written documents of one path differ. The iff theorems below say exactly when each of these matters. A
  scalar info block drifts in the tree only: what is written under a scalar is not printed
  (`PatchDocumentTwice.ScalarInfoIdempotentIff`). Merging responses is settled by the second merge, whatever the list.

## Model

| member | source | states |
|---|---|---|
| `Prepay.StepKeeps` | app/mall/internal/biz/payment_prepay.go:58-124 | every step of every caller, of expiry and of settlement keeps the row, lease, call and history invariant |
| `Prepay.ConfirmedUnissuedIsFinal` | app/mall/internal/biz/payment_unissued.go:5-22 | once a row is confirmed unissued, at any clock reading, no caller has or will ever get an action; for products that are not signed locally the provider was never asked and never will be |
| `Prepay.NetworkConfirmIff` | app/mall/internal/biz/payment_unissued.go:10-22 | for such products a fenced row without a transaction is confirmed exactly when nobody ever claimed it |
| `Prepay.AllCallersGetOneAction` | app/mall/internal/biz/payment_prepay.go:73-124 | any two calls that get an action, however far apart, get the same complete one, that of the row |
| `Prepay.ActivationHasCheckJob` | app/mall/internal/biz/payment_prepay.go:97-111 | a polled product's row has an action exactly when a check job was committed |
| `Prepay.PendingHasAction` | app/mall/internal/biz/payment_prepay.go:61-67 | a pending payment always has its action |
| `Prepay.FailedCallGetsNothing` | app/mall/internal/biz/payment_prepay.go:112-120 | a call that failed never gets an action in any continuation |
| `Prepay.LatestClaimActivates` | app/mall/db/query/payments.sql:117-142 | only the holder of the latest claim can activate the row, with its own provider answer |
| `PrepayService.ValidateOutTradeNo` | app/mall/internal/biz/payment_prepay.go:127-141 | a number is accepted iff it is 1 to 64 letters, digits, underscores or hyphens; which error otherwise |
| `PrepayService.Precheck` | app/mall/internal/biz/payment_prepay.go:16-50 | a request reaches the payment row iff it is admissible; each error iff its check is the first to fail |
| `PrepayService.Service.OpenPayment` | app/mall/internal/biz/payment_prepay.go:51-67 | the snapshot of the row decides between its action, a refusal and going on |
| `PrepayService.Service.ClaimLease` | app/mall/internal/data/payment_repository.go:108-133 | a claim wins the lease, or a miss yields the activated row's action or a refusal |
| `PrepayService.Service.AskProvider` | app/mall/internal/biz/payment_prepay.go:79-95 | an error or an incomplete answer leaves only a failure to record |
| `PrepayService.Service.Activate` | app/mall/internal/biz/payment_prepay.go:97-120 | the action is handed out only by a committed transaction |
| `PrepayService.Service.ReadActivated` | app/mall/internal/data/payment_repository.go:141-153 | after a missed finalize the winner's action is the answer |
| `PrepayService.Service.PrepayForOrder` | app/mall/internal/biz/payment_prepay.go:11-125 | against any interference the result is the committed row's action with its check job, or the error the call ended with; an inadmissible request changes nothing; alone on a claimable row it returns the provider's action |
| `Transitions.ResolvedCasesBalance` | app/mall/internal/biz/payment_reconciliation.go:101-141 | payments that all can be resolved include at most one success, and the money kept is the order total iff the order is funded by one of them, else zero |
| `SettlementInvariants.CommitKeeps` | app/mall/internal/data/payment_settlement.go:18-326 | every committed transaction keeps the book invariant and takes nothing settled back |
| `SettlementInvariants.SuccessHasEffect` | app/mall/internal/biz/payment_transition.go:12-26 | for a payment not captured yet the decision pays for the order or flags the payment |
| `RefundProtocol.LocalEffects` | app/mall/internal/data/payment_settlement.go:18-278 | transactions outside the refund calls change refund records and captures only as the provider's report allows |
| `RefundProtocol.StepKeeps` | app/mall/internal/biz/payment_refund.go:35-152 | every step of executors, provider, crashes and order transactions keeps the protocol invariant |
| `SettlementTheorems.PayingPaymentSetOnce` | app/mall/internal/data/payment_settlement.go:100-326 | the paying payment is set exactly in paid, shipped, completed and refunded, is unique, and is never replaced in any run |
| `SettlementTheorems.NewSuccessIsNeverSilent` | app/mall/internal/biz/payment_transition.go:12-26 | a first-time success always pays for the pending order or leaves the order alone and flags the payment |
| `SettlementTheorems.HealingIsDead` | app/mall/internal/data/payment_settlement.go:285-326 | a pending order never has a captured payment to heal from |
| `SettlementTheorems.KeptMoneyMatchesOrder` | app/mall/internal/biz/payment_reconciliation.go:101-141 | without open reviews the money kept is the order total while it is funded, else zero |
| `SettlementTheorems.LedgerMatchesOrderIff` | app/mall/internal/biz/payment_refund.go:49-79 | in every reachable state with captures recorded, no open review, no refund under way and none made outside, the provider's net equals what the order is entitled to iff no failed record's money moved (or the total is zero) |
| `SettlementTheorems.StockRestoredOnce` | app/mall/db/query/order_items.sql:18-24 | reserved stock goes back once, exactly when the order ends cancelled or refunded |
| `SettlementTheorems.RefundMovesAtMostOnce` | app/mall/internal/biz/payment_refund.go:35-137 | over all calls, workers and crashes a record's money moves at most once, exactly when its number was accepted; a settled record was accepted or refunded outside |
| `SettlementTheorems.RefundRecordIsFixed` | app/mall/internal/data/refund_repository.go:56-146 | a record keeps its number and purpose and never leaves success |
| `SettlementTheorems.PendingRecordSettles` | app/mall/internal/biz/payment_transition.go:28-64 | a pending record's purpose is still valid in every reachable book, so its settlement succeeds with exactly its effect |
| `SettlementTheorems.ConfirmedRefundSettles` | app/mall/internal/data/refund_repository.go:178-224 | whatever happened to the order meanwhile, a confirmed refund settles |
| `SettlementTheorems.OrderIsReversedOnce` | app/mall/internal/biz/payment_transition.go:28-64 | at most one refund record ever reverses the order: one settled now and one settled after any continuation are the same |
| `SettlementTheorems.RefundedSignOffIff` | app/mall/internal/biz/payment_reconciliation.go:101-141 | a refunded payment is signed off iff its version is current, it awaits review and, while the order is funded, the paying payment has no open case, pending refund or outside refund |
| `SettlementTheorems.FailureNeedsRejection` | app/mall/internal/biz/payment_refund.go:139-152 | only a recorded provider rejection fails a record, and only a pending one |
| `SettlementTheorems.SettlementErrorNeverFails` | app/mall/internal/biz/payment_refund.go:75-78 | after a rolled back settlement, and whatever the others do meanwhile, recording the error leaves the whole book as they left it |
| `RefundRace.FailedMeansUnmovedIff` | app/mall/internal/biz/payment_refund.go:66-79 | while the executions under way, sent or only prepared, finish in any order, no failed record's money moves iff no execution races with another of the same number |
| `RefundGuard.GuardedSendsKeepUnmoved` | app/mall/internal/biz/payment_refund.go:50-79 | in every state of every run whose requests are sent only while their record is pending and no request or unrecorded rejection of the number is open, no failed record's money has moved |
| `RefundRuns.ShippedAlthoughRefunded` | app/mall/internal/data/order_fulfillment.go:14-98 | for every gateway, every method it can refund and any order and numbers, a run from the prepay on ends with the order shipped although its only money went back |
| `RefundRuns.UnsentCallRaces` | app/mall/internal/biz/payment_refund.go:35-48 | likewise a run to one call waiting and one about to send: nothing moved yet, and they race |
| `RefundRuns.LonelySendMovesFailed` | app/mall/internal/biz/payment_refund.go:35-48 | likewise a run to the only execution, with no open request, that still moves a failed record's money |
| `OutsideRefund.SettledWithoutAcceptanceIff` | app/mall/internal/data/payment_settlement.go:18-278 | in every state a step settles a record whose number was never accepted iff it is a genuine query of its readable row that matches it, is no confirmation of an unissued payment, reports a refund and finds the record's purpose still valid |
| `OutsideRefund.SomeStepSettlesIff` | app/mall/internal/data/payment_settlement.go:200-235 | some step can settle such a pending record iff money went back outside the shop and the row's method can be read |
| `RefundAcceptance.SettledUnacceptedOccurs` | app/mall/internal/data/payment_settlement.go:200-235 | for every gateway that can both refund and report a method, a run ends with a record of that method settled under a number that was never accepted |
| `RefundAcceptance.SettledMeansAcceptedIff` | app/mall/internal/data/payment_settlement.go:200-235 | in every run a gateway allows each settled record's number was accepted iff no readable method can be both refunded and reported as refunded |
| `RefundAcceptance.BuiltInSettlesAccepted` | app/mall/internal/data/payment_alipay.go:334-345 | with the shop's own adapters each settled record's number was accepted, in every run |
| `RefundAcceptance.BuiltInShipsRefunded` | app/mall/internal/data/payment_alipay.go:88-95 | with the shop's own adapters an order can be shipped although its money went back |
| `RefundService.Service.RecordFailure` | app/mall/internal/biz/payment_refund.go:139-152 | one record per failure: an error iff the write did not commit or the row was no longer pending, otherwise rejected iff the error is definitive, and the record has that status |
| `RefundService.Service.AwaitReply` | app/mall/internal/biz/payment_refund.go:63-73 | confirmed iff the provider accepted and the reply arrived, a definitive error iff it rejected and the reply arrived, otherwise an error that is not definitive |
| `RefundService.Service.ApplyRefund` | app/mall/internal/biz/payment_refund.go:75-78 | a commit of a pending record settles it whatever happened to the order; every other outcome leaves an error that is not definitive |
| `RefundService.Service.Execute` | app/mall/internal/biz/payment_refund.go:54-79 | the steps taken are exactly send, answer, settlement after a confirmation and one record of any error, among the others' steps; settled iff the settlement ended the execution, a record error iff the write failed or the row was not pending, and the record has the reported status |
| `RefundService.Service.PrepareAndExecute` | app/mall/internal/biz/payment_refund.go:111-137 | refused iff the payment or its method cannot be loaded, the preparation is refused or lost, or it names another record than expected; otherwise prepared, and executed unless settled before |
| `RefundCalls.UndisturbedCall` | app/mall/internal/biz/payment_refund.go:35-79 | a call that nobody disturbs settles, rejects, defers or fails to record as provider verdict, reply and commits decide, also for a number accepted before |
| `RefundService.Service.RefundPayment` | app/mall/internal/biz/payment_refund.go:13-48 | the admin call is exactly such a call with a fresh number; undisturbed it settles iff accepted, delivered and committed, and rejects iff rejected, delivered and recorded |
| `RefundRecovery.WorkerCallGoes` | app/mall/internal/biz/payment_refund.go:111-137 | a pending record can be prepared again in every state, whatever happened to the order and wherever an execution stopped |
| `RefundRecovery.PassSettlesAllIff` | app/mall/internal/biz/payment_refund.go:81-137 | recovery: from every state one undisturbed pass over all pending records settles them all iff each is accepted now or was before and its reply and settlement arrive; each record's report and status are decided by that |
| `RefundService.Service.ReconcileRefund` | app/mall/internal/biz/payment_refund.go:97-137 | one listed record: its own number and identifier are prepared again; an error before the gateway call is recorded and never definitive |
| `RefundService.Service.ReconcilePendingRefunds` | app/mall/internal/biz/payment_refund.go:85-109 | the pass is exactly one such call per listed record, in turn, each with one report; a refused one is deferred iff the record is committed on a row still listed; the count is that of the settled ones, which are settled at the end |
| `SessionTheorems.StepKeeps` | app/mall/internal/data/auth.go:29-88 | every step of starts, refreshes, logouts, account changes and the clock keeps the session invariant |
| `SessionTheorems.NumericDateRoundTrip` | app/mall/internal/biz/auth.go:108-109 | the token's time precision is exact on a whole second |
| `SessionTheorems.MeasuredLifetimeCovers` | app/mall/internal/data/auth.go:35-47 | a lifetime measured earlier and cut to milliseconds still covers every instant before the deadline |
| `SessionTheorems.OneDeadlinePerSession` | app/mall/internal/biz/auth.go:98-162 | any two tokens of a session share user and version; refresh tokens share one whole-second deadline and no access token outlives it |
| `SessionTheorems.DeadlineNearLifetime` | app/mall/internal/biz/auth.go:102-110 | the deadline is never after the configured lifetime and less than a second before the refresh timeout |
| `SessionTheorems.OneUsableRedemption` | app/mall/internal/biz/auth.go:120-139 | for any racing refreshes at most one redemption of a token yields a pair that is not already expired |
| `SessionTheorems.LogoutIsFinal` | app/mall/internal/biz/auth.go:172-192 | an allowed logout succeeds, and in every continuation no token of the session is active or redeemed again, also one signed by a racing refresh |
| `SessionTheorems.LogoutTouchesOneSession` | app/mall/internal/biz/auth.go:172-183 | other sessions keep their state and a refused logout changes nothing |
| `SessionTheorems.OldVersionNeverValid` | app/mall/internal/biz/auth.go:64-82 | once a session's version is outdated or the account is gone, no descendant token ever passes the account check |
| `AuthService.Service.ValidateAccount` | app/mall/internal/biz/auth.go:66-82 | false for every token of a session that was outdated at any time of the run; accepted iff the version is current, and the claims get the current role |
| `AuthService.Service.ValidateSession` | app/mall/internal/biz/auth.go:84-96 | false once an allowed logout of the session happened anywhere in the run; accepted iff the claims are complete access claims and the session is active for the user |
| `AuthService.Service.StartSession` | app/mall/internal/biz/auth.go:98-118 | a returned pair is issued in an active session under the verified version; alone it succeeds iff the inputs allow it |
| `AuthService.Service.CreateSession` | app/mall/internal/data/auth.go:29-47 | the key is created iff the lifetime is positive and the identifier unused, and is then active |
| `AuthService.Service.ConsumeRefresh` | app/mall/internal/data/auth.go:57-73 | going on means that this token was burned; alone iff the session is alive and the token unburned |
| `AuthService.Service.RefreshSession` | app/mall/internal/biz/auth.go:120-139 | a returned pair has the token's session, user, version and deadline; alone it succeeds iff token, account and session allow it |
| `AuthService.Service.SignOut` | app/mall/internal/biz/auth.go:175-192 | succeeds iff the logout is allowed, and then the session is inactive; otherwise nothing changes |
| `PathTemplates.NormalizeIdempotent` | tools/openapi-doc/patch.go:242-261 | normalising twice is normalising once |
| `PathTemplates.SameNormalSameCount` | tools/openapi-doc/patch.go:211-261 | equal normal forms have equally many variables |
| `PathTemplates.SubstituteIff` | tools/openapi-doc/patch.go:211-240 | a substitution gives the route iff it agrees with the variables position by position |
| `PathTemplates.RenamingGivesRouteIff` | tools/openapi-doc/patch.go:211-224 | renaming gives the route character for character iff equal variables stand for equal variables |
| `PathTemplates.DistinctIsConsistent` | tools/openapi-doc/patch.go:211-224 | distinct variables always satisfy that condition |
| `PathTemplates.RepeatedVariableLosesName` | tools/openapi-doc/patch.go:217-222 | a repeated variable where the route has two different ones loses a name, whatever they are called |
| `PathTemplates.FindVariables` | tools/openapi-doc/patch.go:226-240 | the scanning loop computes the variables |
| `PathTemplates.NormalizePathTemplate` | tools/openapi-doc/patch.go:242-261 | the scanning loop computes the normal form |
| `PathTemplates.PathRenames` | tools/openapi-doc/patch.go:211-224 | the loop builds the positional renames |
| `PathTemplates.BuildTemplates` | tools/openapi-doc/patch.go:196-209 | rejected iff two routes differ only by variable names; otherwise every route is found under its normal form and nothing else is |
| `YamlTree.PutIdempotentIff` | tools/openapi-doc/yaml.go:86-95 | setting a key twice is setting it once iff the list alternates properly, the key was there, or the odd last node has its text and the value is the key node itself |
| `YamlTree.PlacementIdempotentIff` | tools/openapi-doc/yaml.go:97-122 | placing a key behind an anchor or first is idempotent iff the node is a mapping |
| `YamlTree.InsertSplits` | tools/openapi-doc/yaml.go:124-136 | an insertion leaves prefix and suffix untouched and stands directly behind the first anchor |
| `YamlTree.PutAllTwiceIff` | tools/openapi-doc/patch.go:494-498 | for every list and every batch of keyed writes the second batch changes nothing iff the first reads back |
| `YamlTree.ReadsBackIff` | tools/openapi-doc/patch.go:494-498 | where no written value has the text of a written key, it reads back iff the list alternates, or every written key is there already or is the odd last node's text and written twice |
| `StableSort.SortIsStable` | tools/openapi-doc/yaml.go:146-151 | sorted, a permutation, and stable at every rank |
| `StableSort.StableOrderUnique` | tools/openapi-doc/patch.go:425 | there is one stable sorted order, so every stable sort computes it |
| `StableSort.InsertionSort` | tools/openapi-doc/yaml.go:146-151 | the nested loops compute that order in place |
| `YamlSlices.SortContentIsStable` | tools/openapi-doc/yaml.go:138-156 | the sorted list holds the same pairs in stable order and is a fixed point |
| `YamlSlices.Content.AppendAt` | tools/openapi-doc/yaml.go:129-135 | appending behind a prefix gives prefix plus new nodes, in place or in a new array; a shared array is overwritten from there on in the first case and untouched in the second |
| `YamlSlices.OtherSliceSeesIff` | tools/openapi-doc/yaml.go:129-135 | another slice over a shared array sees the same list iff what is written over it within its length is equal |
| `YamlSlices.Content.Write` | tools/openapi-doc/yaml.go:86-95 | the value is replaced in place or the pair appended, for any capacity |
| `YamlSlices.Content.InsertAfter` | tools/openapi-doc/yaml.go:124-136 | exact for any backing capacity; what it leaves in the array it found: pair and rest, the pair alone when the rest no longer fits, or nothing |
| `YamlSlices.Content.Prepend` | tools/openapi-doc/yaml.go:118-122 | the pair comes first, in a new array |
| `YamlSlices.Content.SortPairs` | tools/openapi-doc/yaml.go:138-156 | the pairs are sorted back into the same array |
| `YamlSlices.DedupeSorted` | tools/openapi-doc/protos.go:240-251 | on a sorted list what remains is strictly increasing with the same members |
| `YamlSlices.DedupeInts` | tools/openapi-doc/protos.go:240-251 | reading and writing one array computes exactly that list |
| `PatchTraversals.LookupSorted` | tools/openapi-doc/yaml.go:138-156 | a stable sort by key keeps every lookup |
| `PatchTheorems.MergedTwiceIff` | tools/openapi-doc/patch.go:370-430 | for every list merging the error responses twice is merging them once iff the first merge reads back |
| `PatchTheorems.TwoMergesSuffice` | tools/openapi-doc/patch.go:370-430 | for every list nothing changes from the second merge on |
| `PatchTheorems.OddResponsesDrift` | tools/openapi-doc/patch.go:370-430 | a list of one node on which the second merge adds the missing code again |
| `PatchTheorems.OperationTwiceIff` | tools/openapi-doc/patch.go:263-335 | a patched operation is left alone under the route's own renames iff its responses and parameter schemas fit what is written into them |
| `PatchIdempotence.PathsTwiceIff` | tools/openapi-doc/patch.go:153-194 | renaming, manual routes and sorting find nothing to do the second time iff every entry fits |
| `PatchIdempotence.SchemasTwiceIff` | tools/openapi-doc/patch.go:432-498 | keywords, required lists, the error schema and sorting find nothing to do the second time iff every schema fits |
| `PatchDocumentTwice.InfoIdempotentIff` | tools/openapi-doc/patch.go:107-115 | patching the info block is idempotent iff it is a mapping |
| `PatchDocumentTwice.RootIdempotentIff` | tools/openapi-doc/patch.go:77-151 | for every parsed root on which a run succeeds, the second run succeeds and changes nothing iff the info block is a mapping and every list written into fits |
| `PatchDocumentTwice.ScalarInfoIdempotentIff` | tools/openapi-doc/main.go:76-92 | with a scalar info block, printed without what was written under it, the next run gives the same tree iff everything else fits |
| `PatchDocumentTwice.DocumentIdempotentIff` | tools/openapi-doc/patch.go:77-105 | the same for a parsed file |
| `PatchManualRoutes.SequenceInfoDrifts` | tools/openapi-doc/patch.go:107-115 | a root with an empty sequence for info on which a run succeeds and the second changes it |
| `PatchManualRoutes.OddResponsesDocument` | tools/openapi-doc/patch.go:370-430 | a root with a sequence of one node for responses on which a run succeeds and the second changes it |
| `PatchManualRoutes.AlwaysTwiceIff` | tools/openapi-doc/patch.go:157-194 | the tool is idempotent on every parsed document that fits iff documents of one hand-written path agree and no hand-written path is a route with variables |
| `PatchInPlace.MergeCodes` | tools/openapi-doc/patch.go:370-430 | the loop over a shared slice merges and orders the codes |
| `PatchInPlace.PatchEntries` | tools/openapi-doc/patch.go:166-182 | entries are renamed and patched where they stand, or the run fails |
| `PatchInPlace.AddMissing` | tools/openapi-doc/patch.go:183-191 | exactly the missing manual routes are appended |
| `PatchInPlace.RewritePaths` | tools/openapi-doc/patch.go:157-194 | the whole step in place fails or leaves the patched, completed and sorted list |
| `ProtoGraph.Model.MarkRequestMessages` | tools/openapi-doc/protos.go:222-238 | on any graph a call terminates and adds only reachable messages, each with all its successors |
| `ProtoGraph.Model.MarkAll` | tools/openapi-doc/protos.go:82-88 | marked are exactly the messages some request reaches |
| `Orders.CheckItems` | app/mall/internal/biz/order.go:205-217 | accepted iff all items are in range and distinct; the error is that of the first bad item |
| `Orders.Validate` | app/mall/internal/biz/order.go:191-217 | accepted iff the request is valid; each error iff its check is the first to fail, the items last |
| `Orders.CanonicalUnique` | app/mall/internal/biz/order.go:218 | only one order by product exists, so the unstable sort is determined |
| `Orders.SameHashInputIff` | app/mall/internal/biz/order.go:252-264 | two valid requests have the same hash input iff user and address agree and the items are permutations |
| `Orders.Service.CreateOrder` | app/mall/internal/biz/order.go:190-250 | one to three calls with one hash input, a fresh number each, a repeat only after a collision, the last reply as result; none for an invalid request |
| `Pricing.MinorPriceIsExact` | app/mall/internal/biz/mall.go:14-22 | a price converts to m iff m fits and equals a hundred times the price exactly |
| `Pricing.DiscountAcceptedIff` | app/mall/internal/biz/mall.go:24-32 | accepted iff it is one of 0.01 to 1.00, in any notation |
| `Pricing.EffectivePriceIsHalfUp` | app/mall/internal/biz/mall.go:34-48 | the discounted price rounded half up, off by at most half a unit, between zero and the list price, in any notation |
| `Pricing.EffectivePriceMonotone` | app/mall/internal/biz/mall.go:34-48 | monotone in price and discount, and a price that fits still fits |
| `Media.ValidateImageIff` | app/mall/internal/biz/media.go:54-73 | accepted iff header and full decoding agree on a picture of the declared type within the limits |
| `Media.CompletionsAgree` | app/mall/internal/biz/media.go:103-139 | in every interleaving all images handed out are equal and describe the published bytes, which never change |
| `Media.ReadyRowDescribesObject` | app/mall/internal/data/media.go:74-115 | a ready row describes the published bytes |
| `Media.Service.PublishImage` | app/mall/internal/biz/media.go:121-131 | the bytes are published, or those of the first completion are verified |
| `Media.Service.Complete` | app/mall/internal/biz/media.go:103-139 | a returned image describes the published bytes; alone on a fresh asset the verified staged image is returned |

## Left out

- SettlementTheorems.RefundMovesAtMostOnce: a settled record implies acceptance of its number or an outside refund, because the stronger claim depends on the gateway (`RefundAcceptance.SettledMeansAcceptedIff`).
- PatchDocumentTwice.RootIdempotentIff: compares trees; of the printer only that a scalar's content is dropped is modelled, for the info block.
- PatchManualRoutes.AlwaysTwiceIff: the tree above the content lists is a value; sharing of nodes through YAML aliases is not modelled.
- Orders.SameHashInputIff: is about the text that is hashed; collisions of SHA-256 are not modelled.
- PrepayService.Precheck: takes the trimmed description's length in bytes as an input and does not model the trimming.
- RefundService.Service.ReconcilePendingRefunds: takes the listed records as an input; the age and limit of the listing are not modelled.
- Error texts, logging, metrics, tracing, caches and their invalidation, and job queues beyond the check job of an activation.
- Operator identities and audit rows of reconciliation and fulfilment actions.
- Signing, hashing and encryption libraries, image decoding, YAML parsing and printing, network clients.
- Generated API code, bootstrap, configuration and the dependency graph.
- Exponent overflow of the decimal library and its printing.
- The texts of summaries and error descriptions, the set of status codes of an operation and the mapping from validation rules to keywords enter the rewriter as inputs.
- Media expiry, deletion and sweeping; the property is about completions without deletion.
- Posts, comments, browsing history, categories, events, pagination and rate limits.
