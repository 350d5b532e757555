# zio, modelled and proved

zio is a bounded readiness poller. A `Poll` owns a fixed table of registrations, changes the kernel
through a mutation driver that reports how far each change got, waits on kqueue or epoll, and hands over
a bounded batch of events. This project models the state machines behind that and proves what each layer
relies on the next to keep.

The layers, bottom up:

- **Registration table** (`Token`, `Slots`, `RegistrationTable`, `PollOwner`): a generational allocator
  with an intrusive free list. It stands for a bounded map from ids to entries; that map is the field
  `live`, and every operation is specified by what it does to it.
- **Mutation machine** (`MutationMachine`): register, modify and delete, each split at its one native call
  into a half that validates and reserves and a half that settles by whatever was reported. The report is
  an arbitrary value, so the contracts hold over every driver.
- **Kernel and kqueue policy** (`Kernel`, `KqueueCodec`, `KqueuePolicy`, `KqueueMutations`): the kernel is
  a map from descriptor and filter to token and enabled flag. It is an adversary that may fail any single
  change and may answer with too few or malformed receipts.
- **Containment** (`Containment`): the kernel holds only the wake and filters that live registrations claim,
  each under its own token and within the interest of a proven one. This survives every kernel and every
  failed call; scoped deletion and the size of the native batch rest on it.
- **Agreement** (`Agreement`): containment, and the arm states besides: armed means exactly the filters of the
  interest, enabled under this token; disarmed means nothing enabled and nothing outside the interest.
- **kqueue wait** (`KeventBatch`, `DisarmBatch`, `Pending`, `Observation`, `Recovery`, `FailedWait`,
  `KqueueWait`, `KqueuePoll`): arena phases, coalescing, disarm planning, receipt reduction,
  validate-then-commit delivery, and what a wait that cannot deliver leaves behind. `WaitAccount` tells a
  delivering wait on its records, receipts and events alone.
- **epoll** (`EpollTranslation`, `EpollBatch`, `EpollPoll`, `EpollList`): translation in place in the bytes of
  the caller's storage, for any record sizes and codecs (`EpollLayout` shows that such layouts exist), and the
  kernel's interest list beside the table.
- **Whole runs** (`Runs`, `KqueueRuns`, `EpollRuns`): any number of calls on either poller, over any kernel,
  with a record of what every call did to the table and added to the delivery log.
- **eventfd wake loop** (`WakeLoop`, `EventFd`): a step system with any number of wakers, and the two retry
  loops as runs of it.
- **Conformance of the test kit** (`ScriptedDriver`, `ScriptedPoll`, `ModelActions`, `ReferenceModel`,
  `ModelSequence`, `SequenceRunner`): scripted driver, reference model and program generator, for every
  seed instead of the fixed corpus.

## Assumptions about the outside

- kqueue: a receipt that names its change and carries a status in range tells the truth about that change;
  a missing-entry error on a delete or disable means that the filter is absent; an interrupted submission,
  on the targets that say so, was applied in full. These are the predicates `Replies` and
  `RepliesWithoutReceipts`. An honest kernel also reports only filters that are installed and enabled
  (`Honest`); what depends on honesty says so.
- epoll: a wait returns at most the number of records asked for. Nothing is assumed about which. An honest
  kernel (`EpollRuns.Serves`) makes each change in full or not at all, refuses to add a listed descriptor, reports
  only what its interest list allows and disables a one-shot by reporting it; what depends on that says so.
- eventfd: a write of one completes exactly while the counter has room, a read takes the whole counter, and
  every completed write queues an edge.
- kqueue: live registrations have distinct descriptor numbers, since each owns a duplicate.

## Findings

- A kernel that reports a disabled one-shot makes a kqueue wait fail only after its disarms were submitted
  (`src/observe.rs:104-116`). The caller sees no event and the table does not move, so it may keep claiming
  that other registrations of that batch are armed. `KqueueWait.FailedWaitKeepsAgreement` gives the exact
  guard on the batch: agreement survives every reply of the kernel if and only if a record is malformed
  or no armed one-shot was to be delivered. `KqueuePolls.KqueuePoll.Wait` carries it,
  `FailedWaits.FailedWaitHappens` is the input, and `KqueueWait.HonestWaitDelivers` shows that an honest
  kernel never leads there. Only arm states go wrong: containment, what a successful delete leaves and the
  bound on installed filters hold after any such failure.
- An epoll batch that reports one one-shot twice, or while it is disarmed, is refused after earlier records
  of the batch have already disarmed their entries (`src/observe.rs:60-75`), and a wake in it is lost to
  the caller. `EpollPolls.EpollPoll.Wait` states which batches are refused, which entries are then disarmed,
  and that none is exactly when no one-shot comes before the refused record.
  `EpollTranslations.RefusalHappens` is the input, and `EpollRuns.HonestRunDelivers` shows that an honest
  kernel never leads there.
- A waker that drained a saturated counter and then fails outright takes earlier wakes with it.
  `WakeLoop.StepKeepsSound` shows that this is the only step of the protocol that loses one, and that it
  always does when no other drained waker is left. `WakeLoop.LossIsReachable` is a run that does it from an
  empty counter.

The predicate `Audit` is true everywhere. It only marks the ids at which a proof looks into a map.

## Model

| member | source | states |
|---|---|---|
| Token.EncodeRoundTrip | src/token.rs:39-45 | encoding fails at the last index only; otherwise decoding undoes it, the unchecked split agrees, and the token is never the wake token |
| Token.DecodeRoundTrip | src/token.rs:47-60 | whatever decodes is the encoding of what it decodes to; every other token is stale |
| Token.EncodeInjective | src/token.rs:39-45 | no two slot generations share a token |
| Token.PackingIsBitExact | src/token.rs:25-61 | the shifts and masks are the arithmetic of the model on 64-bit words |
| RegistrationTables.RegistrationTable.New | src/table.rs:30-44 | a table exists exactly up to the largest representable limit, and starts with no live entry |
| RegistrationTables.RegistrationTable.BindingOf | src/table.rs:46-61 | lookup is the live map; stale ids and, on request, uncertain entries are refused |
| RegistrationTables.RegistrationTable.Resolve | src/table.rs:63-73 | only a live registration in a proven state is observable by its token |
| RegistrationTables.RegistrationTable.CommitModify | src/table.rs:79-92 | a committed modification replaces interest and mode, rearms, and touches no other entry |
| RegistrationTables.RegistrationTable.MarkUncertain | src/table.rs:94-97 | exactly one entry becomes uncertain |
| RegistrationTables.RegistrationTable.ApplyDisarm | src/table.rs:99-119 | succeeds exactly on an armed one-shot and moves it by the commit status; every refusal changes nothing |
| RegistrationTables.RegistrationTable.Accounted | src/table_reserve.rs:156-188 | live, free, exhausted and virgin slots add up to the limit; all exhausted means none live |
| RegistrationTables.RegistrationTable.TakeFreshPermit | src/table_reserve.rs:156-188 | a virgin slot while there is one; at the limit, exhaustion is reported exactly when every slot is spent, capacity otherwise, and no internal error is reachable |
| RegistrationTables.RegistrationTable.TakeReusedPermit | src/table_reserve.rs:190-219 | the head of the free list always yields its next generation; none of the four refusals is reachable |
| RegistrationTables.RegistrationTable.ReserveFresh | src/table_reserve.rs:53-80 | the slot is appended under an id never issued before, and the live map gains exactly the entry |
| RegistrationTables.RegistrationTable.ReserveReused | src/table_reserve.rs:98-126 | the head slot is popped into its next generation, never issued before; the stale free link it keeps does no harm |
| RegistrationTables.RegistrationTable.Retire | src/table_retire.rs:56-69 | the live map loses exactly this id; the slot heads the free list, or counts as exhausted after its last generation |
| RegistrationTables.RegistrationTable.PrepareRetire | src/table_retire.rs:124-165 | finds the slot of a live id by the unchecked split, and refuses stale and uncertain ids as a checked lookup would |
| Slots.FindIsLive | src/table.rs:126-140 | token lookup and the live map agree on all 64-bit tokens, library-made or not |
| Slots.PopKeepsWellFormed | src/table_reserve.rs:98-126 | popping keeps the free list acyclic and reaching each vacant non-terminal slot exactly once |
| Slots.RetireReusableKeepsWellFormed | src/table_retire.rs:56-69 | pushing a retired slot keeps the free list exact |
| Slots.RetireTerminalKeepsWellFormed | src/table_retire.rs:56-69 | a terminal generation leaves the list for good and is counted |
| Slots.SlotsAccounted | src/table_reserve.rs:156-188 | the four kinds of slots partition the limit |
| Slots.ChainUnique | src/table_slot.rs:1-15 | the links determine the order in which the free list is visited, so the list is a function of the stored fields |
| PollOwners.PollOwner.GetOrAssign | src/registration.rs:52-77 | an assigned owner id is kept for good; assignment fails only when the counter cannot advance |
| PollOwners.OwnersAreUnique | src/registration.rs:66-77 | no two pollers share an owner id |
| MutationMachine.RoomIsExact | src/table_reserve.rs:152-188 | there is room exactly while live and exhausted slots together are below the limit |
| MutationMachine.QueryState | src/mutation/authority.rs:7-14 | the state of a handle, with foreign handles refused before stale ones |
| MutationMachine.BeginRegister | src/mutation/register.rs:15-45 | rejected exactly for an empty interest, no room or no owner id, with nothing changed; otherwise one entry is reserved under a fresh id and one call is due |
| MutationMachine.BeginReused | src/mutation/register.rs:47-88 | the reused-slot path, with its one refusal |
| MutationMachine.BeginFresh | src/mutation/register.rs:90-133 | the fresh-slot path, with its ranked refusals |
| MutationMachine.SettleRegister | src/mutation/register.rs:141-170 | whatever the driver reports, the table follows the commit status; a proven refusal alone returns no handle |
| MutationMachine.SettledIsRegistered | src/mutation/register.rs:141-170 | reserving first and settling afterwards is registering by the reported commit |
| MutationMachine.BeginModify | src/mutation/machine.rs:105-131 | rejections are ranked owner, interest, stale, uncertain, and call no driver; otherwise the exact prior state is handed to the driver |
| MutationMachine.SettleModify | src/mutation/machine.rs:132-147 | the entry follows the commit status for every driver |
| MutationMachine.BeginDelete | src/mutation/machine.rs:150-167 | foreign and stale handles are rejected without a call; uncertain registrations can be deleted |
| MutationMachine.SettleDelete | src/mutation/machine.rs:168-189 | the generation is retired, kept or made uncertain by the commit status, and the handle comes back with every failure |
| Kernels.Touched | src/sys/kqueue_group/kqueue_delete_transition_test.rs:38-66 | with distinct targets each change alone decides its own filter |
| Kernels.Untouched | src/sys/kqueue_group/kqueue_delete_transition_test.rs:38-66 | a filter no change names stays as it was |
| KqueueCodec.Apply | src/sys/kqueue_group/kqueue_codec.rs:58-88 | an empty list is refused without a submission; otherwise one submission, and receipts returned only if there is one well-formed receipt per change in order |
| KqueueCodec.FirstRefusal | src/sys/kqueue_group/kqueue_policy.rs:141-156 | no refusal exactly when every receipt succeeded or is an excused missing delete; otherwise the error of the first that is not |
| KqueueCodec.ReceivedIsJudged | src/sys/kqueue_group/kqueue_codec.rs:58-88 | decoding and searching the receipts grants a submission exactly if it was made without receipts, or each change has a matching receipt of status zero or of an excused missing entry; otherwise the error is the error of the call itself, EIO for a malformed set, or the first other status |
| KqueueCodec.GrantedMeansDone | src/sys/kqueue_group/kqueue_policy.rs:141-156 | a submission granted by its reply and receipts left every target as its change asks |
| KqueuePolicy.Exact | src/sys/kqueue_group/kqueue_policy.rs:141-156 | the verdict on one submission is exactly what its reply and receipts prove, missing deletes excused on request; success means every change is in force, and nothing else moved |
| KqueuePolicy.PushInterests | src/sys/kqueue_group/kqueue_policy.rs:126-139 | one change per wanted filter, on distinct filters, so a change list of two always fits |
| KqueuePolicy.ReplacementInstalls | src/sys/kqueue_group/kqueue_policy.rs:164-179 | made in full, a replacement leaves exactly the filters of the interest, enabled or disabled as asked, whatever was there |
| KqueuePolicy.Cleanup | src/sys/kqueue_group/kqueue_policy.rs:108-124 | an empty interest is an error without a submission; otherwise the receipts judge it; success leaves none of the named filters, and unnamed ones are untouched |
| KqueuePolicy.ApplyRegistrationNative | src/sys/kqueue_group/kqueue_register.rs:15-47 | success exactly if the kernel made the call or returned no output, and otherwise the error is the error of the call itself or other; success on a clean descriptor installs exactly the interest |
| KqueuePolicy.RegisterDescriptor | src/sys/kqueue_group/kqueue_policy.rs:42-63 | success exactly if the first reply says made or returns no output, and it installs exactly the interest; otherwise the sweep is submitted and its receipts decide between not applied, with nothing installed, and unknown |
| KqueuePolicy.ModifyDescriptor | src/sys/kqueue_group/kqueue_policy.rs:65-92 | success exactly if the receipts of the replacement grant it, and then exactly the desired filters; otherwise the error is the first they show, the rollback is submitted, and its receipts decide between not applied, with exactly the prior filters in the prior arm state, and unknown |
| KqueuePolicy.DeleteDescriptor | src/sys/kqueue_group/kqueue_policy.rs:94-106 | one sweep, scoped for a proven state and full for an uncertain one, that succeeds exactly if its receipts grant it; a failure is always unknown, with the first error they show |
| Agreement.MutationKeepsAgreement | src/mutation/machine.rs:105-188 | a mutation confined to one descriptor keeps the agreement of every other registration |
| Containment.FreshDescriptorIsClean | src/sys/kqueue_group/kqueue_policy.rs:42-63 | in any reachable kernel, a descriptor of no live registration has no filter |
| Containment.ScopedDeleteIsComplete | src/sys/kqueue_group/kqueue_policy.rs:94-124 | the scoped delete leaves no filter of the registration behind, whether or not table and kernel agree on what is armed |
| Containment.FiltersFit | src/sys/raw_batch.rs:29-41 | installed filters never exceed two for each live registration plus the wake, in agreement or not |
| Containment.MutationKeepsContained | src/mutation/machine.rs:105-188 | a mutation of one registration, however much of it was made, leaves the kernel holding only the wake and filters that live registrations claim under their own tokens |
| Containment.OutcomesKeepContained | src/sys/kqueue_group/kqueue_disarm.rs:146-229 | moving disarmed registrations by any outcomes, over filters that at most went or were disabled, keeps that |
| Containment.DisarmsThin | src/sys/kqueue_group/kqueue_disarm.rs:146-161 | whatever part of a disarm batch is made, no filter comes in and none changes its token |
| KqueuePolicy.TaggedCarries | src/sys/kqueue_group/kqueue_policy.rs:126-139 | whatever part of a change list under one token is made, no other token comes in |
| KqueuePolicy.Replace | src/sys/kqueue_group/kqueue_policy.rs:65-92 | one replacement: its verdict, no other token, and on success exactly the interest |
| Agreement.DisarmKeepsAgreement | src/sys/kqueue_group/kqueue_disarm.rs:146-229 | however the kernel serves a disarm batch, moving each registration by its reported outcome keeps agreement |
| Agreement.UncommittedBatch | src/observe.rs:104-116 | for one given reply to the disarms, the unmoved table still agrees exactly when that reply disabled no armed filter; the step behind the guard of FailedWaits |
| KqueueMutations.RegisterWith | src/mutation/machine.rs:36-65 | one registration over the kernel: the exact rejection condition and ranked cause, nothing called then; otherwise the result is true, and containment, agreement and the delivery log are kept |
| KqueueMutations.ModifyWith | src/mutation/machine.rs:105-148 | one modification over the kernel, likewise |
| KqueueMutations.DeleteWith | src/mutation/machine.rs:150-190 | one deletion over the kernel, likewise; a success leaves no filter of the registration, agreement or not |
| KeventBatches.KeventBatch.New | src/sys/kqueue_group/kqueue_arena.rs:48-66 | refused exactly for an empty batch or a capacity the native call cannot carry |
| KeventBatches.KeventBatch.Wait | src/sys/kqueue_group/kqueue.rs:72-107 | ends both earlier phases; a count beyond the capacity is an error; what can be read afterwards is exactly what the kernel wrote |
| KeventBatches.KeventBatch.Event | src/sys/kqueue_group/kqueue_batch.rs:22-35 | a read succeeds exactly inside the current kernel-written prefix and returns that record |
| KeventBatches.KeventBatch.Stage | src/sys/kqueue_group/kqueue_arena.rs:84-115 | an empty or oversized list is refused untouched; otherwise exactly the changes are staged and both phases end |
| KeventBatches.KeventBatch.SubmitStaged | src/sys/kqueue_group/kqueue.rs:112-124 | receipts land beyond the input, which they never overlap, and only those the kernel returned can be read |
| KeventBatches.KeventBatch.ApplyBatch | src/sys/kqueue_group/kqueue_codec.rs:90-101 | a list that cannot be staged is never submitted; otherwise the submission is the whole list |
| KeventBatches.KeventBatch.ReceiptAt | src/sys/kqueue_group/kqueue_batch.rs:37-48 | a receipt read is of the current phase, and a missing entry satisfies a disable |
| KeventBatches.DisarmChanges.Next | src/sys/kqueue_group/kqueue_disarm.rs:72-97 | yields exactly the flattened plan changes in order, with an exact remaining count |
| KeventBatches.FlattenAt | src/sys/kqueue_group/kqueue_disarm.rs:187-229 | change j of plan p has index start(p) + j, which is where its receipt is read |
| KeventBatches.ChangeAtIndex | src/sys/kqueue_group/kqueue_disarm.rs:40-57 | indexed changes and the change list of a plan agree |
| DisarmBatches.DisarmBatch.Push | src/sys/kqueue_group/kqueue_disarm.rs:123-144 | only an empty interest or a full plan list refuses; the change capacity never does |
| DisarmBatches.DisarmBatch.Submit | src/sys/kqueue_group/kqueue_disarm.rs:146-161 | each plan gets the commit that the receipts of its own changes prove: applied if each is cleared, not applied if each is denied, otherwise unknown; the error is the error of the call itself or that of the first change that is not cleared |
| DisarmBatches.OutcomeIsExact | src/sys/kqueue_group/kqueue_batch.rs:37-48 | a disable is cleared by a call made without receipts or by a matching receipt of status zero or missing entry, denied by any other status, and unknown without a usable receipt |
| DisarmBatches.CommitIsProved | src/sys/kqueue_group/kqueue_disarm.rs:187-229 | the reduced commit of a run of changes is the one that their receipts prove |
| DisarmBatches.VerdictFailsFirst | src/sys/kqueue_group/kqueue_disarm.rs:146-161 | the reported error is the error of the call itself, or that of the first change not cleared |
| DisarmBatches.ReducePlan | src/sys/kqueue_group/kqueue_disarm.rs:187-229 | counting satisfied and refused filters computes the commit of the plan and keeps the earliest error |
| DisarmBatches.SettlePlans | src/sys/kqueue_group/kqueue_disarm.rs:187-229 | all plans in submission order, on consecutive receipts |
| DisarmBatches.FirstErrorIsFirst | src/sys/kqueue_group/kqueue_disarm.rs:187-229 | the reported error belongs to the first outcome that is not satisfied |
| DisarmBatches.CommitsCoverOutcomes | src/sys/kqueue_group/kqueue_disarm.rs:187-229 | every plan is applied exactly when every receipt is satisfied |
| Pending.KqueuePending.Add | src/pending_kqueue.rs:71-100 | keeps the entries a summary of the batch: the first distinct registrations in first-seen order, each with the union of all its hints |
| Pending.KqueuePending.Clear | src/pending_kqueue.rs:48-69 | sparse clearing restores an index with no entry anywhere |
| Pending.UnindexedSlotLeavesRoom | src/pending_kqueue.rs:71-100 | while a slot is unindexed, fewer entries than slots are retained, so a stored index never equals the empty marker |
| Pending.SummaryUnique | src/pending_kqueue.rs:71-100 | the batch determines its summary |
| Events.EventBuffer.TryPush | src/event.rs:221-230 | refuses exactly at capacity, naming the count required and the count there is |
| Recovery.Validate | src/observe_recovery.rs:78-120 | accepts exactly the batches whose delivered entries are armed or level, whose outcomes are theirs in order, and whose error is present iff some outcome is not applied |
| Recovery.Finish | src/observe_recovery.rs:17-76 | all or nothing: on error table and events are unchanged; on success the events are the delivered prefix then the wake, and the table moves by the outcomes |
| Recovery.OutcomesApplied | src/observe_recovery.rs:46-76 | exactly the registrations with an outcome move, each to the state of its outcome |
| Recovery.OneShotIdsDelivered | src/observe_recovery.rs:78-120 | outcomes are for exactly the delivered one-shot registrations |
| Observation.HonestBatchDeliverable | src/observe.rs:78-136 | in agreement, a kernel that reports only enabled filters makes every batch deliverable |
| Observation.PlansForOneShots | src/observe.rs:119-136 | one plan for every delivered one-shot, in delivery order |
| KqueueWait.CollectPending | src/observe.rs:83-101 | the observation loop coalesces exactly the records of live proven registrations and notes the wake |
| KqueueWait.PrepareDisarms | src/observe.rs:119-136 | never fails: distinct entries cannot outnumber the room for plans |
| KqueueWait.Deliver | src/observe.rs:102-116 | errs exactly when some delivered one-shot is not armed, then delivers nothing and moves no entry; the disarms of exactly the one-shots to deliver are submitted either way, and each outcome and the reported error are what their receipts prove |
| KqueueWait.Translate | src/observe.rs:78-116 | the whole translation: what it delivers, when it errs, what was submitted, what an error leaves in the kernel, and that agreement survives a success |
| KqueueWait.HonestWaitDelivers | src/observe.rs:78-116 | in agreement with an honest kernel, translation never errs |
| KqueueWait.WaitWith | src/observe.rs:14-23 | the account of a success; an error leaves no event and moves no entry; errors are ranked storage, native call, batch; only the last can have touched the kernel, by its disarms, and a malformed record has not |
| KqueueWait.DeliveredCount | src/observe.rs:102-103 | entries and a reported wake never exceed the capacity, and an entry is left out only when they use it up |
| KqueueWait.TellsAccount | src/observe.rs:78-116 | a delivering wait told on records and events alone: every observed registration has one entry with the union of its hints in first-record order, left out only when room is used up; the events are those entries and then the wake; exactly the delivered one-shots were armed and move by their commits |
| WaitAccounts.SummaryCoalesces | src/pending_kqueue.rs:71-100 | coalescing keeps every record of a live proven registration that still owns its descriptor, level or one-shot, and nothing else |
| WaitAccounts.ObservedInOrder | src/pending_kqueue.rs:71-100 | what is retained earlier was observed before every record of what is retained later |
| WaitAccounts.OutcomesReport | src/observe.rs:119-136 | exactly the one-shots among the delivered entries have an outcome, and each was armed |
| WaitAccounts.OutcomesInOrder | src/observe.rs:119-136 | outcomes come in the order of the delivered entries |
| WaitAccounts.OutcomesMove | src/table.rs:99-119 | a disarm that was made leaves disarmed, one that was not leaves armed, an unproven one uncertain, and nothing else moves |
| WaitAccounts.PlansTold | src/sys/kqueue_group/kqueue_disarm.rs:146-229 | one submission asks for exactly the disables of the reported one-shots, each outcome has the commit its own receipts prove, and the reported error is the first they show |
| WaitAccounts.PlansSubmitDisarms | src/observe.rs:104-105 | the disarms of the one-shots to deliver are submitted in one call, armed or not |
| FailedWaits.AgreementSurvives | src/observe.rs:104-116 | every reply to the disarms keeps agreement with the unmoved table exactly when no armed one-shot was to be delivered |
| FailedWaits.NothingArmedKeeps | src/observe.rs:104-116 | without an armed one-shot, no reply breaks agreement |
| FailedWaits.SomethingArmedBreaks | src/observe.rs:104-116 | with one, the reply that makes every disable breaks it |
| FailedWaits.FailedWaitHappens | src/observe.rs:104-116 | an input at which a wait fails and leaves the table wrong |
| KqueueWait.FailedWaitKeepsAgreement | src/observe.rs:78-116 | a wait that cannot deliver keeps agreement under every kernel exactly on batches that are malformed or deliver no armed one-shot |
| KqueueWait.DeliveryKeepsSound | src/observe.rs:14-23 | delivering keeps one-shot deliveries apart |
| KqueueWait.LeavingKeepsContained | src/observe.rs:102-116 | whatever the submitted disarms left, and whether or not the batch was delivered, the kernel holds only what live registrations claim |
| Runs.StaleForever | src/table.rs:126-140 | over any run, a retired id never becomes live again |
| Runs.IssuedOnce | src/table_reserve.rs:190-219 | over any run, no id is issued twice |
| Runs.RunsAreOrderly | src/table_reserve.rs:190-219 | over any run, the ledger of issued ids never repeats and what is retired stays retired |
| Runs.ModifyFits | src/mutation/machine.rs:132-147 | a modification that reached its native call logs a rearm exactly if it was committed, and keeps one-shot deliveries apart |
| Runs.DeliveriesFit | src/observe.rs:14-23 | a reported batch keeps a modification or a not-applied outcome between any two deliveries of one one-shot generation |
| KqueuePolls.KqueuePoll.WithCapacity | src/poll.rs:56-85 | fails exactly on an empty capacity or a native batch too large for one call, and the four fixed capacities fit each other |
| KqueuePolls.KqueuePoll.Register | src/mutation/machine.rs:36-65 | rejected exactly on the ranked causes, calling nothing; otherwise it returns a handle to an armed entry exactly if the kernel made the call or returned no output, and else the sweep decides what the result claims; containment and agreement are kept |
| KqueuePolls.KqueuePoll.Modify | src/mutation/machine.rs:105-148 | likewise for modification: it succeeds exactly if the receipts of the replacement grant it, missing deletes excused, and only a committed one is logged as a rearm |
| KqueuePolls.KqueuePoll.Delete | src/mutation/machine.rs:150-190 | likewise for deletion: exactly the filters of a proven interest, or both of an uncertain one, are named, and it succeeds exactly if their receipts grant it; a success leaves no filter behind, whatever failed before, and every failed deletion is unknown |
| KqueuePolls.KqueuePoll.NativeBatchHoldsEveryFilter | src/sys/raw_batch.rs:29-41 | in every reachable state the native batch has room for every installed filter |
| KqueuePolls.KqueuePoll.Wait | src/observe.rs:14-58 | one observation: when it succeeds, the account of what it hands over, what it submitted and how it moves table and log; and what a failure submitted and leaves of the kernel and of agreement; containment is kept either way |
| KqueueRuns.PlayOne | src/observe.rs:14-58 | any permitted call keeps the invariant of the poller, moves the table as its record says and logs exactly what its record says; over an honest kernel it keeps agreement and no wait fails internally |
| KqueueRuns.PlayRun | src/observe.rs:14-58 | every run of any length over any kernel: between two waits that hand over one one-shot generation comes a committed modification or an unapplied disarm of it; the delivery log is the concatenation of what the recorded calls delivered and rearmed; no id is issued twice, retired ids stay retired and refused; the kernel holds only filters of live registrations, which fit the native batch; over an honest kernel table and kernel agree and no wait fails internally |
| KqueueRuns.RunsKeepOneShotsApart | src/observe_recovery.rs:17-76 | over any record, two waits that hand over one one-shot generation are separated by a committed modification of it or by a report that its disarm was not applied |
| KqueueRuns.HandingOverUnarms | src/observe_recovery.rs:17-76 | a handed over one-shot was armed, and is not armed afterwards unless its disarm was reported not applied |
| ScriptedDrivers.ScriptedDriver.Register | src/test_support/driver.rs:101-124 | records the call, plays one step, and leaves the backend as the outcome claims |
| ScriptedDrivers.ScriptedDriver.Modify | src/test_support/driver.rs:126-154 | a call for an unknown registration or a changed descriptor is a structural failure that plays nothing |
| ScriptedDrivers.ScriptedDriver.Delete | src/test_support/driver.rs:156-177 | likewise for deletion |
| ScriptedDrivers.ScriptedDriver.EstablishDisarmed | src/test_support/driver.rs:43-55 | succeeds exactly on an installed one-shot of this descriptor, and records only a success |
| ScriptedDrivers.ScriptedDriver.Next | src/test_support/driver.rs:70-79 | one step is taken even when it plans another operation; that and an exhausted script are structural failures, and the first is kept |
| ScriptedDrivers.ScriptedDriver.Finish | src/test_support/driver.rs:57-68 | succeeds exactly with no fault and no step left |
| ScriptedDrivers.BackendModel.EstablishDisarmed | src/test_support/model.rs:132-155 | the backend half of a disarm |
| ScriptedDrivers.BackendModel.MarkUnknown | src/test_support/model.rs:157-167 | an unknown result is remembered, for known and unknown registrations alike |
| ScriptedPolls.RegisterMirrors | src/test_support/model.rs:35-62 | table and backend agree after a registration with any outcome |
| ScriptedPolls.ModifyMirrors | src/test_support/model.rs:79-108 | table and backend agree after a modification with any outcome |
| ScriptedPolls.DeleteMirrors | src/test_support/model.rs:110-130 | table and backend agree after a deletion with any outcome |
| ScriptedPolls.ScriptedPoll.Register | src/test_support/poll.rs:55-74 | over any script the table refines the live map, a rejection has its ranked cause and makes no call, and backend and table keep agreeing |
| ScriptedPolls.ScriptedPoll.Modify | src/test_support/poll.rs:92-100 | likewise for modification |
| ScriptedPolls.ScriptedPoll.Delete | src/test_support/poll.rs:102-105 | likewise for deletion |
| ScriptedPolls.ScriptedPoll.EstablishDisarmed | src/test_support/poll.rs:115-131 | succeeds exactly on an armed one-shot of this poller and disarms it on both sides |
| ScriptedPolls.ScriptedPoll.BackendStateOf | src/test_support/poll.rs:138-141 | the backend state of every id is what the table claims, and absent for every other id |
| ModelActions.Generator.NextAction | crates/zio-testkit/src/model_sequence_generate.rs:58-88 | the action is the one that the drawn choices name in the state it is generated for, it runs there, and the generator moves with it |
| ModelActions.EveryActionIsNamed | crates/zio-testkit/src/model_sequence_generate.rs:58-88 | every action that a state generates is named by some choices within their ranges |
| ModelActions.NamedIsGenerated | crates/zio-testkit/src/model_sequence_generate.rs:58-88 | and choices name no other action |
| ModelActions.Generator.Observe | crates/zio-testkit/src/model_sequence_generate.rs:113-177 | the generator state follows the abstract transition of every action |
| ModelActions.Generate | crates/zio-testkit/src/model_sequence_generate.rs:23-34 | every seed yields 64 actions, each runnable where it comes |
| ReferenceModels.ReferenceModel.RecordRegister | crates/zio-testkit/src/model_sequence_model.rs:88-109 | refused exactly when a handle is held or the id was issued before |
| ReferenceModels.ReferenceModel.CompleteRegister | crates/zio-testkit/src/model_sequence_model.rs:111-141 | a handle is held exactly after every outcome but a proven refusal |
| ReferenceModels.ReferenceModel.Disarm | crates/zio-testkit/src/model_sequence_model.rs:143-160 | refused exactly unless an armed one-shot is held |
| ReferenceModels.ReferenceModel.RecordModify | crates/zio-testkit/src/model_sequence_model.rs:162-180 | refused exactly unless a proven handle is held; the call names its prior state |
| ReferenceModels.ReferenceModel.CompleteModify | crates/zio-testkit/src/model_sequence_model.rs:182-204 | the held entry follows the outcome |
| ReferenceModels.ReferenceModel.RecordDelete | crates/zio-testkit/src/model_sequence_model.rs:206-214 | refused exactly when no handle is held |
| ReferenceModels.ReferenceModel.CompleteDelete | crates/zio-testkit/src/model_sequence_model.rs:216-232 | the handle is retired, kept or made uncertain by the outcome |
| ReferenceModels.VacantRoom | src/table_reserve.rs:152-188 | a vacant single slot has room exactly while it is short of its last generation |
| ReferenceModels.IssueCounts | crates/zio-testkit/src/model_sequence_model.rs:88-109 | every attempt, failed ones included, takes one more generation of the slot and repeats none |
| ModelSequences.ExpectMutationResult | crates/zio-testkit/src/model_sequence_expect.rs:60-72 | passes exactly on the planned result |
| ModelSequences.ExpectRegister | crates/zio-testkit/src/model_sequence_expect.rs:15-58 | passes exactly on the planned result, with a handle for the id the driver saw or none after a proven refusal |
| ModelSequences.ExpectDelete | crates/zio-testkit/src/model_sequence_expect.rs:74-88 | passes exactly on the planned result with the same handle returned |
| ModelSequences.RegisterTies | crates/zio-testkit/src/model_sequence_step.rs:62-91 | a registration passes every check exactly when the machine did not refuse it, and both sides then agree |
| ModelSequences.StoreTies | crates/zio-testkit/src/model_sequence_step.rs:93-124 | the same change to the held entry on both sides keeps the agreement |
| ModelSequences.DeleteTies | crates/zio-testkit/src/model_sequence_step.rs:141-161 | a scripted deletion keeps the agreement for every outcome |
| ModelSequences.PerformRegister | crates/zio-testkit/src/model_sequence_step.rs:62-91 | succeeds exactly when runnable with a generation and an owner id to be had, and then agreement and the abstract step hold |
| ModelSequences.PerformRegisterInvalid | crates/zio-testkit/src/model_sequence_step.rs:41-60 | likewise; the poller rejects the empty interest without a call |
| ModelSequences.PerformDisarm | crates/zio-testkit/src/model_sequence_step.rs:93-106 | likewise for a delivered one-shot |
| ModelSequences.PerformModify | crates/zio-testkit/src/model_sequence_step.rs:108-124 | likewise for modification |
| ModelSequences.PerformModifyInvalid | crates/zio-testkit/src/model_sequence_step.rs:126-139 | likewise; rejected without a call |
| ModelSequences.PerformDelete | crates/zio-testkit/src/model_sequence_step.rs:141-161 | likewise for deletion |
| ModelSequences.ProbeRefused | crates/zio-testkit/src/model_sequence_probe.rs:14-67 | every operation on a handle this poller does not hold is refused with the one right error and changes nothing |
| ModelSequences.PerformProbeStale | crates/zio-testkit/src/model_sequence_probe.rs:14-39 | succeeds exactly when some handle was retired |
| ModelSequences.PerformProbeWrongPoller | crates/zio-testkit/src/model_sequence_probe.rs:41-67 | succeeds exactly when a handle is held, and leaves the other poller undisturbed |
| ModelSequences.VerifyStranger | crates/zio-testkit/src/model_sequence_probe.rs:115-160 | passes on an undisturbed stranger, and only if its registration is armed with one call made |
| ModelSequences.Verify | crates/zio-testkit/src/model_sequence_verify.rs:10-76 | passes exactly when calls, active state, every issued backend state and every retired handle are as the model expects |
| ModelSequences.TiedIsVerified | crates/zio-testkit/src/model_sequence_verify.rs:10-76 | agreement is enough for every comparison to pass |
| SequenceRunners.SequenceContext.Execute | crates/zio-testkit/src/model_sequence_step.rs:19-39 | an action succeeds exactly when it is runnable and affordable, and machine, backend, model and stranger are in agreement again |
| SequenceRunners.SequenceContext.VerifyAll | crates/zio-testkit/src/model_sequence_verify.rs:10-16 | the full comparison passes after every action |
| SequenceRunners.Setup | crates/zio-testkit/src/model_sequence_runner.rs:112-142 | fails exactly without an owner id left; otherwise two pollers are in agreement with an empty model and the script of the whole program |
| SequenceRunners.Finalize | crates/zio-testkit/src/model_sequence_runner.rs:92-109 | after the last action both scripts are consumed exactly |
| SequenceRunners.RunProgram | crates/zio-testkit/src/model_sequence_runner.rs:81-110 | a program runs to its end exactly when each action is runnable where it comes and each registration finds a generation and an owner id; otherwise it fails at the first that does not |
| SequenceRunners.RunModelSequence | crates/zio-testkit/src/model_sequence_runner.rs:34-37 | the generated program of every 64-bit seed runs without divergence in a process with two owner ids left |
| EpollTranslations.SequentialIsFilterMap | src/observe.rs:60-75 | classifying in sequence is the filter-map over the entries before the batch with every reported one-shot disarmed; it refuses exactly when a one-shot is reported disarmed or twice |
| EpollTranslations.RefusalKeepsPrefix | src/observe.rs:60-75 | a refused batch has disarmed exactly the one-shots of the longest beginning that is accepted |
| EpollTranslations.NothingDisarmed | src/observe.rs:60-75 | such a beginning changes no entry exactly when it reports no one-shot |
| EpollTranslations.RefusalHappens | src/observe.rs:60-75 | an input at which a refused batch disarms an entry it does not deliver |
| EpollTranslations.TranslationFits | src/sys/linux_group/epoll.rs:125-137 | resources and wake together never outnumber the records |
| EpollTranslations.TranslationAccount | src/observe.rs:60-75 | a batch told on records, entries and events alone: when it is accepted, which event stands where, and which entries are disarmed, accepted or not |
| EpollTranslations.FilterMapAt | src/sys/linux_group/epoll.rs:73-137 | the event of a record stands at the place that counts the earlier records of live proven registrations |
| EpollBatches.EpollBatch.New | src/sys/linux_group/epoll.rs:48-71 | exists exactly for a positive C-int capacity and layouts whose native tail fits and is aligned |
| EpollBatches.WriteStaysBehind | src/sys/linux_group/epoll.rs:117-122 | an event no later than its record ends before the next unread record begins, for all sizes with the event at least as large |
| EpollBatches.PutKeepsIntact | src/sys/linux_group/epoll.rs:103-124 | writing an event in place keeps every unread record and every earlier event |
| EpollBatches.EventsReadBack | src/sys/linux_group/epoll.rs:132-136 | the committed prefix reads back as the events written |
| EpollBatches.Classify | src/observe.rs:63-74 | every live registration in a proven state resolves to its key, level or one-shot; a one-shot is disarmed, and refused if it is not armed; any other token resolves to nothing |
| EpollBatches.EpollBatch.Wait | src/sys/linux_group/epoll.rs:230-265 | refuses unsuitable storage, stages the kernel records in the tail and stamps the batch; a failed wait leaves no stamp |
| EpollBatches.EpollBatch.Translate | src/sys/linux_group/epoll.rs:73-137 | the in-place rewrite equals the out-of-place translation plus the trailing wake; a broken stamp is refused and touches nothing; the stamp is always spent |
| EpollLayouts.BitLayoutIsValid | src/sys/linux_group/epoll.rs:52-58 | layouts as the epoll contracts require them exist, with the event at least as large as the native record |
| EpollPolls.FiringFits | src/observe.rs:60-75 | a translated batch keeps a modification between any two deliveries of one one-shot generation |
| EpollPolls.EpollPoll.Register | src/mutation/machine.rs:36-65 | over any native report: the exact rejection condition and cause, or the entry the report claims under a fresh id |
| EpollPolls.EpollPoll.Modify | src/mutation/machine.rs:105-147 | over any native report: ranked rejections, or the entry follows the report; only a committed one is logged as a rearm |
| EpollPolls.EpollPoll.Delete | src/mutation/machine.rs:150-189 | over any native report: ranked rejections, or the entry follows the report |
| EpollPolls.EpollPoll.Wait | src/observe.rs:14-75 | succeeds exactly with enough storage, a native answer and no repeated or disarmed one-shot; then every record of a live proven registration has its event at its place, then the wake, and exactly the reported one-shots are disarmed and logged; an error leaves the storage empty; a refusal says which entries it disarmed, logs nothing and loses a reported wake |
| EpollRuns.PlayOne | src/observe.rs:14-75 | any call over any report or records keeps the invariant of the poller, moves the table as call and result say, and logs a delivery for exactly the one-shots of an accepted batch or a rearm for a committed modification |
| EpollRuns.PlayRun | src/observe.rs:60-75 | every run: between two waits that hand over one one-shot generation comes a committed modification of it; the log is the concatenation of what calls and results say; no id is issued twice, and retired ids stay retired and refused |
| EpollRuns.RunsKeepOneShotsApart | src/observe.rs:60-75 | over any record, two waits that hand over one one-shot generation are separated by a committed modification of it |
| EpollLists.RecordKeepsAgreement | src/sys/linux_group/backend.rs:128-142 | what an interest list in agreement with the table may report fires armed one-shots only, and reporting disables in the kernel what translation disarms in the table |
| EpollLists.HonestBatchFiresOnce | src/observe.rs:60-75 | a batch whose every record could be reported in its turn is accepted by translation, and table and list agree again afterwards |
| EpollRuns.HonestStep | src/sys/linux_group/backend.rs:79-126 | every call over a kernel that makes each change in full or not at all keeps table and interest list in agreement, and an honest wait is not refused |
| EpollRuns.HonestRunDelivers | src/sys/linux_group/backend.rs:79-126 | over every run on such a kernel table and interest list agree after every call and no wait fails internally |
| WakeLoop.StepKeepsSound | src/sys/linux_group/eventfd.rs:48-69 | every single step of any waker or wait keeps every owed wake, except the hard failure of the last waker that has drained |
| WakeLoop.RunsStaySound | src/sys/linux_group/eventfd.rs:48-69 | over every interleaving without that failure, an owed wake is visible or a drained waker still owes its write |
| WakeLoop.OwedMeansUnreported | src/sys/linux_group/eventfd.rs:48-59 | owed means that some wake succeeded and no wait has reported since |
| WakeLoop.QuietWaitIsExact | src/sys/linux_group/backend.rs:68-75 | with no waker inside a call, the next wait reports exactly if a wake succeeded since the last report |
| WakeLoop.ReportsAreEarned | src/sys/linux_group/backend.rs:68-75 | every report stands for a wake that succeeded since the last one |
| EventFds.EventFd.Drain | src/sys/linux_group/eventfd.rs:61-69 | with any steps of others in between, the loop reads, and reads again only after an interruption; a drain that ends took the counter or found it empty and owes a write; it gives up only after the given number of reads |
| EventFds.EventFd.Attempt | src/sys/linux_group/eventfd.rs:50-57 | one pass of the loop: a completed write ends it, an interrupted one repeats it, and one that would block drains before the next |
| EventFds.EventFd.Wake | src/sys/linux_group/eventfd.rs:48-59 | likewise for the whole retry loop: after a write that would block the next call is a read, after a drain a write; when it succeeds its write is the last step, so a wake is owed that no wait has reported; a hard error is the last step of a failure; it gives up only after the given number of calls |
| WakeLoop.LossIsReachable | src/sys/linux_group/eventfd.rs:48-69 | a run from an empty counter in which a drained waker fails, wakes are owed, nobody is left to write and no wait can report them |
| WakeLoop.OwedWriteShows | src/sys/linux_group/eventfd.rs:54-57 | the write owed by a drained waker cannot block, and completing it makes the wake visible |

## Left out

- System calls, descriptor duplication, ownership and closing: a descriptor is a number, a native call is a value or an adversarial choice, and uniqueness among live registrations is assumed.
- MutationMachine.SettleRegister: the driver trait is not a trait here; each operation is split around its native call, and a driver that panics in between is not modelled.
- KqueuePolicy.Exact: the fixed two-element change and receipt arrays are sequences; that two always suffice is the length clause of the change-list functions.
- KeventBatches.KeventBatch.Stage: encoding a change cannot fail here, because descriptors are in range by type; the encoding-error path is not modelled.
- KeventBatches.KeventBatch.New: change counts are checked against the 32-bit count of macOS and FreeBSD; the wider NetBSD count is not modelled.
- EpollBatches.EpollBatch.Translate: the stamp is compared by address as in the source; that the storage behind an equal address is the one stamped is a precondition, which holds because a wait and its translation are one call.
- EpollPolls.EpollPoll.Register: the Linux driver reports every failure as not applied; here the report is any value, and only runs over an honest kernel are tied to an interest list.
- EventFds.EventFd.Wake: the kernel may interrupt a call any number of times, so the loops are followed for a given number of calls; that a waker eventually gets past its interruptions is not stated.
- ModelActions.Generate: nothing is said about which choices a given seed leads to, since the result holds for all of them; the coverage flags of the corpus are not modelled.
- ModelSequences.Verify: a divergence is reported by its check; the expected and actual texts, traces and reports are not modelled.
- SequenceRunners.Setup: failures of the fixtures themselves (socket pairs, allocation) are not modelled.
- The readiness flag tables and timeout conversions: finite or single-expression facts; kqueue readiness is a function of the record and epoll readiness an uninterpreted map.
- The waker handle, wake keys and user-filter setup of kqueue, the unsupported backend, errors as text, and the borrowed registration variant: they add only easy members.
- The hand-written mutation scenarios of the test kit: finite cases of the result for all programs.
- Qualification, benchmarks and native readiness suites: measurement and I/O code.
- Allocation failure: every capacity is fixed at construction.
