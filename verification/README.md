# Verified models of the reference applications

These Dafny modules model the protocols at the core of the reference
applications and services, and prove what those protocols promise over all inputs
and all runs.

* **Admission producer** (`AdmissionModel`, `AdmissionMachine`, `AdmissionSafety`,
  `AdmissionTheorems`, `AdmissionProducer`). A command store with compare-and-swap,
  an admission store and a lookup index that do not commit together. Any number of
  processes run over the same stores; a process advances from one await to the
  next and may stop for good anywhere. The crash-free meaning of a list of
  commands, `RunAll`, is a separate definition, and every run refines it. The
  class `ReferenceAdmissionProducer` runs one process over the same state; its
  field `luck` decides which durable call fails, before its effect or only in its
  reply.
* **LCH settlement** (the modules `Settlement…`). The issuer with any number of
  handlers in flight, split at every await. Signatures are modelled by what was
  released: a signature of the issuer or of a Payee exists only on a body it
  released. `SettlementSafety` and `SettlementTheorems` prove what no run can break,
  `SettlementFields` and `SettlementAuthority` by whom and for what everything was
  signed, and `SettlementRuns` and `SettlementJourney` give the runs that get
  somewhere: a delivery is taken, a transaction attested, a License issued.
* **Buyer** (`AcquisitionClient`) and **Agreement** (`Agreement`,
  `LicenseAcceptance`): recovery across failed acquire calls, the decision on an
  Agreement, and the fact that what the issuer issues is what the buyer accepts.
* **Snapshots** (`Snapshot`), **paging** (`Paging`, `Ordering`), the **outbox**
  (`Outbox`, `OperationStore`), **event streams** (`Subscriptions`) and two
  **binary codecs** (`HeaderCodec`, `Wav`, `Bytes`).

Objects that the source updates in place are classes. Their methods are proved
against functions on values; the theorems about runs are stated on those
functions. In the machines a step that does not apply leaves the world as it is.

What the models take for granted: a compare-and-swap succeeds on the current
revision, or repeats the exact swap that produced the next one; an index commit
succeeds on the current head with the row revisions it read, or repeats the exact
group that follows its base; one submission is atomic, a repeated submission
changes nothing, and AC spends A if A is an unspent admitted output by then; the
row of a record has one possible value, so a row is present or absent; the library
validators accept a bundle only if its signatures are genuine and its output
carries the Demand's amount.

## What turned out to hold only under a condition

* A spent record stays out of the index only if it was admitted before the first
  replace. When `replace` runs first, AC is admitted with nothing to spend, and a
  later `publish` or `reintroduce` shows A beside its own replacement.
  `AdmissionTheorems.SpentStaysOut` is an equivalence, and
  `AdmissionModel.ReplaceBeforePublishShowsBoth` is the concrete run.
* The Agreement written for a `derive` request repeats a permission key, so the
  buyer refuses it; `LicenseAcceptance.IssuedLicensesAcceptable` is an equivalence
  with the request being for `play`.
* Rule keys join action and target with U+0000. The keys of two actions stand for
  (action, target) pairs exactly when neither action starts with the other followed
  by U+0000 (`Agreement.KeysAreThePairs`); `Agreement.SameKeyExactly` says which
  pairs share a key, and `Agreement.KeysCollide` is a concrete one.
* The Quote or the License of a request stays what it is exactly while no other
  handler of that request is past the check that would find it
  (`SettlementTheorems.RequestsAreStable`). Overlapping calls can issue twice:
  `SettlementOverlap.OverlapIssuesTwice` is the run.
* A tab of the outbox sends the request that is saved at that moment exactly while
  the store is still at the revision it read (`Outbox.SendIsCurrent`); reading and
  sending are apart, and `Outbox.LateSend` is a run with a late send. What is sent is
  always a request as it was saved.
* WAV decoding inverts encoding exactly when the byte count and the rate fit their
  32-bit fields (`Wav.DecodeInvertsEncode`).
* Compare-and-swap may answer `replayed` to a second process that wrote the very
  same reservation. Two processes can therefore work on one reserved command; the
  refinement and exactly-once theorems cover that.

## Model

| member | source | states |
|---|---|---|
| OperationStore.OperationStateStore.Swap | packages/application/output-knowledge/src/operations/OperationStateCodec.ts:107-130 | A swap updates only on the current revision; only the state that immediately follows the expected revision with the same bytes counts as a replay; everything else is a conflict that changes nothing |
| AdmissionModel.CommandUnfolded | apps/output-knowledge-reference/src/referenceAdmissionProducer.ts:53-70 | A whole uninterrupted command admits and projects exactly its records, although publish does so in two separately projected phases |
| AdmissionModel.CommandShowsWanted | apps/output-knowledge-reference/src/referenceAdmissionProducer.ts:53-70 | Projecting only the records of the command's phases suffices: rows that agreed with the store everywhere before a command agree everywhere after it |
| AdmissionModel.CrashFreeShowsWanted | apps/output-knowledge-reference/src/referenceAdmissionProducer.ts:264-318 | After any list of commands the crash-free rows are exactly the unspent outputs, without Q while withdrawn, and nothing but A is ever spent |
| AdmissionModel.WithdrawnIsLastSwitch | apps/output-knowledge-reference/src/referenceAdmissionProducer.ts:270-275 | The withdrawn flag holds if and only if the last publish-or-withdraw of the history was a withdraw |
| AdmissionModel.WhenAdmitted | apps/output-knowledge-reference/src/referenceAdmissionProducer.ts:53-70 | A is admitted if and only if the history has a publish or a reintroduce, Q and X if and only if it has a publish, and AC if and only if it has a replace |
| AdmissionModel.WhenSpent | apps/output-knowledge-reference/src/referenceAdmissionProducer.ts:319-355 | A is spent if and only if some command admitted it before the first replace |
| AdmissionModel.WhenAIsShown | apps/output-knowledge-reference/src/referenceAdmissionProducer.ts:356-420 | A is shown if and only if it was admitted at all and not before the first replace |
| AdmissionModel.CommitExactly | packages/application/output-knowledge/src/lookup/SQLiteLookupIndexStore.ts:442-463 | A group is appended if and only if it names the head and every row revision it read; the identical group that follows its base is returned without a change; everything else is a conflict |
| AdmissionModel.ReplaceBeforePublishShowsBoth | apps/output-knowledge-reference/src/referenceAdmissionProducer.ts:53-70 | The concrete history, replace and then publish, after which A is shown beside its replacement |
| AdmissionMachine.PhasesCover | apps/output-knowledge-reference/src/referenceAdmissionProducer.ts:53-70 | The phases of a command together admit and project exactly the command's records: none is forgotten and none is extra |
| AdmissionMachine.SubmitKeepsReady | apps/output-knowledge-reference/src/referenceAdmissionProducer.ts:295-303 | A record projected in a phase whose admissions are done is not changed by any admission the command still makes |
| AdmissionMachine.SubmitOnceMore | apps/output-knowledge-reference/src/referenceAdmissionProducer.ts:333-346 | Submitting one of the command's records early or again does not change where the whole command ends |
| AdmissionSafety.ReserveKeepsDurable | apps/output-knowledge-reference/src/referenceAdmissionProducer.ts:268-286 | Reserving a command from a state with none pending keeps the durable invariant for the history longer by that command |
| AdmissionSafety.SubmitKeepsDurable | apps/output-knowledge-reference/src/referenceAdmissionProducer.ts:333-346 | Admitting one record of the pending command keeps the durable invariant: rows already edited by the command still agree with the store |
| AdmissionSafety.CommitKeepsDurable | apps/output-knowledge-reference/src/referenceAdmissionProducer.ts:444-454 | Committing what the phase lacks makes all of the phase's rows agree with the store and disturbs no row that agreed |
| AdmissionSafety.CompleteKeepsDurable | apps/output-knowledge-reference/src/referenceAdmissionProducer.ts:305-311 | Completing after all phases reaches the crash-free state of the whole history |
| AdmissionSafety.AdvanceWrites | apps/output-knowledge-reference/src/referenceAdmissionProducer.ts:264-457 | Every step of any process, lagging or not, leaves the durable state alone or makes one of four writes on behalf of the command that is pending at that moment |
| AdmissionSafety.AdvanceKeepsProcess | apps/output-knowledge-reference/src/referenceAdmissionProducer.ts:264-457 | What a moving process relies on at its next await holds there |
| AdmissionSafety.AdmittedKeeps | apps/output-knowledge-reference/src/referenceAdmissionProducer.ts:297-300 | Going on to the next record of a phase keeps the earlier ones admitted, in order |
| AdmissionSafety.SettledKeeps | apps/output-knowledge-reference/src/referenceAdmissionProducer.ts:424-443 | After the final check of a projection the edits fit the head, or the base is stale and can only be answered by the identical group |
| AdmissionSafety.UneditedAgrees | apps/output-knowledge-reference/src/referenceAdmissionProducer.ts:419-443 | A row that needed no edit at a stale base still agrees at the head, since only the same command wrote in between |
| AdmissionSafety.SubmitKeepsProcess | apps/output-knowledge-reference/src/referenceAdmissionProducer.ts:333-346 | A submission by one process does not invalidate what any other process has already read |
| AdmissionSafety.CommitKeepsProcess | apps/output-knowledge-reference/src/referenceAdmissionProducer.ts:444-454 | After a commit by one process, another process about to commit holds the same group, now done, or a stale base |
| AdmissionSafety.CompleteKeepsProcess | apps/output-knowledge-reference/src/referenceAdmissionProducer.ts:305-311 | After a completion a process still about to commit for that command can no longer change the index |
| AdmissionSafety.NextKeepsInv | apps/output-knowledge-reference/src/referenceAdmissionProducer.ts:249-318 | Every step of every process, and every stop, keeps the invariant |
| AdmissionTheorems.CrashRefinement | apps/output-knowledge-reference/src/referenceAdmissionProducer.ts:264-318 | In every reachable state with no pending command, the serial, withdrawn flag, admission store and rows are those of the crash-free run of the reserved commands |
| AdmissionTheorems.IndexAgreesWithStore | apps/output-knowledge-reference/src/referenceAdmissionProducer.ts:356-457 | In every such state a row exists exactly when its output is unspent and it is not Q while withdrawn, and the flag is the last switch of the history |
| AdmissionTheorems.ExactlyOnce | apps/output-knowledge-reference/src/referenceAdmissionProducer.ts:268-316 | With any number of processes serials rise by one, each is reserved only when none is pending and is completed exactly once, in order |
| AdmissionTheorems.GroupsAreSmall | apps/output-knowledge-reference/src/referenceAdmissionProducer.ts:53-63 | In every run no group of the index has more than two rows, although publish projects three |
| AdmissionTheorems.StepKeepsSuperseded | apps/output-knowledge-reference/src/referenceAdmissionProducer.ts:238-248 | A command that was reserved and is no longer pending stays so under every step of every process |
| AdmissionTheorems.LaggingProcessIsHarmless | apps/output-knowledge-reference/src/referenceAdmissionProducer.ts:238-248 | Once a process works on a command that is no longer the pending one, that command is never pending again over any later run, and no process that works on it then ever changes anything durable |
| AdmissionTheorems.LaggingProcessStops | apps/output-knowledge-reference/src/referenceAdmissionProducer.ts:238-248 | Such a process soon stops: where it asks next it ends without a write, and from every other await it ends or comes to one where it asks, or to evaluations that are each asked after |
| AdmissionTheorems.OtherCommandIsRefused | apps/output-knowledge-reference/src/referenceAdmissionProducer.ts:265-293 | A new process ends at once and without a write if and only if another command than its own is pending, or none is and it asks for none |
| AdmissionTheorems.StepKeepsSpentOut | apps/output-knowledge-reference/src/referenceAdmissionProducer.ts:356-457 | Once A is spent and has no row, no step of any process, at any moment, brings the row back |
| AdmissionTheorems.SpentStaysOut | apps/output-knowledge-reference/src/referenceAdmissionProducer.ts:319-457 | From a quiescent state A stays out of the index in every later state, quiescent or not, if and only if it was admitted before the first replace |
| AdmissionTheorems.BringBack | apps/output-knowledge-reference/src/referenceAdmissionProducer.ts:258-262 | When that condition fails, one publish by any new process, and nothing else, shows A again |
| AdmissionTheorems.AloneAdvances | apps/output-knowledge-reference/src/referenceAdmissionProducer.ts:264-457 | A process that works alone never stops before completing: at any time and in whatever order its evaluations settle, every step of it gets strictly nearer, except to look again at an evaluation already done |
| AdmissionTheorems.Drive | apps/output-knowledge-reference/src/referenceAdmissionProducer.ts:264-318 | From every await of a run, a process left alone completes its command by its own steps only and reserves no other |
| AdmissionTheorems.StartAndDrive | apps/output-knowledge-reference/src/referenceAdmissionProducer.ts:249-262 | A fresh process with an admissible request, by its own steps only, ends in the crash-free state of the history with that request |
| AdmissionTheorems.RecoverCompletes | apps/output-knowledge-reference/src/referenceAdmissionProducer.ts:262-318 | From every reachable state with a pending command, the steps of one recovering process alone complete exactly that command and end where the crash-free run of the same commands ends |
| AdmissionProducer.ReferenceAdmissionProducer.constructor | apps/output-knowledge-reference/src/referenceAdmissionProducer.ts:163-207 | A new producer over an empty installation satisfies the durable invariant |
| AdmissionProducer.ReferenceAdmissionProducer.Load | apps/output-knowledge-reference/src/referenceAdmissionProducer.ts:202-237 | Loading returns the current cell, refuses while stopping, and changes nothing durable |
| AdmissionProducer.ReferenceAdmissionProducer.Saved | apps/output-knowledge-reference/src/referenceAdmissionProducer.ts:238-248 | The check succeeds only while the original command is still the pending one, and never while stopping |
| AdmissionProducer.ReferenceAdmissionProducer.Admit | apps/output-knowledge-reference/src/referenceAdmissionProducer.ts:319-355 | Success means the record is admitted; a failure at any call leaves the store as it was or with exactly that submission, and the invariant intact |
| AdmissionProducer.ReferenceAdmissionProducer.EvaluateProjection | apps/output-knowledge-reference/src/referenceAdmissionProducer.ts:356-420 | No edit if and only if the row already agrees with the store; otherwise the edit carries the row's revision and the wanted presence |
| AdmissionProducer.ReferenceAdmissionProducer.EvaluateAll | apps/output-knowledge-reference/src/referenceAdmissionProducer.ts:423-443 | The evaluations of a phase together are exactly the difference between the head and what is wanted |
| AdmissionProducer.ReferenceAdmissionProducer.Project | apps/output-knowledge-reference/src/referenceAdmissionProducer.ts:421-457 | A projection adds at most one group, on the head it read and in the name of its command, never disturbs an agreeing row, and on success all rows of the phase agree |
| AdmissionProducer.ReferenceAdmissionProducer.CommitGroup | apps/output-knowledge-reference/src/referenceAdmissionProducer.ts:444-456 | Appends exactly the one group of the phase or nothing, also when the reply is lost, and disturbs no agreeing row |
| AdmissionProducer.ReferenceAdmissionProducer.AdmitAll | apps/output-knowledge-reference/src/referenceAdmissionProducer.ts:297-300 | The admissions of a phase, stopped anywhere, disturb no row of an earlier phase, and on success all of them are done |
| AdmissionProducer.ReferenceAdmissionProducer.RunPhaseOf | apps/output-knowledge-reference/src/referenceAdmissionProducer.ts:295-303 | A successful phase leaves its records admitted and its rows, with those of all earlier phases, as wanted |
| AdmissionProducer.ReferenceAdmissionProducer.Reserve | apps/output-knowledge-reference/src/referenceAdmissionProducer.ts:265-293 | A run reserves its own command at its own time and next revision, takes up the pending one unchanged, or refuses; a lost reply still leaves a consistent reservation |
| AdmissionProducer.ReferenceAdmissionProducer.Perform | apps/output-knowledge-reference/src/referenceAdmissionProducer.ts:294-304 | Success means every phase is admitted and projected at the returned sequence; while stopping nothing durable changes |
| AdmissionProducer.ReferenceAdmissionProducer.RunPending | apps/output-knowledge-reference/src/referenceAdmissionProducer.ts:294-316 | The pending command is carried through all its phases and completed, without faults always, and success shows the crash-free outcome |
| AdmissionProducer.ReferenceAdmissionProducer.Complete | apps/output-knowledge-reference/src/referenceAdmissionProducer.ts:305-316 | Success leaves no command pending; failure at any call leaves the command pending or completed, never in between |
| AdmissionProducer.ReferenceAdmissionProducer.RunOnce | apps/output-knowledge-reference/src/referenceAdmissionProducer.ts:264-318 | Whatever fails and whenever, everything durable stays consistent and at most the requested command is reserved; success shows the crash-free outcome; without faults every admissible run succeeds |
| AdmissionProducer.ReferenceAdmissionProducer.Start | apps/output-knowledge-reference/src/referenceAdmissionProducer.ts:249-262 | Runs the requested command: success returns the sequence of the index and lengthens the history by exactly that command, or by none when another was pending or none was asked for; what is not admissible fails without effect, and without faults everything admissible succeeds; it frees the slot however the run ends |
| AdmissionProducer.ReferenceAdmissionProducer.Close | apps/output-knowledge-reference/src/referenceAdmissionProducer.ts:458-464 | Closing refuses new work at once, marks the producer closed only when no work is running any more, changes nothing durable and can be repeated |
| SettlementModel.CollectAllExactly | apps/lch-reference/src/referenceServer.ts:781-843 | The two loops accept exactly the lists of proofs that all match and of which no two share a Demand or an output, and collect exactly what those proofs say |
| SettlementModel.CollectKeepsOk | apps/lch-reference/src/referenceServer.ts:808-812 | Every accepted proof keeps receipts and authorized outputs disjoint, for Demands of the Quote, on distinct outputs that pay their Demand |
| SettlementModel.CollectAllIsOk | apps/lch-reference/src/referenceServer.ts:781-843 | That holds after any number of accepted proofs |
| SettlementModel.SettlementIsBijective | apps/lch-reference/src/referenceServer.ts:691-706 | When the size check passes, receipts and authorized outputs partition the Quote's Demands, different Demands have different outputs, each output pays its Demand, no other output is used, and together they pay exactly the Quote's total |
| SettlementModel.EveryDemandProved | apps/lch-reference/src/referenceServer.ts:746-770 | When the size check passes, every Demand without a receipt has an authorized output, so the unchecked access is always defined |
| SettlementModel.MatchExactly | apps/lch-reference/src/referenceServer.ts:781-843 | A proof is accepted if and only if its fields say so: a genuine receipt by the Demand's own Payee for this request, transaction and amount, or that Payee's authorization with delivery, evidence and acknowledgement that all speak of it and an output paying it |
| SettlementModel.CollectAllProves | apps/lch-reference/src/referenceServer.ts:781-843 | Whatever list the loops accept, each Demand is proved by what its own Payee signed |
| SettlementModel.SizeCheckCovers | apps/lch-reference/src/referenceServer.ts:705-706 | The size check compares two numbers, and that decides exactly whether every Demand of the Quote has a proof |
| SettlementServer.ReferenceLCHServer.StoreDelivery | apps/lch-reference/src/referenceServer.ts:566-608 | The object's fields change and answer, without yielding, as ClaimDeliveryExactly and the runs below say |
| SettlementServer.ClaimDeliveryExactly | apps/lch-reference/src/referenceServer.ts:566-610 | A store request is refused if and only if the delivery is for another Demand or a different pair is kept or claimed; an equal kept pair gets the kept acknowledgement, an equal claimed one waits for that claim, and otherwise the pair is claimed for its Payee |
| SettlementServer.ReferenceLCHServer.FinishAcknowledgement | apps/lch-reference/src/referenceServer.ts:599-605 | Once signed, the delivery is kept with its own acknowledgement and Payee and the promise resolves to it |
| SettlementServer.ReferenceLCHServer.CatchRejection | apps/lch-reference/src/referenceServer.ts:611-614 | A failed claimant removes its own claim and never another's |
| SettlementServer.ReferenceLCHServer.AttestTransaction | apps/lch-reference/src/referenceServer.ts:632-653 | The object's fields change and answer as BindTransactionExactly says, with the binding made before the signer yields |
| SettlementServer.BindTransactionExactly | apps/lch-reference/src/referenceServer.ts:632-653 | Said on the outputs: a mismatch if and only if not exactly one output carries the amount to the script or another transaction is bound; the kept evidence if and only if there is one and neither is the case; otherwise the transaction is bound and a signature asked for |
| SettlementServer.ReferenceLCHServer.ValidateReceiptProofs | apps/lch-reference/src/referenceServer.ts:781-814 | The loop computes the collection whose exact acceptance is proved by CollectAllExactly, for the receipts |
| SettlementServer.ReferenceLCHServer.ValidateAuthorizedOutputProofs | apps/lch-reference/src/referenceServer.ts:816-843 | Continuing with the receipts' output indices, both loops together compute the collection over all proofs in order |
| SettlementServer.ReferenceLCHServer.AfterProofs | apps/lch-reference/src/referenceServer.ts:705-708 | On what the loops collect, the size check fails if and only if some Demand has no proof; the verdict is the one by which the machine's completions go on |
| SettlementServer.ReferenceLCHServer.Complete | apps/lch-reference/src/referenceServer.ts:684-779 | Over Quotes as they are made (StartCompleteKeeps), a completion that nothing overlaps succeeds if and only if the Quote is known and its proofs all match, share no Demand and no output and leave no Demand out; each Demand of a new License is fulfilled by a proof of its own Payee for that request and transaction; a request with a License gets that License again and nothing changes |
| SettlementServer.SettledExactly | apps/lch-reference/src/referenceServer.ts:691-706 | The loops and the size check together accept exactly the completions that settle their Quote |
| SettlementServer.LicenseIsFulfilled | apps/lch-reference/src/referenceServer.ts:733-778 | The License written over a completion that settles its Quote fulfils every Demand by a proof of that completion which the Demand's own Payee gave |
| SettlementServer.ReferenceLCHServer.IssueLicense | apps/lch-reference/src/referenceServer.ts:733-778 | After the size check every Demand of the Quote is fulfilled by its own proof in the License that is kept |
| SettlementSafety.ClaimKeepsClaims | apps/lch-reference/src/referenceServer.ts:569-608 | A store request keeps the claim table sound: a new claim only where every earlier claim for the authorization was rejected |
| SettlementSafety.ProgressKeepsClaims | apps/lch-reference/src/referenceServer.ts:587-598 | The signer answering or failing keeps the claim table sound |
| SettlementSafety.KeepKeepsClaims | apps/lch-reference/src/referenceServer.ts:599-605 | Keeping a delivery keeps the claim table sound and overwrites no kept delivery |
| SettlementSafety.DropKeepsClaims | apps/lch-reference/src/referenceServer.ts:611-614 | Dropping a rejected claim never removes a claim whose delivery is kept |
| SettlementSafety.ValidIsRetained | apps/lch-reference/src/referenceServer.ts:830-836 | A bundle that passes validation rests on a delivery that is kept for the Demand's own Payee and on an authorization bound to that transaction |
| SettlementSafety.StartCompleteKeeps | apps/lch-reference/src/referenceServer.ts:684-698 | A completion starts from Demands that are filed under their own id with their Payee's own terms |
| SettlementSafety.IssueKeeps | apps/lch-reference/src/referenceServer.ts:733-778 | A License issued after other handlers ran in between is still over proofs that all hold |
| SettlementSafety.NextKeepsInv | apps/lch-reference/src/referenceServer.ts:427-843 | Every step of every handler keeps the invariant, and kept deliveries, Demands and bindings never change |
| SettlementSafety.ClaimedPair | apps/lch-reference/src/referenceServer.ts:577-582 | Whoever waits for a claim, its owner or a caller that joins it, sent the very pair that the claim holds |
| SettlementSafety.WaitKeeps | apps/lch-reference/src/referenceServer.ts:609-614 | A waiting caller gets the acknowledgement kept for the pair that it sent itself, or its claim is dropped if it owns it |
| SettlementTheorems.DeliveryStoreIsWriteOnce | apps/lch-reference/src/referenceServer.ts:554-615 | Under every interleaving and with failing signers, at most one acknowledgement is ever signed per authorization, all successful callers, owners and joiners, sent the same pair themselves and got that one, and a later claim exists only if every earlier one failed |
| SettlementTheorems.OneTransactionPerAuthorization | apps/lch-reference/src/referenceServer.ts:617-663 | No two evidences released for one authorization, now or later, name different transactions |
| SettlementFields.EvidencePaysOnce | apps/lch-reference/src/referenceServer.ts:632-643 | In every run every evidence handed out names a transaction in which exactly one output carries the authorized amount to the authorized script |
| SettlementFields.QuotesAreThePayees | apps/lch-reference/src/referenceServer.ts:427-467 | In every run every Quote has as many Demands as there are Payees, each on a Payee's own terms and for that request |
| SettlementFields.LicensesAreProvedByTheirPayees | apps/lch-reference/src/referenceServer.ts:684-843 | In every run each Demand of each License is fulfilled by the Demand's own Payee: a genuine receipt for that request, transaction and amount, or its authorization, evidence and acknowledgement |
| SettlementTheorems.LicensesRestOnKeptDeliveries | apps/lch-reference/src/referenceServer.ts:684-843 | A License that rests on an authorized output implies, in that and every later state, the matching kept delivery, a resolvable Demand of the same Payee and the authorization bound to that completion's transaction |
| SettlementTheorems.LicensesArePaidInFull | apps/lch-reference/src/referenceServer.ts:684-779 | Every License of any run covers exactly the Quote's Demands, each fulfilled by its own proof and paid its amount by an output that no other Demand uses; no other output is used and they pay exactly the total |
| SettlementTheorems.StoredDeliveriesResolve | apps/lch-reference/src/referenceServer.ts:398-415 | Recovery of stored payments never meets a delivery of an unknown Demand or of another Payee |
| SettlementAuthority.NothingWithoutThePayee | apps/lch-reference/src/referenceServer.ts:554-663 | In every run every delivery kept, every transaction bound and every evidence handed out is for an authorization that the Demand's own Payee signed, for its request and amount |
| SettlementAuthority.NextKeepsAuthority | apps/lch-reference/src/referenceServer.ts:554-663 | Every step of every handler keeps that, for what handlers in flight and claims in force still hold as well |
| SettlementAuthority.OnlySignedIsTakenUp | apps/lch-reference/src/referenceServer.ts:554-565 | In every run a store or attest request of a free handler is taken up if and only if the Demand's Payee has signed its authorization |
| SettlementRuns.StoreRun | apps/lch-reference/src/referenceServer.ts:554-615 | Wherever an authorization is valid and nothing is kept or claimed for it, a delivery for its Demand is claimed, acknowledged by the issuer, kept for the Demand's Payee, and answered with that acknowledgement |
| SettlementRuns.DeliveriesAreTaken | apps/lch-reference/src/referenceServer.ts:554-615 | That is so from every reachable state, and the same request again gets the same acknowledgement |
| SettlementRuns.RepeatRun | apps/lch-reference/src/referenceServer.ts:569-576 | A repeated request for a kept pair gets the kept acknowledgement and changes nothing |
| SettlementRuns.FailureMakesRoom | apps/lch-reference/src/referenceServer.ts:611-614 | After a failed claim has been dropped by its owner, the authorization is free for a new one |
| SettlementRuns.OnlyOwnersDrop | apps/lch-reference/src/referenceServer.ts:611-614 | A claim leaves the table only by the hand of the caller that made it, and only after it was rejected |
| SettlementRuns.AttestRun | apps/lch-reference/src/referenceServer.ts:617-663 | A transaction with exactly one output that pays a valid authorization, not bound to another, is bound and gets its evidence |
| SettlementRuns.QuoteRun | apps/lch-reference/src/referenceServer.ts:427-467 | From every reachable state a request without a Quote gets one, with a Demand for each Payee on that Payee's terms |
| SettlementRuns.OnlyItsOwnQuote | apps/lch-reference/src/referenceServer.ts:684-698 | A completion is begun if and only if it names the request's own Quote and its receipts are all accepted, with distinct Demands and outputs |
| SettlementRuns.CompleteRun | apps/lch-reference/src/referenceServer.ts:684-779 | From every state of the invariant a completion that settles its Quote ends in a License in which each Demand is fulfilled by its own Payee's proof |
| SettlementJourney.AuthorizedOutputIsLicensed | apps/lch-reference/src/referenceServer.ts:427-779 | For every Payee that takes authorized outputs there is a run from the empty installation, quote, delivery, attestation and completion, that ends with a License resting on that Payee's output alone |
| SettlementTheorems.RequestsAreStable | apps/lch-reference/src/referenceServer.ts:427-467 | In every reachable state, the Quote, or the License, of a request stays what it is over all later runs if and only if no handler of that request is past the check that finds it |
| SettlementTheorems.Requotes | apps/lch-reference/src/referenceServer.ts:432-465 | A handler past the check can replace the Quote by any other |
| SettlementTheorems.Reissues | apps/lch-reference/src/referenceServer.ts:707-778 | A handler past the check issues another License, whatever the request has by then |
| SettlementOverlap.BothIssue | apps/lch-reference/src/referenceServer.ts:707-778 | Wherever a completion is ready to issue, two overlapping calls with it issue two Licenses |
| SettlementOverlap.OverlapIssuesTwice | apps/lch-reference/src/referenceServer.ts:684-779 | For every Payee a run from the empty installation in which one request, paid once, gets two different Licenses |
| SettlementTheorems.CompletingKeepsRequest | apps/lch-reference/src/referenceServer.ts:705-709 | A completion that finds the License does not issue another |
| AcquisitionClient.NextSettles | apps/lch-reference/src/referenceClient.ts:131-137 | One turn of the loop adds at most the one proof it asked for, skips what is proved, and keeps all others as they are |
| AcquisitionClient.SettledHas | apps/lch-reference/src/referenceClient.ts:131-137 | When the loop ends without an exception every delivery has a proof |
| AcquisitionClient.AcquireKeeps | apps/lch-reference/src/referenceClient.ts:115-171 | One acquire, failing anywhere, keeps the history safe, loses no proof of a waiting payment and refuses another request |
| AcquisitionClient.AcquireExactly | apps/lch-reference/src/referenceClient.ts:115-171 | An acquire returns the License, and forgets the payment, if and only if it has a payment to work on, every delivery has a proof or is settled now, and the completion gives a License that passes every check; in every other case the payment that waited or was just created still waits, with the proofs of before and those of the deliveries reached |
| AcquisitionClient.CompletesExactly | apps/lch-reference/src/referenceClient.ts:138-140 | The completion is called if and only if there is a payment to work on and every delivery has a proof or is settled now |
| AcquisitionClient.SettleFirstExactly | apps/lch-reference/src/referenceClient.ts:131-137 | The loop ends without an exception if and only if every delivery has a proof or is settled now, and what it holds then is what it held before and exactly the proofs of the deliveries it reached |
| AcquisitionClient.RetriesAreSafe | apps/lch-reference/src/referenceClient.ts:115-171 | Any sequence of acquire calls for any requests keeps the history safe |
| AcquisitionClient.HistoriesAreSafe | apps/lch-reference/src/referenceClient.ts:118-140 | At every event of every history: a payment is created only when none waits, a Demand is settled at most once per payment, and completion carries disjoint proofs for exactly the payment's Demands |
| AcquisitionClient.CompletionMeetsSizeCheck | apps/lch-reference/src/referenceServer.ts:705-706 | A completion call for a payment of all the Quote's Demands passes the issuer's size check |
| AcquisitionClient.ReferenceLCHClient.Acquire | apps/lch-reference/src/referenceClient.ts:115-171 | The call on the object's fields is the call the histories are built from, and keeps the recovery state consistent |
| AcquisitionClient.ReferenceLCHClient.SettleDeliveries | apps/lch-reference/src/referenceClient.ts:131-137 | The loop stops at the first delivery that fails and keeps what it had collected |
| AcquisitionClient.ReferenceLCHClient.PendingPayment | apps/lch-reference/src/referenceClient.ts:177-192 | A payment is reported exactly while one waits, with its request and the number of Demands settled since it was created |
| Agreement.FilePermissions | apps/lch-reference/src/referenceClient.ts:217-223 | Filing succeeds if and only if every offered permission has only allowed members and a key no other has, and then files each under its key |
| Agreement.AllFulfilled | apps/lch-reference/src/referenceClient.ts:235-245 | True if and only if every duty is an object whose uid is among the fulfilled |
| Agreement.GrantOne | apps/lch-reference/src/referenceClient.ts:226-245 | Accepts exactly a well-formed permission that the Offer makes, with all its duties fulfilled |
| Agreement.GrantPermissions | apps/lch-reference/src/referenceClient.ts:224-247 | Accepts exactly duplicate-free lists of granted permissions and returns their keys |
| Agreement.KeepsProhibitions | apps/lch-reference/src/referenceClient.ts:249-255 | True if and only if every offered prohibition is well formed and repeated and the Agreement's have only allowed members |
| Agreement.EvaluateReferenceAgreement | apps/lch-reference/src/referenceClient.ts:195-256 | The evaluator returns true if and only if the Agreement is acceptable: a duplicate-free part of the Offer's permissions with all duties fulfilled, containing the requested one and keeping every prohibition |
| Agreement.SameKeyExactly | apps/lch-reference/src/referenceClient.ts:262-266 | Two rules share a key if and only if they are the same pair, or one action starts with the other and U+0000 and the targets make up for it |
| Agreement.KeysAreThePairs | apps/lch-reference/src/referenceClient.ts:262-266 | Over all targets the keys of two actions stand for their pairs if and only if neither action starts with the other followed by U+0000 |
| Agreement.PlainKeysAreThePairs | apps/lch-reference/src/referenceClient.ts:262-266 | In particular for all actions without U+0000 |
| Agreement.KeysCollide | apps/lch-reference/src/referenceClient.ts:262-266 | With U+0000 inside an action two different rules share a key |
| Agreement.IssuedAgreementAcceptable | apps/lch-reference/src/referenceServer.ts:719-732 | For any list of Payees, the Agreement written for an offered action is acceptable against the Offer if and only if the action is play and every Payee's duty is among the fulfilled |
| Agreement.OfferAllowsOnly | apps/lch-reference/src/referenceServer.ts:297-315 | Whatever Agreement is acceptable under the issuer's Offer is for play or derive on its target, with every Payee's duty fulfilled and unwrapping prohibited |
| Agreement.OtherMembersAreRefused | apps/lch-reference/src/referenceClient.ts:219-255 | A permission or prohibition with any other member, on either side, refuses the Agreement |
| Agreement.FulfilledExactly | apps/lch-reference/src/referenceClient.ts:235-245 | A duty counts as fulfilled if and only if it is an object whose uid is a text among the fulfilled |
| Agreement.DutiesExactly | apps/lch-reference/src/referenceClient.ts:230-234 | A rule's duties are none, the one value, or the list |
| LicenseAcceptance.NextKeepsCovers | apps/lch-reference/src/referenceServer.ts:427-467 | In every interleaving every Quote, and so every License, has a Demand for each Payee's duty |
| LicenseAcceptance.IssuedLicensesAcceptable | apps/lch-reference/src/referenceServer.ts:297-315 | Every License issued in any run is one the client's evaluator accepts if and only if the request was for play |
| Snapshot.ValidateGeneration | infra/chaintracks-server/src/BulkHeaderSnapshotPublisher.ts:85-130 | Validation accepts exactly the folders whose every entry matches its file and starts where the entries before it end |
| Snapshot.AcceptedExactly | infra/chaintracks-server/src/BulkHeaderSnapshotPublisher.ts:89-121 | Said entry by entry: a folder is accepted if and only if every entry has a plain name, a positive count, the digest and size of its own file, and starts at height 0 or where the entry before it ends |
| Snapshot.AcceptedManifestPartitions | infra/chaintracks-server/src/BulkHeaderSnapshotPublisher.ts:85-130 | In an accepted manifest every height from 0 to the maximum lies in exactly one entry and no other height in any, counts sum to the maximum plus one and file lengths to eighty times that |
| Snapshot.CountsReachMaximum | infra/chaintracks-server/src/BulkHeaderSnapshotPublisher.ts:179-182 | The maximum height taken from the last entry alone agrees with the sum over all entries |
| Snapshot.BulkHeaderSnapshotPublisher.SwitchActivePointer | infra/chaintracks-server/src/BulkHeaderSnapshotPublisher.ts:144-159 | Whatever fails, the pointer is what it was or names the new generation |
| Snapshot.BulkHeaderSnapshotPublisher.CollectOldGenerations | infra/chaintracks-server/src/BulkHeaderSnapshotPublisher.ts:161-176 | Stopped anywhere, also inside a removal, collection leaves the active generation as it was and damages at most one other; when it ends nothing is damaged and exactly the active generation and those with fewer than the maximum newer ones are left |
| Snapshot.BulkHeaderSnapshotPublisher.RemoveOthers | infra/chaintracks-server/src/BulkHeaderSnapshotPublisher.ts:170-174 | Nothing retained is touched, and what a failing removal leaves is the only thing damaged |
| Snapshot.RetainedIsSmall | infra/chaintracks-server/src/BulkHeaderSnapshotPublisher.ts:163-169 | The newest names and the active one are at most the maximum plus one |
| Snapshot.RetainedExactly | infra/chaintracks-server/src/BulkHeaderSnapshotPublisher.ts:163-169 | A generation is retained if and only if it is the active one or fewer than the maximum are newer |
| Snapshot.BulkHeaderSnapshotPublisher.Promote | infra/chaintracks-server/src/BulkHeaderSnapshotPublisher.ts:57-60 | A generation appears only complete and validated, and only once |
| Snapshot.BulkHeaderSnapshotPublisher.Release | infra/chaintracks-server/src/BulkHeaderSnapshotPublisher.ts:55-68 | From the staged export to the collection: the same, with the staging folder still to be removed when it fails |
| Snapshot.BulkHeaderSnapshotPublisher.Publish | infra/chaintracks-server/src/BulkHeaderSnapshotPublisher.ts:48-73 | Whatever fails and wherever it crashes, the pointer is absent or names an existing validated generation, the old one untouched or the new one as exported; at most one other generation is damaged, and only after the switch; success damages none, reports the manifest's own maximum and leaves exactly the newest generations; a rejected export changes nothing visible; and unless it crashes no staging folder and no temporary link is left |
| Snapshot.BulkHeaderSnapshotPublisher.Activate | infra/chaintracks-server/src/BulkHeaderSnapshotPublisher.ts:61-62 | Old generations are deleted only after the active link points at the new one |
| Snapshot.BulkHeaderSnapshotPublisher.PublishAll | infra/chaintracks-server/src/BulkHeaderSnapshotPublisher.ts:48-73 | Over any sequence of publishes, each failing or crashing anywhere, the pointer is absent or names a complete generation, the one of before untouched or an accepted export of the sequence; if none fails, every generation is untouched or exactly an accepted export |
| Snapshot.PublishesNeverOverlap | infra/chaintracks-server/src/server.ts:395-487 | However header events, timers, failures and restarts interleave, at most one export is in flight, and the flag says whether one is |
| Snapshot.ShouldExportExactly | infra/chaintracks-server/src/server.ts:421-461 | After the first export another is due if and only if a multiple of 100000 lies above the last height and not above the new one |
| Snapshot.ExportCycle | infra/chaintracks-server/src/server.ts:421-461 | One export call from an idle process publishes exactly when due and then remembers the height it published; otherwise it leaves the process as it was |
| Ordering.SortSorts | infra/overlay-server/src/mandalaEngineOutputs.ts:44-46 | Sorting distinct outpoints gives the ascending sequence of the same outpoints |
| Ordering.AscendingUnique | infra/overlay-server/src/mandalaEngineOutputs.ts:44-46 | There is only one such sequence |
| Ordering.StringLessExactly | infra/overlay-server/src/mandalaEngineOutputs.ts:25-26 | One string is less than another if and only if the first difference says so or it is a proper prefix |
| Paging.ByOutpointIsStrictTotalOrder | infra/overlay-server/src/mandalaEngineOutputs.ts:21-28 | The comparison is a strict total order and the hand-written filter is the comparison being positive |
| Paging.BeforeExactly | infra/overlay-server/src/mandalaEngineOutputs.ts:21-28 | The transaction ids decide by their first difference, and then the output indices, lower first |
| Paging.PageLength | infra/overlay-server/src/mandalaEngineOutputs.ts:55-56 | Whatever the limit, a page is a beginning of what lies beyond the cursor, of the limit's length or all of it; a negative limit leaves that many out |
| Paging.PageIsPrefix | infra/overlay-server/src/mandalaEngineOutputs.ts:43-56 | A page is ascending and beyond the cursor, and something beyond the cursor is missing only when the page is full, and then comes after it |
| Paging.ScanVisitsWhatStays | infra/overlay-server/src/mandalaEngineOutputs.ts:43-56 | Over changing stores a finished scan visits every output present throughout, exactly once, in order, and nothing that was never stored |
| Paging.FixedScanFinishes | infra/overlay-server/src/mandalaEngineOutputs.ts:43-56 | On a fixed store the scan ends after as many pages as outputs remain, plus one, whatever the page size |
| Paging.FixedScanIsSorted | infra/overlay-server/src/mandalaEngineOutputs.ts:43-56 | On a fixed store the whole scan is the sorted store |
| Outbox.StepIsSafe | apps/output-knowledge-reference/src/proposalMain.ts:212-309 | No step of any tab replaces a saved request, clears it before that very saving was sent and answered, or sends, for the first time or again, anything but a request as it was saved |
| Outbox.OutboxIsSafe | apps/output-knowledge-reference/src/proposalMain.ts:212-309 | That holds for every next step of every reachable state, with any number of tabs closing anywhere |
| Outbox.ResendsAreIdentical | apps/output-knowledge-reference/src/proposalMain.ts:274-309 | In every run every send is a saving, all sends of one saving carry the same request, and those of the saving that waits now carry the request saved now |
| Outbox.SendIsCurrent | apps/output-knowledge-reference/src/proposalMain.ts:276-307 | A tab that has read and now sends sends the saving that waits at that moment if and only if the store is still at the revision it read |
| Outbox.LateSend | apps/output-knowledge-reference/src/proposalMain.ts:276-307 | The concrete run in which one tab sends a request while another one is saved, because a second tab cleared the first and saved the other in between |
| Outbox.SavedUntilAnswered | apps/output-knowledge-reference/src/proposalMain.ts:274-309 | A saved request stays saved, unchanged over any run, until that saving of it has been answered |
| Outbox.RequestIsSent | apps/output-knowledge-reference/src/proposalMain.ts:219-310 | Whenever nothing waits, a free tab gets its request saved, puts exactly it on the wire, and after the answer clears it and keeps the answer |
| Outbox.ConflictIsDecided | apps/output-knowledge-reference/src/proposalMain.ts:212-218 | After a conflict a save goes on to send if and only if the store then holds what was to be saved |
| Outbox.ProposalTab.WriteState | apps/output-knowledge-reference/src/proposalMain.ts:212-218 | A conflict is a success exactly when the stored value is the wanted one |
| Outbox.ProposalTab.RetrySaved | apps/output-knowledge-reference/src/proposalMain.ts:274-310 | What is sent is the saved request, and it is cleared only after its answer |
| Outbox.ProposalTab.PublishNew | apps/output-knowledge-reference/src/proposalMain.ts:219-273 | Refuses while another request waits; otherwise the request is saved before it is sent and stays saved unless answered |
| Subscriptions.StepKeepsInv | infra/chaintracks-server/src/v2-routes.ts:109-147 | Every event of every stream keeps each granted subscription held by exactly one stream or released exactly once |
| Subscriptions.SubscriptionsAreConserved | infra/chaintracks-server/src/v2-routes.ts:109-200 | In every interleaving no subscription is released twice, what is not held was released, a closed and finished stream holds none, and live subscriptions never outnumber active streams |
| Subscriptions.OpenKeepsSubscription | infra/chaintracks-server/src/v2-routes.ts:129-140 | An open stream keeps the subscription it was granted, live, through every event of any stream that does not close or fail it |
| Subscriptions.EndReleases | infra/chaintracks-server/src/v2-routes.ts:114-127 | A stream that closes or fails releases its subscription then and there |
| Subscriptions.LateGrantReleases | infra/chaintracks-server/src/v2-routes.ts:130-136 | A subscription granted after the client closed is released as soon as the handler sees it |
| Subscriptions.FailureEnds | infra/chaintracks-server/src/v2-routes.ts:137-146 | Wherever an exception reaches a handler, the stream ends closed and without a subscription; otherwise it goes on holding what it held |
| Subscriptions.OpenedStreamSubscribes | infra/chaintracks-server/src/v2-routes.ts:129-147 | A new stream that is granted a subscription keeps it, and only a tip stream goes on to look up the tip |
| Subscriptions.StreamHandler.CleanUp | infra/chaintracks-server/src/v2-routes.ts:114-127 | The cleanup releases the subscription the first time it finds one, and only then |
| Subscriptions.StreamHandler.OnSettled | infra/chaintracks-server/src/v2-routes.ts:130-146 | Each way an await of the handler can settle does to the closure's variables what the conserved machine does |
| HeaderCodec.HexRoundTrip | infra/chaintracks-server/src/v2-routes.ts:33-36 | Hexadecimal text decoded and written again is the same text in lower case, at half the length in bytes |
| HeaderCodec.DigitValues | infra/chaintracks-server/src/v2-routes.ts:33-36 | The sixteen digits have their values in either case |
| HeaderCodec.BytesOfHex | infra/chaintracks-server/src/v2-routes.ts:33-36 | Each byte is the value of its two digits, the first one the higher |
| HeaderCodec.DecodingStops | infra/chaintracks-server/src/v2-routes.ts:33-36 | Decoding reads the longest beginning of whole digit pairs and nothing after it |
| HeaderCodec.HeaderToBytes | infra/chaintracks-server/src/v2-routes.ts:41-57 | The buffer filled in place is the header's eighty bytes, and it fails exactly on a field outside u32 |
| HeaderCodec.LayOut | infra/chaintracks-server/src/v2-routes.ts:49-56 | For well-formed hashes the overlapping copies leave the six fields side by side |
| HeaderCodec.OverlayAt | infra/chaintracks-server/src/v2-routes.ts:49-56 | A copy into the buffer changes the bytes from its offset on, stops at the end of the buffer and changes nothing else, whatever the lengths |
| HeaderCodec.FieldOffsets | infra/chaintracks-server/src/v2-routes.ts:49-56 | Version, hashes, time, bits and nonce stand at their offsets, the hashes in reverse byte order |
| Bytes.U32ByWeight | infra/chaintracks-server/src/v2-routes.ts:49-56 | Each byte of an integer by its weight, the first one weighing least, in writing and in reading |
| HeaderCodec.DecodeInvertsEncode | apps/output-knowledge-reference/src/fixtureChain.ts:21-38 | Reading the fields as the fixture chain does gives back the header, up to the case of the hashes |
| HeaderCodec.EncodeInvertsDecode | apps/output-knowledge-reference/src/fixtureChain.ts:21-38 | Exactly eighty bytes decode, to a well-formed header that is written as those very bytes |
| HeaderCodec.AppendHolds | infra/chaintracks-server/src/v2-routes.ts:402-403 | Appending a header adds its slice and disturbs no earlier slice |
| HeaderCodec.HeadersRange | infra/chaintracks-server/src/v2-routes.ts:396-409 | The response holds eighty bytes for each height up to the first missing one or the count, slice i decodes to the header at height plus i, and it fails only on a header outside u32 |
| Wav.LayOut | apps/lch-reference/src/demo.ts:365-387 | A written file has the tags, the format and, modulo 2^32, the fields where a reader looks for them |
| Wav.FieldsOfFile | apps/lch-reference/src/demo.ts:365-387 | Every tag and every field of a written file at its offset, the data tag and the byte rate among them, and every sample in its two bytes |
| Bytes.I16ByWeight | apps/lch-reference/src/demo.ts:350-385 | Each byte of a sample by its weight, in two's complement, in writing and in reading |
| Wav.DecodeInvertsEncode | apps/lch-reference/src/demo.ts:338-387 | Decoding gives the samples and the rate back if and only if the byte count and the rate fit their 32-bit fields |
| Wav.DecodeExactly | apps/lch-reference/src/demo.ts:338-363 | Exactly which files decode, and to what: each sample from its own two bytes, and the rate from its field |
| Wav.EncodePcm16MonoWav | apps/lch-reference/src/demo.ts:365-387 | The buffer written position by position is the file the round trip is proved for; it fails exactly when the engine has no buffer that long |
| Wav.DecodePcm16MonoWav | apps/lch-reference/src/demo.ts:338-363 | The reader's checks and loop compute the decoding of the round trip |
| Wav.SourceIndexInRange | apps/lch-reference/src/demo.ts:72-75 | For non-empty audio every source index is in range for every positive ratio, reversed or not |
| Wav.SourceIndexRounds | apps/lch-reference/src/demo.ts:72-75 | The source index is the exact position rounded down, at most the last sample, and counted from the end in reverse |
| Wav.SamplesComeFromTheirPlaces | apps/lch-reference/src/demo.ts:70-82 | Every sample of an edit is the one at its own rounded, and in reverse mirrored, place in the source, with -32768 raised to -32767; an edit of empty audio is one silent sample |
| Wav.OutputLengthRounds | apps/lch-reference/src/demo.ts:70-71 | The length is the exact quotient of samples and rate rounded to the nearest, half up, and at least one |
| Wav.TransformToneWav | apps/lch-reference/src/demo.ts:58-84 | Fails exactly on a file that does not decode, a ratio that is not of positive safe integers, or a result longer than the engine's longest buffer; otherwise writes the edited file at the same rate |
| Wav.HalfThenDouble | apps/lch-reference/src/demo.ts:70-82 | Half speed and then double speed gives the samples back, with -32768 raised to -32767 |
| Wav.ReverseTwice | apps/lch-reference/src/demo.ts:70-82 | Reversing twice gives the samples back, with -32768 raised to -32767 |
| Wav.EditOfEncode | apps/lch-reference/src/demo.ts:58-84 | Editing a written file is editing its samples, exactly when their byte count fits its field, whatever the rate |
| Wav.FilesComeBack | apps/lch-reference/src/demo.ts:58-84 | A file edited to half speed and, read again, to double speed is the file of the clamped samples if and only if the byte count of the slow one fits its field |
| Wav.ReversedFilesComeBack | apps/lch-reference/src/demo.ts:58-84 | A file reversed twice is the file of the clamped samples if and only if its byte count fits its field |

## Left out

- AdmissionTheorems.CrashRefinement: the history fence and the Script and SPV verification of a projection are not modelled, since a mismatch only stops the run, as a crash at that point does; chain reorganisations and evictions are outside the model.
- AdmissionProducer.ReferenceAdmissionProducer.RunOnce: serials, revisions and sequences are unbounded here; the source stops with an error when one would leave u64.
- AdmissionProducer.ReferenceAdmissionProducer.Start: one process runs one call at a time in the class; overlapping processes are covered by the machine.
- AdmissionProducer.ReferenceAdmissionProducer.Close: waiting for the running work is calling again; the command store's own close is not modelled.
- SettlementTheorems.LicensesArePaidInFull: a receipt's own signature and object checks are the library's verdict, kept as one flag.
- SettlementSafety.ValidIsRetained: Payees release authorizations only with the issuer named as both providers, as the issuer's own authorization endpoint makes them.
- AcquisitionClient.RetriesAreSafe: calls of one client do not overlap; two overlapping acquire calls could both find no recovery state.
- Agreement.EvaluateReferenceAgreement: starts from parsed policies; reading and pinning the policy documents is not modelled.
- Snapshot.BulkHeaderSnapshotPublisher.Publish: apart from a removal, which may stop half way, each filesystem call takes effect completely or not at all, so what a power loss does to unsynchronised data is not modelled; the nonce is a parameter.
- Snapshot.AcceptedManifestPartitions: sums are exact, while the source adds in doubles and would round beyond 2^53; two entries may name the same file, which the source does not check.
- Snapshot.PublishesNeverOverlap: the switch that disables exports is taken to be on.
- Ordering.SortSorts: strings are compared by character; the source compares UTF-16 code units.
- Subscriptions.SubscriptionsAreConserved: a subscription counts as released when unsubscribe is called; a failing unsubscribe is only logged by the source.
- Wav.TransformToneWav: the engine's longest buffer is a parameter and one limit for all arrays; the distortion kind is left out and rates are exact ratios instead of doubles.
- HeaderCodec.HeadersRange: parsing the query, caching headers and the JSON routes are left out; the v1 routes write hashes in display order and agree with no decoder here.
- KnexPaymentReplayStore (infra/wallet-infra/src/KnexPaymentReplayStore.ts): an insert-once table; its properties would only add easy members.
- Index timers, expiry, compaction and watermark pins of the lookup store; provider online switches, recovery windows and every comparison with a clock.
- Delivery of content keys, retrieval of a stored delivery by a Payee and readiness messages of the LCH server.
- Cryptography, deterministic CBOR, BEEF parsing, HTTP routing, environment parsing, logging and user interface.
