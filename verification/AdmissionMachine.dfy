/**
  Any number of producer processes working on the same durable stores. A process
  advances from one await to the next; between any two steps of one process every
  other process may take any number of steps, and any process may stop for good
  (a crash, an exception or a shutdown) at every point.
*/
module AdmissionMachine {
  import opened Common
  import opened OperationStore
  import opened AdmissionModel

  // ------------------------------------------------------------ one process

  /** Where admitting one record stands; `found` is what the history read returned. */
  datatype Stage =
    | Checking | Reading | Read(found: bool) | Submitting | Submitted | Rereading | Reread(found: bool)

  datatype Local =
    | Admitting(at: nat, stage: Stage)
    | Projecting
    | ReadingHead
    | Evaluating(base: nat, read: map<Record, bool>, checked: set<Record>)
    | Settled(base: nat, read: map<Record, bool>)
    | Committing(mutation: Mutation)
    | Committed
    | Finishing
    | Completing(revision: nat, state: CommandState)

  datatype Process =
    | Starting(action: Option<Action>)
    | Reserving(revision: nat, next: CommandState)
    | Confirming(pending: Pending)
    | Working(pending: Pending, phase: nat, local: Local)

  function Names(action: Action, phase: nat): seq<Record> {
    if phase < |CommandPhases(action)| then CommandPhases(action)[phase].project else []
  }

  function ToAdmit(action: Action, phase: nat): seq<Record> {
    if phase < |CommandPhases(action)| then CommandPhases(action)[phase].admit else []
  }

  function BeginPhase(p: Pending, phase: nat): Process {
    Working(p, phase,
            if phase >= |CommandPhases(p.action)| then Finishing
            else if ToAdmit(p.action, phase) == [] then Projecting
            else Admitting(0, Checking))
  }

  function NextAdmit(p: Pending, phase: nat, at: nat): Process {
    Working(p, phase, if at + 1 < |ToAdmit(p.action, phase)| then Admitting(at + 1, Checking) else Projecting)
  }

  /** `saved`: the original command must still be the pending one. */
  predicate Current(d: Durable, p: Pending) { d.command.value.pending == Some(p) }

  datatype Moved = Moved(durable: Durable, process: Option<Process>)

  function Check(d: Durable, p: Pending, next: Process): Moved {
    Moved(d, if Current(d, p) then Some(next) else None)
  }

  /** Everything one process does from one await to the next; no process afterwards means its run ended. */
  function Advance(d: Durable, w: Process, now: nat, pick: Record): Moved {
    match w
    case Starting(action) =>
      (match d.command.value.pending
       case None =>
         if action.None? then Moved(d, None)
         else Moved(d, Some(Reserving(d.command.revision, Reserved(d.command.value, action.value, now))))
       case Some(p) =>
         if action.Some? && action.value != p.action then Moved(d, None)
         else Moved(d, Some(BeginPhase(p, 0))))
    case Reserving(revision, next) =>
      var staged := CompareAndSwap(d.command, revision, next);
      if staged.status.Conflict? || next.pending.None? then Moved(d, None)
      else Moved(d.(command := staged.cell), Some(Confirming(next.pending.value)))
    case Confirming(p) => Check(d, p, BeginPhase(p, 0))
    case Working(p, phase, local) => AdvanceLocal(d, p, phase, local, now, pick)
  }

  function AdvanceLocal(d: Durable, p: Pending, phase: nat, local: Local, now: nat, pick: Record): Moved {
    match local
    case Admitting(at, stage) => AdvanceAdmit(d, p, phase, at, stage)
    case Projecting => Check(d, p, Working(p, phase, ReadingHead))
    case ReadingHead => Moved(d, Some(Working(p, phase, Evaluating(|d.index|, map[], {}))))
    case Evaluating(base, read, checked) => AdvanceEvaluation(d, p, phase, base, read, checked, pick)
    case Settled(base, read) =>
      if !Current(d, p) then Moved(d, None)
      else
        var edits := Edits(RowsAt(d.index, base), UnspentRead(read), p.withdrawn, Names(p.action, phase));
        if |edits| == 0 then Moved(d, Some(BeginPhase(p, phase + 1)))
        else Moved(d, Some(Working(p, phase, Committing(Mutation(base, now, edits, p.action, p.serial)))))
    case Committing(m) =>
      var committed := Commit(d.index, m);
      if committed.None? then Moved(d, None)
      else Moved(d.(index := committed.value), Some(Working(p, phase, Committed)))
    case Committed => Check(d, p, BeginPhase(p, phase + 1))
    case Finishing => Check(d, p, Working(p, phase, Completing(d.command.revision, d.command.value)))
    case Completing(revision, state) =>
      Moved(d.(command := CompareAndSwap(d.command, revision, Completed(state, p)).cell), None)
  }

  function AdvanceAdmit(d: Durable, p: Pending, phase: nat, at: nat, stage: Stage): Moved {
    if at >= |ToAdmit(p.action, phase)| then Moved(d, None) else
    var r := ToAdmit(p.action, phase)[at];
    match stage
    case Checking => Check(d, p, Working(p, phase, Admitting(at, Reading)))
    case Reading => Moved(d, Some(Working(p, phase, Admitting(at, Read(r in d.store.admitted)))))
    case Read(found) =>
      Check(d, p, if found then NextAdmit(p, phase, at) else Working(p, phase, Admitting(at, Submitting)))
    case Submitting => Moved(d.(store := Submit(d.store, r)), Some(Working(p, phase, Admitting(at, Submitted))))
    case Submitted => Check(d, p, Working(p, phase, Admitting(at, Rereading)))
    case Rereading => Moved(d, Some(Working(p, phase, Admitting(at, Reread(r in d.store.admitted)))))
    case Reread(found) => if found then Check(d, p, NextAdmit(p, phase, at)) else Moved(d, None)
  }

  function UnspentRead(read: map<Record, bool>): set<Record> { set r | r in read && read[r] }

  /** The evaluations of one phase run side by side: each reads its output, then re-checks the command. */
  function AdvanceEvaluation(d: Durable, p: Pending, phase: nat, base: nat, read: map<Record, bool>,
                             checked: set<Record>, pick: Record): Moved
  {
    var names := Names(p.action, phase);
    if forall r :: r in names ==> r in read && r in checked then Moved(d, Some(Working(p, phase, Settled(base, read))))
    else if pick in names && pick !in read then
      Moved(d, Some(Working(p, phase, Evaluating(base, read[pick := Unspent(d.store, pick)], checked))))
    else if pick in names && pick !in checked then
      Check(d, p, Working(p, phase, Evaluating(base, read, checked + {pick})))
    else Moved(d, Some(Working(p, phase, Evaluating(base, read, checked))))
  }

  // --------------------------------------------------------- all processes

  /** `log` and `completions` are the history: what was reserved, and the serials completed, in order. */
  datatype World = World(durable: Durable, processes: map<nat, Process>, log: seq<Action>, completions: seq<nat>)

  datatype Step =
    | Spawn(id: nat, action: Option<Action>)
    | Move(id: nat, now: nat, pick: Record)
    | Stop(id: nat)

  const INSTALLED := World(EMPTY, map[], [], [])

  /** A process that already has physical work refuses another. */
  function Next(w: World, step: Step): World {
    match step
    case Spawn(id, action) =>
      if id in w.processes then w else w.(processes := w.processes[id := Starting(action)])
    case Stop(id) => w.(processes := w.processes - {id})
    case Move(id, now, pick) =>
      if id !in w.processes then w else
      var was := w.processes[id];
      var moved := Advance(w.durable, was, now, pick);
      var swapped := w.durable.command != moved.durable.command;
      World(moved.durable,
            if moved.process.Some? then w.processes[id := moved.process.value] else w.processes - {id},
            if swapped && was.Reserving? then w.log + [was.next.pending.value.action] else w.log,
            if swapped && was.Working? then w.completions + [was.pending.serial] else w.completions)
  }

  function Run(w: World, steps: seq<Step>): World
    decreases |steps|
  {
    if steps == [] then w else Run(Next(w, steps[0]), steps[1..])
  }

  // ---------------------------------------------------------- the invariant

  predicate Agrees(d: Durable, withdrawn: bool, r: Record) {
    (r in Rows(d.index)) == Desired(d.store, withdrawn, r)
  }

  predicate AllAdmitted(store: Store, rs: seq<Record>) { forall r :: r in rs ==> r in store.admitted }

  /** The admissions of the phase that projects `r` are done. */
  predicate Ready(action: Action, store: Store, r: Record) {
    exists phase | 0 <= phase < |CommandPhases(action)| :: r in Names(action, phase) && AdmittedThrough(action, store, phase + 1)
  }

  predicate AdmittedThrough(action: Action, store: Store, phases: nat) {
    forall i | 0 <= i < phases && i < |CommandPhases(action)| :: AllAdmitted(store, ToAdmit(action, i))
  }

  ghost predicate DurableOk(d: Durable, log: seq<Action>, completions: seq<nat>) {
    && d.command.value.serial == |log|
    && IndexOk(d.index, |log|)
    && (forall k :: 0 <= k < |completions| ==> completions[k] == k + 1)
    && match d.command.value.pending {
         case None =>
           && |completions| == |log|
           && d.command.value.withdrawn == RunAll(log).withdrawn
           && d.store == RunAll(log).store
           && forall r :: Agrees(d, d.command.value.withdrawn, r)
         case Some(p) =>
           && log != [] && p.serial == |log| && p.action == log[|log| - 1]
           && |completions| == |log| - 1
           && p.withdrawn == RunAll(log).withdrawn
           && d.command.value.withdrawn == RunAll(log[..|log| - 1]).withdrawn
           && SubmitCommand(d.store, p.action) == RunAll(log).store
           && (forall r :: !Projects(p.action, r) ==> Agrees(d, p.withdrawn, r))
           && EditsAgree(d, p)
       }
  }

  /** Every group was committed on the head it names. */
  ghost predicate IndexOk(index: Index, serials: nat) {
    forall k :: 0 <= k < |index| ==> index[k].base == k && index[k].serial <= serials
  }

  /** What the pending command has already edited is as wanted. */
  ghost predicate EditsAgree(d: Durable, p: Pending) {
    forall k, r :: 0 <= k < |d.index| && d.index[k].serial == p.serial && r in d.index[k].edits
      ==> Ready(p.action, d.store, r) && Agrees(d, p.withdrawn, r)
  }

  /** The rows of the phases before `phase` are as wanted. */
  ghost predicate ProjectedBefore(d: Durable, p: Pending, phase: nat) {
    forall i, r :: 0 <= i < phase && r in Names(p.action, i) ==> Agrees(d, p.withdrawn, r)
  }

  ghost predicate ReadOk(d: Durable, p: Pending, names: seq<Record>, base: nat, read: map<Record, bool>) {
    && base <= |d.index|
    && (Current(d, p) ==>
          && (forall r :: r in read ==> r in names && read[r] == Unspent(d.store, r))
          && forall k :: base <= k < |d.index| ==> d.index[k].serial == p.serial)
  }

  ghost predicate LocalOk(d: Durable, p: Pending, phase: nat, local: Local) {
    match local
    case Admitting(at, stage) =>
      && at < |ToAdmit(p.action, phase)|
      && AllAdmitted(d.store, ToAdmit(p.action, phase)[..at])
      && ((stage.Read? || stage.Reread?) && stage.found ==> ToAdmit(p.action, phase)[at] in d.store.admitted)
    case Evaluating(base, read, _) => AllAdmitted(d.store, ToAdmit(p.action, phase)) && ReadOk(d, p, Names(p.action, phase), base, read)
    case Settled(base, read) =>
      && AllAdmitted(d.store, ToAdmit(p.action, phase))
      && ReadOk(d, p, Names(p.action, phase), base, read)
      && forall r :: r in Names(p.action, phase) ==> r in read
    case Committing(m) =>
      && AllAdmitted(d.store, ToAdmit(p.action, phase))
      && |m.edits| != 0 && m.serial == p.serial
      && m.base <= |d.index|
      && (m.base == |d.index| ==> Current(d, p) && FitsHead(d, p, phase, m.edits))
      && (Current(d, p) && m.base < |d.index| && d.index[m.base] == m ==> ProjectedBefore(d, p, phase + 1))
    case Committed =>
      AllAdmitted(d.store, ToAdmit(p.action, phase)) && (Current(d, p) ==> ProjectedBefore(d, p, phase + 1))
    case Completing(revision, state) =>
      && phase == |CommandPhases(p.action)|
      && state.pending == Some(p)
      && revision <= d.command.revision
      && (revision == d.command.revision ==> state == d.command.value)
    case Finishing => phase == |CommandPhases(p.action)|
    case _ => AllAdmitted(d.store, ToAdmit(p.action, phase))
  }

  /** The edits are exactly the difference between the head and what is wanted. */
  ghost predicate FitsHead(d: Durable, p: Pending, phase: nat, edits: map<Record, Edit>) {
    forall r ::
      && (r in edits <==> r in Names(p.action, phase) && !Agrees(d, p.withdrawn, r))
      && (r in edits ==> edits[r] == Edit(Revision(Rows(d.index), r), Desired(d.store, p.withdrawn, r)))
  }

  ghost predicate ProcessOk(d: Durable, log: seq<Action>, w: Process) {
    match w
    case Starting(_) => true
    case Reserving(revision, next) =>
      && revision <= d.command.revision
      && next.pending.Some?
      && (revision == d.command.revision ==>
            && d.command.value.pending.None?
            && next == Reserved(d.command.value, next.pending.value.action, next.pending.value.acceptedAt))
    case Confirming(_) => true
    case Working(p, phase, local) =>
      && p.serial <= |log|
      && phase <= |CommandPhases(p.action)|
      && (phase < |CommandPhases(p.action)| || local.Finishing? || local.Completing?)
      && AdmittedThrough(p.action, d.store, phase)
      && (!Current(d, p) ==> AllAdmitted(d.store, Admits(p.action)))
      && (Current(d, p) ==> ProjectedBefore(d, p, phase))
      && LocalOk(d, p, phase, local)
  }

  ghost predicate Inv(w: World) {
    && DurableOk(w.durable, w.log, w.completions)
    && forall id :: id in w.processes ==> ProcessOk(w.durable, w.log, w.processes[id])
  }

  // ---------------------------------------------- what a durable write keeps

  /** A new command is reserved. */
  ghost predicate Reserves(d: Durable, d': Durable, log: seq<Action>, action: Action, now: nat) {
    && d.command.value.pending.None?
    && d' == d.(command := Cell(d.command.revision + 1, Reserved(d.command.value, action, now)))
  }

  /** The pending command submits one of its records, still unadmitted. */
  ghost predicate Submits(d: Durable, d': Durable, p: Pending, r: Record) {
    Current(d, p) && r in Admits(p.action) && r !in d.store.admitted && d' == d.(store := Submit(d.store, r))
  }

  /** The pending command commits what its phase lacks. */
  ghost predicate Commits(d: Durable, d': Durable, p: Pending, phase: nat, m: Mutation) {
    && Current(d, p) && m.serial == p.serial && m.base == |d.index|
    && phase < |CommandPhases(p.action)| && AdmittedThrough(p.action, d.store, phase + 1)
    && FitsHead(d, p, phase, m.edits) && d' == d.(index := d.index + [m])
  }

  /** The pending command completes. */
  ghost predicate Completes(d: Durable, d': Durable, p: Pending) {
    && Current(d, p)
    && AdmittedThrough(p.action, d.store, |CommandPhases(p.action)|)
    && ProjectedBefore(d, p, |CommandPhases(p.action)|)
    && d' == d.(command := Cell(d.command.revision + 1, Completed(d.command.value, p)))
  }

  lemma AppendedRows(index: Index, m: Mutation)
    ensures Rows(index + [m]) == Apply(Rows(index), m, |index| + 1)
  {
  }

  /** A record projected in a phase whose admissions are done is not affected by a later submission. */
  lemma SubmitKeepsReady(action: Action, store: Store, phase: nat, name: Record, r: Record)
    requires phase < |CommandPhases(action)| && name in Names(action, phase)
    requires AdmittedThrough(action, store, phase + 1)
    requires r in Admits(action) && r !in store.admitted
    ensures Unspent(Submit(store, r), name) == Unspent(store, name)
  {
    assert AllAdmitted(store, ToAdmit(action, phase)) && AllAdmitted(store, ToAdmit(action, 0));
  }

  /** All phases together admit and project the command's records. */
  lemma PhasesCover(action: Action, store: Store)
    ensures AdmittedThrough(action, store, |CommandPhases(action)|) <==> AllAdmitted(store, Admits(action))
    ensures forall r :: Projects(action, r) <==> exists i :: 0 <= i < |CommandPhases(action)| && r in Names(action, i)
    ensures forall i, r :: 0 <= i < |CommandPhases(action)| && r in ToAdmit(action, i) ==> r in Admits(action)
  {
    var phases := CommandPhases(action);
    assert action == Publish ==> ToAdmit(action, 0) == [A, Q] && ToAdmit(action, 1) == [X]
                                 && Names(action, 0) == [A, Q] && Names(action, 1) == [X];
    assert action != Publish ==> |phases| == 1 && ToAdmit(action, 0) == Admits(action) && Names(action, 0) == phases[0].project;
    if AllAdmitted(store, Admits(action)) {
      forall i | 0 <= i < |phases| ensures AllAdmitted(store, ToAdmit(action, i)) { }
    }
    if AdmittedThrough(action, store, |phases|) {
      assert forall i | 0 <= i < |phases| :: AllAdmitted(store, ToAdmit(action, i));
    }
    forall r | Projects(action, r) ensures exists i :: 0 <= i < |phases| && r in Names(action, i) {
      assert r in Names(action, 0) || (|phases| == 2 && r in Names(action, 1));
    }
  }

  lemma SubmitOnceMore(store: Store, action: Action, r: Record)
    requires r in Admits(action)
    ensures SubmitCommand(Submit(store, r), action) == SubmitCommand(store, action)
  {
  }
}
