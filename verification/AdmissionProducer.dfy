/**
  The producer object itself, run by one process at a time. `luck` says when the
  outside world fails: each durable call costs two units, one before its effect and
  one before its reply, so a call can fail without effect or lose its reply.
*/
module AdmissionProducer {
  import opened Common
  import opened OperationStore
  import opened AdmissionModel
  import opened AdmissionMachine
  import opened AdmissionSafety
  import opened AdmissionTheorems

  datatype Fault = Cancelled | Limited | Conflicting | Unavailable

  class ReferenceAdmissionProducer {
    const commands: OperationStateStore<CommandState>
    var store: Store
    var index: Index
    var working: bool
    var stopping: bool
    var closed: bool
    var luck: Option<nat>
    ghost var log: seq<Action>
    ghost var completions: seq<nat>

    constructor (luck: Option<nat>)
      ensures Valid() && fresh(commands) && log == [] && Durably() == EMPTY
      ensures !working && !stopping && !closed && this.luck == luck
    {
      commands := new OperationStateStore(INITIAL);
      store, index, working, stopping, closed := Store({}, {}), [], false, false, false;
      log, completions := [], [];
      this.luck := luck;
    }

    ghost function Durably(): Durable
      reads this, commands
    {
      Durable(commands.cell, store, index)
    }

    ghost predicate Valid()
      reads this, commands
    {
      DurableOk(Durably(), log, completions)
    }

    /** No other command is waiting for recovery. */
    ghost predicate Takes(action: Option<Action>)
      reads this, commands
    {
      match commands.cell.value.pending
      case None => true
      case Some(p) => action == None || action == Some(p.action)
    }

    /** Nothing durable differs. */
    twostate predicate Kept()
      reads this, commands
    {
      && Durably() == old(Durably()) && log == old(log) && completions == old(completions)
      && stopping == old(stopping) && closed == old(closed) && working == old(working)
      && (old(luck) == None ==> luck == None)
    }

    method Spend() returns (ok: bool)
      modifies this`luck
      ensures old(luck) == None ==> ok && luck == None
    {
      match luck
      case None => ok := true;
      case Some(n) =>
        ok := n > 0;
        luck := Some(if n > 0 then n - 1 else 0);
    }

    method Load() returns (r: Result<Cell<CommandState>, Fault>)
      requires Valid()
      modifies this`luck
      ensures Valid() && Kept()
      ensures r.Success? ==> r.value == commands.cell
      ensures stopping || closed ==> r == Failure(Cancelled)
      ensures old(luck) == None && !stopping && !closed ==> r.Success?
    {
      if stopping || closed { return Failure(Cancelled); }
      var ok := Spend();
      if !ok { return Failure(Unavailable); }
      r := Success(commands.cell);
    }

    method Saved(p: Pending) returns (r: Result<Cell<CommandState>, Fault>)
      requires Valid()
      modifies this`luck
      ensures Valid() && Kept()
      ensures r.Success? ==> r.value == commands.cell && Current(Durably(), p)
      ensures stopping || closed ==> r == Failure(Cancelled)
      ensures old(luck) == None && !stopping && !closed && Current(Durably(), p) ==> r.Success?
    {
      r := Load();
      if r.Success? && r.value.value.pending != Some(p) { return Failure(Conflicting); }
    }

    /** Admits one record of the pending command; a lost reply leaves it admitted all the same. */
    method Admit(name: Record, p: Pending) returns (r: Result<(), Fault>)
      requires Valid() && Current(Durably(), p) && name in Admits(p.action)
      modifies this`luck, this`store
      ensures Valid() && Current(Durably(), p)
      ensures luck == None || old(luck) != None
      ensures store == old(store) || store == Submit(old(store), name)
      ensures r.Success? ==> name in store.admitted
      ensures stopping || closed ==> r == Failure(Cancelled) && store == old(store)
      ensures old(luck) == None && !stopping && !closed ==> r.Success?
    {
      var before := Saved(p);
      if before.Failure? { return Failure(before.error); }
      var found := name in store.admitted;
      before := Saved(p);
      if before.Failure? { return Failure(before.error); }
      if !found {
        var ok := Spend();
        if !ok { return Failure(Unavailable); }
        ghost var was := Durably();
        store := Submit(store, name);
        SubmitKeepsDurable(was, Durably(), log, completions, p, name);
        ok := Spend();
        if !ok { return Failure(Unavailable); }
        before := Saved(p);
        if before.Failure? { return Failure(before.error); }
        found := name in store.admitted;
        before := Saved(p);
        if before.Failure? { return Failure(before.error); }
      }
      r := if found then Success(()) else Failure(Unavailable);
    }

    /** The edit one record needs, if any. */
    method EvaluateProjection(name: Record, p: Pending, sequence: nat) returns (r: Result<Option<Edit>, Fault>)
      requires Valid() && Current(Durably(), p) && sequence == |index|
      modifies this`luck
      ensures Valid() && Kept()
      ensures r.Success? ==>
                r.value == if Agrees(Durably(), p.withdrawn, name) then None
                           else Some(Edit(Revision(Rows(index), name), Desired(store, p.withdrawn, name)))
      ensures stopping || closed ==> r == Failure(Cancelled)
      ensures old(luck) == None && !stopping && !closed ==> r.Success?
    {
      var previous := Revision(Rows(index), name);
      var output := Unspent(store, name);
      var check := Saved(p);
      if check.Failure? { return Failure(check.error); }
      var next := output && !(name == Q && p.withdrawn);
      r := Success(if previous.Some? == next then None else Some(Edit(previous, next)));
    }

    /** Brings the rows of one phase to what the store says, in one indivisible group. */
    method Project(p: Pending, phase: nat, now: nat) returns (r: Result<nat, Fault>)
      requires Valid() && Current(Durably(), p) && phase < |CommandPhases(p.action)|
      requires AdmittedThrough(p.action, store, phase + 1)
      modifies this`luck, this`index
      ensures Valid() && Current(Durably(), p)
      ensures luck == None || old(luck) != None
      ensures index == old(index) || (|index| == |old(index)| + 1 && old(index) <= index)
      ensures index != old(index) ==>
                var group := index[|index| - 1];
                group.base == |old(index)| && group.evaluatedAt == now && group.action == p.action && group.serial == p.serial
      ensures forall n :: old(Agrees(Durably(), p.withdrawn, n)) ==> Agrees(Durably(), p.withdrawn, n)
      ensures r.Success? ==> r.value == |index| && forall n :: n in Names(p.action, phase) ==> Agrees(Durably(), p.withdrawn, n)
      ensures stopping || closed ==> r == Failure(Cancelled) && index == old(index)
      ensures old(luck) == None && !stopping && !closed ==> r.Success?
    {
      var check := Saved(p);
      if check.Failure? { return Failure(check.error); }
      var head := |index|;
      var evaluated := EvaluateAll(p, phase, head);
      if evaluated.Failure? { return Failure(evaluated.error); }
      var edits := evaluated.value;
      if |edits| == 0 {
        assert forall n :: n !in edits;
        return Success(head);
      }
      r := CommitGroup(p, phase, Mutation(head, now, edits, p.action, p.serial));
    }

    /** Commits one group; a lost reply leaves it committed all the same. */
    method CommitGroup(p: Pending, phase: nat, m: Mutation) returns (r: Result<nat, Fault>)
      requires Valid() && Current(Durably(), p) && phase < |CommandPhases(p.action)|
      requires AdmittedThrough(p.action, store, phase + 1)
      requires m.base == |index| && m.serial == p.serial && FitsHead(Durably(), p, phase, m.edits)
      modifies this`luck, this`index
      ensures Valid() && Current(Durably(), p)
      ensures luck == None || old(luck) != None
      ensures index == old(index) || index == old(index) + [m]
      ensures forall n :: old(Agrees(Durably(), p.withdrawn, n)) ==> Agrees(Durably(), p.withdrawn, n)
      ensures r.Success? ==> r.value == |index| && forall n :: n in Names(p.action, phase) ==> Agrees(Durably(), p.withdrawn, n)
      ensures old(luck) == None && !stopping && !closed ==> r.Success?
    {
      var ok := Spend();
      if !ok { return Failure(Unavailable); }
      var committed := Commit(index, m);
      if committed.None? { return Failure(Conflicting); }
      ghost var was := Durably();
      index := committed.value;
      CommitKeepsDurable(was, Durably(), log, completions, p, phase, m);
      ok := Spend();
      if !ok { return Failure(Unavailable); }
      var check := Saved(p);
      if check.Failure? { return Failure(check.error); }
      r := Success(|index|);
    }

    /** The evaluations of one phase, all settled and then all checked once more: what the head lacks. */
    method EvaluateAll(p: Pending, phase: nat, head: nat) returns (r: Result<map<Record, Edit>, Fault>)
      requires Valid() && Current(Durably(), p) && phase < |CommandPhases(p.action)| && head == |index|
      modifies this`luck
      ensures Valid() && Kept()
      ensures r.Success? ==> FitsHead(Durably(), p, phase, r.value)
      ensures stopping || closed ==> r == Failure(Cancelled)
      ensures old(luck) == None && !stopping && !closed ==> r.Success?
    {
      var names := CommandPhases(p.action)[phase].project;
      var edits: map<Record, Edit> := map[];
      var failed: Option<Fault> := None;
      for i := 0 to |names|
        invariant Valid() && Kept()
        invariant old(luck) == None && !stopping && !closed ==> failed == None
        invariant failed == None ==> forall n ::
            && (n in edits <==> n in names[..i] && !Agrees(Durably(), p.withdrawn, n))
            && (n in edits ==> edits[n] == Edit(Revision(Rows(index), n), Desired(store, p.withdrawn, n)))
      {
        var evaluated := EvaluateProjection(names[i], p, head);
        match evaluated
        case Failure(fault) => failed := if failed == None then Some(fault) else failed;
        case Success(edit) => if edit.Some? { edits := edits[names[i] := edit.value]; }
      }
      assert names[..|names|] == names;
      var check := Saved(p);
      if check.Failure? { return Failure(check.error); }
      if failed.Some? { return Failure(failed.value); }
      r := Success(edits);
    }

    /** One phase: its admissions in order, then its projection. */
    method RunPhaseOf(p: Pending, phase: nat, now: nat) returns (r: Result<nat, Fault>)
      requires Valid() && Current(Durably(), p) && phase < |CommandPhases(p.action)|
      requires AdmittedThrough(p.action, store, phase) && ProjectedBefore(Durably(), p, phase)
      modifies this`luck, this`store, this`index
      ensures Valid() && Current(Durably(), p)
      ensures luck == None || old(luck) != None
      ensures r.Success? ==> r.value == |index| && AdmittedThrough(p.action, store, phase + 1)
      ensures r.Success? ==> ProjectedBefore(Durably(), p, phase + 1)
      ensures stopping || closed ==> r == Failure(Cancelled) && Durably() == old(Durably())
      ensures old(luck) == None && !stopping && !closed ==> r.Success?
    {
      var admitted := AdmitAll(p, phase);
      if admitted.Failure? { return Failure(admitted.error); }
      r := Project(p, phase, now);
    }

    /** The admissions of one phase, in order, up to the first that fails. */
    method AdmitAll(p: Pending, phase: nat) returns (r: Result<(), Fault>)
      requires Valid() && Current(Durably(), p) && phase < |CommandPhases(p.action)|
      requires AdmittedThrough(p.action, store, phase) && ProjectedBefore(Durably(), p, phase)
      modifies this`luck, this`store
      ensures Valid() && Current(Durably(), p)
      ensures luck == None || old(luck) != None
      ensures ProjectedBefore(Durably(), p, phase)
      ensures r.Success? ==> AdmittedThrough(p.action, store, phase + 1)
      ensures stopping || closed ==> store == old(store) && (r.Failure? ==> r.error == Cancelled)
      ensures old(luck) == None && !stopping && !closed ==> r.Success?
    {
      var admit := CommandPhases(p.action)[phase].admit;
      for i := 0 to |admit|
        invariant Valid() && Current(Durably(), p)
        invariant luck == None || old(luck) != None
        invariant AdmittedThrough(p.action, store, phase) && ProjectedBefore(Durably(), p, phase)
        invariant AllAdmitted(store, admit[..i])
        invariant stopping || closed ==> store == old(store)
      {
        PhaseAdmits(p.action, phase, i);
        ghost var was := Durably();
        var admitted := Admit(admit[i], p);
        if Durably() != was { SubmitKeepsProjected(was, Durably(), p, admit[i], phase); }
        if admitted.Failure? { return Failure(admitted.error); }
        assert admit[..i + 1] == admit[..i] + [admit[i]];
      }
      assert admit[..|admit|] == admit;
      r := Success(());
    }

    /** Reserves the command, or takes up the pending one. */
    method Reserve(action: Option<Action>, now: nat) returns (r: Result<Option<Pending>, Fault>)
      requires Valid()
      modifies this`luck, this`log, commands
      ensures Valid() && completions == old(completions)
      ensures luck == None || old(luck) != None
      ensures store == old(store) && index == old(index)
      ensures stopping || closed ==> r == Failure(Cancelled)
      ensures old(commands.cell.value.pending).Some? || stopping || closed ==> Kept()
      ensures old(commands.cell.value.pending).None? ==>
                || Kept()
                || (action.Some? && log == old(log) + [action.value]
                    && commands.cell.revision == old(commands.cell.revision) + 1
                    && commands.cell.value.pending.Some? && commands.cell.value.pending.value.acceptedAt == now)
      ensures r.Success? ==>
                match old(commands.cell.value.pending)
                case None => r.value.Some? == action.Some? && (action.None? ==> Kept())
                case Some(p) => r.value == Some(p) && (action == None || action == Some(p.action))
      ensures r.Success? && r.value.Some? ==> Current(Durably(), r.value.value)
      ensures (old(luck) == None && !stopping && !closed && old(Takes(action))) ==> r.Success?
    {
      var loaded := Load();
      if loaded.Failure? { return Failure(loaded.error); }
      match loaded.value.value.pending
      case Some(p) =>
        if action.Some? && action.value != p.action { return Failure(Conflicting); }
        r := Success(Some(p));
      case None =>
        if action.None? { return Success(None); }
        var next := Reserved(loaded.value.value, action.value, now);
        var ok := Spend();
        if !ok { return Failure(Unavailable); }
        ghost var was := Durably();
        var status := commands.Swap(loaded.value.revision, next);
        ReserveKeepsDurable(was, Durably(), log, completions, action.value, now);
        log := log + [action.value];
        ok := Spend();
        if !ok { return Failure(Unavailable); }
        if status == Conflict { return Failure(Conflicting); }
        var retained := Saved(next.pending.value);
        if retained.Failure? { return Failure(retained.error); }
        r := Success(Some(next.pending.value));
    }

    /** All phases of the pending command, in order. */
    method Perform(p: Pending, now: nat) returns (r: Result<nat, Fault>)
      requires Valid() && Current(Durably(), p)
      modifies this`luck, this`store, this`index
      ensures Valid() && Current(Durably(), p)
      ensures luck == None || old(luck) != None
      ensures r.Success? ==> r.value == |index| && AdmittedThrough(p.action, store, |CommandPhases(p.action)|)
      ensures r.Success? ==> ProjectedBefore(Durably(), p, |CommandPhases(p.action)|)
      ensures stopping || closed ==> r == Failure(Cancelled) && Durably() == old(Durably())
      ensures old(luck) == None && !stopping && !closed ==> r.Success?
    {
      var sequence := |index|;
      var phases := CommandPhases(p.action);
      for phase := 0 to |phases|
        invariant Valid() && Current(Durably(), p) && sequence == |index|
        invariant luck == None || old(luck) != None
        invariant AdmittedThrough(p.action, store, phase) && ProjectedBefore(Durably(), p, phase)
        invariant stopping || closed ==> phase == 0 && Durably() == old(Durably())
      {
        var done := RunPhaseOf(p, phase, now);
        if done.Failure? { return Failure(done.error); }
        sequence := done.value;
      }
      r := Success(sequence);
    }

    /** Completes the pending command; a lost reply leaves it completed all the same. */
    method Complete(p: Pending) returns (r: Result<(), Fault>)
      requires Valid() && Current(Durably(), p)
      requires AdmittedThrough(p.action, store, |CommandPhases(p.action)|)
      requires ProjectedBefore(Durably(), p, |CommandPhases(p.action)|)
      modifies this`luck, this`completions, commands
      ensures Valid()
      ensures r.Success? ==> commands.cell.value.pending == None
      ensures stopping || closed ==> r == Failure(Cancelled) && Durably() == old(Durably())
      ensures old(luck) == None && !stopping && !closed ==> r.Success?
    {
      var retained := Saved(p);
      if retained.Failure? { return Failure(retained.error); }
      var ok := Spend();
      if !ok { return Failure(Unavailable); }
      ghost var was := Durably();
      var status := commands.Swap(retained.value.revision, Completed(retained.value.value, p));
      CompleteKeepsDurable(was, Durably(), log, completions, p);
      completions := completions + [p.serial];
      ok := Spend();
      if !ok { return Failure(Unavailable); }
      r := if status == Conflict then Failure(Conflicting) else Success(());
    }

    /**
      One run. Whatever fails and whenever, the command store, the admission store and
      the index stay consistent, and at most the requested command is reserved; a run
      that succeeds shows the crash-free outcome; without faults every run succeeds
      unless another command is waiting for recovery.
    */
    method RunOnce(action: Option<Action>, now: nat) returns (r: Result<nat, Fault>)
      requires Valid()
      modifies this`luck, this`store, this`index, this`log, this`completions, commands
      ensures Valid()
      ensures log == old(log) || (old(commands.cell.value.pending).None? && action.Some? && log == old(log) + [action.value])
      ensures r.Success? ==>
                && r.value == |index|
                && commands.cell.value.pending == None
                && Observe(Durably()) == RunAll(log)
                && log == (if old(commands.cell.value.pending).None? && action.Some? then old(log) + [action.value] else old(log))
      ensures !old(Takes(action)) || stopping || closed ==> r.Failure? && Durably() == old(Durably())
      ensures (old(luck) == None && !stopping && !closed && old(Takes(action))) ==> r.Success?
    {
      var reserved := Reserve(action, now);
      if reserved.Failure? { return Failure(reserved.error); }
      if reserved.value.None? {
        QuiescentObserves(World(Durably(), map[], log, completions));
        return Success(|index|);
      }
      r := RunPending(reserved.value.value, now);
    }

    /** The phases and then the completion of the pending command. */
    method RunPending(p: Pending, now: nat) returns (r: Result<nat, Fault>)
      requires Valid() && Current(Durably(), p)
      modifies this`luck, this`store, this`index, this`completions, commands
      ensures Valid()
      ensures r.Success? ==> r.value == |index| && commands.cell.value.pending == None && Observe(Durably()) == RunAll(log)
      ensures stopping || closed ==> r == Failure(Cancelled) && Durably() == old(Durably())
      ensures old(luck) == None && !stopping && !closed ==> r.Success?
    {
      var performed := Perform(p, now);
      if performed.Failure? { return Failure(performed.error); }
      var completed := Complete(p);
      if completed.Failure? { return Failure(completed.error); }
      QuiescentObserves(World(Durably(), map[], log, completions));
      r := Success(performed.value);
    }

    /** Public entry: refuses while stopping or while the previous physical work is still running. */
    method Start(action: Option<Action>, now: nat) returns (r: Result<nat, Fault>)
      requires Valid()
      modifies this, commands
      ensures Valid()
      ensures old(stopping || closed || working) ==> r.Failure? && Durably() == old(Durably()) && working == old(working)
      ensures !old(stopping || closed || working) ==> !working
      ensures r.Success? ==> r.value == |index| && commands.cell.value.pending == None && Observe(Durably()) == RunAll(log)
      ensures r.Success? ==>
                log == if old(commands.cell.value.pending).None? && action.Some? then old(log) + [action.value] else old(log)
      ensures log == old(log) || (old(commands.cell.value.pending).None? && action.Some? && log == old(log) + [action.value])
      ensures !old(Takes(action)) ==> r.Failure? && Durably() == old(Durably())
      ensures (old(luck) == None && !old(stopping || closed || working) && old(Takes(action))) ==> r.Success?
      ensures stopping == old(stopping) && closed == old(closed)
    {
      if stopping || closed { return Failure(Cancelled); }
      if working { return Failure(Limited); }
      working := true;
      r := RunOnce(action, now);
      working := false;
    }

    /**
      Refuses new work at once and marks itself closed only when none is running any
      more; until then the caller waits for the work, which every check now stops.
    */
    method Close() returns (done: bool)
      modifies this`stopping, this`closed
      ensures Durably() == old(Durably())
      ensures done == closed
      ensures old(closed) ==> closed && stopping == old(stopping)
      ensures !old(closed) ==> stopping && (closed <==> !working)
    {
      if !closed {
        stopping := true;
        closed := !working;
      }
      done := closed;
    }
  }

  lemma PhaseAdmits(action: Action, phase: nat, i: nat)
    requires i < |ToAdmit(action, phase)|
    ensures ToAdmit(action, phase)[i] in Admits(action)
  {
  }
}
