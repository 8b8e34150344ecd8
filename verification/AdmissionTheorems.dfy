/** What the admission producer guarantees over all runs. */
module AdmissionTheorems {
  import opened Common
  import opened AdmissionModel
  import opened AdmissionMachine
  import opened AdmissionSafety
  import opened Ordering

  predicate Quiescent(w: World) { w.durable.command.value.pending.None? }

  lemma ReachableIsOk(steps: seq<Step>)
    ensures Inv(Run(INSTALLED, steps))
  {
    RunKeepsInv(INSTALLED, steps);
  }

  // ------------------------------------------------------------- safety

  /**
    Crash refinement. Whatever the processes did, wherever they crashed and however
    they overlapped, a state with no pending command shows the serial, withdrawn
    flag, admission store and rows of the crash-free run of the reserved commands.
  */
  lemma CrashRefinement(steps: seq<Step>)
    ensures var w := Run(INSTALLED, steps); Quiescent(w) ==> Observe(w.durable) == RunAll(w.log)
  {
    ReachableIsOk(steps);
    var w := Run(INSTALLED, steps);
    QuiescentObserves(w);
  }

  lemma QuiescentObserves(w: World)
    requires Inv(w)
    ensures Quiescent(w) ==> Observe(w.durable) == RunAll(w.log)
  {
    CrashFreeShowsWanted(w.log);
    if Quiescent(w) {
      forall r ensures r in Visible(w.durable.index) <==> r in RunAll(w.log).visible {
        assert Agrees(w.durable, w.durable.command.value.withdrawn, r);
      }
    }
  }

  /** The index agrees with the store: a row exists exactly for an unspent output that is not Q while withdrawn. */
  lemma IndexAgreesWithStore(steps: seq<Step>)
    ensures var w := Run(INSTALLED, steps);
            var d := w.durable;
            Quiescent(w) ==>
              && (forall r :: r in Visible(d.index) <==> Unspent(d.store, r) && !(r == Q && d.command.value.withdrawn))
              && (d.command.value.withdrawn <==>
                    exists k :: 0 <= k < |w.log| && w.log[k] == Withdraw && forall j :: k < j < |w.log| ==> w.log[j] != Publish)
  {
    CrashRefinement(steps);
    var w := Run(INSTALLED, steps);
    CrashFreeShowsWanted(w.log);
    WithdrawnIsLastSwitch(w.log);
  }

  /** Each serial is reserved once and completed once, in order, and a command is reserved only when none is pending. */
  lemma ExactlyOnce(steps: seq<Step>, step: Step)
    ensures var w := Run(INSTALLED, steps);
            var w' := Next(w, step);
            && w.durable.command.value.serial == |w.log|
            && (forall k :: 0 <= k < |w.completions| ==> w.completions[k] == k + 1)
            && |w.completions| == (if Quiescent(w) then |w.log| else |w.log| - 1)
            && (w'.log == w.log || (Quiescent(w) && !Quiescent(w') && |w'.log| == |w.log| + 1 && w.log <= w'.log))
            && (w'.completions == w.completions
                || (!Quiescent(w) && Quiescent(w') && w'.completions == w.completions + [|w.log|]))
  {
    ReachableIsOk(steps);
    var w := Run(INSTALLED, steps);
    if step.Move? && step.id in w.processes {
      AdvanceWrites(w.durable, w.log, w.completions, w.processes[step.id], step.now, step.pick);
    }
  }

  /** This step moves a process that works on `p`. */
  predicate WorksOn(w: World, step: Step, p: Pending) {
    step.Move? && step.id in w.processes && w.processes[step.id].Working? && w.processes[step.id].pending == p
  }

  /** The command was reserved, and is not the pending one any more. */
  predicate Superseded(w: World, p: Pending) { !Current(w.durable, p) && p.serial <= |w.log| }

  lemma StepKeepsSuperseded(w: World, step: Step, p: Pending)
    requires Inv(w) && Superseded(w, p)
    ensures Superseded(Next(w, step), p)
    ensures WorksOn(w, step, p) ==> Next(w, step).durable == w.durable
  {
    if step.Move? && step.id in w.processes {
      AdvanceWrites(w.durable, w.log, w.completions, w.processes[step.id], step.now, step.pick);
    }
  }

  lemma {:induction false} RunKeepsSuperseded(w: World, steps: seq<Step>, p: Pending)
    requires Inv(w) && Superseded(w, p)
    ensures Superseded(Run(w, steps), p)
    decreases |steps|
  {
    if steps != [] {
      NextKeepsInv(w, steps[0]);
      StepKeepsSuperseded(w, steps[0], p);
      RunKeepsSuperseded(Next(w, steps[0]), steps[1..], p);
    }
  }

  /**
    Once a process works on a command that is no longer the pending one, that command
    is never pending again, and no process that works on it, then or at any later
    time, ever changes anything durable.
  */
  lemma LaggingProcessIsHarmless(steps: seq<Step>, id: nat, more: seq<Step>, step: Step)
    requires var w := Run(INSTALLED, steps);
             id in w.processes && w.processes[id].Working? && !Current(w.durable, w.processes[id].pending)
    ensures var p, w' := Run(INSTALLED, steps).processes[id].pending, Run(Run(INSTALLED, steps), more);
            && !Current(w'.durable, p)
            && (WorksOn(w', step, p) ==> Next(w', step).durable == w'.durable)
  {
    ReachableIsOk(steps);
    var w := Run(INSTALLED, steps);
    assert ProcessOk(w.durable, w.log, w.processes[id]);
    RunKeepsInv(w, more);
    RunKeepsSuperseded(w, more, w.processes[id].pending);
    StepKeepsSuperseded(Run(w, more), step, w.processes[id].pending);
  }

  /** The next thing a process does here is to ask whether its command is still the pending one. */
  predicate AsksNext(p: Pending, phase: nat, local: Local, pick: Record) {
    match local
    case Admitting(_, stage) => stage.Checking? || stage.Read? || stage.Submitted? || stage.Reread?
    case Evaluating(_, read, checked) => pick in Names(p.action, phase) && pick in read && pick !in checked
    case ReadingHead => false
    case Committing(_) => false
    case Completing(_, _) => false
    case _ => true
  }

  /**
    A lagging process soon stops. Where it asks next it ends without a write; from every
    other await it ends or comes to one where it asks, or to the evaluations, of which
    each is asked after.
  */
  lemma LaggingProcessStops(d: Durable, p: Pending, phase: nat, local: Local, now: nat, pick: Record)
    requires !Current(d, p)
    ensures var moved := Advance(d, Working(p, phase, local), now, pick);
            && (AsksNext(p, phase, local, pick) ==> moved == Moved(d, None))
            && (moved.process.Some? ==>
                  && moved.process.value.Working? && moved.process.value.pending == p
                  && (moved.process.value.local.Evaluating? || AsksNext(p, phase, moved.process.value.local, pick)))
    ensures Advance(d, Confirming(p), now, pick) == Moved(d, None)
  {
  }

  /** A new process ends at once, without a write, exactly when it has nothing to take up. */
  lemma OtherCommandIsRefused(w: World, id: nat, action: Option<Action>, now: nat, pick: Record)
    requires id !in w.processes
    ensures Run(w, [Spawn(id, action), Move(id, now, pick)]) == w
       <==> match w.durable.command.value.pending
            case None => action == None
            case Some(p) => action != None && action != Some(p.action)
  {
    var spawned := Next(w, Spawn(id, action));
    var moved := Next(spawned, Move(id, now, pick));
    assert [Spawn(id, action), Move(id, now, pick)][1..] == [Move(id, now, pick)];
    assert [Move(id, now, pick)][1..] == [];
    assert Run(moved, []) == moved;
    assert Run(w, [Spawn(id, action), Move(id, now, pick)]) == moved;
    assert id in moved.processes || moved.processes == w.processes;
  }

  /** No group of the index has more than two rows, as small pages need. */
  ghost predicate SmallGroups(index: Index) { forall k :: 0 <= k < |index| ==> |index[k].edits| <= 2 }

  lemma PhasesAreSmall(action: Action, phase: nat, edits: map<Record, Edit>)
    requires forall r :: r in edits ==> r in Names(action, phase)
    ensures |edits| <= 2
  {
    var names := Names(action, phase);
    assert |names| <= 2;
    MembersAtMostLength(names);
    assert edits.Keys <= set r | r in names;
    SubsetSize(edits.Keys, set r | r in names);
  }

  lemma {:induction false} RunKeepsSmallGroups(w: World, steps: seq<Step>)
    requires Inv(w) && SmallGroups(w.durable.index)
    ensures SmallGroups(Run(w, steps).durable.index)
    decreases |steps|
  {
    if steps != [] {
      var step := steps[0];
      NextKeepsInv(w, step);
      if step.Move? && step.id in w.processes { MoveKeepsSmallGroups(w, step); }
      RunKeepsSmallGroups(Next(w, step), steps[1..]);
    }
  }

  lemma MoveKeepsSmallGroups(w: World, step: Step)
    requires Inv(w) && SmallGroups(w.durable.index) && step.Move? && step.id in w.processes
    ensures SmallGroups(Next(w, step).durable.index)
  {
    var was := w.processes[step.id];
    AdvanceWrites(w.durable, w.log, w.completions, was, step.now, step.pick);
    if was.Working? && was.local.Committing? && Next(w, step).durable != w.durable {
      PhasesAreSmall(was.pending.action, was.phase, was.local.mutation.edits);
    }
  }

  lemma GroupsAreSmall(steps: seq<Step>)
    ensures SmallGroups(Run(INSTALLED, steps).durable.index)
  {
    RunKeepsSmallGroups(INSTALLED, steps);
  }

  /** Once A is spent and its row is gone, no step of any process brings the row back. */
  lemma StepKeepsSpentOut(w: World, step: Step)
    requires Inv(w) && A in w.durable.store.spent && A !in Visible(w.durable.index)
    ensures var w' := Next(w, step); A in w'.durable.store.spent && A !in Visible(w'.durable.index)
  {
    if step.Move? && step.id in w.processes {
      var was := w.processes[step.id];
      AdvanceWrites(w.durable, w.log, w.completions, was, step.now, step.pick);
      var d' := Advance(w.durable, was, step.now, step.pick).durable;
      if was.Working? && was.local.Committing? && d' != w.durable {
        AppendedRows(w.durable.index, was.local.mutation);
        assert A !in was.local.mutation.edits;
      }
    }
  }

  lemma {:induction false} RunKeepsSpentOut(w: World, steps: seq<Step>)
    requires Inv(w) && A in w.durable.store.spent && A !in Visible(w.durable.index)
    ensures A !in Visible(Run(w, steps).durable.index)
    decreases |steps|
  {
    if steps != [] {
      NextKeepsInv(w, steps[0]);
      StepKeepsSpentOut(w, steps[0]);
      RunKeepsSpentOut(Next(w, steps[0]), steps[1..]);
    }
  }

  // ----------------------------------------------------------- recovery

  /** A process that works alone meets the head, the revision and the admission it last saw. */
  ghost predicate Alone(d: Durable, w: Process) {
    match w
    case Starting(_) => false
    case Reserving(revision, _) => revision == d.command.revision
    case Confirming(p) => Current(d, p)
    case Working(p, phase, local) =>
      && Current(d, p)
      && match local
         case Admitting(at, stage) =>
           && at < |ToAdmit(p.action, phase)|
           && (stage.Submitted? || stage.Rereading? ==> ToAdmit(p.action, phase)[at] in d.store.admitted)
           && (stage.Reread? ==> stage.found)
         case Evaluating(base, _, _) => base == |d.index|
         case Settled(base, _) => base == |d.index|
         case Committing(m) => m.base == |d.index|
         case Completing(revision, _) => revision == d.command.revision
         case _ => true
  }

  function StageRank(stage: Stage): nat {
    match stage
    case Checking => 7
    case Reading => 6
    case Read(_) => 5
    case Submitting => 4
    case Submitted => 3
    case Rereading => 2
    case Reread(_) => 1
  }

  function Rank(w: Process): nat {
    match w
    case Starting(_) => 303
    case Reserving(_, _) => 302
    case Confirming(_) => 301
    case Working(p, phase, local) =>
      (if phase < |CommandPhases(p.action)| then 100 * (|CommandPhases(p.action)| - phase) else 0)
      + match local
        case Admitting(at, stage) =>
          30 + StageRank(stage) + (if at < |ToAdmit(p.action, phase)| then 8 * (|ToAdmit(p.action, phase)| - at) else 0)
        case Projecting => 29
        case ReadingHead => 28
        case Evaluating(_, _, _) => 10
        case Settled(_, _) => 9
        case Committing(_) => 8
        case Committed => 7
        case Finishing => 2
        case Completing(_, _) => 1
  }

  /** The names whose evaluation is still to read, and those still to re-check. */
  function Unread(w: Process): set<Record> {
    if w.Working? && w.local.Evaluating? then set r | r in Names(w.pending.action, w.phase) && r !in w.local.read else {}
  }

  function Unchecked(w: Process): set<Record> {
    if w.Working? && w.local.Evaluating? then set r | r in Names(w.pending.action, w.phase) && r !in w.local.checked else {}
  }

  function PickOf(w: Process): Record {
    if A in Unread(w) + Unchecked(w) then A
    else if AC in Unread(w) + Unchecked(w) then AC
    else if Q in Unread(w) + Unchecked(w) then Q
    else X
  }

  ghost predicate Progresses(w: Process, m: Moved) {
    m.process.Some? && Alone(m.durable, m.process.value) && Nearer(w, m.process.value)
  }

  /** In a later part of the run, or in the same part with fewer evaluations to read or to re-check. */
  ghost predicate Nearer(w: Process, w': Process) {
    || Rank(w') < Rank(w)
    || (Rank(w') == Rank(w)
        && (Unread(w') < Unread(w) || (Unread(w') == Unread(w) && Unchecked(w') < Unchecked(w))))
  }

  /** The evaluations of a phase settle in any order; a pick is idle only where nothing is left to do for it. */
  predicate Idle(w: Process, pick: Record) {
    pick !in Unread(w) + Unchecked(w) && Unread(w) + Unchecked(w) != {}
  }

  /** At any time and in any order of evaluations, every step of a process that works alone gets nearer or is idle. */
  lemma AloneAdvances(d: Durable, log: seq<Action>, completions: seq<nat>, w: Process, now: nat, pick: Record)
    requires DurableOk(d, log, completions) && ProcessOk(d, log, w) && Alone(d, w)
    requires !(w.Working? && w.local.Completing?)
    ensures var m := Advance(d, w, now, pick); if Idle(w, pick) then m == Moved(d, Some(w)) else Progresses(w, m)
  {
    if w.Working? {
      match w.local
      case Evaluating(_, _, _) => AloneEvaluates(d, w, now, pick);
      case Committing(_) => AloneCommits(d, log, completions, w, now, pick);
      case Admitting(_, _) => AloneAdmits(d, w, now, pick);
      case _ => AloneProjects(d, log, completions, w, now, pick);
    } else if w.Confirming? {
      BeginIsAlone(d, w.pending, 0);
    }
  }

  lemma AloneProjects(d: Durable, log: seq<Action>, completions: seq<nat>, w: Process, now: nat, pick: Record)
    requires DurableOk(d, log, completions) && ProcessOk(d, log, w) && Alone(d, w) && w.Working?
    requires w.local.Settled? || w.local.Projecting? || w.local.ReadingHead? || w.local.Committed? || w.local.Finishing?
    ensures Progresses(w, Advance(d, w, now, pick))
  {
    BeginIsAlone(d, w.pending, w.phase + 1);
  }

  lemma AloneAdmits(d: Durable, w: Process, now: nat, pick: Record)
    requires w.Working? && w.local.Admitting? && Alone(d, w)
    ensures Progresses(w, Advance(d, w, now, pick))
  {
    var p, phase, at, stage := w.pending, w.phase, w.local.at, w.local.stage;
    if stage.Submitting? {
      AloneSubmits(d, w, now, pick);
    } else if (stage.Read? || stage.Reread?) && stage.found {
      NextAdmitRank(p, phase, at);
      assert Advance(d, w, now, pick) == Moved(d, Some(NextAdmit(p, phase, at)));
    } else {
      assert Advance(d, w, now, pick).durable == d;
    }
  }

  lemma AloneSubmits(d: Durable, w: Process, now: nat, pick: Record)
    requires w.Working? && w.local.Admitting? && w.local.stage.Submitting? && Alone(d, w)
    ensures Progresses(w, Advance(d, w, now, pick))
  {
    var r := ToAdmit(w.pending.action, w.phase)[w.local.at];
    assert r in Submit(d.store, r).admitted;
    assert Advance(d, w, now, pick).process == Some(Working(w.pending, w.phase, Admitting(w.local.at, Submitted)));
  }

  lemma NextAdmitRank(p: Pending, phase: nat, at: nat)
    requires at < |ToAdmit(p.action, phase)|
    ensures forall stage :: Rank(NextAdmit(p, phase, at)) < Rank(Working(p, phase, Admitting(at, stage)))
    ensures forall d :: Current(d, p) ==> Alone(d, NextAdmit(p, phase, at))
  {
  }

  lemma BeginIsAlone(d: Durable, p: Pending, phase: nat)
    requires Current(d, p)
    ensures Alone(d, BeginPhase(p, phase))
    ensures phase <= |CommandPhases(p.action)| ==> Rank(BeginPhase(p, phase)) < 100 * (|CommandPhases(p.action)| - phase) + 54
  {
  }

  lemma AloneEvaluates(d: Durable, w: Process, now: nat, pick: Record)
    requires w.Working? && w.local.Evaluating? && Alone(d, w)
    ensures var m := Advance(d, w, now, pick); if Idle(w, pick) then m == Moved(d, Some(w)) else Progresses(w, m)
  {
    var names := Names(w.pending.action, w.phase);
    var m := AdvanceEvaluation(d, w.pending, w.phase, w.local.base, w.local.read, w.local.checked, pick);
    if exists r :: r in names && !(r in w.local.read && r in w.local.checked) {
      var r :| r in names && !(r in w.local.read && r in w.local.checked);
      assert r in Unread(w) + Unchecked(w);
      if pick in Unread(w) {
        assert pick !in Unread(m.process.value);
      } else if pick in Unchecked(w) {
        assert pick !in Unchecked(m.process.value);
      }
    }
  }

  lemma AloneCommits(d: Durable, log: seq<Action>, completions: seq<nat>, w: Process, now: nat, pick: Record)
    requires DurableOk(d, log, completions) && ProcessOk(d, log, w) && Alone(d, w) && w.Working? && w.local.Committing?
    ensures Progresses(w, Advance(d, w, now, pick))
  {
  }

  /** The history once the process is done. */
  function LogAfter(w: World, id: nat): seq<Action>
    requires id in w.processes && (w.processes[id].Reserving? ==> w.processes[id].next.pending.Some?)
  {
    if w.processes[id].Reserving? then w.log + [w.processes[id].next.pending.value.action] else w.log
  }

  ghost predicate Drivable(w: World, id: nat) { Inv(w) && id in w.processes && Alone(w.durable, w.processes[id]) }

  lemma DrivableReserves(w: World, id: nat)
    requires Drivable(w, id)
    ensures w.processes[id].Reserving? ==> w.processes[id].next.pending.Some?
  {
    assert ProcessOk(w.durable, w.log, w.processes[id]);
  }

  function StepOf(w: World, id: nat): Step
    requires id in w.processes
  {
    Move(id, 0, PickOf(w.processes[id]))
  }

  lemma DriveOnce(w: World, id: nat)
    requires Drivable(w, id) && !(w.processes[id].Working? && w.processes[id].local.Completing?)
    ensures var w' := Next(w, StepOf(w, id));
            && Drivable(w', id) && !w'.processes[id].Reserving?
            && Nearer(w.processes[id], w'.processes[id])
            && (w.processes[id].Reserving? ==> w.processes[id].next.pending.Some?) && w'.log == LogAfter(w, id)
  {
    NextKeepsInv(w, StepOf(w, id));
    DriveProgresses(w, id);
    DriveLogs(w, id);
    MoveAdvances(w, id, 0, PickOf(w.processes[id]));
  }

  lemma DriveProgresses(w: World, id: nat)
    requires Drivable(w, id) && !(w.processes[id].Working? && w.processes[id].local.Completing?)
    ensures Progresses(w.processes[id], Advance(w.durable, w.processes[id], 0, PickOf(w.processes[id])))
  {
    var was := w.processes[id];
    assert ProcessOk(w.durable, w.log, was);
    AloneAdvances(w.durable, w.log, w.completions, was, 0, PickOf(was));
  }

  lemma MoveAdvances(w: World, id: nat, now: nat, pick: Record)
    requires id in w.processes
    ensures var m, w' := Advance(w.durable, w.processes[id], now, pick), Next(w, Move(id, now, pick));
            m.process.Some? ==> w'.durable == m.durable && id in w'.processes && w'.processes[id] == m.process.value
  {
  }

  lemma DriveLogs(w: World, id: nat)
    requires Drivable(w, id) && !(w.processes[id].Working? && w.processes[id].local.Completing?)
    ensures var w' := Next(w, StepOf(w, id));
            && (id in w'.processes ==> !w'.processes[id].Reserving?)
            && (w.processes[id].Reserving? ==> w.processes[id].next.pending.Some?) && w'.log == LogAfter(w, id)
  {
    DrivableReserves(w, id);
    AdvanceLeavesReserving(w.durable, w.processes[id], 0, PickOf(w.processes[id]));
  }

  lemma AdvanceLeavesReserving(d: Durable, w: Process, now: nat, pick: Record)
    requires !w.Starting?
    ensures var m := Advance(d, w, now, pick).process; m.Some? ==> !m.value.Reserving?
    ensures Alone(d, w) && w.Reserving? && w.next.pending.Some? ==> Advance(d, w, now, pick).durable.command != d.command
    ensures !w.Reserving? && !(w.Working? && w.local.Completing?) ==> Advance(d, w, now, pick).durable.command == d.command
  {
    if w.Working? { WorkingLeavesReserving(d, w.pending, w.phase, w.local, now, pick); }
  }

  lemma WorkingLeavesReserving(d: Durable, p: Pending, phase: nat, local: Local, now: nat, pick: Record)
    ensures var m := AdvanceLocal(d, p, phase, local, now, pick);
            (m.process.Some? ==> m.process.value.Working?) && (!local.Completing? ==> m.durable.command == d.command)
  {
    match local
    case Admitting(at, stage) => AdmitLeavesReserving(d, p, phase, at, stage);
    case Evaluating(_, _, _) =>
    case Settled(_, _) =>
    case Committing(_) =>
    case _ =>
  }

  lemma AdmitLeavesReserving(d: Durable, p: Pending, phase: nat, at: nat, stage: Stage)
    ensures var m := AdvanceAdmit(d, p, phase, at, stage);
            (m.process.Some? ==> m.process.value.Working?) && m.durable.command == d.command
  {
  }

  lemma DriveLast(w: World, id: nat)
    requires Drivable(w, id) && w.processes[id].Working? && w.processes[id].local.Completing?
    ensures Quiescent(Next(w, StepOf(w, id))) && Next(w, StepOf(w, id)).log == w.log
  {
    assert ProcessOk(w.durable, w.log, w.processes[id]);
  }

  /** Left alone, a process completes its command by its own steps, without reserving another. */
  lemma {:induction false} Drive(w: World, id: nat) returns (steps: seq<Step>)
    requires Drivable(w, id)
    ensures Quiescent(Run(w, steps))
    ensures (w.processes[id].Reserving? ==> w.processes[id].next.pending.Some?) && Run(w, steps).log == LogAfter(w, id)
    ensures forall s :: s in steps ==> s.Move? && s.id == id
    decreases Rank(w.processes[id]), Unread(w.processes[id]), Unchecked(w.processes[id])
  {
    var step := StepOf(w, id);
    var w' := Next(w, step);
    if w.processes[id].Working? && w.processes[id].local.Completing? {
      DriveLast(w, id);
      steps := [step];
      assert Run(w, steps) == Run(w', []) == w';
    } else {
      DriveOnce(w, id);
      var rest := Drive(w', id);
      steps := [step] + rest;
      assert steps[1..] == rest;
    }
  }

  /** All the steps are those of one process, started with `action`. */
  ghost predicate OnlyProcess(id: nat, action: Option<Action>, steps: seq<Step>) {
    forall s :: s in steps ==> s == Spawn(id, action) || (s.Move? && s.id == id)
  }

  /** A fresh process with no command in hand; `recover()` passes none and a retry passes the pending one. */
  lemma StartAndDrive(w: World, id: nat, action: Option<Action>) returns (steps: seq<Step>)
    requires Inv(w) && id !in w.processes
    requires match w.durable.command.value.pending
             case None => action.Some?
             case Some(p) => action == None || action == Some(p.action)
    ensures Quiescent(Run(w, steps))
    ensures Run(w, steps).log == if Quiescent(w) then w.log + [action.value] else w.log
    ensures Observe(Run(w, steps).durable) == RunAll(Run(w, steps).log)
    ensures OnlyProcess(id, action, steps)
  {
    var spawn, start := Spawn(id, action), Move(id, 0, A);
    Started(w, id, action);
    var rest := Drive(Next(Next(w, spawn), start), id);
    steps := [spawn, start] + rest;
    TwoStepsFirst(w, spawn, start, rest);
    RunKeepsInv(w, steps);
    QuiescentObserves(Run(w, steps));
  }

  lemma TwoStepsFirst(w: World, first: Step, second: Step, rest: seq<Step>)
    ensures Run(w, [first, second] + rest) == Run(Next(Next(w, first), second), rest)
  {
    var steps := [first, second] + rest;
    assert steps[1..] == [second] + rest && ([second] + rest)[1..] == rest;
    assert Run(w, steps) == Run(Next(w, first), [second] + rest);
  }

  /** What a fresh process holds after its first read of the command. */
  lemma Started(w: World, id: nat, action: Option<Action>)
    requires Inv(w) && id !in w.processes
    requires match w.durable.command.value.pending
             case None => action.Some?
             case Some(p) => action == None || action == Some(p.action)
    ensures var w' := Next(Next(w, Spawn(id, action)), Move(id, 0, A));
            && Drivable(w', id) && (w'.processes[id].Reserving? ==> w'.processes[id].next.pending.Some?)
            && LogAfter(w', id) == if Quiescent(w) then w.log + [action.value] else w.log
  {
    var w1 := Next(w, Spawn(id, action));
    NextKeepsInv(w, Spawn(id, action));
    NextKeepsInv(w1, Move(id, 0, A));
    if !Quiescent(w) { BeginIsAlone(w.durable, w.durable.command.value.pending.value, 0); }
    MoveAdvances(w1, id, 0, A);
  }

  /**
    Recovery. From every reachable state with a pending command, one process that
    recovers completes exactly that command and ends where the crash-free run of
    the same reserved commands ends.
  */
  lemma RecoverCompletes(steps: seq<Step>, id: nat) returns (more: seq<Step>)
    requires !Quiescent(Run(INSTALLED, steps)) && id !in Run(INSTALLED, steps).processes
    ensures var w, w' := Run(INSTALLED, steps), Run(Run(INSTALLED, steps), more);
            && Quiescent(w') && w'.log == w.log && Observe(w'.durable) == RunAll(w.log)
            && OnlyProcess(id, None, more)
  {
    ReachableIsOk(steps);
    more := StartAndDrive(Run(INSTALLED, steps), id, None);
  }

  /**
    Spent stays out, with its exact condition. In a quiescent state A can never be
    shown again, in any later state at all, if and only if A was admitted by a
    command that came before the first replace.
  */
  lemma SpentStaysOut(steps: seq<Step>)
    requires Quiescent(Run(INSTALLED, steps))
    ensures (forall more :: A !in Visible(Run(Run(INSTALLED, steps), more).durable.index))
       <==> AdmittedBeforeReplaced(Run(INSTALLED, steps).log)
  {
    var w := Run(INSTALLED, steps);
    ReachableIsOk(steps);
    QuiescentObserves(w);
    WhenSpent(w.log);
    WhenAIsShown(w.log);
    if AdmittedBeforeReplaced(w.log) {
      forall more ensures A !in Visible(Run(w, more).durable.index) { RunKeepsSpentOut(w, more); }
    } else {
      var id: nat :| id !in w.processes by { FreshId(w.processes.Keys); }
      var more := BringBack(w, id);
    }
  }

  /** Unless it was spent, one publish by any new process shows A. */
  lemma BringBack(w: World, id: nat) returns (more: seq<Step>)
    requires Inv(w) && Quiescent(w) && !AdmittedBeforeReplaced(w.log) && id !in w.processes
    ensures A in Visible(Run(w, more).durable.index)
    ensures OnlyProcess(id, Some(Publish), more) && Run(w, more).log == w.log + [Publish]
  {
    more := StartAndDrive(w, id, Some(Publish));
    var log := w.log + [Publish];
    SpentByPrefixOrLast(w.log, Publish);
    WhenAIsShown(log);
    assert AdmitsA(log[|log| - 1]);
  }

  lemma FreshId(used: set<nat>)
    ensures exists id: nat :: id !in used
  {
    var bound := AboveAll(used);
  }

  lemma {:induction false} AboveAll(used: set<nat>) returns (bound: nat)
    ensures forall id :: id in used ==> id < bound
    ensures bound !in used
  {
    if used == {} {
      bound := 0;
    } else {
      var one :| one in used;
      var rest := AboveAll(used - {one});
      bound := if one < rest then rest else one + 1;
      assert forall id :: id in used ==> id == one || id in used - {one};
    }
  }
}
