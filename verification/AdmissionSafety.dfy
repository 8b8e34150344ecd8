/** Every write of the admission producer keeps the invariant, whichever process makes it. */
module AdmissionSafety {
  import opened AdmissionModel
  import opened AdmissionMachine

  // ---------------------------------------------------- the durable invariant

  lemma ReserveKeepsDurable(d: Durable, d': Durable, log: seq<Action>, completions: seq<nat>, action: Action, now: nat)
    requires DurableOk(d, log, completions) && Reserves(d, d', log, action, now)
    ensures DurableOk(d', log + [action], completions)
  {
    var log' := log + [action];
    assert log'[..|log|] == log;
    var p := d'.command.value.pending.value;
    CommandUnfolded(RunAll(log), action);
    forall r | !Projects(action, r) ensures Agrees(d', p.withdrawn, r) {
      assert Agrees(d, d.command.value.withdrawn, r);
    }
  }

  lemma SubmitKeepsDurable(d: Durable, d': Durable, log: seq<Action>, completions: seq<nat>, p: Pending, r: Record)
    requires DurableOk(d, log, completions) && Submits(d, d', p, r)
    ensures DurableOk(d', log, completions)
  {
    SubmitOnceMore(d.store, p.action, r);
    forall n | !Projects(p.action, n) ensures Agrees(d', p.withdrawn, n) {
      assert Agrees(d, p.withdrawn, n);
      SubmitKeepsOthers(d, d', p, r, n);
    }
    SubmitKeepsEdits(d, d', p, r);
  }

  lemma SubmitKeepsEdits(d: Durable, d': Durable, p: Pending, r: Record)
    requires Submits(d, d', p, r) && EditsAgree(d, p)
    ensures EditsAgree(d', p)
  {
    forall k, n | 0 <= k < |d.index| && d.index[k].serial == p.serial && n in d.index[k].edits
      ensures Ready(p.action, d'.store, n) && Agrees(d', p.withdrawn, n)
    {
      SubmitKeepsAgreement(d, d', p, r, n);
    }
  }

  lemma SubmitKeepsOthers(d: Durable, d': Durable, p: Pending, r: Record, n: Record)
    requires Submits(d, d', p, r) && !Projects(p.action, n) && Agrees(d, p.withdrawn, n)
    ensures Agrees(d', p.withdrawn, n)
  {
  }

  lemma SubmitKeepsAgreement(d: Durable, d': Durable, p: Pending, r: Record, n: Record)
    requires Submits(d, d', p, r) && Ready(p.action, d.store, n) && Agrees(d, p.withdrawn, n)
    ensures Ready(p.action, d'.store, n) && Agrees(d', p.withdrawn, n)
  {
    var i :| 0 <= i < |CommandPhases(p.action)| && n in Names(p.action, i) && AdmittedThrough(p.action, d.store, i + 1);
    assert AdmittedThrough(p.action, d'.store, i + 1);
    SubmitKeepsReady(p.action, d.store, i, n, r);
  }

  lemma CommitKeepsDurable(d: Durable, d': Durable, log: seq<Action>, completions: seq<nat>, p: Pending, phase: nat, m: Mutation)
    requires DurableOk(d, log, completions) && Commits(d, d', p, phase, m)
    ensures DurableOk(d', log, completions)
    ensures forall r :: Agrees(d, p.withdrawn, r) || r in Names(p.action, phase) ==> Agrees(d', p.withdrawn, r)
  {
    CommitAgrees(d, d', p, phase, m);
    PhasesCover(p.action, d.store);
    CommitKeepsEdits(d, d', p, phase, m);
    forall r | !Projects(p.action, r) ensures Agrees(d', p.withdrawn, r) { }
  }

  lemma CommitKeepsEdits(d: Durable, d': Durable, p: Pending, phase: nat, m: Mutation)
    requires Commits(d, d', p, phase, m) && EditsAgree(d, p)
    ensures EditsAgree(d', p)
  {
    CommitAgrees(d, d', p, phase, m);
    forall k, r | 0 <= k < |d'.index| && d'.index[k].serial == p.serial && r in d'.index[k].edits
      ensures Ready(p.action, d'.store, r) && Agrees(d', p.withdrawn, r)
    {
      if k < |d.index| {
        assert d'.index[k] == d.index[k];
      } else {
        CommittedIsReady(d, d', p, phase, m, r);
      }
    }
  }

  lemma CommittedIsReady(d: Durable, d': Durable, p: Pending, phase: nat, m: Mutation, r: Record)
    requires Commits(d, d', p, phase, m) && r in m.edits
    ensures r in Names(p.action, phase) && Ready(p.action, d'.store, r)
  {
  }

  lemma CommitAgrees(d: Durable, d': Durable, p: Pending, phase: nat, m: Mutation)
    requires Commits(d, d', p, phase, m)
    ensures forall r :: Agrees(d, p.withdrawn, r) || r in Names(p.action, phase) ==> Agrees(d', p.withdrawn, r)
  {
    AppendedRows(d.index, m);
    forall r | Agrees(d, p.withdrawn, r) || r in Names(p.action, phase) ensures Agrees(d', p.withdrawn, r) {
      assert r in m.edits <==> r in Names(p.action, phase) && !Agrees(d, p.withdrawn, r);
    }
  }

  lemma CompleteKeepsDurable(d: Durable, d': Durable, log: seq<Action>, completions: seq<nat>, p: Pending)
    requires DurableOk(d, log, completions) && Completes(d, d', p)
    ensures DurableOk(d', log, completions + [p.serial])
  {
    PhasesCover(p.action, d.store);
    assert SubmitCommand(d.store, p.action) == d.store;
    forall r ensures Agrees(d', p.withdrawn, r) {
      assert Agrees(d, p.withdrawn, r);
    }
  }

  // ------------------------------------------------------ the other processes

  lemma ReserveKeepsProcess(d: Durable, d': Durable, log: seq<Action>, completions: seq<nat>, action: Action, now: nat, w: Process)
    requires DurableOk(d, log, completions) && Reserves(d, d', log, action, now)
    requires ProcessOk(d, log, w)
    ensures ProcessOk(d', log + [action], w)
  {
  }

  lemma SubmitKeepsNames(d: Durable, d': Durable, p: Pending, r: Record, phase: nat)
    requires Submits(d, d', p, r) && phase < |CommandPhases(p.action)| && AdmittedThrough(p.action, d.store, phase + 1)
    ensures forall n :: n in Names(p.action, phase) ==> Unspent(d'.store, n) == Unspent(d.store, n)
    ensures forall n :: n in Names(p.action, phase) ==> Agrees(d', p.withdrawn, n) == Agrees(d, p.withdrawn, n)
  {
    forall n | n in Names(p.action, phase) ensures Unspent(d'.store, n) == Unspent(d.store, n) {
      SubmitKeepsReady(p.action, d.store, phase, n, r);
    }
  }

  lemma SubmitKeepsProjected(d: Durable, d': Durable, p: Pending, r: Record, phase: nat)
    requires Submits(d, d', p, r) && phase <= |CommandPhases(p.action)| && AdmittedThrough(p.action, d.store, phase)
    requires ProjectedBefore(d, p, phase)
    ensures ProjectedBefore(d', p, phase)
  {
    forall i, n | 0 <= i < phase && n in Names(p.action, i) ensures Agrees(d', p.withdrawn, n) {
      assert AdmittedThrough(p.action, d.store, i + 1);
      SubmitKeepsNames(d, d', p, r, i);
    }
  }

  lemma SubmitKeepsProcess(d: Durable, d': Durable, log: seq<Action>, completions: seq<nat>, p: Pending, r: Record, w: Process)
    requires DurableOk(d, log, completions) && Submits(d, d', p, r)
    requires ProcessOk(d, log, w)
    ensures ProcessOk(d', log, w)
  {
    if w.Working? {
      var q, phase := w.pending, w.phase;
      assert AdmittedThrough(q.action, d'.store, phase);
      if Current(d, q) {
        SubmitKeepsProjected(d, d', q, r, phase);
        if phase < |CommandPhases(q.action)| && AllAdmitted(d.store, ToAdmit(q.action, phase)) {
          SubmitKeepsNames(d, d', q, r, phase);
          if ProjectedBefore(d, q, phase + 1) { SubmitKeepsProjected(d, d', q, r, phase + 1); }
        }
      }
    }
  }

  lemma CommitKeepsProcess(d: Durable, d': Durable, log: seq<Action>, completions: seq<nat>, p: Pending, phase: nat, m: Mutation, w: Process)
    requires DurableOk(d, log, completions) && Commits(d, d', p, phase, m)
    requires ProcessOk(d, log, w)
    ensures ProcessOk(d', log, w)
  {
    CommitAgrees(d, d', p, phase, m);
    if w.Working? && w.local.Committing? {
      CommitKeepsCommitting(d, d', log, p, phase, m, w);
    }
  }

  /** Another commit with the same base either has the same group, and is then done too, or is stale from now on. */
  lemma CommitKeepsCommitting(d: Durable, d': Durable, log: seq<Action>, p: Pending, phase: nat, m: Mutation, w: Process)
    requires Commits(d, d', p, phase, m)
    requires ProcessOk(d, log, w) && w.Working? && w.local.Committing?
    ensures ProcessOk(d', log, w)
  {
    CommitAgrees(d, d', p, phase, m);
    var n := w.local.mutation;
    if n.base < |d.index| {
      assert d'.index[n.base] == d.index[n.base];
    } else if n == m {
      assert AdmittedThrough(p.action, d.store, w.phase + 1);
      CommitAgrees(d, d', p, w.phase, m);
    }
  }

  lemma CompleteKeepsProcess(d: Durable, d': Durable, log: seq<Action>, completions: seq<nat>, p: Pending, w: Process)
    requires DurableOk(d, log, completions) && Completes(d, d', p)
    requires ProcessOk(d, log, w)
    ensures ProcessOk(d', log, w)
  {
    PhasesCover(p.action, d.store);
    if w.Working? && w.local.Committing? {
      var r :| r in w.local.mutation.edits;
      assert r in Names(p.action, w.phase) ==> Agrees(d, p.withdrawn, r);
    }
  }

  // ----------------------------------------------------- the moving process

  /** Every step of a process either leaves the durable state alone or is one of the four writes. */
  lemma AdvanceWrites(d: Durable, log: seq<Action>, completions: seq<nat>, w: Process, now: nat, pick: Record)
    requires DurableOk(d, log, completions) && ProcessOk(d, log, w)
    ensures Writes(d, Advance(d, w, now, pick).durable, log, w)
  {
    match w
    case Starting(_) =>
    case Confirming(_) =>
    case Reserving(_, _) =>
    case Working(p, phase, local) =>
      if local.Admitting? { AdmitWrites(d, log, w); }
      if local.Committing? { CommitWrites(d, log, completions, w); }
      if local.Completing? { CompleteWrites(d, log, w); }
  }

  ghost predicate Writes(d: Durable, d': Durable, log: seq<Action>, w: Process) {
    || d' == d
    || (w.Reserving? && w.next.pending.Some? && Reserves(d, d', log, w.next.pending.value.action, w.next.pending.value.acceptedAt))
    || (w.Working? &&
          match w.local
          case Admitting(at, _) =>
            at < |ToAdmit(w.pending.action, w.phase)| && Submits(d, d', w.pending, ToAdmit(w.pending.action, w.phase)[at])
          case Committing(m) => Commits(d, d', w.pending, w.phase, m)
          case Completing(_, _) => Completes(d, d', w.pending)
          case _ => false)
  }

  lemma AdmitWrites(d: Durable, log: seq<Action>, w: Process)
    requires ProcessOk(d, log, w) && w.Working? && w.local.Admitting?
    ensures Writes(d, AdvanceAdmit(d, w.pending, w.phase, w.local.at, w.local.stage).durable, log, w)
  {
  }

  lemma CompleteWrites(d: Durable, log: seq<Action>, w: Process)
    requires ProcessOk(d, log, w) && w.Working? && w.local.Completing?
    ensures Writes(d, AdvanceLocal(d, w.pending, w.phase, w.local, 0, A).durable, log, w)
  {
  }

  lemma CommitWrites(d: Durable, log: seq<Action>, completions: seq<nat>, w: Process)
    requires DurableOk(d, log, completions) && ProcessOk(d, log, w) && w.Working? && w.local.Committing?
    ensures var c := Commit(d.index, w.local.mutation);
            c.Some? ==> c.value == d.index || Commits(d, d.(index := c.value), w.pending, w.phase, w.local.mutation)
  {
    assert AdmittedThrough(w.pending.action, d.store, w.phase + 1);
  }

  lemma AdvanceKeepsAdmit(d: Durable, log: seq<Action>, completions: seq<nat>, p: Pending, phase: nat, at: nat, stage: Stage)
    requires DurableOk(d, log, completions) && ProcessOk(d, log, Working(p, phase, Admitting(at, stage)))
    ensures var m := AdvanceAdmit(d, p, phase, at, stage);
            m.process.Some? ==> ProcessOk(m.durable, log, m.process.value)
  {
    if (stage.Read? || stage.Reread?) && stage.found && Current(d, p) {
      AdmittedKeeps(d, log, p, phase, at, stage);
    } else if stage.Submitting? {
      SubmittingKeeps(d, log, completions, p, phase, at);
    }
  }

  lemma AdmittedKeeps(d: Durable, log: seq<Action>, p: Pending, phase: nat, at: nat, stage: Stage)
    requires ProcessOk(d, log, Working(p, phase, Admitting(at, stage))) && Current(d, p)
    requires (stage.Read? || stage.Reread?) && stage.found
    ensures ProcessOk(d, log, NextAdmit(p, phase, at))
  {
  }

  lemma SubmittingKeeps(d: Durable, log: seq<Action>, completions: seq<nat>, p: Pending, phase: nat, at: nat)
    requires DurableOk(d, log, completions) && ProcessOk(d, log, Working(p, phase, Admitting(at, Submitting)))
    ensures var m := AdvanceAdmit(d, p, phase, at, Submitting);
            m.process.Some? && ProcessOk(m.durable, log, m.process.value)
  {
    var m := AdvanceAdmit(d, p, phase, at, Submitting);
    var was := Working(p, phase, Admitting(at, Submitting));
    if m.durable != d {
      AdmitWrites(d, log, was);
      SubmitKeepsProcess(d, m.durable, log, completions, p, ToAdmit(p.action, phase)[at], was);
    }
  }

  lemma BeginKeeps(d: Durable, log: seq<Action>, p: Pending, phase: nat)
    requires p.serial <= |log| && phase <= |CommandPhases(p.action)|
    requires Current(d, p) && AdmittedThrough(p.action, d.store, phase) && ProjectedBefore(d, p, phase)
    ensures ProcessOk(d, log, BeginPhase(p, phase))
  {
  }

  lemma AdvanceKeepsEvaluation(d: Durable, log: seq<Action>, p: Pending, phase: nat, base: nat, read: map<Record, bool>,
                               checked: set<Record>, pick: Record)
    requires ProcessOk(d, log, Working(p, phase, Evaluating(base, read, checked)))
    ensures var m := AdvanceEvaluation(d, p, phase, base, read, checked, pick);
            m.durable == d && (m.process.Some? ==> ProcessOk(d, log, m.process.value))
  {
  }

  lemma {:induction false} Untouched(index: Index, base: nat, r: Record)
    requires base <= |index| && forall k :: base <= k < |index| ==> r !in index[k].edits
    ensures r in Rows(index) <==> r in Rows(index[..base])
  {
    if base == |index| {
      assert index[..base] == index;
    } else {
      var n := |index| - 1;
      Untouched(index[..n], base, r);
      assert index[..n][..base] == index[..base];
    }
  }

  /** After the last check, the edits fit the head, or the base is stale and an identical group already did the work. */
  lemma SettledKeeps(d: Durable, log: seq<Action>, completions: seq<nat>, p: Pending, phase: nat, base: nat, read: map<Record, bool>, now: nat)
    requires DurableOk(d, log, completions) && ProcessOk(d, log, Working(p, phase, Settled(base, read))) && Current(d, p)
    ensures var m := AdvanceLocal(d, p, phase, Settled(base, read), now, A);
            m.durable == d && m.process.Some? && ProcessOk(d, log, m.process.value)
  {
    assert AdmittedThrough(p.action, d.store, phase + 1);
    assert forall r :: r in Names(p.action, phase) ==> (r in UnspentRead(read) <==> Unspent(d.store, r));
    if base == |d.index| {
      SettledAtHead(d, p, phase, base, read);
    } else {
      SettledBehind(d, log, completions, p, phase, base, read, now);
    }
    if |Edits(RowsAt(d.index, base), UnspentRead(read), p.withdrawn, Names(p.action, phase))| == 0 {
      BeginKeeps(d, log, p, phase + 1);
    }
  }

  lemma SettledAtHead(d: Durable, p: Pending, phase: nat, base: nat, read: map<Record, bool>)
    requires base == |d.index|
    requires forall r :: r in Names(p.action, phase) ==> (r in UnspentRead(read) <==> Unspent(d.store, r))
    ensures var edits := Edits(RowsAt(d.index, base), UnspentRead(read), p.withdrawn, Names(p.action, phase));
            && FitsHead(d, p, phase, edits)
            && (|edits| == 0 && ProjectedBefore(d, p, phase) ==> ProjectedBefore(d, p, phase + 1))
  {
    var edits := Edits(RowsAt(d.index, base), UnspentRead(read), p.withdrawn, Names(p.action, phase));
    assert d.index[..base] == d.index;
    assert |edits| == 0 ==> forall r :: r !in edits;
  }

  lemma SettledBehind(d: Durable, log: seq<Action>, completions: seq<nat>, p: Pending, phase: nat, base: nat, read: map<Record, bool>, now: nat)
    requires DurableOk(d, log, completions) && ProcessOk(d, log, Working(p, phase, Settled(base, read))) && Current(d, p)
    requires base < |d.index|
    ensures var edits := Edits(RowsAt(d.index, base), UnspentRead(read), p.withdrawn, Names(p.action, phase));
            |edits| == 0 || d.index[base] == Mutation(base, now, edits, p.action, p.serial) ==> ProjectedBefore(d, p, phase + 1)
  {
    var edits := Edits(RowsAt(d.index, base), UnspentRead(read), p.withdrawn, Names(p.action, phase));
    forall r | r in Names(p.action, phase) && r !in edits ensures Agrees(d, p.withdrawn, r) {
      UneditedAgrees(d, log, completions, p, phase, base, read, r);
    }
    assert |edits| == 0 ==> forall r :: r !in edits;
    if d.index[base].edits == edits && d.index[base].serial == p.serial {
      assert forall r :: r in edits ==> Agrees(d, p.withdrawn, r);
    }
  }

  /** A row that already agreed at the base still agrees at the head: only this command wrote in between. */
  lemma UneditedAgrees(d: Durable, log: seq<Action>, completions: seq<nat>, p: Pending, phase: nat, base: nat, read: map<Record, bool>, r: Record)
    requires DurableOk(d, log, completions) && ProcessOk(d, log, Working(p, phase, Settled(base, read))) && Current(d, p)
    requires base < |d.index| && r in Names(p.action, phase)
    requires r !in Edits(RowsAt(d.index, base), UnspentRead(read), p.withdrawn, Names(p.action, phase))
    ensures Agrees(d, p.withdrawn, r)
  {
    if k :| base <= k < |d.index| && r in d.index[k].edits {
      assert d.index[k].serial == p.serial;
    } else {
      Untouched(d.index, base, r);
    }
  }

  lemma AdvanceKeepsProcess(d: Durable, log: seq<Action>, completions: seq<nat>, w: Process, now: nat, pick: Record)
    requires DurableOk(d, log, completions) && ProcessOk(d, log, w)
    ensures var m := Advance(d, w, now, pick);
            m.process.Some? ==> ProcessOk(m.durable, log, m.process.value)
  {
    if Advance(d, w, now, pick).process.Some? {
      match w
      case Starting(_) =>
        if d.command.value.pending.Some? { BeginKeeps(d, log, d.command.value.pending.value, 0); }
      case Reserving(_, _) =>
      case Confirming(p) => BeginKeeps(d, log, p, 0);
      case Working(_, _, _) => WorkingKeeps(d, log, completions, w, now, pick);
    }
  }

  lemma WorkingKeeps(d: Durable, log: seq<Action>, completions: seq<nat>, w: Process, now: nat, pick: Record)
    requires DurableOk(d, log, completions) && ProcessOk(d, log, w) && w.Working?
    requires Advance(d, w, now, pick).process.Some?
    ensures var m := Advance(d, w, now, pick); ProcessOk(m.durable, log, m.process.value)
  {
    var p, phase := w.pending, w.phase;
    match w.local
    case Admitting(at, stage) => AdvanceKeepsAdmit(d, log, completions, p, phase, at, stage);
    case Evaluating(base, read, checked) => AdvanceKeepsEvaluation(d, log, p, phase, base, read, checked, pick);
    case Settled(base, read) => SettledKeeps(d, log, completions, p, phase, base, read, now);
    case Committing(_) => CommittingKeeps(d, log, completions, w, now, pick);
    case Projecting =>
    case ReadingHead =>
    case Committed =>
      assert AdmittedThrough(p.action, d.store, phase + 1);
      BeginKeeps(d, log, p, phase + 1);
    case Finishing =>
    case Completing(_, _) =>
  }

  lemma CommittingKeeps(d: Durable, log: seq<Action>, completions: seq<nat>, w: Process, now: nat, pick: Record)
    requires DurableOk(d, log, completions) && ProcessOk(d, log, w) && w.Working? && w.local.Committing?
    ensures var m := Advance(d, w, now, pick);
            m.process.Some? ==> ProcessOk(m.durable, log, m.process.value)
  {
    var m := Advance(d, w, now, pick);
    if m.durable != d {
      AdvanceWrites(d, log, completions, w, now, pick);
      CommitKeepsDurable(d, m.durable, log, completions, w.pending, w.phase, w.local.mutation);
      CommitKeepsProcess(d, m.durable, log, completions, w.pending, w.phase, w.local.mutation, w);
    }
  }

  // ---------------------------------------------------------------- all runs

  lemma NextKeepsInv(w: World, step: Step)
    requires Inv(w)
    ensures Inv(Next(w, step))
  {
    if step.Move? && step.id in w.processes {
      MoveKeepsInv(w, step);
    }
  }

  lemma MoveKeepsInv(w: World, step: Step)
    requires Inv(w) && step.Move? && step.id in w.processes
    ensures Inv(Next(w, step))
  {
    var d, was := w.durable, w.processes[step.id];
    var m := Advance(d, was, step.now, step.pick);
    var w' := Next(w, step);
    AdvanceWrites(d, w.log, w.completions, was, step.now, step.pick);
    AdvanceKeepsProcess(d, w.log, w.completions, was, step.now, step.pick);
    if m.durable != d {
      WriteKeepsDurable(w, step);
      forall id | id in w'.processes ensures ProcessOk(w'.durable, w'.log, w'.processes[id]) {
        if id != step.id { WriteKeepsProcess(w, step, w.processes[id]); }
      }
    }
  }

  lemma WriteKeepsDurable(w: World, step: Step)
    requires Inv(w) && step.Move? && step.id in w.processes && Next(w, step).durable != w.durable
    ensures DurableOk(Next(w, step).durable, Next(w, step).log, Next(w, step).completions)
  {
    var d, was := w.durable, w.processes[step.id];
    var d' := Advance(d, was, step.now, step.pick).durable;
    AdvanceWrites(d, w.log, w.completions, was, step.now, step.pick);
    match was
    case Starting(_) =>
    case Confirming(_) =>
    case Reserving(_, next) =>
      ReserveKeepsDurable(d, d', w.log, w.completions, next.pending.value.action, next.pending.value.acceptedAt);
    case Working(p, phase, local) =>
      if local.Admitting? { SubmitKeepsDurable(d, d', w.log, w.completions, p, ToAdmit(p.action, phase)[local.at]); }
      if local.Committing? { CommitKeepsDurable(d, d', w.log, w.completions, p, phase, local.mutation); }
      if local.Completing? { CompleteKeepsDurable(d, d', w.log, w.completions, p); }
  }

  lemma WriteKeepsProcess(w: World, step: Step, other: Process)
    requires Inv(w) && step.Move? && step.id in w.processes && Next(w, step).durable != w.durable
    requires ProcessOk(w.durable, w.log, other)
    ensures ProcessOk(Next(w, step).durable, Next(w, step).log, other)
  {
    var d, was := w.durable, w.processes[step.id];
    var d' := Advance(d, was, step.now, step.pick).durable;
    AdvanceWrites(d, w.log, w.completions, was, step.now, step.pick);
    match was
    case Starting(_) =>
    case Confirming(_) =>
    case Reserving(_, next) =>
      ReserveKeepsProcess(d, d', w.log, w.completions, next.pending.value.action, next.pending.value.acceptedAt, other);
    case Working(p, phase, local) =>
      if local.Admitting? { SubmitKeepsProcess(d, d', w.log, w.completions, p, ToAdmit(p.action, phase)[local.at], other); }
      if local.Committing? { CommitKeepsProcess(d, d', w.log, w.completions, p, phase, local.mutation, other); }
      if local.Completing? { CompleteKeepsProcess(d, d', w.log, w.completions, p, other); }
  }

  lemma {:induction false} RunKeepsInv(w: World, steps: seq<Step>)
    requires Inv(w)
    ensures Inv(Run(w, steps))
    decreases |steps|
  {
    if steps != [] {
      NextKeepsInv(w, steps[0]);
      RunKeepsInv(Next(w, steps[0]), steps[1..]);
    }
  }
}
