/**
  The durable state of the reference admission producer: a command cell, the
  topic's admission store and the materialised lookup index, together with the
  meaning of the four commands when nothing ever interrupts them.
*/
module AdmissionModel {
  import opened Common
  import opened OperationStore

  // ---------------------------------------------------------------- commands

  datatype Record = A | AC | Q | X

  datatype Action = Publish | Replace | Withdraw | Reintroduce

  datatype Phase = Phase(admit: seq<Record>, project: seq<Record>)

  function CommandPhases(action: Action): seq<Phase> {
    match action
    case Publish => [Phase([A, Q], [A, Q]), Phase([X], [X])]
    case Replace => [Phase([AC], [A, AC])]
    case Withdraw => [Phase([], [Q])]
    case Reintroduce => [Phase([A], [A])]
  }

  datatype Pending = Pending(action: Action, serial: nat, acceptedAt: nat, withdrawn: bool)

  datatype CommandState = CommandState(serial: nat, withdrawn: bool, pending: Option<Pending>)

  const INITIAL := CommandState(0, false, None)

  /** The state that a run writes to reserve a new command. */
  function Reserved(state: CommandState, action: Action, now: nat): CommandState {
    var pending := Pending(action, state.serial + 1, now,
                           action == Withdraw || (action != Publish && state.withdrawn));
    CommandState(pending.serial, state.withdrawn, Some(pending))
  }

  /** The state that a run writes to complete its command. */
  function Completed(state: CommandState, pending: Pending): CommandState {
    state.(withdrawn := pending.withdrawn, pending := None)
  }

  // --------------------------------------------------------- admission store

  datatype Store = Store(admitted: set<Record>, spent: set<Record>)

  /**
    One atomic submission. A record already applied is a duplicate and changes
    nothing; AC consumes A, but only when A is an unspent topical output by then.
  */
  function Submit(store: Store, r: Record): Store {
    if r in store.admitted then store
    else Store(store.admitted + {r},
               store.spent + if r == AC && A in store.admitted then {A} else {})
  }

  predicate Unspent(store: Store, r: Record) { r in store.admitted && r !in store.spent }

  /** The projection rule: an unspent stored output is shown, unless it is Q while withdrawn. */
  predicate Wanted(r: Record, unspent: bool, withdrawn: bool) { unspent && !(r == Q && withdrawn) }

  predicate Desired(store: Store, withdrawn: bool, r: Record) { Wanted(r, Unspent(store, r), withdrawn) }

  function SubmitAll(store: Store, rs: seq<Record>): Store
    decreases |rs|
  {
    if rs == [] then store else SubmitAll(Submit(store, rs[0]), rs[1..])
  }

  // ------------------------------------------------------------ lookup index

  /** `previous` is the row revision read; `present` says whether the row exists afterwards. */
  datatype Edit = Edit(previous: Option<nat>, present: bool)

  datatype Mutation = Mutation(base: nat, evaluatedAt: nat, edits: map<Record, Edit>, action: Action, serial: nat)

  /** The index is its log of groups; the rows at a sequence are the fold of the log up to it. */
  type Index = seq<Mutation>

  function Apply(rows: map<Record, nat>, m: Mutation, sequence: nat): map<Record, nat> {
    map r: Record | (r in m.edits && m.edits[r].present) || (r !in m.edits && r in rows)
      :: if r in m.edits then sequence else rows[r]
  }

  function Rows(index: Index): map<Record, nat> {
    if index == [] then map[] else Apply(Rows(index[..|index| - 1]), index[|index| - 1], |index|)
  }

  function Revision(rows: map<Record, nat>, r: Record): Option<nat> {
    if r in rows then Some(rows[r]) else None
  }

  /**
    Compares the whole observed head and every row predicate. A repeated commit of
    the very group that follows its base returns that group and changes nothing.
  */
  function Commit(index: Index, m: Mutation): Option<Index> {
    if m.base < |index| && index[m.base] == m then Some(index)
    else if m.base != |index| then None
    else if exists r :: r in m.edits && m.edits[r].previous != Revision(Rows(index), r) then None
    else Some(index + [m])
  }

  /** Every row that the group edits is still at the revision that was read. */
  ghost predicate RowsFresh(index: Index, m: Mutation) {
    forall r :: r in m.edits ==> m.edits[r].previous == (if r in Rows(index) then Some(Rows(index)[r]) else None)
  }

  /** Exactly what becomes of a group. */
  lemma CommitExactly(index: Index, m: Mutation)
    ensures Commit(index, m) == Some(index + [m]) <==> m.base == |index| && RowsFresh(index, m)
    ensures Commit(index, m) == Some(index) <==> m.base < |index| && index[m.base] == m
    ensures Commit(index, m).Some? ==> Commit(index, m).value in {index, index + [m]}
  {
    assert |index + [m]| != |index|;
  }

  /** The edits that bring the selected rows from `rows` to what was read from the store. */
  function Edits(rows: map<Record, nat>, unspent: set<Record>, withdrawn: bool, names: seq<Record>): map<Record, Edit> {
    map r: Record | r in names && (r in rows) != Wanted(r, r in unspent, withdrawn)
      :: Edit(Revision(rows, r), Wanted(r, r in unspent, withdrawn))
  }

  /** The rows as of a watermark. */
  function RowsAt(index: Index, sequence: nat): map<Record, nat> {
    Rows(if sequence <= |index| then index[..sequence] else index)
  }

  datatype Durable = Durable(command: Cell<CommandState>, store: Store, index: Index)

  const EMPTY := Durable(Cell(0, INITIAL), Store({}, {}), [])

  // ------------------------------------------ commands as atomic transitions

  /** What clients can see when no command is pending. */
  datatype View = View(serial: nat, withdrawn: bool, store: Store, visible: set<Record>)

  function RunPhase(o: View, withdrawn: bool, phase: Phase): View {
    var store := SubmitAll(o.store, phase.admit);
    o.(store := store,
       visible := set r: Record | if r in phase.project then Desired(store, withdrawn, r) else r in o.visible)
  }

  function RunPhases(o: View, withdrawn: bool, phases: seq<Phase>): View
    decreases |phases|
  {
    if phases == [] then o else RunPhases(RunPhase(o, withdrawn, phases[0]), withdrawn, phases[1..])
  }

  /** One uninterrupted command. */
  function RunCommand(o: View, action: Action): View {
    var withdrawn := action == Withdraw || (action != Publish && o.withdrawn);
    RunPhases(o, withdrawn, CommandPhases(action)).(serial := o.serial + 1, withdrawn := withdrawn)
  }

  /** The crash-free run of a list of commands from the empty installation. */
  function RunAll(log: seq<Action>): View {
    if log == [] then View(0, false, Store({}, {}), {})
    else RunCommand(RunAll(log[..|log| - 1]), log[|log| - 1])
  }

  function Visible(index: Index): set<Record> { Rows(index).Keys }

  function Observe(d: Durable): View {
    View(d.command.value.serial, d.command.value.withdrawn, d.store, Visible(d.index))
  }

  // ------------------------------------------- what the crash-free run shows

  /** In the crash-free run the index always shows exactly the wanted records. */
  lemma {:induction false} CrashFreeShowsWanted(log: seq<Action>)
    ensures RunAll(log).serial == |log|
    ensures RunAll(log).visible == set r: Record | Desired(RunAll(log).store, RunAll(log).withdrawn, r)
    ensures RunAll(log).store.spent <= {A}
  {
    if log != [] {
      var o := RunAll(log[..|log| - 1]);
      CrashFreeShowsWanted(log[..|log| - 1]);
      CommandShowsWanted(o, log[|log| - 1]);
    }
  }

  lemma CommandShowsWanted(o: View, action: Action)
    requires o.visible == set r: Record | Desired(o.store, o.withdrawn, r)
    requires o.store.spent <= {A}
    ensures var o' := RunCommand(o, action);
            && o'.visible == (set r: Record | Desired(o'.store, o'.withdrawn, r))
            && o'.store.spent <= {A}
  {
    CommandUnfolded(o, action);
  }

  predicate Projects(action: Action, r: Record) {
    match action
    case Publish => r != AC
    case Replace => r == A || r == AC
    case Withdraw => r == Q
    case Reintroduce => r == A
  }

  function Admits(action: Action): seq<Record> {
    match action
    case Publish => [A, Q, X]
    case Replace => [AC]
    case Withdraw => []
    case Reintroduce => [A]
  }

  function SubmitCommand(store: Store, action: Action): Store {
    match action
    case Publish => Submit(Submit(Submit(store, A), Q), X)
    case Replace => Submit(store, AC)
    case Withdraw => store
    case Reintroduce => Submit(store, A)
  }

  /** What one uninterrupted command does to the store and to the rows, with its phases unrolled. */
  lemma CommandUnfolded(o: View, action: Action)
    ensures var o' := RunCommand(o, action);
            && o'.store == SubmitCommand(o.store, action)
            && o'.visible == (set r: Record | if Projects(action, r) then Desired(o'.store, o'.withdrawn, r) else r in o.visible)
  {
    var withdrawn := action == Withdraw || (action != Publish && o.withdrawn);
    var phases := CommandPhases(action);
    SubmitLists(o.store);
    var first := RunPhase(o, withdrawn, phases[0]);
    if action == Publish {
      assert phases[1..] == [Phase([X], [X])] && phases[1..][1..] == [];
      var second := RunPhase(first, withdrawn, phases[1]);
      SubmitLists(first.store);
      assert RunPhases(o, withdrawn, phases) == second by {
        assert RunPhases(second, withdrawn, []) == second;
        assert RunPhases(first, withdrawn, phases[1..]) == RunPhases(second, withdrawn, []);
      }
    } else {
      assert phases[1..] == [];
      assert RunPhases(o, withdrawn, phases) == RunPhases(first, withdrawn, []) == first;
    }
  }

  lemma SubmitLists(store: Store)
    ensures SubmitAll(store, []) == store
    ensures forall r :: SubmitAll(store, [r]) == Submit(store, r)
    ensures SubmitAll(store, [A, Q]) == Submit(Submit(store, A), Q)
  {
  }

  /** The withdrawn flag after a log: its last publish-or-withdraw was a withdraw. */
  lemma {:induction false} WithdrawnIsLastSwitch(log: seq<Action>)
    ensures RunAll(log).withdrawn
       <==> exists k :: 0 <= k < |log| && log[k] == Withdraw && forall j :: k < j < |log| ==> log[j] != Publish
  {
    if log != [] {
      var n := |log| - 1;
      var prefix := log[..n];
      WithdrawnIsLastSwitch(prefix);
      if RunAll(log).withdrawn {
        if log[n] != Withdraw {
          var k :| 0 <= k < n && prefix[k] == Withdraw && forall j :: k < j < n ==> prefix[j] != Publish;
          assert log[k] == Withdraw;
        }
      }
      forall k | 0 <= k < |log| && log[k] == Withdraw && forall j :: k < j < |log| ==> log[j] != Publish
        ensures RunAll(log).withdrawn
      {
        if k < n {
          assert log[n] != Publish && prefix[k] == Withdraw;
          assert forall j :: k < j < n ==> prefix[j] == log[j];
        }
      }
    }
  }

  predicate AdmitsA(action: Action) { action == Publish || action == Reintroduce }

  predicate FirstReplace(log: seq<Action>, k: nat) {
    k < |log| && log[k] == Replace && Replace !in log[..k]
  }

  ghost predicate AdmitsBefore(log: seq<Action>, k: nat) {
    exists i :: 0 <= i < k && i < |log| && AdmitsA(log[i])
  }

  /** A is admitted by a command that comes before the first replace. */
  ghost predicate AdmittedBeforeReplaced(log: seq<Action>) {
    exists k: nat :: FirstReplace(log, k) && AdmitsBefore(log, k)
  }

  /**
    Exactly when A is shown: some command admitted it, and it was not admitted
    before the first replace. A first replace that precedes A's admission cannot
    spend it, and then A is shown beside its own replacement.
  */
  lemma WhenAIsShown(log: seq<Action>)
    ensures A in RunAll(log).visible
       <==> AdmitsBefore(log, |log|) && !AdmittedBeforeReplaced(log)
  {
    CrashFreeShowsWanted(log);
    WhenAdmitted(log);
    WhenSpent(log);
  }

  lemma {:induction false} WhenAdmitted(log: seq<Action>)
    ensures A in RunAll(log).store.admitted <==> AdmitsBefore(log, |log|)
    ensures AC in RunAll(log).store.admitted <==> Replace in log
    ensures forall r :: r == Q || r == X ==> (r in RunAll(log).store.admitted <==> Publish in log)
  {
    if log != [] {
      var n := |log| - 1;
      var prefix := log[..n];
      assert log == prefix + [log[n]];
      WhenAdmitted(prefix);
      OneMoreCommand(RunAll(prefix), log[n]);
      SameBefore(prefix, log[n], n);
      if AdmitsA(log[n]) { assert AdmitsBefore(log, |log|); }
      if i :| 0 <= i < |log| && AdmitsA(log[i]) { assert i < n ==> prefix[i] == log[i]; }
    }
  }

  lemma {:induction false} WhenSpent(log: seq<Action>)
    ensures A in RunAll(log).store.spent <==> AdmittedBeforeReplaced(log)
  {
    if log != [] {
      var n := |log| - 1;
      var prefix := log[..n];
      WhenSpent(prefix);
      WhenAdmitted(prefix);
      OneMoreCommand(RunAll(prefix), log[n]);
      SpentByPrefixOrLast(prefix, log[n]);
      assert log == prefix + [log[n]];
    }
  }

  lemma SpentByPrefixOrLast(prefix: seq<Action>, last: Action)
    ensures AdmittedBeforeReplaced(prefix + [last])
       <==> AdmittedBeforeReplaced(prefix) || (last == Replace && Replace !in prefix && AdmitsBefore(prefix, |prefix|))
  {
    var log, n := prefix + [last], |prefix|;
    forall k: nat | k <= n
      ensures FirstReplace(log, k) <==> if k < n then FirstReplace(prefix, k) else last == Replace && Replace !in prefix
      ensures AdmitsBefore(log, k) <==> AdmitsBefore(prefix, k)
    {
      assert log[..k] == prefix[..k] && prefix[..n] == prefix;
      SameBefore(prefix, last, k);
    }
    if AdmittedBeforeReplaced(prefix) {
      var k: nat :| FirstReplace(prefix, k) && AdmitsBefore(prefix, k);
      assert FirstReplace(log, k);
    }
    if last == Replace && Replace !in prefix && AdmitsBefore(prefix, n) {
      assert FirstReplace(log, n);
    }
    if AdmittedBeforeReplaced(log) {
      var k: nat :| FirstReplace(log, k) && AdmitsBefore(log, k);
      assert k < n ==> FirstReplace(prefix, k);
    }
  }

  lemma SameBefore(prefix: seq<Action>, last: Action, k: nat)
    requires k <= |prefix|
    ensures AdmitsBefore(prefix + [last], k) <==> AdmitsBefore(prefix, k)
  {
    if i :| 0 <= i < k && AdmitsA(prefix[i]) { assert AdmitsA((prefix + [last])[i]); }
  }

  lemma OneMoreCommand(o: View, action: Action)
    ensures var s := RunCommand(o, action).store;
            && (A in s.admitted <==> A in o.store.admitted || AdmitsA(action))
            && (AC in s.admitted <==> AC in o.store.admitted || action == Replace)
            && (forall r :: r == Q || r == X ==> (r in s.admitted <==> r in o.store.admitted || action == Publish))
            && (A in s.spent <==> (A in o.store.spent || (action == Replace && AC !in o.store.admitted && A in o.store.admitted)))
  {
    CommandUnfolded(o, action);
  }

  /** The failing family is real: replacing before the first publish leaves both editions visible. */
  lemma ReplaceBeforePublishShowsBoth()
    ensures RunAll([Replace, Publish]).visible == {A, AC, Q, X}
  {
    var log := [Replace, Publish];
    assert log[..1] == [Replace] && log[..1][..0] == [];
    CommandUnfolded(RunAll([]), Replace);
    CommandUnfolded(RunAll([Replace]), Publish);
    assert RunAll(log) == RunCommand(RunAll([Replace]), Publish);
  }
}
