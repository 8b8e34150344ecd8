/**
  The proposal outbox that browser tabs share: one saved request at a time, sent
  again until it is answered. Tabs interleave at every await and may close anywhere.
*/
module Outbox {
  import opened Common
  import opened OperationStore

  /** Requests and answers are identified by their bytes. */
  datatype Saved = Saved(pending: Option<nat>, last: Option<nat>)

  datatype Tab =
    | Publishing(request: nat)
    | Saving(revision: nat, next: Saved)
    | SaveConflicted(next: Saved)
    | Retrying
    | Loaded(revision: nat, request: nat)
    | Sending(revision: nat, request: nat)
    | Clearing(revision: nat, request: nat, next: Saved)
    | ClearConflicted(next: Saved)

  /** One saving of a request, named by the store revision that the saving wrote. */
  datatype Record = Record(revision: nat, request: nat)

  /**
    The history: `savings` has every request ever saved, `sent` everything put on the
    wire, in order and with the saving it was read from, `answered` the sends with a response.
  */
  datatype World = World(store: Cell<Saved>, tabs: map<nat, Tab>, savings: set<Record>, sent: seq<Record>, answered: set<Record>)

  datatype Step =
    | Publish(id: nat, request: nat)
    | Retry(id: nat)
    | Move(id: nat, response: Option<nat>)
    | Close(id: nat)

  const EMPTY := World(Cell(0, Saved(None, None)), map[], {}, [], {})

  function Become(w: World, id: nat, tab: Tab): World { w.(tabs := w.tabs[id := tab]) }

  function End(w: World, id: nat): World { w.(tabs := w.tabs - {id}) }

  /** `writeState`: a conflict is still a success when the stored value turns out to be the wanted one. */
  function Write(w: World, id: nat, revision: nat, next: Saved, saved: Option<Tab>, conflict: Tab): World {
    var swap := CompareAndSwap(w.store, revision, next);
    if swap.status.Conflict? then Become(w, id, conflict)
    else Goto(w.(store := swap.cell, savings := w.savings + WaitingIn(swap.cell)), id, saved)
  }

  /** The saving that waits now, if one does. */
  function Waiting(store: Cell<Saved>): Option<Record> {
    if store.value.pending.Some? then Some(Record(store.revision, store.value.pending.value)) else None
  }

  function WaitingIn(store: Cell<Saved>): set<Record> {
    if Waiting(store).Some? then {Waiting(store).value} else {}
  }

  function Goto(w: World, id: nat, tab: Option<Tab>): World {
    if tab.Some? then Become(w, id, tab.value) else End(w, id)
  }

  function Advance(w: World, id: nat, tab: Tab, response: Option<nat>): World {
    match tab
    case Publishing(request) =>
      if w.store.value.pending.Some? then End(w, id)
      else Become(w, id, Saving(w.store.revision, w.store.value.(pending := Some(request))))
    case Saving(revision, next) => Write(w, id, revision, next, Some(Retrying), SaveConflicted(next))
    case SaveConflicted(next) => Goto(w, id, if w.store.value == next then Some(Retrying) else None)
    case Retrying =>
      if w.store.value.pending.None? then End(w, id)
      else Become(w, id, Loaded(w.store.revision, w.store.value.pending.value))
    case Loaded(revision, request) =>
      Become(w.(sent := w.sent + [Record(revision, request)]), id, Sending(revision, request))
    case Sending(revision, request) =>
      if response.None? then End(w, id)
      else Become(w.(answered := w.answered + {Record(revision, request)}), id, Clearing(revision, request, Saved(None, response)))
    case Clearing(revision, _, next) => Write(w, id, revision, next, None, ClearConflicted(next))
    case ClearConflicted(_) => End(w, id)
  }

  /** One action per tab at a time. */
  function Next(w: World, step: Step): World {
    match step
    case Publish(id, request) => if id in w.tabs then w else Become(w, id, Publishing(request))
    case Retry(id) => if id in w.tabs then w else Become(w, id, Retrying)
    case Move(id, response) => if id in w.tabs then Advance(w, id, w.tabs[id], response) else w
    case Close(id) => End(w, id)
  }

  function Run(w: World, steps: seq<Step>): World
    decreases |steps|
  {
    if steps == [] then w else Run(Next(w, steps[0]), steps[1..])
  }

  // ------------------------------------------------------------ the invariant

  ghost predicate TabOk(w: World, tab: Tab) {
    match tab
    case Saving(revision, next) =>
      next.pending.Some? && revision <= w.store.revision && (revision == w.store.revision ==> w.store.value.pending.None?)
    case Loaded(revision, request) => ReadFrom(w, Record(revision, request))
    case Sending(revision, request) => ReadFrom(w, Record(revision, request)) && Record(revision, request) in w.sent
    case Clearing(revision, request, next) =>
      next.pending.None? && ReadFrom(w, Record(revision, request)) && Record(revision, request) in w.answered
    case _ => true
  }

  /** A saving that waited when it was read, and that still waits if the store has not moved on. */
  ghost predicate ReadFrom(w: World, s: Record) {
    s in w.savings && s.revision <= w.store.revision && (s.revision == w.store.revision ==> Waiting(w.store) == Some(s))
  }

  ghost predicate SavingsOk(w: World) {
    && (forall s :: s in w.savings ==> ReadFrom(w, s))
    && (forall s, t :: s in w.savings && t in w.savings && s.revision == t.revision ==> s == t)
    && (Waiting(w.store).Some? ==> Waiting(w.store).value in w.savings)
  }

  ghost predicate Inv(w: World) {
    && SavingsOk(w)
    && (forall s :: s in w.sent ==> s in w.savings)
    && (forall a :: a in w.answered ==> a in w.sent)
    && forall id :: id in w.tabs ==> TabOk(w, w.tabs[id])
  }

  /** What one step may do to the saved request. */
  ghost predicate SafeChange(w: World, w': World) {
    && w.answered <= w'.answered && w.savings <= w'.savings
    && w.store.revision <= w'.store.revision <= w.store.revision + 1
    && (w'.store.revision == w.store.revision ==> w'.store == w.store)
    // never replaced by another request, and cleared only once this very saving was sent and answered
    && (Waiting(w.store).Some? && w'.store != w.store ==>
          w'.store.value.pending == None && Waiting(w.store).value in w.sent && Waiting(w.store).value in w.answered)
    // a send, the first or a resend, carries a request as it was saved, byte for byte
    && (w'.sent == w.sent || exists s :: s in w.savings && w'.sent == w.sent + [s])
  }

  /** A step that leaves the store alone keeps the invariant if it does so for the tab that moves. */
  lemma QuietKeeps(w: World, w': World, id: nat)
    requires Inv(w) && w'.store == w.store && w'.savings == w.savings
    requires w.sent <= w'.sent && w.answered <= w'.answered
    requires (forall s :: s in w'.sent ==> s in w.savings) && (forall a :: a in w'.answered ==> a in w'.sent)
    requires forall o :: o in w'.tabs && o != id ==> o in w.tabs && w'.tabs[o] == w.tabs[o]
    requires id in w'.tabs ==> TabOk(w', w'.tabs[id])
    ensures Inv(w')
  {
    forall o | o in w'.tabs ensures TabOk(w', w'.tabs[o]) {
      if o != id { assert TabOk(w, w.tabs[o]); }
    }
  }

  /** So does a write of the store. */
  lemma WriteIsSafe(w: World, id: nat)
    requires Inv(w) && id in w.tabs && (w.tabs[id].Saving? || w.tabs[id].Clearing?)
    ensures Inv(Next(w, Move(id, None))) && SafeChange(w, Next(w, Move(id, None)))
  {
    var w' := Next(w, Move(id, None));
    assert TabOk(w, w.tabs[id]);
    if w'.store == w.store {
      QuietKeeps(w, w', id);
    } else {
      assert SavingsOk(w');
      forall o | o in w'.tabs ensures TabOk(w', w'.tabs[o]) {
        if o != id { assert TabOk(w, w.tabs[o]); }
      }
    }
  }

  /** Every step of every tab, whatever the others did in between, changes the outbox safely. */
  lemma StepIsSafe(w: World, step: Step)
    requires Inv(w)
    ensures Inv(Next(w, step)) && SafeChange(w, Next(w, step))
  {
    if step.Move? && step.id in w.tabs {
      if w.tabs[step.id].Saving? || w.tabs[step.id].Clearing? {
        WriteIsSafe(w, step.id);
        assert Next(w, step) == Next(w, Move(step.id, None));
      } else {
        MoveIsSafe(w, step.id, step.response);
      }
    } else {
      QuietKeeps(w, Next(w, step), step.id);
    }
  }

  lemma MoveIsSafe(w: World, id: nat, response: Option<nat>)
    requires Inv(w) && id in w.tabs && !w.tabs[id].Saving? && !w.tabs[id].Clearing?
    ensures Inv(Next(w, Move(id, response))) && SafeChange(w, Next(w, Move(id, response)))
  {
    assert TabOk(w, w.tabs[id]);
    QuietKeeps(w, Next(w, Move(id, response)), id);
  }

  lemma {:induction false} RunIsSafe(w: World, steps: seq<Step>)
    requires Inv(w)
    ensures Inv(Run(w, steps))
    decreases |steps|
  {
    if steps != [] {
      StepIsSafe(w, steps[0]);
      RunIsSafe(Next(w, steps[0]), steps[1..]);
    }
  }

  /** From the empty outbox, in every reachable state, for every next step. */
  lemma OutboxIsSafe(steps: seq<Step>, step: Step)
    ensures var w := Run(EMPTY, steps); SafeChange(w, Next(w, step)) && forall a :: a in w.answered ==> a in w.sent
  {
    RunIsSafe(EMPTY, steps);
    StepIsSafe(Run(EMPTY, steps), step);
  }

  /**
    A request that was once saved stays saved until that saving of it has been
    answered: whatever happens next, the store is unchanged or it was sent and answered.
  */
  lemma {:induction false} SavedUntilAnswered(w: World, steps: seq<Step>)
    requires Inv(w) && Waiting(w.store).Some?
    ensures var w' := Run(w, steps); w'.store == w.store || Waiting(w.store).value in w'.answered
    decreases |steps|
  {
    if steps != [] {
      var w1 := Next(w, steps[0]);
      StepIsSafe(w, steps[0]);
      if w1.store == w.store {
        SavedUntilAnswered(w1, steps[1..]);
      } else {
        AnswersStay(w1, steps[1..]);
      }
    }
  }

  /**
    Sends over whole runs: each is a saving, all sends of one saving carry the same
    request, and those of the saving that waits now carry the request saved now.
  */
  lemma ResendsAreIdentical(steps: seq<Step>)
    ensures var w := Run(EMPTY, steps);
            && (forall s :: s in w.sent ==> s in w.savings)
            && (forall s, t :: s in w.sent && t in w.sent && s.revision == t.revision ==> s == t)
            && (forall s :: s in w.sent && s.revision == w.store.revision ==> Waiting(w.store) == Some(s))
  {
    RunIsSafe(EMPTY, steps);
  }

  /**
    Reading and sending are apart, and so a tab may send a request after another tab has
    cleared it. What is sent is the request saved at that moment exactly when the store
    is still at the revision that the tab read.
  */
  lemma SendIsCurrent(steps: seq<Step>, id: nat, response: Option<nat>)
    requires var w := Run(EMPTY, steps); id in w.tabs && w.tabs[id].Loaded?
    ensures var w := Run(EMPTY, steps);
            var s := Record(w.tabs[id].revision, w.tabs[id].request);
            && Next(w, Move(id, response)).sent == w.sent + [s]
            && (Waiting(w.store) == Some(s) <==> w.tabs[id].revision == w.store.revision)
  {
    RunIsSafe(EMPTY, steps);
    assert TabOk(Run(EMPTY, steps), Run(EMPTY, steps).tabs[id]);
  }

  /**
    A concrete late send: one tab saves `r` and reads it; another sends it, gets its
    answer, clears it and saves `s`; then the first tab sends `r` while `s` is saved.
  */
  lemma LateSend(r: nat, s: nat, answer: nat) returns (steps: seq<Step>)
    requires r != s
    ensures var w := Run(EMPTY, steps);
            && 0 in w.tabs && w.tabs[0] == Loaded(1, r) && Waiting(w.store) == Some(Record(3, s))
            && Next(w, Move(0, None)).sent == w.sent + [Record(1, r)]
  {
    var first := [Publish(0, r), Move(0, None), Move(0, None), Move(0, None)];
    var other := [Retry(1), Move(1, None), Move(1, None), Move(1, Some(answer)), Move(1, None)];
    var again := [Publish(1, s), Move(1, None), Move(1, None)];
    var w1 := LateSendFirst(r, first);
    var w2 := LateSendOther(w1, r, answer, other);
    var w3 := LateSendAgain(w2, r, s, answer, again);
    RunSplits(EMPTY, first, other);
    RunSplits(EMPTY, first + other, again);
    steps := first + other + again;
  }

  lemma LateSendFirst(r: nat, steps: seq<Step>) returns (w: World)
    requires steps == [Publish(0, r), Move(0, None), Move(0, None), Move(0, None)]
    ensures w == Run(EMPTY, steps) && w.tabs == map[0 := Loaded(1, r)] && w.store == Cell(1, Saved(Some(r), None))
  {
    var a := Next(EMPTY, steps[0]);
    var b := Next(a, steps[1]);
    var c := Next(b, steps[2]);
    w := Next(c, steps[3]);
    Unfold(EMPTY, steps);
    Unfold(a, steps[1..]);
    Unfold(b, steps[2..]);
    Unfold(c, steps[3..]);
    assert Run(w, []) == w;
    assert b.tabs[0] == Saving(0, Saved(Some(r), None));
    assert c.tabs[0] == Retrying && c.store == Cell(1, Saved(Some(r), None));
  }

  lemma LateSendOther(w: World, r: nat, answer: nat, steps: seq<Step>) returns (w': World)
    requires w.tabs == map[0 := Loaded(1, r)] && w.store == Cell(1, Saved(Some(r), None))
    requires steps == [Retry(1), Move(1, None), Move(1, None), Move(1, Some(answer)), Move(1, None)]
    ensures w' == Run(w, steps) && w'.tabs == w.tabs && w'.store == Cell(2, Saved(None, Some(answer)))
  {
    var a := Next(w, steps[0]);
    var b := Next(a, steps[1]);
    var c := Next(b, steps[2]);
    var d := Next(c, steps[3]);
    w' := Next(d, steps[4]);
    Unfold(w, steps);
    Unfold(a, steps[1..]);
    Unfold(b, steps[2..]);
    Unfold(c, steps[3..]);
    Unfold(d, steps[4..]);
    assert Run(w', []) == w';
    assert b.tabs[1] == Loaded(1, r) && c.tabs[1] == Sending(1, r);
    assert d.tabs[1] == Clearing(1, r, Saved(None, Some(answer))) && d.store == w.store;
  }

  lemma LateSendAgain(w: World, r: nat, s: nat, answer: nat, steps: seq<Step>) returns (w': World)
    requires w.tabs == map[0 := Loaded(1, r)] && w.store == Cell(2, Saved(None, Some(answer)))
    requires steps == [Publish(1, s), Move(1, None), Move(1, None)]
    ensures w' == Run(w, steps) && 0 in w'.tabs && w'.tabs[0] == Loaded(1, r) && w'.store == Cell(3, Saved(Some(s), Some(answer)))
  {
    var a := Next(w, steps[0]);
    var b := Next(a, steps[1]);
    w' := Next(b, steps[2]);
    Unfold(w, steps);
    Unfold(a, steps[1..]);
    Unfold(b, steps[2..]);
    assert Run(w', []) == w';
    assert b.tabs[1] == Saving(2, Saved(Some(s), Some(answer)));
  }

  /** The steps of one tab that publishes, and of one that sends what is saved. */
  function SaveSteps(id: nat, request: nat): seq<Step> { [Publish(id, request), Move(id, None), Move(id, None)] }

  function SendSteps(id: nat, response: nat): seq<Step> {
    [Move(id, None), Move(id, None)] + [Move(id, Some(response)), Move(id, None)]
  }

  /**
    A request is sent and cleared. From every world in which nothing waits, a free tab
    saves its request, puts exactly it on the wire, and after the answer clears it and
    keeps the answer.
  */
  lemma RequestIsSent(w: World, id: nat, request: nat, response: nat)
    requires id !in w.tabs && w.store.value.pending.None?
    ensures var w' := Run(w, SaveSteps(id, request) + SendSteps(id, response));
            var s := Record(w.store.revision + 1, request);
            && w'.sent == w.sent + [s] && w'.answered == w.answered + {s} && w'.savings == w.savings + {s}
            && w'.store == Cell(w.store.revision + 2, Saved(None, Some(response))) && w'.tabs == w.tabs
  {
    Saves(w, id, request);
    RunSplits(w, SaveSteps(id, request), SendSteps(id, response));
    SavedIsSent(Run(w, SaveSteps(id, request)), id, response);
  }

  lemma Saves(w: World, id: nat, request: nat)
    requires id !in w.tabs && w.store.value.pending.None?
    ensures Run(w, SaveSteps(id, request))
         == Become(w, id, Retrying).(
              store := Cell(w.store.revision + 1, w.store.value.(pending := Some(request))),
              savings := w.savings + {Record(w.store.revision + 1, request)})
  {
    var steps := SaveSteps(id, request);
    var a := Next(w, steps[0]);
    var b := Next(a, steps[1]);
    Unfold(w, steps);
    Unfold(a, steps[1..]);
    Unfold(b, steps[2..]);
    assert b == Become(w, id, Saving(w.store.revision, w.store.value.(pending := Some(request))));
    assert Run(Next(b, steps[2]), []) == Next(b, steps[2]);
  }

  lemma SavedIsSent(w: World, id: nat, response: nat)
    requires id in w.tabs && w.tabs[id].Retrying? && w.store.value.pending.Some?
    ensures var s := Record(w.store.revision, w.store.value.pending.value);
            Run(w, SendSteps(id, response))
            == End(w, id).(store := Cell(w.store.revision + 1, Saved(None, Some(response))),
                           sent := w.sent + [s], answered := w.answered + {s})
  {
    var steps := SendSteps(id, response);
    var s := Record(w.store.revision, w.store.value.pending.value);
    var a := Next(w, steps[0]);
    var b := Next(a, steps[1]);
    var c := Next(b, steps[2]);
    Unfold(w, steps);
    Unfold(a, steps[1..]);
    Unfold(b, steps[2..]);
    Unfold(c, steps[3..]);
    assert b == Become(w.(sent := w.sent + [s]), id, Sending(s.revision, s.request));
    assert c == Become(w.(sent := w.sent + [s], answered := w.answered + {s}), id,
                       Clearing(s.revision, s.request, Saved(None, Some(response))));
    assert Run(Next(c, steps[3]), []) == Next(c, steps[3]);
    assert Next(c, steps[3]).tabs == w.tabs - {id};
  }

  /** A save that meets a conflict goes on to send exactly when the store then holds what was to be saved; a clear ends. */
  lemma ConflictIsDecided(w: World, id: nat, response: Option<nat>)
    requires id in w.tabs && (w.tabs[id].SaveConflicted? || w.tabs[id].ClearConflicted?)
    ensures var w' := Next(w, Move(id, response));
            && (id in w'.tabs <==> w.tabs[id].SaveConflicted? && w.store.value == w.tabs[id].next)
            && (id in w'.tabs ==> w'.tabs[id] == Retrying)
            && w'.store == w.store && w'.sent == w.sent && w'.answered == w.answered
  {
  }

  lemma Unfold(w: World, steps: seq<Step>)
    requires steps != []
    ensures Run(w, steps) == Run(Next(w, steps[0]), steps[1..])
  {
  }

  lemma {:induction false} RunSplits(w: World, s: seq<Step>, t: seq<Step>)
    ensures Run(w, s + t) == Run(Run(w, s), t)
    decreases |s|
  {
    if s == [] {
      assert s + t == t;
    } else {
      RunSplits(Next(w, s[0]), s[1..], t);
      assert (s + t)[0] == s[0] && (s + t)[1..] == s[1..] + t;
    }
  }

  lemma {:induction false} AnswersStay(w: World, steps: seq<Step>)
    requires Inv(w)
    ensures w.answered <= Run(w, steps).answered
    decreases |steps|
  {
    if steps != [] {
      StepIsSafe(w, steps[0]);
      AnswersStay(Next(w, steps[0]), steps[1..]);
    }
  }

  // ------------------------------------------------------------- one tab alone

  datatype Fault = Busy | Lost | Changed

  class ProposalTab {
    const outbox: OperationStateStore<Saved>
    var busy: bool

    constructor (outbox: OperationStateStore<Saved>)
      ensures this.outbox == outbox && !busy
    {
      this.outbox := outbox;
      busy := false;
    }

    method WriteState(revision: nat, value: Saved) returns (ok: bool)
      modifies outbox
      ensures outbox.cell == old(CompareAndSwap(outbox.cell, revision, value).cell)
      ensures ok <==> !old(CompareAndSwap(outbox.cell, revision, value).status.Conflict?) || old(outbox.cell.value) == value
    {
      var status := outbox.Swap(revision, value);
      ok := status != Conflict || outbox.cell.value == value;
    }

    /** Sends the saved request; it is cleared only after its own answer. */
    method RetrySaved(response: Option<nat>) returns (sent: Option<nat>)
      modifies outbox
      ensures sent == old(outbox.cell.value.pending)
      ensures sent.None? || response.None? ==> outbox.cell == old(outbox.cell)
      ensures sent.Some? && response.Some? ==> outbox.cell == Cell(old(outbox.cell.revision) + 1, Saved(None, response))
    {
      var saved := outbox.cell;
      sent := saved.value.pending;
      if sent.None? || response.None? { return; }
      var ok := WriteState(saved.revision, Saved(None, response));
    }

    /** Saves a new request before it is first sent, and refuses while another one waits. */
    method PublishNew(request: nat, response: Option<nat>) returns (r: Result<Option<nat>, Fault>)
      modifies this, outbox
      ensures !old(busy) ==> !busy
      ensures old(busy) || old(outbox.cell.value.pending).Some? ==> r.Failure? && outbox.cell == old(outbox.cell)
      ensures !old(busy) && old(outbox.cell.value.pending).None? ==>
                && r == Success(Some(request))
                && outbox.cell.value == (if response.Some? then Saved(None, response)
                                         else Saved(Some(request), old(outbox.cell.value.last)))
    {
      if busy { return Failure(Busy); }
      busy := true;
      var saved := outbox.cell;
      if saved.value.pending.Some? {
        busy := false;
        return Failure(Changed);
      }
      var ok := WriteState(saved.revision, saved.value.(pending := Some(request)));
      if ok {
        var sent := RetrySaved(response);
        r := Success(sent);
      } else {
        r := Failure(Lost);
      }
      busy := false;
    }
  }
}
