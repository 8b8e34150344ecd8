/**
  The two server-sent-event streams. A subscription exists from the moment the
  chain tracker grants it, which is before the waiting handler gets to see it.
*/
module Subscriptions {
  import opened Common

  datatype Kind = Tip | Reorg

  datatype Stage =
    | Subscribing
    | Granted(id: nat)
    | Unsubscribing
    | FindingTip
    | Returned

  datatype Stream = Stream(kind: Kind, subscriptionId: Option<nat>, closed: bool, stage: Stage)

  /** `released` is the history of unsubscribe calls, in order. */
  datatype World = World(streams: map<nat, Stream>, nextId: nat, released: seq<nat>)

  datatype Step =
    | Open(id: nat, kind: Kind)
    | Grant(id: nat)
    | Resume(id: nat, ok: bool)
    | ClientClose(id: nat)

  const NONE := World(map[], 0, [])

  function Put(w: World, id: nat, s: Stream): World { w.(streams := w.streams[id := s]) }

  /** The cleanup closure: releases the subscription the first time it finds one. */
  function Cleanup(w: World, id: nat, s: Stream): World {
    var w' := if s.subscriptionId.Some? then w.(released := w.released + [s.subscriptionId.value]) else w;
    Put(w', id, s.(closed := true, subscriptionId := None))
  }

  /** What the handler does when its await settles, with a value or with an exception. */
  function ResumeStream(w: World, id: nat, s: Stream, ok: bool): World {
    match s.stage
    case Subscribing => if ok then w else Cleanup(w, id, s.(stage := Returned))
    case Granted(sub) =>
      if s.closed then Put(w.(released := w.released + [sub]), id, s.(subscriptionId := None, stage := Unsubscribing))
      else Put(w, id, s.(subscriptionId := Some(sub), stage := if s.kind.Tip? then FindingTip else Returned))
    case Unsubscribing => if ok then Put(w, id, s.(stage := Returned)) else Cleanup(w, id, s.(stage := Returned))
    case FindingTip => if ok then Put(w, id, s.(stage := Returned)) else Cleanup(w, id, s.(stage := Returned))
    case Returned => w
  }

  function Next(w: World, step: Step): World {
    match step
    case Open(id, kind) => if id in w.streams then w else Put(w, id, Stream(kind, None, false, Subscribing))
    case Grant(id) =>
      if id in w.streams && w.streams[id].stage.Subscribing?
      then Put(w, id, w.streams[id].(stage := Granted(w.nextId))).(nextId := w.nextId + 1) else w
    case Resume(id, ok) => if id in w.streams then ResumeStream(w, id, w.streams[id], ok) else w
    case ClientClose(id) => if id in w.streams then Cleanup(w, id, w.streams[id]) else w
  }

  function Run(w: World, steps: seq<Step>): World
    decreases |steps|
  {
    if steps == [] then w else Run(Next(w, steps[0]), steps[1..])
  }

  /** The subscription a stream answers for: granted but unseen, or kept in its closure. */
  function Holds(s: Stream): Option<nat> {
    if s.stage.Granted? then Some(s.stage.id) else s.subscriptionId
  }

  predicate Unfinished(s: Stream) { !s.stage.Returned? }

  ghost predicate StreamOk(s: Stream) {
    && (s.closed ==> s.subscriptionId.None?)
    && (s.stage.Granted? || s.stage.Subscribing? || s.stage.Unsubscribing? ==> s.subscriptionId.None?)
    && (s.stage.Unsubscribing? ==> s.closed)
  }

  /** Every granted subscription is held by exactly one stream, or was released exactly once. */
  ghost predicate Inv(w: World) {
    && (forall id :: id in w.streams ==> StreamOk(w.streams[id]))
    && (forall id :: id in w.streams && Holds(w.streams[id]).Some? ==>
          Holds(w.streams[id]).value < w.nextId && Holds(w.streams[id]).value !in w.released)
    && (forall a, b :: a in w.streams && b in w.streams && Holds(w.streams[a]).Some? && Holds(w.streams[a]) == Holds(w.streams[b])
          ==> a == b)
    && (forall i :: 0 <= i < |w.released| ==> w.released[i] < w.nextId)
    && (forall i, j :: 0 <= i < j < |w.released| ==> w.released[i] != w.released[j])
    && (forall sub :: 0 <= sub < w.nextId && sub !in w.released ==> HeldBySome(w, sub))
  }

  ghost predicate HeldBySome(w: World, sub: nat) { exists id :: id in w.streams && Holds(w.streams[id]) == Some(sub) }

  /** Replacing one stream by another that holds the same, or releases what it held. */
  lemma PutKeeps(w: World, id: nat, s: Stream)
    requires Inv(w) && id in w.streams && StreamOk(s)
    ensures Holds(s) == Holds(w.streams[id]) ==> Inv(Put(w, id, s))
    ensures Holds(s).None? && Holds(w.streams[id]).Some? ==>
              Inv(Put(w.(released := w.released + [Holds(w.streams[id]).value]), id, s))
  {
    var held := Holds(w.streams[id]);
    if Holds(s) == held {
      forall sub | 0 <= sub < w.nextId && sub !in w.released ensures HeldBySome(Put(w, id, s), sub) {
        var o :| o in w.streams && Holds(w.streams[o]) == Some(sub);
        assert Holds(Put(w, id, s).streams[o]) == Some(sub);
      }
    }
    if Holds(s).None? && held.Some? {
      var w' := Put(w.(released := w.released + [held.value]), id, s);
      forall sub | 0 <= sub < w'.nextId && sub !in w'.released ensures HeldBySome(w', sub) {
        var o :| o in w.streams && Holds(w.streams[o]) == Some(sub);
        assert o != id && Holds(w'.streams[o]) == Some(sub);
      }
    }
  }

  lemma GrantKeeps(w: World, id: nat)
    requires Inv(w) && id in w.streams && w.streams[id].stage.Subscribing?
    ensures Inv(Next(w, Grant(id)))
  {
    var w' := Next(w, Grant(id));
    forall sub | 0 <= sub < w'.nextId && sub !in w'.released ensures HeldBySome(w', sub) {
      if sub == w.nextId {
        assert Holds(w'.streams[id]) == Some(sub);
      } else {
        var o :| o in w.streams && Holds(w.streams[o]) == Some(sub);
        assert Holds(w'.streams[o]) == Some(sub);
      }
    }
  }

  lemma OpenKeeps(w: World, id: nat, kind: Kind)
    requires Inv(w) && id !in w.streams
    ensures Inv(Next(w, Open(id, kind)))
  {
    var w' := Next(w, Open(id, kind));
    forall sub | 0 <= sub < w'.nextId && sub !in w'.released ensures HeldBySome(w', sub) {
      var o :| o in w.streams && Holds(w.streams[o]) == Some(sub);
      assert Holds(w'.streams[o]) == Some(sub);
    }
  }

  lemma StepKeepsInv(w: World, step: Step)
    requires Inv(w)
    ensures Inv(Next(w, step))
  {
    match step
    case Open(id, kind) => if id !in w.streams { OpenKeeps(w, id, kind); }
    case Grant(id) => if id in w.streams && w.streams[id].stage.Subscribing? { GrantKeeps(w, id); }
    case Resume(id, ok) =>
      if id in w.streams {
        var s := w.streams[id];
        assert StreamOk(s);
        PutKeeps(w, id, s.(closed := true, subscriptionId := None, stage := Returned));
        PutKeeps(w, id, s.(stage := Returned));
        if s.stage.Granted? && s.closed {
          PutKeeps(w, id, s.(subscriptionId := None, stage := Unsubscribing));
        } else if s.stage.Granted? {
          PutKeeps(w, id, s.(subscriptionId := Some(s.stage.id), stage := if s.kind.Tip? then FindingTip else Returned));
        }
      }
    case ClientClose(id) =>
      if id in w.streams {
        PutKeeps(w, id, w.streams[id].(closed := true, subscriptionId := None));
      }
  }

  lemma {:induction false} RunKeepsInv(w: World, steps: seq<Step>)
    requires Inv(w)
    ensures Inv(Run(w, steps))
    decreases |steps|
  {
    if steps != [] {
      StepKeepsInv(w, steps[0]);
      RunKeepsInv(Next(w, steps[0]), steps[1..]);
    }
  }

  /** The subscriptions granted and not yet released. */
  ghost function Live(w: World): set<nat> { set sub: nat | 0 <= sub < w.nextId && sub !in w.released }

  /** Streams still open, or whose handler has not finished. */
  function Active(w: World): set<nat> { set id | id in w.streams && (!w.streams[id].closed || Unfinished(w.streams[id])) }

  /**
    Conservation. In every reachable state no subscription was released twice, one
    that is not live was released exactly once, a stream that is closed and whose
    handler returned holds none, and live subscriptions never outnumber active streams.
  */
  lemma SubscriptionsAreConserved(steps: seq<Step>)
    ensures var w := Run(NONE, steps);
            && (forall i, j :: 0 <= i < j < |w.released| ==> w.released[i] != w.released[j])
            && (forall sub: nat :: sub < w.nextId ==> (sub in w.released <==> !HeldBySome(w, sub)))
            && (forall id :: id in w.streams && w.streams[id].closed && !Unfinished(w.streams[id]) ==> Holds(w.streams[id]).None?)
            && |Live(w)| <= |Active(w)|
  {
    RunKeepsInv(NONE, steps);
    var w := Run(NONE, steps);
    forall sub: nat | sub < w.nextId && sub in w.released ensures !HeldBySome(w, sub) { }
    LiveAtMostActive(w, Live(w), Active(w));
  }

  lemma {:induction false} LiveAtMostActive(w: World, live: set<nat>, active: set<nat>)
    requires Inv(w) && live <= Live(w) && active <= Active(w)
    requires forall id :: id in w.streams && Holds(w.streams[id]).Some? && Holds(w.streams[id]).value in live ==> id in active
    ensures |live| <= |active|
    decreases |live|
  {
    if sub :| sub in live {
      assert HeldBySome(w, sub);
      var id :| id in w.streams && Holds(w.streams[id]) == Some(sub);
      LiveAtMostActive(w, live - {sub}, active - {id});
    }
  }

  // ------------------------------------------------------- while it is open

  /** An event that ends the stream: the client closes it, or its tip lookup fails. */
  predicate Ends(s: Stream, step: Step, id: nat) {
    step == ClientClose(id) || (s.stage.FindingTip? && step == Resume(id, false))
  }

  /** An open stream keeps the subscription it was granted, live, through every event of any stream that does not end it. */
  lemma OpenKeepsSubscription(w: World, id: nat, sub: nat, step: Step)
    requires Inv(w) && id in w.streams && !w.streams[id].closed && Holds(w.streams[id]) == Some(sub)
    requires !Ends(w.streams[id], step, id)
    ensures var w' := Next(w, step);
            && id in w'.streams && !w'.streams[id].closed && Holds(w'.streams[id]) == Some(sub) && sub !in w'.released
  {
    StepKeepsInv(w, step);
  }

  /** A stream that ends releases the subscription it keeps, then and there. */
  lemma EndReleases(w: World, id: nat, sub: nat, step: Step)
    requires Inv(w) && id in w.streams && w.streams[id].subscriptionId == Some(sub) && Ends(w.streams[id], step, id)
    ensures var w' := Next(w, step);
            w'.released == w.released + [sub] && id in w'.streams && w'.streams[id].closed && Holds(w'.streams[id]).None?
  {
    assert StreamOk(w.streams[id]);
  }

  /** A subscription granted after the client has closed is released as soon as its handler sees it. */
  lemma LateGrantReleases(w: World, id: nat, ok: bool)
    requires Inv(w) && id in w.streams && w.streams[id].closed && w.streams[id].stage.Granted?
    ensures var w' := Next(w, Resume(id, ok));
            w'.released == w.released + [w.streams[id].stage.id] && Holds(w'.streams[id]).None?
  {
  }

  /** A handler that an exception reaches ends, closed and without a subscription; one that it does not reach goes on as it was. */
  lemma FailureEnds(w: World, id: nat)
    requires Inv(w) && id in w.streams && (w.streams[id].stage.Subscribing? || w.streams[id].stage.FindingTip? || w.streams[id].stage.Unsubscribing?)
    ensures var s := Next(w, Resume(id, false)).streams[id]; s.closed && s.stage.Returned? && Holds(s).None?
    ensures var s := Next(w, Resume(id, true)).streams[id];
            && s.closed == w.streams[id].closed && Holds(s) == Holds(w.streams[id])
            && (!w.streams[id].stage.Subscribing? ==> s.stage.Returned?)
  {
    assert StreamOk(w.streams[id]);
  }

  /** A new stream that is granted a subscription and resumes keeps it, of either kind. */
  lemma OpenedStreamSubscribes(w: World, id: nat, kind: Kind)
    requires id !in w.streams
    ensures var w' := Next(Next(Next(w, Open(id, kind)), Grant(id)), Resume(id, true));
            && w'.streams[id].subscriptionId == Some(w.nextId) && !w'.streams[id].closed
            && w'.streams[id].stage == (match kind case Tip => FindingTip case Reorg => Returned)
            && w'.nextId == w.nextId + 1 && w'.released == w.released
  {
  }

  // ------------------------------------------------------------ one handler

  /** The closure variables of one stream handler, and the unsubscribe calls it makes. */
  class StreamHandler {
    var stream: Stream
    var released: seq<nat>

    constructor (kind: Kind)
      ensures stream == Stream(kind, None, false, Subscribing) && released == []
    {
      stream, released := Stream(kind, None, false, Subscribing), [];
    }

    ghost function View(): World
      reads this
    {
      World(map[0 := stream], 0, released)
    }

    method CleanUp()
      modifies this
      ensures View() == old(Cleanup(View(), 0, stream))
    {
      var held := stream.subscriptionId;
      stream := stream.(closed := true, subscriptionId := None);
      if held.Some? { released := released + [held.value]; }
    }

    method OnSettled(ok: bool)
      modifies this
      ensures View() == old(ResumeStream(View(), 0, stream, ok))
    {
      match stream.stage
      case Subscribing =>
        if !ok {
          stream := stream.(stage := Returned);
          CleanUp();
        }
      case Granted(sub) =>
        if stream.closed {
          stream := stream.(subscriptionId := None, stage := Unsubscribing);
          released := released + [sub];
        } else {
          stream := stream.(subscriptionId := Some(sub), stage := if stream.kind.Tip? then FindingTip else Returned);
        }
      case Unsubscribing =>
        stream := stream.(stage := Returned);
        if !ok { CleanUp(); }
      case FindingTip =>
        stream := stream.(stage := Returned);
        if !ok { CleanUp(); }
      case Returned =>
    }
  }
}
