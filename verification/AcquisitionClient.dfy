/**
  The buyer's acquire call and the recovery state it keeps between calls. Weather
  says how each library call of one acquire ends; a missing result is an exception.
*/
module AcquisitionClient {
  import opened Common
  import Settlement = SettlementModel

  /** Proofs, payments and Licenses are opaque to the client; deliveries are listed by Demand ID. */
  datatype Payment = Payment(id: nat, deliveries: seq<nat>)

  datatype Proof = ByReceipt(receipt: nat) | ByOutput(evidence: nat)

  datatype Recovery = Recovery(requestId: nat, payment: Payment, receipts: map<nat, nat>, authorizedOutputs: map<nat, nat>)

  datatype Weather = Weather(payment: Option<Payment>, settle: map<nat, Proof>, license: Option<nat>, usable: bool)

  datatype Event =
    | Created(payment: Payment)
    | Settled(demandId: nat)
    | CompleteCalled(receipts: set<nat>, authorizedOutputs: set<nat>)
    | Finished

  datatype State = State(recovery: Option<Recovery>, trace: seq<Event>)

  datatype Acquired = Acquired(state: State, license: Option<nat>)

  // ------------------------------------------------------- one call, on values

  function Note(s: State, e: Event): State { s.(trace := s.trace + [e]) }

  predicate Has(r: Recovery, d: nat) { d in r.receipts || d in r.authorizedOutputs }

  function Record(r: Recovery, d: nat, p: Proof): Recovery {
    match p
    case ByReceipt(receipt) => r.(receipts := r.receipts[d := receipt])
    case ByOutput(evidence) => r.(authorizedOutputs := r.authorizedOutputs[d := evidence])
  }

  datatype Settling = Settling(state: State, done: bool)

  /** The first `n` deliveries, in order, up to the first that fails. */
  function SettleFirst(s: State, w: Weather, n: nat): Settling
    requires s.recovery.Some? && n <= |s.recovery.value.payment.deliveries|
    ensures SettleFirst(s, w, n).state.recovery.Some?
    ensures SettleFirst(s, w, n).state.recovery.value.payment == s.recovery.value.payment
    ensures SettleFirst(s, w, n).state.recovery.value.requestId == s.recovery.value.requestId
  {
    if n == 0 then Settling(s, true) else
    var before := SettleFirst(s, w, n - 1);
    var r, d := before.state.recovery.value, s.recovery.value.payment.deliveries[n - 1];
    if !before.done || Has(r, d) then before
    else if d !in w.settle then Settling(before.state, false)
    else Settling(Note(before.state, Settled(d)).(recovery := Some(Record(r, d, w.settle[d]))), true)
  }

  /** The recovery state an acquire works on: the one that waits, or a newly paid one. */
  function Begin(s: State, requestId: nat, w: Weather): State {
    if s.recovery.Some? || w.payment.None? then s
    else Note(s, Created(w.payment.value)).(recovery := Some(Recovery(requestId, w.payment.value, map[], map[])))
  }

  function AcquireOn(s: State, requestId: nat, w: Weather): Acquired {
    if s.recovery.Some? && s.recovery.value.requestId != requestId then Acquired(s, None) else
    var begun := Begin(s, requestId, w);
    if begun.recovery.None? then Acquired(begun, None) else
    var settled := SettleFirst(begun, w, |begun.recovery.value.payment.deliveries|);
    if !settled.done then Acquired(settled.state, None) else
    var r := settled.state.recovery.value;
    var called := Note(settled.state, CompleteCalled(r.receipts.Keys, r.authorizedOutputs.Keys));
    if w.license.None? || !w.usable then Acquired(called, None)
    else Acquired(Note(called, Finished).(recovery := None), w.license)
  }

  // ------------------------------------------------------------- what it keeps

  /** The payment that still waits after a trace. */
  function Awaiting(trace: seq<Event>): Option<Payment> {
    if trace == [] then None else
    match trace[|trace| - 1]
    case Created(p) => Some(p)
    case Finished => None
    case _ => Awaiting(trace[..|trace| - 1])
  }

  /** Demands settled since the payment that still waits was created. */
  function SettledSince(trace: seq<Event>): set<nat> {
    if trace == [] then {} else
    match trace[|trace| - 1]
    case Created(_) => {}
    case Finished => {}
    case Settled(d) => SettledSince(trace[..|trace| - 1]) + {d}
    case CompleteCalled(_, _) => SettledSince(trace[..|trace| - 1])
  }

  /** An event is allowed after `before` only if it repeats no payment and no settlement and completes everything. */
  ghost predicate Allowed(before: seq<Event>, e: Event) {
    match e
    case Created(_) => Awaiting(before) == None
    case Settled(d) => Awaiting(before).Some? && d in Awaiting(before).value.deliveries && d !in SettledSince(before)
    case CompleteCalled(receipts, authorized) =>
      && Awaiting(before).Some?
      && receipts !! authorized
      && receipts + authorized == (set d | d in Awaiting(before).value.deliveries)
    case Finished => Awaiting(before).Some?
  }

  /** Every event of the history was allowed when it happened. */
  ghost predicate Safe(trace: seq<Event>) {
    trace == [] || (Safe(trace[..|trace| - 1]) && Allowed(trace[..|trace| - 1], trace[|trace| - 1]))
  }

  lemma {:induction false} SafeAtEveryEvent(trace: seq<Event>)
    requires Safe(trace)
    ensures forall k :: 0 <= k < |trace| ==> Allowed(trace[..k], trace[k])
  {
    if trace != [] {
      var prefix := trace[..|trace| - 1];
      SafeAtEveryEvent(prefix);
      assert forall k :: 0 <= k < |prefix| ==> prefix[..k] == trace[..k] && prefix[k] == trace[k];
    }
  }

  ghost predicate Ok(s: State) {
    && Safe(s.trace)
    && Awaiting(s.trace) == (if s.recovery.Some? then Some(s.recovery.value.payment) else None)
    && (s.recovery.Some? ==>
          && s.recovery.value.receipts.Keys !! s.recovery.value.authorizedOutputs.Keys
          && s.recovery.value.receipts.Keys + s.recovery.value.authorizedOutputs.Keys == SettledSince(s.trace)
          && forall d :: d in SettledSince(s.trace) ==> d in s.recovery.value.payment.deliveries)
  }

  /** Collected proofs are kept as they are. */
  ghost predicate Grows(r: Recovery, r': Recovery) {
    && r'.requestId == r.requestId && r'.payment == r.payment
    && (forall d :: d in r.receipts ==> d in r'.receipts && r'.receipts[d] == r.receipts[d])
    && (forall d :: d in r.authorizedOutputs ==> d in r'.authorizedOutputs && r'.authorizedOutputs[d] == r.authorizedOutputs[d])
  }

  lemma SettleOne(s: State, d: nat, p: Proof)
    requires Ok(s) && s.recovery.Some? && d in s.recovery.value.payment.deliveries && !Has(s.recovery.value, d)
    ensures var s' := Note(s, Settled(d)).(recovery := Some(Record(s.recovery.value, d, p)));
            Ok(s') && Grows(s.recovery.value, s'.recovery.value)
  {
  }

  lemma {:induction false} SettleKeeps(s: State, w: Weather, n: nat)
    requires Ok(s) && s.recovery.Some? && n <= |s.recovery.value.payment.deliveries|
    ensures var r := SettleFirst(s, w, n);
            Ok(r.state) && Later(s, r.state)
  {
    if n > 0 {
      SettleKeeps(s, w, n - 1);
      NextSettles(s, w, n);
      LaterTransitive(s, SettleFirst(s, w, n - 1).state, SettleFirst(s, w, n).state);
    }
  }

  /** The same payment, with at least the proofs and the history of before. */
  ghost predicate Later(s: State, t: State) {
    s.recovery.Some? && t.recovery.Some? && Grows(s.recovery.value, t.recovery.value) && s.trace <= t.trace
  }

  lemma LaterTransitive(a: State, b: State, c: State)
    requires Later(a, b) && Later(b, c)
    ensures Later(a, c)
  {
  }

  lemma NextSettles(s: State, w: Weather, n: nat)
    requires s.recovery.Some? && 0 < n <= |s.recovery.value.payment.deliveries|
    requires Ok(SettleFirst(s, w, n - 1).state)
    ensures var before, after := SettleFirst(s, w, n - 1), SettleFirst(s, w, n);
            && Ok(after.state) && Later(before.state, after.state)
            && (after.done ==> before.done && Has(after.state.recovery.value, s.recovery.value.payment.deliveries[n - 1]))
  {
    var before := SettleFirst(s, w, n - 1);
    var d := s.recovery.value.payment.deliveries[n - 1];
    if before.done && !Has(before.state.recovery.value, d) && d in w.settle {
      SettleOne(before.state, d, w.settle[d]);
    }
  }

  predicate HasAll(r: Recovery, ds: seq<nat>) { forall d :: d in ds ==> Has(r, d) }

  lemma HasAllGrows(r: Recovery, r': Recovery, ds: seq<nat>, d: nat)
    requires HasAll(r, ds) && Grows(r, r') && Has(r', d)
    ensures HasAll(r', ds + [d])
  {
  }

  lemma {:induction false} SettledHas(s: State, w: Weather, n: nat)
    requires Ok(s) && s.recovery.Some? && n <= |s.recovery.value.payment.deliveries|
    ensures SettleFirst(s, w, n).done ==> HasAll(SettleFirst(s, w, n).state.recovery.value, s.recovery.value.payment.deliveries[..n])
  {
    if n > 0 {
      SettledHas(s, w, n - 1);
      SettleKeeps(s, w, n - 1);
      NextSettles(s, w, n);
      var before, after := SettleFirst(s, w, n - 1), SettleFirst(s, w, n);
      var ds := s.recovery.value.payment.deliveries;
      assert ds[..n] == ds[..n - 1] + [ds[n - 1]];
      if after.done { HasAllGrows(before.state.recovery.value, after.state.recovery.value, ds[..n - 1], ds[n - 1]); }
    }
  }

  /** One acquire, failing anywhere: the history stays safe, and proofs of a payment that waits are never lost. */
  lemma AcquireKeeps(s: State, requestId: nat, w: Weather)
    requires Ok(s)
    ensures var r := AcquireOn(s, requestId, w);
            && Ok(r.state) && s.trace <= r.state.trace
            && (s.recovery.Some? && s.recovery.value.requestId != requestId ==> r == Acquired(s, None))
            && (s.recovery.Some? && r.state.recovery.Some? ==> Grows(s.recovery.value, r.state.recovery.value))
            && (r.license.Some? ==> r.state.recovery == None)
            && (s.recovery.Some? && r.license.None? ==> r.state.recovery.Some?)
  {
    if s.recovery.None? || s.recovery.value.requestId == requestId {
      BeginKeeps(s, requestId, w);
      var begun := Begin(s, requestId, w);
      if begun.recovery.Some? { CollectKeeps(begun, w); }
    }
  }

  lemma BeginKeeps(s: State, requestId: nat, w: Weather)
    requires Ok(s)
    ensures Ok(Begin(s, requestId, w)) && s.trace <= Begin(s, requestId, w).trace
  {
  }

  lemma CollectKeeps(s: State, w: Weather)
    requires Ok(s) && s.recovery.Some?
    ensures var settled := SettleFirst(s, w, |s.recovery.value.payment.deliveries|);
            var r := settled.state.recovery.value;
            var called := Note(settled.state, CompleteCalled(r.receipts.Keys, r.authorizedOutputs.Keys));
            && Ok(settled.state) && Grows(s.recovery.value, r) && s.trace <= settled.state.trace
            && (settled.done ==> Ok(called) && Ok(Note(called, Finished).(recovery := None)))
  {
    var n := |s.recovery.value.payment.deliveries|;
    SettleKeeps(s, w, n);
    SettledHas(s, w, n);
    assert s.recovery.value.payment.deliveries[..n] == s.recovery.value.payment.deliveries;
    if SettleFirst(s, w, n).done { ConcludeKeeps(SettleFirst(s, w, n).state); }
  }

  lemma ConcludeKeeps(s: State)
    requires Ok(s) && s.recovery.Some?
    requires HasAll(s.recovery.value, s.recovery.value.payment.deliveries)
    ensures var r := s.recovery.value;
            var called := Note(s, CompleteCalled(r.receipts.Keys, r.authorizedOutputs.Keys));
            Ok(called) && Ok(Note(called, Finished).(recovery := None))
  {
  }

  // ----------------------------------------------------- exactly what one call does

  /** The delivery has a proof already, or its settlement succeeds this time. */
  predicate Provable(r: Recovery, w: Weather, d: nat) { d in r.receipts || d in r.authorizedOutputs || d in w.settle }

  ghost predicate AllProvable(r: Recovery, w: Weather, n: nat)
    requires n <= |r.payment.deliveries|
  {
    forall k :: 0 <= k < n ==> Provable(r, w, r.payment.deliveries[k])
  }

  /** The loop comes to this delivery among the first `n`, and it can be proved. */
  ghost predicate Reached(r: Recovery, w: Weather, n: nat, d: nat)
    requires n <= |r.payment.deliveries|
  {
    exists k :: 0 <= k < n && r.payment.deliveries[k] == d && AllProvable(r, w, k + 1)
  }

  predicate HoldsProof(r: Recovery, d: nat, p: Proof) {
    match p
    case ByReceipt(receipt) => d in r.receipts && r.receipts[d] == receipt
    case ByOutput(evidence) => d in r.authorizedOutputs && r.authorizedOutputs[d] == evidence
  }

  /** What the recovery state holds after the first `n` deliveries: the proofs of before, and those reached, as they were given. */
  ghost predicate Settles(r: Recovery, w: Weather, n: nat, after: Recovery)
    requires n <= |r.payment.deliveries|
  {
    && Grows(r, after)
    && (forall d :: Has(after, d) <==> Has(r, d) || Reached(r, w, n, d))
    && (forall d :: Has(after, d) && !Has(r, d) ==> d in w.settle && HoldsProof(after, d, w.settle[d]))
  }

  lemma {:induction false} SettleFirstExactly(s: State, w: Weather, n: nat)
    requires s.recovery.Some? && n <= |s.recovery.value.payment.deliveries|
    ensures var r, settled := s.recovery.value, SettleFirst(s, w, n);
            (settled.done <==> AllProvable(r, w, n)) && Settles(r, w, n, settled.state.recovery.value)
  {
    if n > 0 {
      SettleFirstExactly(s, w, n - 1);
      NextExactly(s, w, n);
    }
  }

  lemma ReachedOneMore(r: Recovery, w: Weather, n: nat, d: nat)
    requires 0 < n <= |r.payment.deliveries|
    ensures AllProvable(r, w, n) <==> AllProvable(r, w, n - 1) && Provable(r, w, r.payment.deliveries[n - 1])
    ensures Reached(r, w, n, d) <==> Reached(r, w, n - 1, d) || (d == r.payment.deliveries[n - 1] && AllProvable(r, w, n))
  {
  }

  lemma NextExactly(s: State, w: Weather, n: nat)
    requires s.recovery.Some? && 0 < n <= |s.recovery.value.payment.deliveries|
    requires var r, settled := s.recovery.value, SettleFirst(s, w, n - 1);
             (settled.done <==> AllProvable(r, w, n - 1)) && Settles(r, w, n - 1, settled.state.recovery.value)
    ensures var r, settled := s.recovery.value, SettleFirst(s, w, n);
            (settled.done <==> AllProvable(r, w, n)) && Settles(r, w, n, settled.state.recovery.value)
  {
    var r, before, after := s.recovery.value, SettleFirst(s, w, n - 1), SettleFirst(s, w, n);
    var last := r.payment.deliveries[n - 1];
    ReachedOneMore(r, w, n, last);
    NextRecords(s, w, n);
    if Reached(r, w, n - 1, last) { ReachedIsProvable(r, w, n - 1, last); }
    forall d ensures Has(after.state.recovery.value, d) <==> Has(r, d) || Reached(r, w, n, d) {
      ReachedOneMore(r, w, n, d);
      assert Has(before.state.recovery.value, d) <==> Has(r, d) || Reached(r, w, n - 1, d);
    }
  }

  /** One turn of the loop keeps every proof as it is and records at most the one it was given. */
  lemma NextRecords(s: State, w: Weather, n: nat)
    requires s.recovery.Some? && 0 < n <= |s.recovery.value.payment.deliveries|
    ensures var before, after := SettleFirst(s, w, n - 1).state.recovery.value, SettleFirst(s, w, n).state.recovery.value;
            && Grows(before, after)
            && forall d :: Has(after, d) && !Has(before, d) ==> d in w.settle && HoldsProof(after, d, w.settle[d])
  {
  }

  lemma ReachedIsProvable(r: Recovery, w: Weather, n: nat, d: nat)
    requires n <= |r.payment.deliveries| && Reached(r, w, n, d)
    ensures Provable(r, w, d)
  {
  }

  /** The payment an acquire works on: the one that waits for this request, or a newly created one. */
  function Working(s: State, requestId: nat, w: Weather): Option<Recovery> {
    match s.recovery
    case Some(r) => if r.requestId == requestId then Some(r) else None
    case None => if w.payment.Some? then Some(Recovery(requestId, w.payment.value, map[], map[])) else None
  }

  /** The completion is called among the events that the call adds. */
  ghost predicate CallsComplete(was: seq<Event>, now: seq<Event>) { exists k :: |was| <= k < |now| && now[k].CompleteCalled? }

  /** The loop adds settlements to the history and nothing else. */
  lemma {:induction false} OnlySettles(s: State, w: Weather, n: nat)
    requires s.recovery.Some? && n <= |s.recovery.value.payment.deliveries|
    ensures var t := SettleFirst(s, w, n).state.trace;
            s.trace <= t && forall k :: |s.trace| <= k < |t| ==> t[k].Settled?
  {
    if n > 0 { OnlySettles(s, w, n - 1); }
  }

  /** The completion is called exactly when there is a payment to work on and every delivery can be proved. */
  lemma CompletesExactly(s: State, requestId: nat, w: Weather)
    ensures var t, working := AcquireOn(s, requestId, w).state.trace, Working(s, requestId, w);
            && s.trace <= t
            && (CallsComplete(s.trace, t) <==> working.Some? && AllProvable(working.value, w, |working.value.payment.deliveries|))
  {
    var working := Working(s, requestId, w);
    if working.Some? {
      var begun, n := Begin(s, requestId, w), |working.value.payment.deliveries|;
      assert begun.recovery == working && s.trace <= begun.trace;
      SettleFirstExactly(begun, w, n);
      OnlySettles(begun, w, n);
      var settled := SettleFirst(begun, w, n);
      if settled.done { assert AcquireOn(s, requestId, w).state.trace[|settled.state.trace|].CompleteCalled?; }
    }
  }

  /**
    Exactly what one acquire does. It returns the License, and forgets the payment, if
    and only if it has a payment to work on, every delivery has a proof already or is
    settled now, and the completion gives a License that passes every check. In every
    other case the payment that waited or was just created still waits, with the proofs
    of before and those of the deliveries reached; without a payment nothing changes.
  */
  lemma AcquireExactly(s: State, requestId: nat, w: Weather)
    ensures var r, working := AcquireOn(s, requestId, w), Working(s, requestId, w);
            && (r.license.Some? <==>
                  && working.Some? && AllProvable(working.value, w, |working.value.payment.deliveries|)
                  && w.license.Some? && w.usable)
            && (r.license.Some? ==> r.license == w.license && r.state.recovery == None)
            && (working.None? ==> r == Acquired(s, None))
            && (working.Some? && r.license.None? ==>
                  r.state.recovery.Some?
                  && Settles(working.value, w, |working.value.payment.deliveries|, r.state.recovery.value))
  {
    var working := Working(s, requestId, w);
    if working.Some? {
      var begun := Begin(s, requestId, w);
      assert begun.recovery == working;
      SettleFirstExactly(begun, w, |working.value.payment.deliveries|);
    }
  }

  /** Any sequence of calls, for any requests, each failing wherever its weather says. */
  function AcquireAll(s: State, calls: seq<(nat, Weather)>): State
    decreases |calls|
  {
    if calls == [] then s else AcquireAll(AcquireOn(s, calls[0].0, calls[0].1).state, calls[1..])
  }

  /**
    Retry safety over whole histories: a payment is created only when none waits, a
    Demand is settled at most once per payment, and every completion call carries
    disjoint proofs for exactly the payment's Demands.
  */
  lemma {:induction false} RetriesAreSafe(s: State, calls: seq<(nat, Weather)>)
    requires Ok(s)
    ensures Ok(AcquireAll(s, calls)) && s.trace <= AcquireAll(s, calls).trace
    decreases |calls|
  {
    if calls != [] {
      AcquireKeeps(s, calls[0].0, calls[0].1);
      RetriesAreSafe(AcquireOn(s, calls[0].0, calls[0].1).state, calls[1..]);
    }
  }

  lemma HistoriesAreSafe(calls: seq<(nat, Weather)>)
    ensures var trace := AcquireAll(State(None, []), calls).trace;
            forall k :: 0 <= k < |trace| ==> Allowed(trace[..k], trace[k])
  {
    RetriesAreSafe(State(None, []), calls);
    SafeAtEveryEvent(AcquireAll(State(None, []), calls).trace);
  }

  /** A completion call for a payment of all the Quote's Demands meets the issuer's size check. */
  lemma CompletionMeetsSizeCheck(before: seq<Event>, receipts: set<nat>, authorized: set<nat>, q: Settlement.QuoteRecord)
    requires Allowed(before, CompleteCalled(receipts, authorized))
    ensures (set d | d in Awaiting(before).value.deliveries) == q.demands.Keys ==> |receipts| + |authorized| == |q.demands|
  {
    assert |receipts + authorized| == |receipts| + |authorized|;
    assert |q.demands.Keys| == |q.demands|;
  }

  // ---------------------------------------------------------------- the object

  datatype Pending = Pending(requestId: nat, payment: nat, accepted: bool, receipts: nat, authorizedOutputs: nat, requiredProofs: nat)

  class ReferenceLCHClient {
    var recoveryState: Option<Recovery>
    ghost var trace: seq<Event>

    ghost function View(): State
      reads this
    {
      State(recoveryState, trace)
    }

    constructor ()
      ensures View() == State(None, []) && Ok(View())
    {
      recoveryState, trace := None, [];
    }

    method Acquire(requestId: nat, w: Weather) returns (license: Option<nat>)
      requires Ok(View())
      modifies this
      ensures Acquired(View(), license) == old(AcquireOn(View(), requestId, w))
      ensures Ok(View())
    {
      AcquireKeeps(View(), requestId, w);
      if recoveryState.Some? && recoveryState.value.requestId != requestId { return None; }
      if recoveryState.None? {
        if w.payment.None? { return None; }
        trace := trace + [Created(w.payment.value)];
        recoveryState := Some(Recovery(requestId, w.payment.value, map[], map[]));
      }
      var done := SettleDeliveries(w);
      if !done { return None; }
      trace := trace + [CompleteCalled(recoveryState.value.receipts.Keys, recoveryState.value.authorizedOutputs.Keys)];
      if w.license.None? || !w.usable { return None; }
      trace := trace + [Finished];
      recoveryState := None;
      license := w.license;
    }

    /** The loop over the payment's deliveries; those already proved are skipped. */
    method SettleDeliveries(w: Weather) returns (done: bool)
      requires recoveryState.Some?
      modifies this
      ensures Settling(View(), done) == old(SettleFirst(View(), w, |recoveryState.value.payment.deliveries|))
    {
      ghost var begun := View();
      var deliveries := recoveryState.value.payment.deliveries;
      for i := 0 to |deliveries|
        invariant recoveryState.Some? && SettleFirst(begun, w, i) == Settling(View(), true)
      {
        var demandId := deliveries[i];
        if !Has(recoveryState.value, demandId) {
          if demandId !in w.settle {
            StaysFailed(begun, w, i + 1, |deliveries|);
            return false;
          }
          trace := trace + [Settled(demandId)];
          recoveryState := Some(Record(recoveryState.value, demandId, w.settle[demandId]));
        }
      }
      done := true;
    }

    method PendingPayment() returns (p: Option<Pending>)
      requires Ok(View())
      ensures p.Some? <==> Awaiting(trace).Some?
      ensures p.Some? ==>
                && p.value.payment == Awaiting(trace).value.id && p.value.requestId == recoveryState.value.requestId
                && p.value.receipts + p.value.authorizedOutputs == |SettledSince(trace)|
                && (p.value.accepted <==> p.value.authorizedOutputs > 0)
                && p.value.requiredProofs == |Awaiting(trace).value.deliveries|
    {
      if recoveryState.None? { return None; }
      var r := recoveryState.value;
      assert |r.receipts.Keys + r.authorizedOutputs.Keys| == |r.receipts.Keys| + |r.authorizedOutputs.Keys|;
      p := Some(Pending(r.requestId, r.payment.id, |r.authorizedOutputs| > 0, |r.receipts|, |r.authorizedOutputs|, |r.payment.deliveries|));
    }
  }

  lemma {:induction false} StaysFailed(s: State, w: Weather, i: nat, n: nat)
    requires s.recovery.Some? && i <= n <= |s.recovery.value.payment.deliveries| && !SettleFirst(s, w, i).done
    ensures SettleFirst(s, w, n) == SettleFirst(s, w, i)
    decreases n - i
  {
    if i < n { StaysFailed(s, w, i, n - 1); }
  }
}
