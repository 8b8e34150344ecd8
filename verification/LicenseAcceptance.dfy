/** From the issuer's quotes to the client's decision: what is issued is what is accepted. */
module LicenseAcceptance {
  import opened SettlementModel
  import opened SettlementServer
  import opened SettlementMachine
  import opened Agreement
  import Safety = SettlementSafety
  import Records = SettlementFields

  /** Some Demand carries the duty of this Payee. */
  predicate Covered(p: Payee, demands: map<nat, Runtime>) {
    exists d :: d in demands && demands[d].demand.dutyUid == p.dutyUid
  }

  predicate CoversAll(payees: seq<Payee>, demands: map<nat, Runtime>) { forall p :: p in payees ==> Covered(p, demands) }

  ghost predicate HandlerCovers(payees: seq<Payee>, h: Handler) {
    match h
    case Quoting(_, made, left) => forall p :: p in payees ==> p in left || Covered(p, made)
    case Completing(_, q, _, _) => CoversAll(payees, q.demands)
    case Issuing(_, q, _) => CoversAll(payees, q.demands)
    case _ => true
  }

  /** Every Quote has a Demand for each Payee's duty, and so has every License issued on it. */
  ghost predicate Covers(w: World) {
    && (forall r :: r in w.server.quotes ==> CoversAll(w.payees, w.server.quotes[r].demands))
    && (forall id :: id in w.handlers ==> HandlerCovers(w.payees, w.handlers[id]))
    && (forall i :: i in w.issued ==> CoversAll(w.payees, i.quote.demands))
  }

  lemma MadeCovers(payees: seq<Payee>, made: map<nat, Runtime>, left: seq<Payee>, requestId: nat, id: nat)
    requires left != [] && id !in made && forall p :: p in payees ==> p in left || Covered(p, made)
    ensures forall p :: p in payees ==> p in left[1..] || Covered(p, made[id := DemandFor(requestId, left[0], id)])
  {
    var made' := made[id := DemandFor(requestId, left[0], id)];
    forall p | p in payees ensures p in left[1..] || Covered(p, made') {
      if p in left {
        assert left == [left[0]] + left[1..];
        if p == left[0] { assert made'[id].demand.dutyUid == p.dutyUid; }
      } else {
        var d :| d in made && made[d].demand.dutyUid == p.dutyUid;
        assert made'[d] == made[d];
      }
    }
  }

  lemma HandlerMovesCovers(w: World, id: nat, h: Handler)
    requires Covers(w) && HandlerCovers(w.payees, h)
    ensures Covers(With(w, id, h)) && Covers(Without(w, id))
  {
  }

  lemma HandlerEndsCovers(w: World, id: nat)
    requires Covers(w)
    ensures Covers(Without(w, id))
  {
  }

  /** Steps that leave quotes, handlers and issues alone. */
  lemma OtherKeepsCovers(w: World, w': World)
    requires Covers(w) && w'.server.quotes == w.server.quotes && w'.payees == w.payees
    requires w'.handlers == w.handlers && w'.issued == w.issued
    ensures Covers(w')
  {
  }

  lemma QuoteKeepsCovers(w: World, id: nat, requestId: nat, made: map<nat, Runtime>, left: seq<Payee>, quote: nat)
    requires Covers(w) && w.nextDemand !in made && HandlerCovers(w.payees, Quoting(requestId, made, left))
    ensures Covers(AdvanceQuote(w, id, requestId, made, left, quote))
  {
    if left != [] {
      MadeCovers(w.payees, made, left, requestId, w.nextDemand);
      HandlerMovesCovers(w, id, Quoting(requestId, made[w.nextDemand := DemandFor(requestId, left[0], w.nextDemand)], left[1..]));
    } else {
      HandlerMovesCovers(w, id, Quoting(requestId, made, left));
    }
  }

  lemma CompleteKeepsCovers(w: World, id: nat, c: Completion, q: QuoteRecord, acc: Collected, at: nat)
    requires Covers(w) && CoversAll(w.payees, q.demands)
    ensures Covers(AdvanceComplete(w, id, c, q, acc, at))
  {
    HandlerMovesCovers(w, id, Issuing(c, q, acc));
    if at < |c.authorizedOutputs| {
      var next := Collect(q, c, acc, ByOutput(c.authorizedOutputs[at]), w.released);
      if next.Some? { HandlerMovesCovers(w, id, Completing(c, q, next.value, at + 1)); }
    }
  }

  lemma IssueKeepsCovers(w: World, id: nat, c: Completion, q: QuoteRecord, acc: Collected, now: nat)
    requires Covers(w) && CoversAll(w.payees, q.demands)
    ensures Covers(AdvanceIssue(w, id, c, q, acc, now))
  {
  }

  /** Handlers of deliveries and evidence neither hold nor change a Quote. */
  lemma DeliveryKeepsCovers(w: World, id: nat, now: nat)
    requires Covers(w) && id in w.handlers
    requires var h := w.handlers[id]; h.Storing? || h.Waiting? || h.Attesting? || h.SigningEvidence?
    ensures Covers(Advance(w, id, w.handlers[id], now))
  {
    var w' := Advance(w, id, w.handlers[id], now);
    HandlerMovesCovers(w, id, if id in w'.handlers then w'.handlers[id] else w.handlers[id]);
    OtherKeepsCovers(if id in w'.handlers then With(w, id, w'.handlers[id]) else Without(w, id), w');
  }

  lemma MoveKeepsCovers(w: World, id: nat, now: nat)
    requires Covers(w) && id in w.handlers
    requires w.handlers[id].Quoting? ==> w.nextDemand !in w.handlers[id].made
    ensures Covers(Advance(w, id, w.handlers[id], now))
  {
    var h := w.handlers[id];
    assert HandlerCovers(w.payees, h);
    match h {
      case Quoting(requestId, made, left) => QuoteKeepsCovers(w, id, requestId, made, left, now);
      case Completing(c, q, acc, at) => CompleteKeepsCovers(w, id, c, q, acc, at);
      case Issuing(c, q, acc) => IssueKeepsCovers(w, id, c, q, acc, now);
      case _ => DeliveryKeepsCovers(w, id, now);
    }
  }

  lemma PayeesStay(w: World, step: Step)
    ensures Next(w, step).payees == w.payees
  {
  }

  lemma BeginKeepsCovers(w: World, step: Step)
    requires Covers(w) && (step.BeginQuote? || step.BeginStore? || step.BeginAttest? || step.BeginComplete?)
    ensures Covers(Next(w, step))
  {
    var w' := Next(w, step);
    if w' != w { HandlerMovesCovers(w, step.id, w'.handlers[step.id]); }
  }

  lemma MoveStepKeepsCovers(w: World, step: Step)
    requires HandlersOk(w.server, w.handlers) && DemandsOk(w) && Covers(w) && step.Move?
    ensures Covers(Next(w, step))
  {
    if step.id in w.handlers {
      if w.handlers[step.id].Quoting? { Records.NotYetMade(w, step.id); }
      MoveKeepsCovers(w, step.id, step.now);
    }
  }

  lemma NextKeepsCovers(w: World, step: Step)
    requires Inv(w) && Covers(w)
    ensures Covers(Next(w, step)) && Next(w, step).payees == w.payees
  {
    PayeesStay(w, step);
    if step.Move? {
      MoveStepKeepsCovers(w, step);
    } else if step.BeginQuote? || step.BeginStore? || step.BeginAttest? || step.BeginComplete? {
      BeginKeepsCovers(w, step);
    } else {
      OtherStepKeepsCovers(w, step);
    }
  }

  lemma OtherStepKeepsCovers(w: World, step: Step)
    requires Covers(w)
    requires step.Authorize? || step.SignAcknowledgement? || step.FailSigning? || step.FinishAcknowledgement? || step.Abandon?
    ensures Covers(Next(w, step))
  {
    if step.Abandon? { HandlerEndsCovers(w, step.id); } else { OtherKeepsCovers(w, Next(w, step)); }
  }

  lemma {:induction false} RunKeepsCovers(w: World, steps: seq<Step>)
    requires Inv(w) && Covers(w)
    ensures Covers(Run(w, steps)) && Run(w, steps).payees == w.payees
    decreases |steps|
  {
    if steps != [] {
      Safety.NextKeepsInv(w, steps[0]);
      NextKeepsCovers(w, steps[0]);
      RunKeepsCovers(Next(w, steps[0]), steps[1..]);
    }
  }

  /** The duties a License reports as fulfilled. */
  function FulfilledDuties(i: Issue): set<string> {
    set d | d in i.license.fulfilments && d in i.quote.demands :: i.quote.demands[d].demand.dutyUid
  }

  /**
    Every License issued in any run for a `play` request is one the client accepts,
    whatever the list of Payees; for `derive`, the other action offered, none is.
  */
  lemma IssuedLicensesAcceptable(payees: seq<Payee>, steps: seq<Step>, target: string, action: string)
    requires action == "play" || action == "derive"
    ensures forall i :: i in Run(Installed(payees), steps).issued ==>
              (Acceptable(OfferPolicy(target, payees), AgreementPolicy(target, action), action, target, FulfilledDuties(i))
               <==> action == "play")
  {
    Safety.RunKeepsInv(Installed(payees), steps);
    RunKeepsCovers(Installed(payees), steps);
    var w := Run(Installed(payees), steps);
    forall i | i in w.issued
      ensures Acceptable(OfferPolicy(target, payees), AgreementPolicy(target, action), action, target, FulfilledDuties(i))
         <==> action == "play"
    {
      assert IssueOk(w.server, i);
      IssueReportsDuties(payees, i);
      IssuedAgreementAcceptable(target, payees, action, FulfilledDuties(i));
    }
  }

  lemma IssueReportsDuties(payees: seq<Payee>, i: Issue)
    requires CoversAll(payees, i.quote.demands) && i.license.fulfilments.Keys == i.quote.demands.Keys
    ensures forall p :: p in payees ==> p.dutyUid in FulfilledDuties(i)
  {
  }
}
