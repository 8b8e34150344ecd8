/** What the issuer guarantees over all runs, all interleavings and all callers. */
module SettlementTheorems {
  import opened SettlementModel
  import opened SettlementServer
  import opened SettlementMachine
  import opened SettlementSafety

  lemma ReachableIsOk(payees: seq<Payee>, steps: seq<Step>)
    ensures Inv(Run(Installed(payees), steps))
  {
    RunKeepsInv(Installed(payees), steps);
  }

  /**
    The delivery store is write-once. Per authorization at most one acknowledgement
    is ever signed, every successful caller sent the same bytes and got that same
    acknowledgement, and a later claim exists only if every earlier one failed.
  */
  lemma DeliveryStoreIsWriteOnce(payees: seq<Payee>, steps: seq<Step>)
    ensures var w := Run(Installed(payees), steps);
            && (forall a, b :: a in w.created && b in w.created && a.authorization == b.authorization ==> a == b)
            && (forall a, b :: a in w.answers && b in w.answers && a.authorization.body == b.authorization.body ==> a == b)
            && (forall a :: a in w.answers ==> a.acknowledgement in w.created)
            && (forall b, c :: 0 <= b < c < |w.server.promises|
                  && w.server.promises[b].authorization.body == w.server.promises[c].authorization.body
                  ==> w.server.promises[b].progress.Rejected?)
  {
    ReachableIsOk(payees, steps);
    var w := Run(Installed(payees), steps);
    var s := w.server;
    forall a, b | a in w.created && b in w.created && a.authorization == b.authorization ensures a == b {
      BackedOnce(s, a, b);
    }
    forall a | a in w.answers ensures a.acknowledgement in w.created {
      var key := a.authorization.body;
      assert ClaimOk(s, s.deliveryClaims[key]);
    }
    forall b, c | 0 <= b < c < |s.promises| && s.promises[b].authorization.body == s.promises[c].authorization.body
      ensures s.promises[b].progress.Rejected?
    {
      assert ClaimOk(s, c);
    }
  }

  lemma BackedOnce(s: Server, a: Acknowledgement, b: Acknowledgement)
    requires ClaimsOk(s) && Backed(s, a) && Backed(s, b) && a.authorization == b.authorization
    ensures a == b
  {
    var c :| 0 <= c < |s.promises| && s.promises[c].authorization.body == a.authorization
             && HasAcknowledgement(s.promises[c].progress) && s.promises[c].progress.acknowledgement == a;
    var e :| 0 <= e < |s.promises| && s.promises[e].authorization.body == b.authorization
             && HasAcknowledgement(s.promises[e].progress) && s.promises[e].progress.acknowledgement == b;
    assert ClaimOk(s, c) && ClaimOk(s, e);
  }

  /** No two evidences handed out for one authorization name different transactions, then or later. */
  lemma OneTransactionPerAuthorization(payees: seq<Payee>, steps: seq<Step>, more: seq<Step>)
    ensures var w, w' := Run(Installed(payees), steps), Run(Run(Installed(payees), steps), more);
            forall e, f :: e in w.released.evidences && f in w'.released.evidences && e.authorization == f.authorization
              ==> e.transaction == f.transaction
  {
    ReachableIsOk(payees, steps);
    RunKeepsInv(Run(Installed(payees), steps), more);
  }

  /**
    End to end. A License that rests on an authorized output was issued only after
    the matching delivery was kept, for the Payee of a Demand that still resolves,
    and after the authorization was bound to that completion's transaction; and all
    of that still holds in every later state.
  */
  lemma LicensesRestOnKeptDeliveries(payees: seq<Payee>, steps: seq<Step>, more: seq<Step>)
    ensures var w, w' := Run(Installed(payees), steps), Run(Run(Installed(payees), steps), more);
            forall i, d :: i in w.issued && d in i.license.fulfilments && i.license.fulfilments[d].AuthorizedOutput?
              ==> RestsOnKept(w'.server, i, d)
  {
    ReachableIsOk(payees, steps);
    var w := Run(Installed(payees), steps);
    RunKeepsInv(w, more);
    var w' := Run(w, more);
    forall i, d | i in w.issued && d in i.license.fulfilments && i.license.fulfilments[d].AuthorizedOutput?
      ensures RestsOnKept(w'.server, i, d)
    {
      assert IssueOk(w.server, i);
      IssueRests(w.server, w'.server, i, d);
    }
  }

  ghost predicate RestsOnKept(s: Server, i: Issue, d: nat) {
    && d in i.license.fulfilments
    && d in i.collected.authorized
    && var b := i.collected.authorized[d];
       && i.license.fulfilments[d] == AuthorizedOutput(b.authorization.body, b.evidence, b.acknowledgement)
       && b.authorization.body.demandId == d
       && Retained(s, b, i.transaction)
  }

  lemma IssueRests(s: Server, t: Server, i: Issue, d: nat)
    requires IssueOk(s, i) && Extends(s, t) && d in i.license.fulfilments && i.license.fulfilments[d].AuthorizedOutput?
    ensures RestsOnKept(t, i, d)
  {
    ExtendsKeepsProofs(s, t, i.quote, i.transaction, i.collected);
    assert d in i.quote.demands;
  }

  /** Every License issued in any run was paid in full, each Demand by an output of its own. */
  lemma LicensesArePaidInFull(payees: seq<Payee>, steps: seq<Step>)
    ensures forall i :: i in Run(Installed(payees), steps).issued ==> PaidInFull(i)
  {
    ReachableIsOk(payees, steps);
    forall i | i in Run(Installed(payees), steps).issued ensures PaidInFull(i) {
      assert IssueOk(Run(Installed(payees), steps).server, i);
      IssueIsPaid(Run(Installed(payees), steps).server, i);
    }
  }

  /**
    The License covers exactly the Quote's Demands, each fulfilled by its own one proof;
    different Demands are paid by different outputs, each with the Demand's amount, no
    other output was used, and together they pay the Quote's total.
  */
  ghost predicate PaidInFull(i: Issue) {
    && i.license.fulfilments.Keys == i.quote.demands.Keys == i.collected.receipts.Keys + i.collected.authorized.Keys
    && i.collected.receipts.Keys !! i.collected.authorized.Keys
    && (forall d :: d in i.quote.demands ==>
          && (d in i.collected.receipts || d in i.collected.authorized)
          && i.license.fulfilments[d] == Fulfil(i.collected, d))
    && PaysEach(i.quote, i.transaction, i.collected)
    && SumOver(i.collected.used, OutputSatoshis(i.transaction)) == SumOver(Demanded(i.quote), DemandSatoshis(i.quote))
  }

  lemma IssueIsPaid(s: Server, i: Issue)
    requires IssueOk(s, i)
    ensures PaidInFull(i)
  {
    SettlementIsBijective(i.quote, i.transaction, i.collected);
  }

  /** Recovery of stored payments never meets an unknown Demand, and it is the Payee's own. */
  lemma StoredDeliveriesResolve(payees: seq<Payee>, steps: seq<Step>)
    ensures var s := Run(Installed(payees), steps).server;
            forall key :: key in s.storedDeliveries ==>
              && s.storedDeliveries[key].authorization.body == key
              && s.storedDeliveries[key].delivery.body.demandId in s.demandIndex
              && s.demandIndex[s.storedDeliveries[key].delivery.body.demandId].payee == s.storedDeliveries[key].payee
  {
    ReachableIsOk(payees, steps);
    var s := Run(Installed(payees), steps).server;
    forall key | key in s.storedDeliveries
      ensures s.storedDeliveries[key].authorization.body == key
      ensures s.storedDeliveries[key].delivery.body.demandId in s.demandIndex
      ensures s.demandIndex[s.storedDeliveries[key].delivery.body.demandId].payee == s.storedDeliveries[key].payee
    {
      assert ClaimOk(s, s.deliveryClaims[key]);
    }
  }

  // ----------------------------------------- one Quote and one License per request

  /** The request has a License and no handler is past the check that would have found it. */
  ghost predicate Licensed(w: World, r: nat) {
    r in w.server.licenses
    && forall id :: id in w.handlers && w.handlers[id].Issuing? ==> w.handlers[id].completion.requestId != r
  }

  /** The request has a Quote and no handler is still making another. */
  ghost predicate Quoted(w: World, r: nat) {
    r in w.server.quotes && forall id :: id in w.handlers && w.handlers[id].Quoting? ==> w.handlers[id].requestId != r
  }

  /** No handler after the step is making a Quote or issuing a License for `r`, and both maps keep what they hold for it. */
  ghost predicate Keeps(w: World, w': World, r: nat) {
    && (Licensed(w, r) ==> Licensed(w', r) && w'.server.licenses[r] == w.server.licenses[r])
    && (Quoted(w, r) ==> Quoted(w', r) && w'.server.quotes[r] == w.server.quotes[r])
  }

  lemma MoveKeepsRequest(w: World, id: nat, now: nat, r: nat)
    requires id in w.handlers
    ensures Keeps(w, Advance(w, id, w.handlers[id], now), r)
  {
    match w.handlers[id]
    case Quoting(_, _, _) => QuotingKeepsRequest(w, id, now, r);
    case Completing(_, _, _, _) => CompletingKeepsRequest(w, id, now, r);
    case Issuing(_, _, _) => CompletingKeepsRequest(w, id, now, r);
    case Storing(_, _, _) =>
    case Waiting(_, _, _, _) =>
    case Attesting(_, _, _) =>
    case SigningEvidence(_, _) =>
  }

  lemma QuotingKeepsRequest(w: World, id: nat, now: nat, r: nat)
    requires id in w.handlers && w.handlers[id].Quoting?
    ensures Keeps(w, Advance(w, id, w.handlers[id], now), r)
  {
    var h := w.handlers[id];
    if Quoted(w, r) { assert h.requestId != r; }
  }

  lemma CompletingKeepsRequest(w: World, id: nat, now: nat, r: nat)
    requires id in w.handlers && (w.handlers[id].Completing? || w.handlers[id].Issuing?)
    ensures Keeps(w, Advance(w, id, w.handlers[id], now), r)
  {
    var h := w.handlers[id];
    if Licensed(w, r) && h.Issuing? { assert h.completion.requestId != r; }
  }

  lemma StepKeepsRequest(w: World, step: Step, r: nat)
    ensures Keeps(w, Next(w, step), r)
  {
    if step.Move? {
      if step.id in w.handlers { MoveKeepsRequest(w, step.id, step.now, r); }
    } else if step.BeginQuote? || step.BeginStore? || step.BeginAttest? || step.BeginComplete? {
      BeginKeepsRequest(w, step, r);
    } else {
      OtherKeepsRequest(w, step, r);
    }
  }

  lemma BeginKeepsRequest(w: World, step: Step, r: nat)
    requires step.BeginQuote? || step.BeginStore? || step.BeginAttest? || step.BeginComplete?
    ensures Keeps(w, Next(w, step), r)
  {
  }

  lemma OtherKeepsRequest(w: World, step: Step, r: nat)
    requires step.Authorize? || step.SignAcknowledgement? || step.FailSigning? || step.FinishAcknowledgement? || step.Abandon?
    ensures Keeps(w, Next(w, step), r)
  {
  }

  lemma {:induction false} RunKeepsRequest(w: World, steps: seq<Step>, r: nat)
    ensures Keeps(w, Run(w, steps), r)
    decreases |steps|
  {
    if steps != [] {
      StepKeepsRequest(w, steps[0], r);
      RunKeepsRequest(Next(w, steps[0]), steps[1..], r);
    }
  }

  /** A handler that is still making a Quote can put any Quote in place of the one held by then. */
  lemma {:induction false} Requotes(w: World, id: nat, quote: nat) returns (steps: seq<Step>)
    requires id in w.handlers && w.handlers[id].Quoting?
    ensures var r, quotes := w.handlers[id].requestId, Run(w, steps).server.quotes;
            r in quotes && quotes[r].quote == quote
    decreases |w.handlers[id].left|
  {
    var step := Move(id, quote);
    var w' := Next(w, step);
    if w.handlers[id].left == [] {
      steps := [step];
      assert Run(w', []) == w';
    } else {
      var rest := Requotes(w', id, quote);
      steps := [step] + rest;
      assert steps[1..] == rest;
    }
  }

  /** A handler past the check issues another License, at whatever time it comes to it. */
  lemma Reissues(w: World, id: nat, now: nat)
    requires Inv(w) && id in w.handlers && w.handlers[id].Issuing?
    ensures var r, licenses := w.handlers[id].completion.requestId, Run(w, [Move(id, now)]).server.licenses;
            r in licenses && licenses[r].issuedAt == now
  {
    IssuingIsProved(w, id);
    OneStep(w, Move(id, now));
    IssuesAnew(w, id, now);
  }

  lemma IssuingIsProved(w: World, id: nat)
    requires Inv(w) && id in w.handlers && w.handlers[id].Issuing?
    ensures var h := w.handlers[id]; forall d :: d in h.quote.demands ==> d in h.collected.receipts || d in h.collected.authorized
  {
    var h := w.handlers[id];
    CompletingHasProofs(w.server, w.handlers, id);
    EveryDemandProved(h.quote, h.completion.transaction, h.collected);
  }

  lemma IssuesAnew(w: World, id: nat, now: nat)
    requires id in w.handlers && w.handlers[id].Issuing?
    requires var h := w.handlers[id]; forall d :: d in h.quote.demands ==> d in h.collected.receipts || d in h.collected.authorized
    ensures var r, licenses := w.handlers[id].completion.requestId, Next(w, Move(id, now)).server.licenses;
            r in licenses && licenses[r].issuedAt == now
  {
  }

  ghost predicate KeepsQuote(w: World, r: nat, more: seq<Step>)
    requires r in w.server.quotes
  {
    r in Run(w, more).server.quotes && Run(w, more).server.quotes[r] == w.server.quotes[r]
  }

  ghost predicate KeepsLicense(w: World, r: nat, more: seq<Step>)
    requires r in w.server.licenses
  {
    r in Run(w, more).server.licenses && Run(w, more).server.licenses[r] == w.server.licenses[r]
  }

  /**
    One Quote and one License per request, with the exact condition. In a reachable
    state the Quote, or the License, that a request has stays what it is over all later
    runs if and only if no handler of that request is past the check that finds it.
  */
  lemma RequestsAreStable(payees: seq<Payee>, steps: seq<Step>, r: nat)
    ensures var w := Run(Installed(payees), steps);
            && (r in w.server.quotes ==> ((forall more :: KeepsQuote(w, r, more)) <==> Quoted(w, r)))
            && (r in w.server.licenses ==> ((forall more :: KeepsLicense(w, r, more)) <==> Licensed(w, r)))
  {
    ReachableIsOk(payees, steps);
    var w := Run(Installed(payees), steps);
    if r in w.server.quotes { QuoteIsStable(w, r); }
    if r in w.server.licenses { LicenseIsStable(w, r); }
  }

  lemma QuoteIsStable(w: World, r: nat)
    requires r in w.server.quotes
    ensures (forall more :: KeepsQuote(w, r, more)) <==> Quoted(w, r)
  {
    if Quoted(w, r) {
      forall more ensures KeepsQuote(w, r, more) { RunKeepsRequest(w, more, r); }
    } else {
      var id :| id in w.handlers && w.handlers[id].Quoting? && w.handlers[id].requestId == r;
      var more := Requotes(w, id, w.server.quotes[r].quote + 1);
      assert !KeepsQuote(w, r, more);
    }
  }

  lemma LicenseIsStable(w: World, r: nat)
    requires Inv(w) && r in w.server.licenses
    ensures (forall more :: KeepsLicense(w, r, more)) <==> Licensed(w, r)
  {
    if Licensed(w, r) {
      forall more ensures KeepsLicense(w, r, more) { RunKeepsRequest(w, more, r); }
    } else {
      var id :| id in w.handlers && w.handlers[id].Issuing? && w.handlers[id].completion.requestId == r;
      Reissues(w, id, w.server.licenses[r].issuedAt + 1);
      assert !KeepsLicense(w, r, [Move(id, w.server.licenses[r].issuedAt + 1)]);
    }
  }
}
