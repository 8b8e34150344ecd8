/** What is on Quotes, evidences and Licenses in every reachable state, said on their fields. */
module SettlementFields {
  import opened Common
  import opened SettlementModel
  import opened SettlementServer
  import opened SettlementMachine
  import Safety = SettlementSafety

  /** A Demand on a Payee's own terms, filed under its id, for this request. */
  predicate OwnDemand(payees: seq<Payee>, requestId: nat, d: nat, runtime: Runtime) {
    && runtime.payee in payees
    && runtime.demand.id == d && runtime.demand.requestId == requestId
    && runtime.demand.payee == runtime.payee.identity && runtime.demand.satoshis == runtime.payee.satoshis
    && runtime.demand.dutyUid == runtime.payee.dutyUid && runtime.demand.authorizedOutput == runtime.payee.authorizedOutput
  }

  ghost predicate OwnDemands(payees: seq<Payee>, requestId: nat, demands: map<nat, Runtime>) {
    forall d :: d in demands ==> OwnDemand(payees, requestId, d, demands[d])
  }

  ghost predicate QuoteFor(payees: seq<Payee>, requestId: nat, q: QuoteRecord) {
    OwnDemands(payees, requestId, q.demands) && |q.demands| == |payees|
  }

  ghost predicate HandlerFields(payees: seq<Payee>, h: Handler) {
    match h
    case Quoting(requestId, made, left) =>
      && OwnDemands(payees, requestId, made) && |made| + |left| == |payees|
      && forall p :: p in left ==> p in payees
    case Attesting(a, _, runtime) => runtime.payee.satoshis == a.body.satoshis
    case SigningEvidence(key, tx) => PaysOnce(tx.outputs, key.satoshis, key.script)
    case Completing(c, q, acc, _) => QuoteFor(payees, c.requestId, q) && Proven(q, c.requestId, c.transaction, acc)
    case Issuing(c, q, acc) => QuoteFor(payees, c.requestId, q) && Proven(q, c.requestId, c.transaction, acc)
    case _ => true
  }

  ghost predicate HandlersFields(payees: seq<Payee>, handlers: map<nat, Handler>) {
    forall id :: id in handlers ==> HandlerFields(payees, handlers[id])
  }

  /** Every Demand of the License is fulfilled by the proof collected for it, and that proof is the Payee's own. */
  ghost predicate IssueFields(payees: seq<Payee>, i: Issue) {
    && QuoteFor(payees, i.license.requestId, i.quote)
    && Proven(i.quote, i.license.requestId, i.transaction, i.collected)
    && i.license.fulfilments.Keys == i.quote.demands.Keys
    && forall d :: d in i.quote.demands ==>
         if d in i.collected.receipts then i.license.fulfilments[d] == Receipted(i.collected.receipts[d])
         else d in i.collected.authorized
              && i.license.fulfilments[d] == AuthorizedOutput(i.collected.authorized[d].authorization.body,
                                                              i.collected.authorized[d].evidence,
                                                              i.collected.authorized[d].acknowledgement)
  }

  ghost predicate QuotesFields(payees: seq<Payee>, quotes: map<nat, QuoteRecord>) {
    forall r :: r in quotes ==> QuoteFor(payees, r, quotes[r])
  }

  ghost predicate EvidencesFields(evidences: set<Evidence>) {
    forall e :: e in evidences ==> PaysOnce(e.transaction.outputs, e.authorization.satoshis, e.authorization.script)
  }

  ghost predicate IssuesFields(payees: seq<Payee>, issued: set<Issue>) {
    forall i :: i in issued ==> IssueFields(payees, i)
  }

  ghost predicate Fields(w: World) {
    && QuotesFields(w.payees, w.server.quotes) && EvidencesFields(w.released.evidences)
    && HandlersFields(w.payees, w.handlers) && IssuesFields(w.payees, w.issued)
  }

  // -------------------------------------------------------------- every step

  /** Only one handler moves, into one that is as it should be, or ends. */
  lemma HandlerKeepsFields(w: World, w': World, id: nat)
    requires Fields(w) && w'.payees == w.payees && w'.server.quotes == w.server.quotes
    requires w'.released.evidences == w.released.evidences && w'.issued == w.issued
    requires forall o :: o in w'.handlers && o != id ==> o in w.handlers && w'.handlers[o] == w.handlers[o]
    requires id in w'.handlers ==> HandlerFields(w.payees, w'.handlers[id])
    ensures Fields(w')
  {
  }

  lemma QuoteKeepsFields(w: World, id: nat, requestId: nat, made: map<nat, Runtime>, left: seq<Payee>, quote: nat)
    requires Fields(w) && w.nextDemand !in made && HandlerFields(w.payees, Quoting(requestId, made, left))
    ensures Fields(AdvanceQuote(w, id, requestId, made, left, quote))
  {
    var w' := AdvanceQuote(w, id, requestId, made, left, quote);
    if left == [] {
      assert QuoteFor(w.payees, requestId, QuoteRecord(quote, made));
    } else {
      MadeOwnDemand(w.payees, requestId, made, left, w.nextDemand);
      HandlerKeepsFields(w, w', id);
    }
  }

  lemma MadeOwnDemand(payees: seq<Payee>, requestId: nat, made: map<nat, Runtime>, left: seq<Payee>, d: nat)
    requires left != [] && d !in made && HandlerFields(payees, Quoting(requestId, made, left))
    ensures HandlerFields(payees, Quoting(requestId, made[d := DemandFor(requestId, left[0], d)], left[1..]))
  {
    var more := made[d := DemandFor(requestId, left[0], d)];
    assert left == [left[0]] + left[1..];
    assert |more| == |made| + 1;
  }

  lemma AttestKeepsFields(w: World, id: nat, a: Authorization, tx: Transaction, runtime: Runtime)
    requires Fields(w) && runtime.payee.satoshis == a.body.satoshis
    ensures Fields(AdvanceAttest(w, id, a, tx, runtime))
  {
    BindTransactionExactly(w.server, a, tx, runtime.payee.satoshis);
    HandlerKeepsFields(w, AdvanceAttest(w, id, a, tx, runtime), id);
  }

  lemma EvidenceKeepsFields(w: World, id: nat, key: AuthorizationBody, tx: Transaction, now: nat)
    requires Fields(w) && PaysOnce(tx.outputs, key.satoshis, key.script)
    ensures Fields(AdvanceEvidence(w, id, key, tx, now))
  {
  }

  lemma QuoteForIsOk(payees: seq<Payee>, requestId: nat, q: QuoteRecord)
    requires QuoteFor(payees, requestId, q)
    ensures QuoteOk(q)
  {
    assert forall d :: d in q.demands ==> OwnDemand(payees, requestId, d, q.demands[d]);
  }

  lemma BecomesOrEnds(w: World, id: nat, h: Handler)
    requires Fields(w) && HandlerFields(w.payees, h)
    ensures Fields(With(w, id, h)) && Fields(Without(w, id))
  {
    HandlerKeepsFields(w, With(w, id, h), id);
    HandlerKeepsFields(w, Without(w, id), id);
  }

  lemma CompleteKeepsFields(w: World, id: nat, c: Completion, q: QuoteRecord, acc: Collected, at: nat)
    requires Fields(w) && QuoteFor(w.payees, c.requestId, q) && Proven(q, c.requestId, c.transaction, acc)
    ensures Fields(AdvanceComplete(w, id, c, q, acc, at))
  {
    var next := ProofsStayProven(w, c, q, acc, at);
    BecomesOrEnds(w, id, Completing(c, q, next, at + 1));
    BecomesOrEnds(w, id, Issuing(c, q, acc));
  }

  lemma ProofsStayProven(w: World, c: Completion, q: QuoteRecord, acc: Collected, at: nat) returns (next: Collected)
    requires QuoteFor(w.payees, c.requestId, q) && Proven(q, c.requestId, c.transaction, acc)
    ensures Proven(q, c.requestId, c.transaction, next)
    ensures at < |c.authorizedOutputs| ==> Collect(q, c, acc, ByOutput(c.authorizedOutputs[at]), w.released) in {None, Some(next)}
  {
    next := acc;
    if at < |c.authorizedOutputs| {
      QuoteForIsOk(w.payees, c.requestId, q);
      CollectProves(q, c, acc, ByOutput(c.authorizedOutputs[at]), w.released);
      var r := Collect(q, c, acc, ByOutput(c.authorizedOutputs[at]), w.released);
      if r.Some? { next := r.value; }
    }
  }

  lemma IssueKeepsFields(w: World, id: nat, c: Completion, q: QuoteRecord, acc: Collected, now: nat)
    requires Fields(w) && QuoteFor(w.payees, c.requestId, q) && Proven(q, c.requestId, c.transaction, acc)
    ensures Fields(AdvanceIssue(w, id, c, q, acc, now))
  {
    if forall d :: d in q.demands ==> d in acc.receipts || d in acc.authorized {
      IssueHasFields(w.payees, c, q, acc, now);
      OneMoreIssueFields(w, AdvanceIssue(w, id, c, q, acc, now), id, Issue(LicenseOf(c.requestId, now, q, acc), q, c.transaction, acc));
    } else {
      HandlerKeepsFields(w, AdvanceIssue(w, id, c, q, acc, now), id);
    }
  }

  lemma OneMoreIssueFields(w: World, w': World, id: nat, i: Issue)
    requires Fields(w) && IssueFields(w.payees, i) && w'.issued == w.issued + {i}
    requires w'.payees == w.payees && w'.server.quotes == w.server.quotes
    requires w'.released.evidences == w.released.evidences && w'.handlers == w.handlers - {id}
    ensures Fields(w')
  {
  }

  lemma IssueHasFields(payees: seq<Payee>, c: Completion, q: QuoteRecord, acc: Collected, now: nat)
    requires QuoteFor(payees, c.requestId, q) && Proven(q, c.requestId, c.transaction, acc)
    requires forall d :: d in q.demands ==> d in acc.receipts || d in acc.authorized
    ensures IssueFields(payees, Issue(LicenseOf(c.requestId, now, q, acc), q, c.transaction, acc))
  {
  }

  lemma MoveKeepsFields(w: World, id: nat, now: nat)
    requires DemandsOk(w) && HandlersOk(w.server, w.handlers) && Fields(w) && id in w.handlers
    ensures Fields(Advance(w, id, w.handlers[id], now))
  {
    FieldsOf(w, id);
    match w.handlers[id]
    case Quoting(requestId, made, left) =>
      NotYetMade(w, id);
      QuoteKeepsFields(w, id, requestId, made, left, now);
    case Attesting(a, tx, runtime) => AttestKeepsFields(w, id, a, tx, runtime);
    case SigningEvidence(key, tx) => EvidenceKeepsFields(w, id, key, tx, now);
    case Completing(c, q, acc, at) => CompleteKeepsFields(w, id, c, q, acc, at);
    case Issuing(c, q, acc) => IssueKeepsFields(w, id, c, q, acc, now);
    case Storing(a, d, runtime) => StoreKeepsFields(w, id, a, d, runtime);
    case Waiting(a, d, claim, owner) => WaitKeepsFields(w, id, a, d, claim, owner);
  }

  lemma FieldsOf(w: World, id: nat)
    requires Fields(w) && id in w.handlers
    ensures HandlerFields(w.payees, w.handlers[id])
  {
  }

  lemma NotYetMade(w: World, id: nat)
    requires DemandsOk(w) && HandlersOk(w.server, w.handlers) && id in w.handlers && w.handlers[id].Quoting?
    ensures w.nextDemand !in w.handlers[id].made
  {
    assert HandlerOk(w.server, w.handlers[id]);
  }

  lemma StoreKeepsFields(w: World, id: nat, a: Authorization, d: Delivery, runtime: Runtime)
    requires Fields(w)
    ensures Fields(AdvanceStore(w, id, a, d, runtime))
  {
    HandlerKeepsFields(w, AdvanceStore(w, id, a, d, runtime), id);
  }

  lemma WaitKeepsFields(w: World, id: nat, a: Authorization, d: Delivery, claim: nat, owner: bool)
    requires Fields(w) && id in w.handlers && w.handlers[id] == Waiting(a, d, claim, owner)
    ensures Fields(AdvanceWait(w, id, a, d, claim, owner))
  {
    HandlerKeepsFields(w, AdvanceWait(w, id, a, d, claim, owner), id);
  }

  lemma BeginKeepsFields(w: World, step: Step)
    requires DemandsOk(w) && Fields(w) && (step.BeginQuote? || step.BeginStore? || step.BeginAttest?)
    ensures Fields(Next(w, step))
  {
    if step.BeginAttest? && Accepts(w, step.authorization) {
      assert DemandOk(step.authorization.body.demandId, w.server.demandIndex[step.authorization.body.demandId]);
    }
    if Next(w, step) != w { HandlerKeepsFields(w, Next(w, step), step.id); }
  }

  lemma StartKeepsFields(w: World, id: nat, c: Completion)
    requires Fields(w) && id !in w.handlers
    ensures Fields(StartComplete(w, id, c))
  {
    var w' := StartComplete(w, id, c);
    if w' != w {
      StartedIsProven(w, c);
      HandlerKeepsFields(w, w', id);
    }
  }

  lemma StartedIsProven(w: World, c: Completion)
    requires QuotesFields(w.payees, w.server.quotes) && c.requestId in w.server.quotes
    ensures var q := w.server.quotes[c.requestId];
            var r := CollectAll(q, c, ProofsOf(c)[..|c.receipts|], w.released);
            QuoteFor(w.payees, c.requestId, q) && (r.Some? ==> Proven(q, c.requestId, c.transaction, r.value))
  {
    var q := w.server.quotes[c.requestId];
    assert QuoteFor(w.payees, c.requestId, q);
    QuoteForIsOk(w.payees, c.requestId, q);
    CollectAllProves(q, c, ProofsOf(c)[..|c.receipts|], w.released);
  }

  lemma OtherKeepsFields(w: World, step: Step)
    requires Fields(w)
    requires step.Authorize? || step.SignAcknowledgement? || step.FailSigning? || step.FinishAcknowledgement? || step.Abandon?
    ensures Fields(Next(w, step))
  {
  }

  lemma NextKeepsFields(w: World, step: Step)
    requires DemandsOk(w) && HandlersOk(w.server, w.handlers) && Fields(w)
    ensures Fields(Next(w, step))
  {
    if step.Move? {
      if step.id in w.handlers { MoveKeepsFields(w, step.id, step.now); }
    } else if step.BeginQuote? || step.BeginStore? || step.BeginAttest? {
      BeginKeepsFields(w, step);
    } else if step.BeginComplete? {
      if step.id !in w.handlers { StartKeepsFields(w, step.id, step.completion); }
    } else {
      OtherKeepsFields(w, step);
    }
  }

  lemma {:induction false} RunKeepsFields(w: World, steps: seq<Step>)
    requires Inv(w) && Fields(w)
    ensures Fields(Run(w, steps)) && Inv(Run(w, steps))
    decreases |steps|
  {
    if steps != [] {
      Safety.NextKeepsInv(w, steps[0]);
      NextKeepsFields(w, steps[0]);
      RunKeepsFields(Next(w, steps[0]), steps[1..]);
    }
  }

  lemma {:induction false} PayeesStay(w: World, steps: seq<Step>)
    ensures Run(w, steps).payees == w.payees
    decreases |steps|
  {
    if steps != [] {
      assert Next(w, steps[0]).payees == w.payees;
      PayeesStay(Next(w, steps[0]), steps[1..]);
    }
  }

  lemma ReachableFields(payees: seq<Payee>, steps: seq<Step>)
    ensures Fields(Run(Installed(payees), steps)) && Inv(Run(Installed(payees), steps))
    ensures Run(Installed(payees), steps).payees == payees
  {
    RunKeepsFields(Installed(payees), steps);
    PayeesStay(Installed(payees), steps);
  }

  // ----------------------------------------------------------------- theorems

  /** Every Quote of any run has one Demand for each Payee, on that Payee's own terms, for that request. */
  lemma QuotesAreThePayees(payees: seq<Payee>, steps: seq<Step>)
    ensures forall r :: r in Run(Installed(payees), steps).server.quotes
              ==> QuoteFor(payees, r, Run(Installed(payees), steps).server.quotes[r])
  {
    ReachableFields(payees, steps);
  }

  /** Every evidence of any run names a transaction with exactly one output that pays the authorization. */
  lemma EvidencePaysOnce(payees: seq<Payee>, steps: seq<Step>)
    ensures forall e :: e in Run(Installed(payees), steps).released.evidences ==>
              exists i :: OnlyPayment(e.transaction.outputs, Output(Some(e.authorization.satoshis), e.authorization.script), i)
  {
    ReachableFields(payees, steps);
    forall e | e in Run(Installed(payees), steps).released.evidences
      ensures exists i :: OnlyPayment(e.transaction.outputs, Output(Some(e.authorization.satoshis), e.authorization.script), i)
    {
      PaysOnceIsOnly(e.transaction.outputs, e.authorization.satoshis, e.authorization.script);
    }
  }

  /** The output stands at this index and nowhere else. */
  ghost predicate OnlyPayment(outputs: seq<Output>, o: Output, i: nat) {
    i < |outputs| && outputs[i] == o && forall j :: 0 <= j < |outputs| && outputs[j] == o ==> j == i
  }

  lemma PaysOnceIsOnly(outputs: seq<Output>, satoshis: nat, script: nat)
    requires PaysOnce(outputs, satoshis, script)
    ensures exists i :: OnlyPayment(outputs, Output(Some(satoshis), script), i)
  {
    var i :| 0 <= i < |outputs| && Pays(outputs[i], satoshis, script)
             && forall j :: 0 <= j < |outputs| && Pays(outputs[j], satoshis, script) ==> j == i;
    assert OnlyPayment(outputs, Output(Some(satoshis), script), i);
  }

  /**
    Every License of any run fulfils each Demand by what the Demand's own Payee signed:
    its genuine receipt, or its authorization with delivery, evidence and acknowledgement,
    for that very request, transaction and amount.
  */
  lemma LicensesAreProvedByTheirPayees(payees: seq<Payee>, steps: seq<Step>)
    ensures forall i :: i in Run(Installed(payees), steps).issued ==> IssueFields(payees, i)
  {
    ReachableFields(payees, steps);
  }
}
