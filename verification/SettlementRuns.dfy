/** What the issuer does answer: runs that a caller who keeps to the protocol can always have. */
module SettlementRuns {
  import opened Common
  import opened SettlementModel
  import opened SettlementServer
  import opened SettlementMachine
  import opened SettlementSafety
  import opened SettlementTheorems
  import Records = SettlementFields

  // ---------------------------------------------------------------- deliveries

  /** The steps of one store request that nothing else interrupts. */
  function StoreSteps(id: nat, a: Authorization, d: Delivery, claim: nat, now: nat): seq<Step> {
    [BeginStore(id, a, d), Move(id, now)]
    + [SignAcknowledgement(claim, now), FinishAcknowledgement(claim)]
    + [Move(id, now)]
  }

  function PayeeOf(w: World, a: Authorization): Payee
    requires a.body.demandId in w.server.demandIndex
  {
    w.server.demandIndex[a.body.demandId].payee
  }

  /** The acknowledgement that a store request gets. */
  function AcknowledgementFor(a: Authorization, d: Delivery, payee: Payee, now: nat): Acknowledgement {
    Acknowledgement(a.body, d.body, payee.identity, ISSUER, now)
  }

  /** Nothing is kept or claimed for this authorization. */
  predicate Vacant(s: Server, key: AuthorizationBody) { key !in s.storedDeliveries && key !in s.deliveryClaims }

  lemma Claims(w: World, id: nat, a: Authorization, d: Delivery, now: nat)
    requires id !in w.handlers && Accepts(w, a) && d.body.demandId == a.body.demandId && Vacant(w.server, a.body)
    ensures var s := w.server;
            Run(w, [BeginStore(id, a, d), Move(id, now)])
            == With(w, id, Waiting(a, d, |s.promises|, true)).(
                 server := s.(promises := s.promises + [Claim(a, d, PayeeOf(w, a), Unsigned)],
                              deliveryClaims := s.deliveryClaims[a.body := |s.promises|]))
  {
    var runtime := w.server.demandIndex[a.body.demandId];
    TwoSteps(w, BeginStore(id, a, d), Move(id, now));
    Begins(w, id, a, d, Transaction([], 0));
    ClaimsNow(With(w, id, Storing(a, d, runtime)), id, a, d, runtime, now);
    WithTwice(w, id, Storing(a, d, runtime), Waiting(a, d, |w.server.promises|, true));
  }

  lemma Begins(w: World, id: nat, a: Authorization, d: Delivery, tx: Transaction)
    requires id !in w.handlers && Accepts(w, a)
    ensures Next(w, BeginStore(id, a, d)) == With(w, id, Storing(a, d, w.server.demandIndex[a.body.demandId]))
    ensures Next(w, BeginAttest(id, a, tx)) == With(w, id, Attesting(a, tx, w.server.demandIndex[a.body.demandId]))
  {
  }

  lemma ClaimsNow(w: World, id: nat, a: Authorization, d: Delivery, runtime: Runtime, now: nat)
    requires id in w.handlers && w.handlers[id] == Storing(a, d, runtime)
    requires d.body.demandId == a.body.demandId && Vacant(w.server, a.body)
    ensures var s := w.server;
            Next(w, Move(id, now))
            == With(w, id, Waiting(a, d, |s.promises|, true)).(
                 server := s.(promises := s.promises + [Claim(a, d, runtime.payee, Unsigned)],
                              deliveryClaims := s.deliveryClaims[a.body := |s.promises|]))
  {
    ClaimDeliveryExactly(w.server, a, d, runtime.payee, Holding.Vacant);
  }

  lemma TwoSteps(w: World, first: Step, second: Step)
    ensures Run(w, [first, second]) == Next(Next(w, first), second)
  {
    OneStep(Next(w, first), second);
    assert [first, second][1..] == [second];
  }

  lemma Acknowledges(w: World, claim: nat, now: nat)
    requires claim < |w.server.promises| && w.server.promises[claim].progress.Unsigned?
    ensures var c := w.server.promises[claim];
            var ack := AcknowledgementFor(c.authorization, c.delivery, c.payee, now);
            var w' := Run(w, [SignAcknowledgement(claim, now), FinishAcknowledgement(claim)]);
            && w'.server == w.server.(
                 promises := w.server.promises[claim := c.(progress := Resolved(ack))],
                 storedDeliveries := w.server.storedDeliveries[c.authorization.body := Stored(c.authorization, c.delivery, ack, c.payee)])
            && w'.released == w.released.(acknowledgements := w.released.acknowledgements + {ack})
            && w'.handlers == w.handlers && w'.answers == w.answers
  {
    TwoSteps(w, SignAcknowledgement(claim, now), FinishAcknowledgement(claim));
    var c := w.server.promises[claim];
    var ack := AcknowledgementFor(c.authorization, c.delivery, c.payee, now);
    var w1 := Next(w, SignAcknowledgement(claim, now));
    assert w1.server.promises == w.server.promises[claim := c.(progress := Signed(ack))];
  }

  /** What a delivery that has been stored leaves behind. */
  ghost predicate IsStored(w: World, w': World, a: Authorization, d: Delivery, ack: Acknowledgement) {
    && Answer(a, d, ack) in w'.answers
    && a.body in w'.server.storedDeliveries
    && w'.server.storedDeliveries[a.body].authorization == a && w'.server.storedDeliveries[a.body].delivery == d
    && w'.server.storedDeliveries[a.body].acknowledgement == ack
    && ack in w'.released.acknowledgements
    && w'.handlers == w.handlers
    && w'.released.authorizations == w.released.authorizations && w'.released.evidences == w.released.evidences
    && w'.server.demandIndex == w.server.demandIndex && w'.server.quotes == w.server.quotes
    && w'.server.licenses == w.server.licenses
    && w'.server.acceptedTransactions == w.server.acceptedTransactions
    && w'.server.transactionEvidence == w.server.transactionEvidence
  }

  /**
    A delivery is taken. Wherever an authorization is valid and nothing is kept or
    claimed for it, a delivery for its Demand is claimed, acknowledged by the issuer,
    kept for the Demand's Payee, and its sender gets that acknowledgement.
  */
  lemma StoreRun(w: World, id: nat, a: Authorization, d: Delivery, now: nat)
    requires id !in w.handlers && Accepts(w, a) && d.body.demandId == a.body.demandId && Vacant(w.server, a.body)
    ensures IsStored(w, Run(w, StoreSteps(id, a, d, |w.server.promises|, now)), a, d, AcknowledgementFor(a, d, PayeeOf(w, a), now))
  {
    var n := |w.server.promises|;
    var begin, sign, reply := [BeginStore(id, a, d), Move(id, now)], [SignAcknowledgement(n, now), FinishAcknowledgement(n)], [Move(id, now)];
    var ack := AcknowledgementFor(a, d, PayeeOf(w, a), now);
    Claims(w, id, a, d, now);
    var w1 := Run(w, begin);
    Acknowledges(w1, n, now);
    var w2 := Run(w1, sign);
    Replies(w2, id, a, d, n, ack, now);
    RunSplits(w, begin, sign);
    RunSplits(w, begin + sign, reply);
    assert w.handlers[id := Waiting(a, d, n, true)] - {id} == w.handlers;
  }

  lemma Replies(w: World, id: nat, a: Authorization, d: Delivery, claim: nat, ack: Acknowledgement, now: nat)
    requires id in w.handlers && w.handlers[id] == Waiting(a, d, claim, true)
    requires claim < |w.server.promises| && w.server.promises[claim].progress == Resolved(ack)
    ensures Run(w, [Move(id, now)]) == Without(w, id).(answers := w.answers + {Answer(a, d, ack)})
  {
    OneStep(w, Move(id, now));
  }

  /** From every reachable state; and the same request again gets the same acknowledgement. */
  lemma DeliveriesAreTaken(payees: seq<Payee>, steps: seq<Step>, id: nat, a: Authorization, d: Delivery, now: nat)
    requires var w := Run(Installed(payees), steps);
             id !in w.handlers && Accepts(w, a) && d.body.demandId == a.body.demandId && Vacant(w.server, a.body)
    ensures var w := Run(Installed(payees), steps);
            var ack := AcknowledgementFor(a, d, PayeeOf(w, a), now);
            var w' := Run(w, StoreSteps(id, a, d, |w.server.promises|, now));
            IsStored(w, w', a, d, ack) && Answer(a, d, ack) in Run(w', [BeginStore(id, a, d), Move(id, now)]).answers
  {
    var w := Run(Installed(payees), steps);
    StoreRun(w, id, a, d, now);
    RepeatRun(Run(w, StoreSteps(id, a, d, |w.server.promises|, now)), id, a, d, now);
  }

  /** A repeated request for a kept pair gets the kept acknowledgement, and nothing else changes. */
  lemma RepeatRun(w: World, id: nat, a: Authorization, d: Delivery, now: nat)
    requires id !in w.handlers && Accepts(w, a) && d.body.demandId == a.body.demandId && a.body in w.server.storedDeliveries
    requires w.server.storedDeliveries[a.body].authorization == a && w.server.storedDeliveries[a.body].delivery == d
    ensures var w' := Run(w, [BeginStore(id, a, d), Move(id, now)]);
            && w'.answers == w.answers + {Answer(a, d, w.server.storedDeliveries[a.body].acknowledgement)}
            && w'.server == w.server
  {
    TwoSteps(w, BeginStore(id, a, d), Move(id, now));
    ClaimDeliveryExactly(w.server, a, d, PayeeOf(w, a), Held(w.server.storedDeliveries[a.body]));
  }

  /** A failed claim makes room: its owner drops it, and another pair can be stored. */
  lemma FailureMakesRoom(w: World, id: nat, now: nat)
    requires Inv(w) && id in w.handlers && w.handlers[id].Waiting? && w.handlers[id].owner
    requires w.handlers[id].claim < |w.server.promises| && w.server.promises[w.handlers[id].claim].progress.Rejected?
    requires var key := w.handlers[id].authorization.body;
             key in w.server.deliveryClaims && w.server.deliveryClaims[key] == w.handlers[id].claim
    ensures var w' := Next(w, Move(id, now)); Vacant(w'.server, w.handlers[id].authorization.body) && id !in w'.handlers
  {
    var h := w.handlers[id];
    assert HandlerOk(w.server, h);
    assert KeysOk(w.server);
  }

  // ------------------------------------------------------------------ evidence

  /** A claim leaves the table only by the hand of its own owner, and only after it was rejected. */
  lemma OnlyOwnersDrop(w: World, step: Step, key: AuthorizationBody)
    requires Inv(w) && key in w.server.deliveryClaims && key !in Next(w, step).server.deliveryClaims
    ensures step.Move? && step.id in w.handlers && w.handlers[step.id].Waiting? && w.handlers[step.id].owner
    ensures w.handlers[step.id].claim == w.server.deliveryClaims[key] < |w.server.promises|
    ensures w.server.promises[w.server.deliveryClaims[key]].progress.Rejected?
  {
    ClaimsGoByMoves(w, step, key);
    var h := w.handlers[step.id];
    assert h.Waiting? && h.claim < |w.server.promises|;
    assert KeysOk(w.server);
  }

  lemma ClaimsGoByMoves(w: World, step: Step, key: AuthorizationBody)
    requires key in w.server.deliveryClaims && key !in Next(w, step).server.deliveryClaims
    ensures step.Move? && step.id in w.handlers && w.handlers[step.id].Waiting? && w.handlers[step.id].owner
    ensures var h := w.handlers[step.id];
            && h.claim < |w.server.promises| && w.server.promises[h.claim].progress.Rejected?
            && w.server.deliveryClaims[key] == h.claim
  {
    if step.Move? && step.id in w.handlers { GoesByWaiting(w, step.id, w.handlers[step.id], step.now, key); }
  }

  lemma GoesByWaiting(w: World, id: nat, h: Handler, now: nat, key: AuthorizationBody)
    requires key in w.server.deliveryClaims && key !in Advance(w, id, h, now).server.deliveryClaims
    ensures h.Waiting? && h.owner && h.claim < |w.server.promises| && w.server.promises[h.claim].progress.Rejected?
    ensures w.server.deliveryClaims[key] == h.claim
  {
  }

  function AttestSteps(id: nat, a: Authorization, tx: Transaction, now: nat): seq<Step> {
    [BeginAttest(id, a, tx), Move(id, now)] + [Move(id, now)]
  }

  ghost predicate IsAttested(w: World, w': World, a: Authorization, tx: Transaction, now: nat) {
    && w'.server == w.server.(
         acceptedTransactions := w.server.acceptedTransactions[a.body := tx],
         transactionEvidence := w.server.transactionEvidence[a.body := Evidence(a.body, tx, ISSUER, now)])
    && w'.released == w.released.(evidences := w.released.evidences + {Evidence(a.body, tx, ISSUER, now)})
    && w'.handlers == w.handlers
  }

  /** A transaction with exactly one output that pays a valid authorization, not bound elsewhere, gets its evidence. */
  lemma AttestRun(w: World, id: nat, a: Authorization, tx: Transaction, now: nat)
    requires DemandsOk(w) && id !in w.handlers && Accepts(w, a) && PaysOnce(tx.outputs, a.body.satoshis, a.body.script)
    requires !BoundElsewhere(w.server, a.body, tx) && a.body !in w.server.transactionEvidence
    ensures IsAttested(w, Run(w, AttestSteps(id, a, tx, now)), a, tx, now)
  {
    var begin, sign := [BeginAttest(id, a, tx), Move(id, now)], [Move(id, now)];
    Binds(w, id, a, tx, now);
    OneStep(Run(w, begin), Move(id, now));
    RunSplits(w, begin, sign);
    assert w.handlers[id := SigningEvidence(a.body, tx)] - {id} == w.handlers;
  }

  lemma Binds(w: World, id: nat, a: Authorization, tx: Transaction, now: nat)
    requires DemandsOk(w) && id !in w.handlers && Accepts(w, a) && PaysOnce(tx.outputs, a.body.satoshis, a.body.script)
    requires !BoundElsewhere(w.server, a.body, tx) && a.body !in w.server.transactionEvidence
    ensures Run(w, [BeginAttest(id, a, tx), Move(id, now)])
         == With(w, id, SigningEvidence(a.body, tx)).(
              server := w.server.(acceptedTransactions := w.server.acceptedTransactions[a.body := tx]))
  {
    var runtime := w.server.demandIndex[a.body.demandId];
    TwoSteps(w, BeginAttest(id, a, tx), Move(id, now));
    Begins(w, id, a, Delivery(DeliveryBody(0, 0, 0, tx, 0), 0), tx);
    OwnAmount(w, a);
    BindsNow(With(w, id, Attesting(a, tx, runtime)), id, a, tx, runtime, now);
    WithTwice(w, id, Attesting(a, tx, runtime), SigningEvidence(a.body, tx));
  }

  lemma OwnAmount(w: World, a: Authorization)
    requires DemandsOk(w) && Accepts(w, a)
    ensures w.server.demandIndex[a.body.demandId].payee.satoshis == a.body.satoshis
  {
    assert DemandOk(a.body.demandId, w.server.demandIndex[a.body.demandId]);
  }

  lemma BindsNow(w: World, id: nat, a: Authorization, tx: Transaction, runtime: Runtime, now: nat)
    requires id in w.handlers && w.handlers[id] == Attesting(a, tx, runtime) && runtime.payee.satoshis == a.body.satoshis
    requires PaysOnce(tx.outputs, a.body.satoshis, a.body.script)
    requires !BoundElsewhere(w.server, a.body, tx) && a.body !in w.server.transactionEvidence
    ensures Next(w, Move(id, now))
         == With(w, id, SigningEvidence(a.body, tx)).(
              server := w.server.(acceptedTransactions := w.server.acceptedTransactions[a.body := tx]))
  {
    BindTransactionExactly(w.server, a, tx, runtime.payee.satoshis);
  }

  // -------------------------------------------------------------------- quotes

  /** A request without a Quote gets one, with a Demand for each Payee on that Payee's terms. */
  lemma QuoteRun(payees: seq<Payee>, steps: seq<Step>, id: nat, r: nat, quote: nat) returns (more: seq<Step>)
    requires var w := Run(Installed(payees), steps); id !in w.handlers && r !in w.server.quotes
    ensures var quotes := Run(Run(Installed(payees), steps), more).server.quotes;
            r in quotes && quotes[r].quote == quote && Records.QuoteFor(payees, r, quotes[r])
  {
    var w := Run(Installed(payees), steps);
    var rest := Requotes(Next(w, BeginQuote(id, r)), id, quote);
    more := [BeginQuote(id, r)] + rest;
    OneStep(w, BeginQuote(id, r));
    RunSplits(w, [BeginQuote(id, r)], rest);
    RunSplits(Installed(payees), steps, more);
    Records.QuotesAreThePayees(payees, steps + more);
  }

  // ------------------------------------------------------------------ complete

  /** A completion is begun exactly when it names the request's own Quote and all its receipts are accepted. */
  lemma OnlyItsOwnQuote(w: World, id: nat, c: Completion)
    requires id !in w.handlers
    ensures var receipts := ProofsOf(c)[..|c.receipts|];
            Next(w, BeginComplete(id, c)) != w <==>
              && c.requestId in w.server.quotes && w.server.quotes[c.requestId].quote == c.quote
              && AllMatch(w.server.quotes[c.requestId], c, receipts, w.released) && AllDistinct(receipts)
  {
    if c.requestId in w.server.quotes {
      CollectAllExactly(w.server.quotes[c.requestId], c, ProofsOf(c)[..|c.receipts|], w.released);
    }
    var w' := Next(w, BeginComplete(id, c));
    assert w' == w || id in w'.handlers;
  }

  /** The handler takes up the authorized outputs one after the other. */
  lemma {:induction false} CompletingRun(w: World, id: nat, c: Completion, q: QuoteRecord, acc: Collected, at: nat) returns (steps: seq<Step>)
    requires at <= |c.authorizedOutputs| && CollectAll(q, c, ProofsOf(c), w.released).Some?
    requires CollectAll(q, c, ProofsOf(c)[..|c.receipts| + at], w.released) == Some(acc)
    requires id in w.handlers && w.handlers[id] == Completing(c, q, acc, at)
    ensures Run(w, steps) == With(w, id, Completing(c, q, CollectAll(q, c, ProofsOf(c), w.released).value, |c.authorizedOutputs|))
    decreases |c.authorizedOutputs| - at
  {
    if at == |c.authorizedOutputs| {
      assert ProofsOf(c)[..|c.receipts| + at] == ProofsOf(c);
      steps := [];
      StaysAsItIs(w, id);
    } else {
      var next := CompletingStep(w, id, c, q, acc, at);
      var w' := With(w, id, Completing(c, q, next, at + 1));
      var rest := CompletingRun(w', id, c, q, next, at + 1);
      steps := [Move(id, 0)] + rest;
      FirstStep(w, Move(id, 0), rest);
      WithTwice(w, id, Completing(c, q, next, at + 1), Completing(c, q, CollectAll(q, c, ProofsOf(c), w.released).value, |c.authorizedOutputs|));
    }
  }

  lemma StaysAsItIs(w: World, id: nat)
    requires id in w.handlers
    ensures Run(w, []) == w == With(w, id, w.handlers[id])
  {
  }

  lemma WithTwice(w: World, id: nat, g: Handler, h: Handler)
    ensures With(With(w, id, g), id, h) == With(w, id, h)
  {
  }

  lemma FirstStep(w: World, first: Step, rest: seq<Step>)
    ensures Run(w, [first] + rest) == Run(Next(w, first), rest)
  {
    assert ([first] + rest)[1..] == rest;
  }

  lemma CompletingStep(w: World, id: nat, c: Completion, q: QuoteRecord, acc: Collected, at: nat) returns (next: Collected)
    requires at < |c.authorizedOutputs| && CollectAll(q, c, ProofsOf(c), w.released).Some?
    requires CollectAll(q, c, ProofsOf(c)[..|c.receipts| + at], w.released) == Some(acc)
    requires id in w.handlers && w.handlers[id] == Completing(c, q, acc, at)
    ensures CollectAll(q, c, ProofsOf(c)[..|c.receipts| + at + 1], w.released) == Some(next)
    ensures Next(w, Move(id, 0)) == With(w, id, Completing(c, q, next, at + 1))
  {
    OutputStep(q, c, w.released, at, acc);
    next := Collect(q, c, acc, ByOutput(c.authorizedOutputs[at]), w.released).value;
    CollectsNext(w, id, c, q, acc, at, next);
  }

  lemma CollectsNext(w: World, id: nat, c: Completion, q: QuoteRecord, acc: Collected, at: nat, next: Collected)
    requires at < |c.authorizedOutputs| && Collect(q, c, acc, ByOutput(c.authorizedOutputs[at]), w.released) == Some(next)
    requires id in w.handlers && w.handlers[id] == Completing(c, q, acc, at)
    ensures Next(w, Move(id, 0)) == With(w, id, Completing(c, q, next, at + 1))
  {
  }

  lemma DecidesToIssue(w: World, id: nat, c: Completion, q: QuoteRecord, acc: Collected, now: nat)
    requires id in w.handlers && w.handlers[id] == Completing(c, q, acc, |c.authorizedOutputs|)
    requires c.requestId !in w.server.licenses && |acc.receipts| + |acc.authorized| == |q.demands|
    requires forall d :: d in q.demands ==> d in acc.receipts || d in acc.authorized
    ensures var license, w' := LicenseOf(c.requestId, now, q, acc), Run(w, [Move(id, 0), Move(id, now)]);
            && w'.server == w.server.(licenses := w.server.licenses[c.requestId := license])
            && Issue(license, q, c.transaction, acc) in w'.issued
  {
    TwoSteps(w, Move(id, 0), Move(id, now));
    assert Next(w, Move(id, 0)) == With(w, id, Issuing(c, q, acc));
    Issues(With(w, id, Issuing(c, q, acc)), id, c, q, acc, now);
  }

  lemma Issues(w: World, id: nat, c: Completion, q: QuoteRecord, acc: Collected, now: nat)
    requires id in w.handlers && w.handlers[id] == Issuing(c, q, acc)
    requires forall d :: d in q.demands ==> d in acc.receipts || d in acc.authorized
    ensures var license, w' := LicenseOf(c.requestId, now, q, acc), Next(w, Move(id, now));
            && w'.issued == w.issued + {Issue(license, q, c.transaction, acc)}
            && w'.handlers == w.handlers - {id} && w'.released == w.released
            && w'.server == w.server.(licenses := w.server.licenses[c.requestId := license])
  {
  }

  /** A completion that settles its Quote gets a License, over all the Quote's Demands. */
  lemma CompleteRun(w: World, id: nat, c: Completion, now: nat) returns (steps: seq<Step>)
    requires Inv(w) && id !in w.handlers && c.requestId in w.server.quotes && w.server.quotes[c.requestId].quote == c.quote
    requires Settled(c, w.server.quotes[c.requestId], w.released) && c.requestId !in w.server.licenses
    ensures var w' := Run(w, steps);
            && c.requestId in w'.server.licenses && w'.server.licenses[c.requestId].issuedAt == now
            && (forall d :: d in w.server.quotes[c.requestId].demands ==>
                  d in w'.server.licenses[c.requestId].fulfilments
                  && FulfilledBy(w'.server.licenses[c.requestId].fulfilments[d], d, w.server.quotes[c.requestId].demands[d], c))
            && exists i :: i in w'.issued && i.license == w'.server.licenses[c.requestId]
  {
    var q := w.server.quotes[c.requestId];
    QuoteIsOk(w, c.requestId);
    var first := SettledCollects(w, id, c);
    var acc := CollectAll(q, c, ProofsOf(c), w.released).value;
    DecidesToIssue(Run(w, first), id, c, q, acc, now);
    LicenseIsFulfilled(c, q, w.released, now);
    steps := first + [Move(id, 0), Move(id, now)];
    RunSplits(w, first, [Move(id, 0), Move(id, now)]);
  }

  lemma SettledCollects(w: World, id: nat, c: Completion) returns (steps: seq<Step>)
    requires id !in w.handlers && c.requestId in w.server.quotes && w.server.quotes[c.requestId].quote == c.quote
    requires QuoteOk(w.server.quotes[c.requestId]) && Settled(c, w.server.quotes[c.requestId], w.released)
    ensures var q := w.server.quotes[c.requestId];
            var r := CollectAll(q, c, ProofsOf(c), w.released);
            && r.Some? && |r.value.receipts| + |r.value.authorized| == |q.demands|
            && (forall d :: d in q.demands ==> d in r.value.receipts || d in r.value.authorized)
            && Run(w, steps) == With(w, id, Completing(c, q, r.value, |c.authorizedOutputs|))
  {
    var q := w.server.quotes[c.requestId];
    SettledCovers(c, q, w.released);
    steps := CollectsAll(w, id, c);
  }

  lemma SettledCovers(c: Completion, q: QuoteRecord, released: Released)
    requires QuoteOk(q) && Settled(c, q, released)
    ensures var r := CollectAll(q, c, ProofsOf(c), released);
            && r.Some? && |r.value.receipts| + |r.value.authorized| == |q.demands|
            && forall d :: d in q.demands ==> d in r.value.receipts || d in r.value.authorized
  {
    SettledExactly(c, q, released);
    SizeCheckCovers(q, c.transaction, CollectAll(q, c, ProofsOf(c), released).value);
  }

  lemma CollectsAll(w: World, id: nat, c: Completion) returns (steps: seq<Step>)
    requires id !in w.handlers && c.requestId in w.server.quotes && w.server.quotes[c.requestId].quote == c.quote
    requires CollectAll(w.server.quotes[c.requestId], c, ProofsOf(c), w.released).Some?
    ensures var q := w.server.quotes[c.requestId];
            Run(w, steps) == With(w, id, Completing(c, q, CollectAll(q, c, ProofsOf(c), w.released).value, |c.authorizedOutputs|))
  {
    var q := w.server.quotes[c.requestId];
    var acc := CollectAll(q, c, ProofsOf(c)[..|c.receipts|], w.released);
    ReceiptsAreCollected(w, id, c);
    var w1 := With(w, id, Completing(c, q, acc.value, 0));
    var rest := CompletingRun(w1, id, c, q, acc.value, 0);
    steps := [BeginComplete(id, c)] + rest;
    FirstStep(w, BeginComplete(id, c), rest);
  }

  lemma QuoteIsOk(w: World, r: nat)
    requires DemandsOk(w) && r in w.server.quotes
    ensures QuoteOk(w.server.quotes[r])
  {
    var q := w.server.quotes[r];
    assert Filed(w.server, q.demands);
    forall d | d in q.demands ensures DemandOk(d, q.demands[d]) { assert DemandOk(d, w.server.demandIndex[d]); }
  }

  lemma ReceiptsAreCollected(w: World, id: nat, c: Completion)
    requires id !in w.handlers && c.requestId in w.server.quotes && w.server.quotes[c.requestId].quote == c.quote
    requires CollectAll(w.server.quotes[c.requestId], c, ProofsOf(c), w.released).Some?
    ensures var q := w.server.quotes[c.requestId];
            var r := CollectAll(q, c, ProofsOf(c)[..|c.receipts|], w.released);
            r.Some? && Next(w, BeginComplete(id, c)) == With(w, id, Completing(c, q, r.value, 0))
  {
    var q, ps := w.server.quotes[c.requestId], ProofsOf(c);
    assert ps[..|ps|] == ps;
    if CollectAll(q, c, ps[..|c.receipts|], w.released).None? { FailureStays(q, c, ps, w.released, |c.receipts|, |ps|); }
  }
}
