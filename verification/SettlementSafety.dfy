/** Every step of the settlement machine keeps its invariant. */
module SettlementSafety {
  import opened SettlementModel
  import opened SettlementServer
  import opened SettlementMachine

  // ------------------------------------------------------- what extension keeps

  lemma ExtendsKeepsProofs(s: Server, t: Server, q: QuoteRecord, tx: Transaction, acc: Collected)
    requires ProofsOk(s, q, tx, acc) && Extends(s, t)
    ensures ProofsOk(t, q, tx, acc)
  {
    forall d | d in acc.authorized ensures Retained(t, acc.authorized[d], tx) {
      assert Retained(s, acc.authorized[d], tx);
    }
  }

  lemma ExtendsKeepsHandler(s: Server, t: Server, h: Handler)
    requires HandlerOk(s, h) && Extends(s, t)
    ensures HandlerOk(t, h)
  {
    match h
    case Completing(c, q, acc, _) => ExtendsKeepsProofs(s, t, q, c.transaction, acc);
    case Issuing(c, q, acc) => ExtendsKeepsProofs(s, t, q, c.transaction, acc);
    case Quoting(_, _, _) =>
    case Storing(_, _, _) =>
    case Waiting(_, _, _, _) =>
    case Attesting(_, _, _) =>
    case SigningEvidence(_, _) =>
  }

  lemma ExtendsKeepsIssue(s: Server, t: Server, i: Issue)
    requires IssueOk(s, i) && Extends(s, t)
    ensures IssueOk(t, i)
  {
    ExtendsKeepsProofs(s, t, i.quote, i.transaction, i.collected);
  }

  // ------------------------------------------------------------ the claim table

  lemma ClaimKeepsClaims(s: Server, a: Authorization, d: Delivery, payee: Payee)
    requires ClaimsOk(s) && a.body.demandId in s.demandIndex && s.demandIndex[a.body.demandId].payee == payee
    ensures var t := ClaimDelivery(s, a, d, payee).server; ClaimsOk(t) && Extends(s, t)
  {
    var r := ClaimDelivery(s, a, d, payee);
    if r.reply.Wait? && r.reply.owner {
      NewClaimKeepsClaims(s, a, d, payee);
    } else {
      assert r.server == s;
    }
  }

  lemma NewClaimKeepsClaims(s: Server, a: Authorization, d: Delivery, payee: Payee)
    requires ClaimsOk(s) && a.body.demandId in s.demandIndex && s.demandIndex[a.body.demandId].payee == payee
    requires d.body.demandId == a.body.demandId && a.body !in s.storedDeliveries && a.body !in s.deliveryClaims
    ensures var t := s.(promises := s.promises + [Claim(a, d, payee, Unsigned)], deliveryClaims := s.deliveryClaims[a.body := |s.promises|]);
            ClaimsOk(t) && Extends(s, t)
  {
    var t := s.(promises := s.promises + [Claim(a, d, payee, Unsigned)], deliveryClaims := s.deliveryClaims[a.body := |s.promises|]);
    forall b | 0 <= b < |s.promises| && s.promises[b].authorization.body == a.body ensures s.promises[b].progress.Rejected? {
      assert ClaimOk(s, b);
    }
    forall c | 0 <= c < |t.promises| ensures ClaimOk(t, c) {
      if c < |s.promises| { OldClaimOk(s, t, c, a.body); }
    }
  }

  lemma OldClaimOk(s: Server, t: Server, c: nat, key: AuthorizationBody)
    requires c < |s.promises| < |t.promises| && ClaimOk(s, c) && s.promises == t.promises[..|s.promises|]
    requires t.demandIndex == s.demandIndex && t.storedDeliveries == s.storedDeliveries
    requires t.deliveryClaims == s.deliveryClaims[key := |s.promises|]
    requires s.promises[c].authorization.body == key ==> s.promises[c].progress.Rejected?
    ensures ClaimOk(t, c)
  {
  }

  lemma ProgressKeepsClaims(s: Server, c: nat, progress: Progress)
    requires ClaimsOk(s) && c < |s.promises| && s.promises[c].progress.Unsigned?
    requires progress == Rejected || (exists now :: progress == Signed(AcknowledgementOf(s.promises[c], now)))
    ensures var t := SetProgress(s, c, progress); ClaimsOk(t) && Extends(s, t)
  {
    var t := SetProgress(s, c, progress);
    assert ClaimOk(s, c);
    forall e | 0 <= e < |t.promises| ensures ClaimOk(t, e) {
      assert ClaimOk(s, e);
    }
  }

  lemma KeepKeepsClaims(s: Server, c: nat)
    requires ClaimsOk(s) && c < |s.promises| && s.promises[c].progress.Signed?
    ensures ClaimsOk(KeepDelivery(s, c)) && Extends(s, KeepDelivery(s, c))
  {
    var t := KeepDelivery(s, c);
    assert ClaimOk(s, c);
    forall e | 0 <= e < |t.promises| ensures ClaimOk(t, e) {
      KeepKeepsClaim(s, c, e);
    }
  }

  lemma KeepKeepsClaim(s: Server, c: nat, e: nat)
    requires ClaimsOk(s) && c < |s.promises| && s.promises[c].progress.Signed? && e < |s.promises|
    ensures ClaimOk(KeepDelivery(s, c), e)
  {
    assert ClaimOk(s, c) && ClaimOk(s, e);
  }

  lemma DropKeepsClaims(s: Server, c: nat)
    requires ClaimsOk(s) && c < |s.promises| && s.promises[c].progress.Rejected?
    ensures ClaimsOk(DropClaim(s, c)) && Extends(s, DropClaim(s, c))
  {
    DropKeepsKeys(s, c);
    DropExtends(s, c);
    forall e | 0 <= e < |s.promises| ensures ClaimOk(DropClaim(s, c), e) {
      DropKeepsClaim(s, c, e);
    }
  }

  lemma DropKeepsKeys(s: Server, c: nat)
    requires KeysOk(s) && c < |s.promises| && s.promises[c].progress.Rejected?
    ensures var t := DropClaim(s, c); t.promises == s.promises && KeysOk(t)
  {
  }

  lemma DropExtends(s: Server, c: nat)
    requires c < |s.promises|
    ensures Extends(s, DropClaim(s, c))
  {
  }

  lemma DropKeepsClaim(s: Server, c: nat, e: nat)
    requires ClaimsOk(s) && c < |s.promises| && s.promises[c].progress.Rejected? && e < |s.promises|
    ensures ClaimOk(DropClaim(s, c), e)
  {
    assert ClaimOk(s, e);
  }

  /** Steps that leave the claim table alone. */
  lemma OtherKeepsClaims(s: Server, t: Server)
    requires ClaimsOk(s) && Extends(s, t)
    requires t.promises == s.promises && t.deliveryClaims == s.deliveryClaims && t.storedDeliveries == s.storedDeliveries
    ensures ClaimsOk(t)
  {
    forall c | 0 <= c < |t.promises| ensures ClaimOk(t, c) {
      assert ClaimOk(s, c);
    }
  }

  // ------------------------------------------------------- from core to invariant

  lemma SameCore(w: World, w': World)
    requires CoreOk(w) && w'.server == w.server && w'.released == w.released && w'.nextDemand == w.nextDemand
    requires w'.answers == w.answers && w'.created == w.created
    ensures CoreOk(w')
  {
  }

  /** A step that changes one handler at most, and issues nothing. */
  lemma Assemble(w: World, w': World, id: nat)
    requires Inv(w) && CoreOk(w') && Extends(w.server, w'.server) && w'.issued == w.issued
    requires forall o :: o in w'.handlers && o != id ==> o in w.handlers && w'.handlers[o] == w.handlers[o]
    requires id in w'.handlers ==> HandlerOk(w'.server, w'.handlers[id]) || (id in w.handlers && w'.handlers[id] == w.handlers[id])
    ensures Inv(w')
  {
    forall o | o in w'.handlers ensures HandlerOk(w'.server, w'.handlers[o]) {
      if o in w.handlers && w'.handlers[o] == w.handlers[o] { ExtendsKeepsHandler(w.server, w'.server, w.handlers[o]); }
    }
    ExtendsKeepsIssues(w.server, w'.server, w.issued);
  }

  lemma ExtendsKeepsIssues(s: Server, t: Server, issued: set<Issue>)
    requires IssuesOk(s, issued) && Extends(s, t)
    ensures IssuesOk(t, issued)
  {
    forall i | i in issued ensures IssueOk(t, i) { ExtendsKeepsIssue(s, t, i); }
  }

  /** Acknowledgements stay accounted for while claims are only added and no reply is given. */
  lemma KeepsAcknowledgements(w: World, w': World)
    requires AcknowledgementsOk(w) && Extends(w.server, w'.server) && w.server.promises <= w'.server.promises
    requires forall c :: |w.server.promises| <= c < |w'.server.promises| ==> w'.server.promises[c].progress.Unsigned?
    requires w'.released.acknowledgements == w.released.acknowledgements && w'.answers == w.answers && w'.created == w.created
    ensures AcknowledgementsOk(w')
  {
  }

  /** Steps that leave the claim table alone. */
  lemma OtherKeepsCore(w: World, w': World)
    requires CoreOk(w) && Extends(w.server, w'.server) && DemandsOk(w') && EvidenceOk(w')
    requires w'.server.promises == w.server.promises && w'.server.deliveryClaims == w.server.deliveryClaims
    requires w'.server.storedDeliveries == w.server.storedDeliveries
    requires w'.released.acknowledgements == w.released.acknowledgements && w'.answers == w.answers && w'.created == w.created
    ensures CoreOk(w')
  {
    OtherKeepsClaims(w.server, w'.server);
    KeepsAcknowledgements(w, w');
  }

  /** Only one handler moves; nothing else changes. */
  lemma HandlerMoves(w: World, id: nat, h: Handler)
    requires Inv(w) && HandlerOk(w.server, h)
    ensures Inv(With(w, id, h)) && Inv(Without(w, id))
  {
    SameCore(w, With(w, id, h));
    HandlerEnds(w, id);
  }

  lemma HandlerEnds(w: World, id: nat)
    requires Inv(w)
    ensures Inv(Without(w, id))
  {
    SameCore(w, Without(w, id));
  }

  // ------------------------------------------------------------ signing a claim

  lemma SignKeeps(w: World, claim: nat, now: nat)
    requires Inv(w)
    ensures Inv(Sign(w, claim, now)) && Extends(w.server, Sign(w, claim, now).server)
  {
    var w' := Sign(w, claim, now);
    if w' != w {
      ProgressKeepsClaims(w.server, claim, Signed(AcknowledgementOf(w.server.promises[claim], now)));
      forall ack | ack in w'.created ensures Backed(w'.server, ack) {
        if ack in w.created { ProgressKeepsBacked(w.server, w'.server, claim, ack); }
        else { assert w'.server.promises[claim].progress.acknowledgement == ack; }
      }
      Assemble(w, w', 0);
    }
  }

  lemma ProgressKeepsBacked(s: Server, t: Server, claim: nat, ack: Acknowledgement)
    requires Backed(s, ack) && claim < |s.promises|
    requires |t.promises| == |s.promises| && forall c :: 0 <= c < |s.promises| && c != claim ==> t.promises[c] == s.promises[c]
    requires t.promises[claim].authorization == s.promises[claim].authorization
    requires HasAcknowledgement(s.promises[claim].progress) ==>
               HasAcknowledgement(t.promises[claim].progress)
               && t.promises[claim].progress.acknowledgement == s.promises[claim].progress.acknowledgement
    ensures Backed(t, ack)
  {
  }

  lemma FailKeeps(w: World, claim: nat)
    requires Inv(w)
    ensures Inv(Fail(w, claim)) && Extends(w.server, Fail(w, claim).server)
  {
    var w' := Fail(w, claim);
    if w' != w {
      ProgressKeepsClaims(w.server, claim, Rejected);
      FailureIsNotAcknowledged(w, claim);
      Assemble(w, w', 0);
    }
  }

  lemma FailureIsNotAcknowledged(w: World, claim: nat)
    requires CoreOk(w) && claim < |w.server.promises| && w.server.promises[claim].progress.Unsigned?
    ensures AcknowledgementsOk(Fail(w, claim))
  {
    var w' := Fail(w, claim);
    forall ack | ack in w'.created ensures Backed(w'.server, ack) { ProgressKeepsBacked(w.server, w'.server, claim, ack); }
  }

  lemma FinishKeeps(w: World, claim: nat)
    requires Inv(w)
    ensures Inv(Finish(w, claim)) && Extends(w.server, Finish(w, claim).server)
  {
    if claim < |w.server.promises| && w.server.promises[claim].progress.Signed? {
      FinishKeepsCore(w, claim);
      Assemble(w, Finish(w, claim), 0);
    } else {
      ExtendsItself(w.server);
    }
  }

  lemma FinishKeepsCore(w: World, claim: nat)
    requires CoreOk(w) && claim < |w.server.promises| && w.server.promises[claim].progress.Signed?
    ensures CoreOk(Finish(w, claim)) && Extends(w.server, Finish(w, claim).server)
  {
    KeepKeepsClaims(w.server, claim);
    KeptIsAcknowledged(w, claim);
  }

  lemma KeptIsAcknowledged(w: World, claim: nat)
    requires CoreOk(w) && claim < |w.server.promises| && w.server.promises[claim].progress.Signed?
    ensures AcknowledgementsOk(Finish(w, claim))
  {
    var w' := Finish(w, claim);
    assert ClaimOk(w.server, claim);
    forall ack | ack in w'.created ensures Backed(w'.server, ack) { ProgressKeepsBacked(w.server, w'.server, claim, ack); }
  }

  // ----------------------------------------------------- store, quote and attest

  lemma StoreKeeps(w: World, id: nat, a: Authorization, d: Delivery, runtime: Runtime)
    requires Inv(w) && id in w.handlers && w.handlers[id] == Storing(a, d, runtime)
    ensures Inv(AdvanceStore(w, id, a, d, runtime)) && Extends(w.server, AdvanceStore(w, id, a, d, runtime).server)
  {
    assert HandlerOk(w.server, w.handlers[id]);
    HandlerEnds(w, id);
    var claimed := ClaimDelivery(w.server, a, d, runtime.payee);
    match claimed.reply
    case Refused =>
    case Known(ack) => AnswerKeeps(Without(w, id), Answer(a, d, ack));
    case Wait(claim, owner) =>
      ClaimingKeeps(w, a, d, runtime.payee);
      ClaimedPair(w.server, a, d, runtime.payee);
      HandlerMoves(w.(server := claimed.server), id, Waiting(a, d, claim, owner));
  }

  /** Whoever waits for a claim sent the very pair that the claim holds. */
  lemma ClaimedPair(s: Server, a: Authorization, d: Delivery, payee: Payee)
    ensures var r := ClaimDelivery(s, a, d, payee);
            r.reply.Wait? ==> r.reply.claim < |r.server.promises| && SamePair(r.server.promises[r.reply.claim], a, d)
  {
  }

  lemma ClaimingKeeps(w: World, a: Authorization, d: Delivery, payee: Payee)
    requires Inv(w) && a.body.demandId in w.server.demandIndex && w.server.demandIndex[a.body.demandId].payee == payee
    ensures var t := ClaimDelivery(w.server, a, d, payee).server; Inv(w.(server := t)) && Extends(w.server, t)
  {
    ClaimKeepsClaims(w.server, a, d, payee);
    ClaimOnlyAdds(w.server, a, d, payee);
    AddedClaimsKeep(w, ClaimDelivery(w.server, a, d, payee).server);
  }

  /** `t` is `s` with more claims, all unsigned. */
  ghost predicate MoreClaims(s: Server, t: Server) {
    && s.promises <= t.promises && (forall c :: |s.promises| <= c < |t.promises| ==> t.promises[c].progress.Unsigned?)
    && t.quotes == s.quotes && t.demandIndex == s.demandIndex && t.storedDeliveries == s.storedDeliveries
    && t.acceptedTransactions == s.acceptedTransactions
  }

  lemma ClaimOnlyAdds(s: Server, a: Authorization, d: Delivery, payee: Payee)
    ensures MoreClaims(s, ClaimDelivery(s, a, d, payee).server)
  {
    var r := ClaimDelivery(s, a, d, payee);
    if r.reply.Wait? && r.reply.owner { AddingOnlyAdds(s, a, d, payee); } else { assert r.server == s; }
  }

  lemma AddingOnlyAdds(s: Server, a: Authorization, d: Delivery, payee: Payee)
    ensures MoreClaims(s, s.(promises := s.promises + [Claim(a, d, payee, Unsigned)],
                             deliveryClaims := s.deliveryClaims[a.body := |s.promises|]))
  {
  }

  lemma AddedClaimsKeep(w: World, t: Server)
    requires Inv(w) && ClaimsOk(t) && Extends(w.server, t) && MoreClaims(w.server, t)
    ensures Inv(w.(server := t))
  {
    var w' := w.(server := t);
    KeepsAcknowledgements(w, w');
    Assemble(w, w', 0);
  }

  lemma AnswerKeeps(w: World, a: Answer)
    requires Inv(w) && a.authorization.body in w.server.storedDeliveries
    requires var kept := w.server.storedDeliveries[a.authorization.body];
             kept.authorization == a.authorization && kept.delivery == a.delivery && kept.acknowledgement == a.acknowledgement
    ensures Inv(w.(answers := w.answers + {a}))
  {
    assert AcknowledgementsOk(w.(answers := w.answers + {a}));
  }

  lemma WaitKeeps(w: World, id: nat, a: Authorization, d: Delivery, claim: nat, owner: bool)
    requires Inv(w) && id in w.handlers && w.handlers[id] == Waiting(a, d, claim, owner)
    ensures var w' := AdvanceWait(w, id, a, d, claim, owner); Inv(w') && Extends(w.server, w'.server)
  {
    assert HandlerOk(w.server, w.handlers[id]);
    assert ClaimOk(w.server, claim);
    HandlerEnds(w, id);
    match w.server.promises[claim].progress
    case Resolved(ack) => AnswerKeeps(Without(w, id), Answer(a, d, ack));
    case Rejected => if owner { DropKeeps(w, id, claim); }
    case _ =>
  }

  lemma DropKeeps(w: World, id: nat, claim: nat)
    requires Inv(w) && claim < |w.server.promises| && w.server.promises[claim].progress.Rejected?
    ensures var w' := Without(w, id).(server := DropClaim(w.server, claim)); Inv(w') && Extends(w.server, w'.server)
  {
    var w' := Without(w, id).(server := DropClaim(w.server, claim));
    DropKeepsClaims(w.server, claim);
    KeepsAcknowledgements(w, w');
    Assemble(w, w', id);
  }

  lemma QuoteKeeps(w: World, id: nat, requestId: nat, made: map<nat, Runtime>, left: seq<Payee>, quote: nat)
    requires Inv(w) && id in w.handlers && w.handlers[id] == Quoting(requestId, made, left)
    ensures var w' := AdvanceQuote(w, id, requestId, made, left, quote); Inv(w') && Extends(w.server, w'.server)
  {
    if left == [] { QuoteFinishes(w, id, requestId, made, quote); } else { QuoteMakes(w, id, requestId, made, left, quote); }
  }

  lemma QuoteFinishes(w: World, id: nat, requestId: nat, made: map<nat, Runtime>, quote: nat)
    requires Inv(w) && id in w.handlers && w.handlers[id] == Quoting(requestId, made, [])
    ensures var w' := AdvanceQuote(w, id, requestId, made, [], quote); Inv(w') && Extends(w.server, w'.server)
  {
    var w' := AdvanceQuote(w, id, requestId, made, [], quote);
    assert HandlerOk(w.server, w.handlers[id]);
    OtherKeepsCore(w, w');
    Assemble(w, w', id);
  }

  lemma QuoteMakes(w: World, id: nat, requestId: nat, made: map<nat, Runtime>, left: seq<Payee>, quote: nat)
    requires Inv(w) && left != [] && id in w.handlers && w.handlers[id] == Quoting(requestId, made, left)
    ensures var w' := AdvanceQuote(w, id, requestId, made, left, quote); Inv(w') && Extends(w.server, w'.server)
  {
    var w' := AdvanceQuote(w, id, requestId, made, left, quote);
    assert HandlerOk(w.server, w.handlers[id]);
    OtherKeepsCore(w, w');
    Assemble(w, w', id);
  }

  lemma AttestKeeps(w: World, id: nat, a: Authorization, tx: Transaction, runtime: Runtime)
    requires Inv(w)
    ensures var w' := AdvanceAttest(w, id, a, tx, runtime); Inv(w') && Extends(w.server, w'.server)
  {
    if BindTransaction(w.server, a, tx, runtime.payee.satoshis).binding.ToSign? {
      BindingKeeps(w, id, a.body, tx);
    } else {
      HandlerEnds(w, id);
    }
  }

  lemma BindingKeeps(w: World, id: nat, key: AuthorizationBody, tx: Transaction)
    requires Inv(w) && (key in w.server.acceptedTransactions ==> w.server.acceptedTransactions[key] == tx)
    ensures var t := w.server.(acceptedTransactions := w.server.acceptedTransactions[key := tx]);
            Inv(With(w, id, SigningEvidence(key, tx)).(server := t)) && Extends(w.server, t)
  {
    var t := w.server.(acceptedTransactions := w.server.acceptedTransactions[key := tx]);
    AcceptingKeeps(w, key, tx);
    HandlerMoves(w.(server := t), id, SigningEvidence(key, tx));
    assert With(w, id, SigningEvidence(key, tx)).(server := t) == With(w.(server := t), id, SigningEvidence(key, tx));
  }

  lemma AcceptingKeeps(w: World, key: AuthorizationBody, tx: Transaction)
    requires Inv(w) && (key in w.server.acceptedTransactions ==> w.server.acceptedTransactions[key] == tx)
    ensures var t := w.server.(acceptedTransactions := w.server.acceptedTransactions[key := tx]);
            Inv(w.(server := t)) && Extends(w.server, t)
  {
    var w' := w.(server := w.server.(acceptedTransactions := w.server.acceptedTransactions[key := tx]));
    OtherKeepsCore(w, w');
    Assemble(w, w', 0);
  }

  lemma EvidenceKeeps(w: World, id: nat, key: AuthorizationBody, tx: Transaction, now: nat)
    requires Inv(w) && id in w.handlers && w.handlers[id] == SigningEvidence(key, tx)
    ensures var w' := AdvanceEvidence(w, id, key, tx, now); Inv(w') && Extends(w.server, w'.server)
  {
    var w' := AdvanceEvidence(w, id, key, tx, now);
    assert HandlerOk(w.server, w.handlers[id]);
    OtherKeepsCore(w, w');
    Assemble(w, w', id);
  }

  // -------------------------------------------------------------------- complete

  /** A bundle the library accepts is retained: its acknowledgement and evidence were released. */
  lemma ValidIsRetained(w: World, b: Bundle, runtime: Runtime, tx: Transaction)
    requires CoreOk(w) && ValidBundle(b, runtime.demand, tx, w.released)
    requires runtime.demand.id in w.server.demandIndex && w.server.demandIndex[runtime.demand.id] == runtime
    ensures Retained(w.server, b, tx)
  {
    var s, key := w.server, b.authorization.body;
    assert key in w.released.authorizations;
    assert b.acknowledgement in w.released.acknowledgements && b.evidence in w.released.evidences;
    assert ClaimOk(s, s.deliveryClaims[key]);
  }

  lemma CollectKeepsProofs(w: World, q: QuoteRecord, c: Completion, acc: Collected, p: Proof)
    requires CoreOk(w) && ProofsOk(w.server, q, c.transaction, acc)
    ensures var next := Collect(q, c, acc, p, w.released);
            next.Some? ==> ProofsOk(w.server, q, c.transaction, next.value)
  {
    CollectKeepsOk(q, c, acc, p, w.released);
    if p.ByOutput? && Collect(q, c, acc, p, w.released).Some? {
      ValidIsRetained(w, p.bundle, q.demands[DemandOf(p)], c.transaction);
    }
  }

  lemma StartCompleteKeeps(w: World, id: nat, c: Completion)
    requires Inv(w) && id !in w.handlers
    ensures var w' := StartComplete(w, id, c); Inv(w') && Extends(w.server, w'.server)
  {
    var w' := StartComplete(w, id, c);
    if w' != w {
      var q := w.server.quotes[c.requestId];
      assert Filed(w.server, q.demands);
      assert QuoteOk(q) by {
        forall d | d in q.demands ensures DemandOk(d, q.demands[d]) { assert DemandOk(d, w.server.demandIndex[d]); }
      }
      CollectAllIsOk(q, c, ProofsOf(c)[..|c.receipts|], w.released);
      ReceiptsCollectNoBundles(q, c, |c.receipts|, w.released);
      HandlerMoves(w, id, w'.handlers[id]);
    }
  }

  lemma CompleteKeeps(w: World, id: nat, c: Completion, q: QuoteRecord, acc: Collected, at: nat)
    requires Inv(w) && id in w.handlers && w.handlers[id] == Completing(c, q, acc, at)
    ensures var w' := AdvanceComplete(w, id, c, q, acc, at); Inv(w') && Extends(w.server, w'.server)
  {
    CompletingHasProofs(w.server, w.handlers, id);
    ExtendsItself(w.server);
    if at < |c.authorizedOutputs| { CollectingKeeps(w, id, c, q, acc, at); } else { DecidingKeeps(w, id, c, q, acc, at); }
  }

  lemma ExtendsItself(s: Server)
    ensures Extends(s, s)
  {
  }

  lemma DecidingKeeps(w: World, id: nat, c: Completion, q: QuoteRecord, acc: Collected, at: nat)
    requires Inv(w) && at >= |c.authorizedOutputs| && ProofsOk(w.server, q, c.transaction, acc)
    ensures var w' := AdvanceComplete(w, id, c, q, acc, at); Inv(w') && w'.server == w.server
  {
    ProofsHandlerMoves(w, id, c, q, acc, at);
    Decides(w, id, c, q, acc, at);
  }

  lemma Decides(w: World, id: nat, c: Completion, q: QuoteRecord, acc: Collected, at: nat)
    requires at >= |c.authorizedOutputs|
    ensures var w' := AdvanceComplete(w, id, c, q, acc, at);
            w' == Without(w, id)
            || (|acc.receipts| + |acc.authorized| == |q.demands| && w' == With(w, id, Issuing(c, q, acc)))
  {
  }

  lemma CollectingKeeps(w: World, id: nat, c: Completion, q: QuoteRecord, acc: Collected, at: nat)
    requires Inv(w) && at < |c.authorizedOutputs| && ProofsOk(w.server, q, c.transaction, acc)
    ensures var w' := AdvanceComplete(w, id, c, q, acc, at); Inv(w') && w'.server == w.server
  {
    var p := ByOutput(c.authorizedOutputs[at]);
    var next := Collect(q, c, acc, p, w.released);
    CollectKeepsProofs(w, q, c, acc, p);
    if next.Some? { ProofsHandlerMoves(w, id, c, q, next.value, at + 1); } else { HandlerEnds(w, id); }
    assert AdvanceComplete(w, id, c, q, acc, at)
        == if next.None? then Without(w, id) else With(w, id, Completing(c, q, next.value, at + 1));
  }

  lemma CompletingHasProofs(s: Server, handlers: map<nat, Handler>, id: nat)
    requires HandlersOk(s, handlers) && id in handlers
    ensures var h := handlers[id];
            && (h.Completing? || h.Issuing? ==> ProofsOk(s, h.quote, h.completion.transaction, h.collected))
            && (h.Issuing? ==> |h.collected.receipts| + |h.collected.authorized| == |h.quote.demands|)
  {
    assert HandlerOk(s, handlers[id]);
  }

  lemma ProofsHandlerMoves(w: World, id: nat, c: Completion, q: QuoteRecord, acc: Collected, at: nat)
    requires Inv(w) && ProofsOk(w.server, q, c.transaction, acc)
    ensures Inv(With(w, id, Completing(c, q, acc, at))) && Inv(Without(w, id))
    ensures |acc.receipts| + |acc.authorized| == |q.demands| ==> Inv(With(w, id, Issuing(c, q, acc)))
  {
    HandlerMoves(w, id, Completing(c, q, acc, at));
    if |acc.receipts| + |acc.authorized| == |q.demands| { HandlerMoves(w, id, Issuing(c, q, acc)); }
  }

  lemma IssueKeeps(w: World, id: nat, c: Completion, q: QuoteRecord, acc: Collected, now: nat)
    requires Inv(w) && id in w.handlers && w.handlers[id] == Issuing(c, q, acc)
    ensures var w' := AdvanceIssue(w, id, c, q, acc, now); Inv(w') && Extends(w.server, w'.server)
  {
    CompletingHasProofs(w.server, w.handlers, id);
    HandlerEnds(w, id);
    ProofsIssue(w.server, c, q, acc, now);
    var license := LicenseOf(c.requestId, now, q, acc);
    LicenseKeeps(Without(w, id), c.requestId, license, Issue(license, q, c.transaction, acc));
    assert AdvanceIssue(w, id, c, q, acc, now)
        == Without(w, id).(server := w.server.(licenses := w.server.licenses[c.requestId := license]),
                           issued := w.issued + {Issue(license, q, c.transaction, acc)});
  }

  lemma ProofsIssue(s: Server, c: Completion, q: QuoteRecord, acc: Collected, now: nat)
    requires ProofsOk(s, q, c.transaction, acc) && |acc.receipts| + |acc.authorized| == |q.demands|
    ensures forall d :: d in q.demands ==> d in acc.receipts || d in acc.authorized
    ensures IssueOk(s, Issue(LicenseOf(c.requestId, now, q, acc), q, c.transaction, acc))
  {
    EveryDemandProved(q, c.transaction, acc);
    LicenseIsOk(c.requestId, now, q, acc);
  }

  lemma LicenseIsOk(requestId: nat, now: nat, q: QuoteRecord, acc: Collected)
    requires forall d :: d in q.demands ==> d in acc.receipts || d in acc.authorized
    ensures var fulfilments := LicenseOf(requestId, now, q, acc).fulfilments;
            fulfilments.Keys == q.demands.Keys && forall d :: d in q.demands ==> fulfilments[d] == Fulfil(acc, d)
  {
  }

  lemma LicenseKeeps(w: World, requestId: nat, license: License, i: Issue)
    requires Inv(w) && IssueOk(w.server, i)
    ensures var w' := w.(server := w.server.(licenses := w.server.licenses[requestId := license]), issued := w.issued + {i});
            Inv(w') && Extends(w.server, w'.server)
  {
    IssuedKeeps(w, i);
    LicensedKeeps(w.(issued := w.issued + {i}), w.server.licenses[requestId := license]);
  }

  lemma LicensedKeeps(w: World, licenses: map<nat, License>)
    requires Inv(w)
    ensures var t := w.server.(licenses := licenses); Inv(w.(server := t)) && Extends(w.server, t)
  {
    var w' := w.(server := w.server.(licenses := licenses));
    OtherKeepsCore(w, w');
    Assemble(w, w', 0);
  }

  lemma OneMoreIssue(s: Server, issued: set<Issue>, i: Issue)
    requires IssuesOk(s, issued) && IssueOk(s, i)
    ensures IssuesOk(s, issued + {i})
  {
  }

  lemma IssuedKeeps(w: World, i: Issue)
    requires Inv(w) && IssueOk(w.server, i)
    ensures Inv(w.(issued := w.issued + {i}))
  {
    SameCore(w, w.(issued := w.issued + {i}));
    OneMoreIssue(w.server, w.issued, i);
  }

  // ------------------------------------------------------------------ every step

  lemma MoveKeeps(w: World, id: nat, now: nat)
    requires Inv(w) && id in w.handlers
    ensures var w' := Advance(w, id, w.handlers[id], now); Inv(w') && Extends(w.server, w'.server)
  {
    match w.handlers[id]
    case Quoting(requestId, made, left) => QuoteKeeps(w, id, requestId, made, left, now);
    case Storing(a, d, runtime) => StoreKeeps(w, id, a, d, runtime);
    case Waiting(a, d, claim, owner) => WaitKeeps(w, id, a, d, claim, owner);
    case Attesting(a, tx, runtime) => AttestKeeps(w, id, a, tx, runtime);
    case SigningEvidence(key, tx) => EvidenceKeeps(w, id, key, tx, now);
    case Completing(c, q, acc, at) => CompleteKeeps(w, id, c, q, acc, at);
    case Issuing(c, q, acc) => IssueKeeps(w, id, c, q, acc, now);
  }

  lemma AuthorizeKeeps(w: World, body: AuthorizationBody)
    requires Inv(w)
    ensures Inv(AuthorizeFor(w, body)) && AuthorizeFor(w, body).server == w.server
  {
    assert CoreOk(AuthorizeFor(w, body));
  }

  lemma BeginKeeps(w: World, step: Step)
    requires Inv(w) && (step.BeginQuote? || step.BeginStore? || step.BeginAttest?)
    ensures Inv(Next(w, step)) && Next(w, step).server == w.server
  {
    var w' := Next(w, step);
    if w' != w { HandlerMoves(w, step.id, w'.handlers[step.id]); }
  }

  lemma NextKeepsInv(w: World, step: Step)
    requires Inv(w)
    ensures Inv(Next(w, step)) && Extends(w.server, Next(w, step).server)
  {
    if step.SignAcknowledgement? || step.FailSigning? || step.FinishAcknowledgement? { ClaimStepKeeps(w, step); }
    else if step.Authorize? || step.Abandon? { OtherStepKeeps(w, step); }
    else { HandlerStepKeeps(w, step); }
  }

  lemma ClaimStepKeeps(w: World, step: Step)
    requires Inv(w) && (step.SignAcknowledgement? || step.FailSigning? || step.FinishAcknowledgement?)
    ensures Inv(Next(w, step)) && Extends(w.server, Next(w, step).server)
  {
    ClaimSteps(w, step);
    match step
    case SignAcknowledgement(claim, now) => SignKeeps(w, claim, now);
    case FailSigning(claim) => FailKeeps(w, claim);
    case FinishAcknowledgement(claim) => FinishKeeps(w, claim);
  }

  lemma ClaimSteps(w: World, step: Step)
    ensures step.SignAcknowledgement? ==> Next(w, step) == Sign(w, step.claim, step.now)
    ensures step.FailSigning? ==> Next(w, step) == Fail(w, step.claim)
    ensures step.FinishAcknowledgement? ==> Next(w, step) == Finish(w, step.claim)
  {
  }

  lemma OtherStepKeeps(w: World, step: Step)
    requires Inv(w) && (step.Authorize? || step.Abandon?)
    ensures Inv(Next(w, step)) && Extends(w.server, Next(w, step).server)
  {
    match step
    case Abandon(id) => HandlerEnds(w, id);
    case Authorize(body) => AuthorizeKeeps(w, body);
  }

  lemma HandlerStepKeeps(w: World, step: Step)
    requires Inv(w) && (step.Move? || step.BeginComplete? || step.BeginQuote? || step.BeginStore? || step.BeginAttest?)
    ensures Inv(Next(w, step)) && Extends(w.server, Next(w, step).server)
  {
    match step
    case BeginComplete(id, c) => if id !in w.handlers { StartCompleteKeeps(w, id, c); }
    case Move(id, now) => if id in w.handlers { MoveKeeps(w, id, now); }
    case BeginQuote(_, _) => BeginKeeps(w, step);
    case BeginStore(_, _, _) => BeginKeeps(w, step);
    case BeginAttest(_, _, _) => BeginKeeps(w, step);
  }

  lemma {:induction false} RunKeepsInv(w: World, steps: seq<Step>)
    requires Inv(w)
    ensures Inv(Run(w, steps)) && Extends(w.server, Run(w, steps).server)
    decreases |steps|
  {
    if steps != [] {
      NextKeepsInv(w, steps[0]);
      RunKeepsInv(Next(w, steps[0]), steps[1..]);
    }
  }
}
