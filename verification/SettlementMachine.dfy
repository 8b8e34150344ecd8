/**
  The issuer with any number of handlers in flight. Each handler runs from one
  await to the next; signers may fail, handlers may be abandoned anywhere, and
  requests may be repeated, overlapped or made up by anyone. What limits a caller
  is only that it cannot forge signatures of the issuer or of a Payee.
*/
module SettlementMachine {
  import opened SettlementModel
  import opened SettlementServer

  datatype Handler =
    | Quoting(requestId: nat, made: map<nat, Runtime>, left: seq<Payee>)
    | Storing(authorization: Authorization, delivery: Delivery, runtime: Runtime)
    | Waiting(authorization: Authorization, delivery: Delivery, claim: nat, owner: bool)
    | Attesting(authorization: Authorization, transaction: Transaction, runtime: Runtime)
    | SigningEvidence(key: AuthorizationBody, transaction: Transaction)
    | Completing(completion: Completion, quote: QuoteRecord, collected: Collected, at: nat)
    | Issuing(completion: Completion, quote: QuoteRecord, collected: Collected)

  datatype Answer = Answer(authorization: Authorization, delivery: Delivery, acknowledgement: Acknowledgement)

  datatype Issue = Issue(license: License, quote: QuoteRecord, transaction: Transaction, collected: Collected)

  /** `answers`, `created` and `issued` are the history: store replies, acknowledgements signed, Licenses issued. */
  datatype World = World(
    server: Server, payees: seq<Payee>, released: Released, handlers: map<nat, Handler>, nextDemand: nat,
    answers: set<Answer>, created: set<Acknowledgement>, issued: set<Issue>)

  datatype Step =
    | Authorize(body: AuthorizationBody)
    | BeginQuote(id: nat, requestId: nat)
    | BeginStore(id: nat, authorization: Authorization, delivery: Delivery)
    | BeginAttest(id: nat, authorization: Authorization, transaction: Transaction)
    | BeginComplete(id: nat, completion: Completion)
    | SignAcknowledgement(claim: nat, now: nat)
    | FailSigning(claim: nat)
    | FinishAcknowledgement(claim: nat)
    | Move(id: nat, now: nat)
    | Abandon(id: nat)

  function Installed(payees: seq<Payee>): World {
    World(FRESH, payees, Released({}, {}, {}), map[], 0, {}, {}, {})
  }

  function With(w: World, id: nat, h: Handler): World { w.(handlers := w.handlers[id := h]) }

  function Without(w: World, id: nat): World { w.(handlers := w.handlers - {id}) }

  function DemandFor(requestId: nat, payee: Payee, id: nat): Runtime {
    Runtime(Demand(id, requestId, payee.identity, payee.satoshis, payee.dutyUid, payee.authorizedOutput), payee)
  }

  // -------------------------------------------------------------- the steps

  predicate Authorizes(body: AuthorizationBody, demand: Demand) {
    && body.evidenceProvider == ISSUER && body.deliveryProvider == ISSUER
    && demand.authorizedOutput
    && body.requestId == demand.requestId && body.payee == demand.payee && body.satoshis == demand.satoshis
  }

  /** A Payee signs an authorization for a known Demand, naming this issuer as both providers. */
  function AuthorizeFor(w: World, body: AuthorizationBody): World {
    if body.demandId in w.server.demandIndex && Authorizes(body, w.server.demandIndex[body.demandId].demand)
    then w.(released := w.released.(authorizations := w.released.authorizations + {body})) else w
  }

  /** A store or attest request passes validation for a known Demand. */
  predicate Accepts(w: World, a: Authorization) {
    a.body.demandId in w.server.demandIndex
    && ValidAuthorization(a, w.server.demandIndex[a.body.demandId].demand, w.released)
  }

  function StartComplete(w: World, id: nat, c: Completion): World {
    if c.requestId !in w.server.quotes || w.server.quotes[c.requestId].quote != c.quote then w
    else
      var q := w.server.quotes[c.requestId];
      var receipts := CollectAll(q, c, ProofsOf(c)[..|c.receipts|], w.released);
      if receipts.None? then w else With(w, id, Completing(c, q, receipts.value, 0))
  }

  function Sign(w: World, claim: nat, now: nat): World {
    if claim < |w.server.promises| && w.server.promises[claim].progress.Unsigned? then
      var ack := AcknowledgementOf(w.server.promises[claim], now);
      w.(server := SetProgress(w.server, claim, Signed(ack)), created := w.created + {ack})
    else w
  }

  function Fail(w: World, claim: nat): World {
    if claim < |w.server.promises| && w.server.promises[claim].progress.Unsigned?
    then w.(server := SetProgress(w.server, claim, Rejected)) else w
  }

  function Finish(w: World, claim: nat): World {
    if claim < |w.server.promises| && w.server.promises[claim].progress.Signed? then
      var ack := w.server.promises[claim].progress.acknowledgement;
      w.(server := KeepDelivery(w.server, claim),
         released := w.released.(acknowledgements := w.released.acknowledgements + {ack}))
    else w
  }

  function AdvanceQuote(w: World, id: nat, requestId: nat, made: map<nat, Runtime>, left: seq<Payee>, quote: nat): World {
    if left == [] then
      Without(w, id).(server := w.server.(quotes := w.server.quotes[requestId := QuoteRecord(quote, made)]))
    else
      var runtime := DemandFor(requestId, left[0], w.nextDemand);
      With(w, id, Quoting(requestId, made[w.nextDemand := runtime], left[1..])).(
        server := w.server.(demandIndex := w.server.demandIndex[w.nextDemand := runtime]), nextDemand := w.nextDemand + 1)
  }

  function AdvanceStore(w: World, id: nat, a: Authorization, d: Delivery, runtime: Runtime): World {
    var claimed := ClaimDelivery(w.server, a, d, runtime.payee);
    match claimed.reply
    case Refused => Without(w, id)
    case Known(ack) => Without(w, id).(answers := w.answers + {Answer(a, d, ack)})
    case Wait(claim, owner) => With(w, id, Waiting(a, d, claim, owner)).(server := claimed.server)
  }

  /** The caller that sent `a` and `d` gets whatever the claim it waits for resolves to. */
  function AdvanceWait(w: World, id: nat, a: Authorization, d: Delivery, claim: nat, owner: bool): World {
    if claim >= |w.server.promises| then Without(w, id) else
    match w.server.promises[claim].progress
    case Resolved(ack) => Without(w, id).(answers := w.answers + {Answer(a, d, ack)})
    case Rejected => Without(w, id).(server := if owner then DropClaim(w.server, claim) else w.server)
    case _ => w
  }

  function AdvanceAttest(w: World, id: nat, a: Authorization, tx: Transaction, runtime: Runtime): World {
    var bound := BindTransaction(w.server, a, tx, runtime.payee.satoshis);
    if bound.binding.ToSign? then With(w, id, SigningEvidence(a.body, tx)).(server := bound.server) else Without(w, id)
  }

  function AdvanceEvidence(w: World, id: nat, key: AuthorizationBody, tx: Transaction, now: nat): World {
    var e := Evidence(key, tx, ISSUER, now);
    Without(w, id).(server := KeepEvidence(w.server, e), released := w.released.(evidences := w.released.evidences + {e}))
  }

  function AdvanceComplete(w: World, id: nat, c: Completion, q: QuoteRecord, acc: Collected, at: nat): World {
    if at < |c.authorizedOutputs| then
      var next := Collect(q, c, acc, ByOutput(c.authorizedOutputs[at]), w.released);
      if next.None? then Without(w, id) else With(w, id, Completing(c, q, next.value, at + 1))
    else if VerdictOn(w.server, c.requestId, q, acc).ToIssue? then With(w, id, Issuing(c, q, acc))
    else Without(w, id)
  }

  function AdvanceIssue(w: World, id: nat, c: Completion, q: QuoteRecord, acc: Collected, now: nat): World {
    if exists d :: d in q.demands && d !in acc.receipts && d !in acc.authorized then Without(w, id) else
    var license := LicenseOf(c.requestId, now, q, acc);
    Without(w, id).(server := w.server.(licenses := w.server.licenses[c.requestId := license]),
                    issued := w.issued + {Issue(license, q, c.transaction, acc)})
  }

  function Advance(w: World, id: nat, h: Handler, now: nat): World {
    match h
    case Quoting(requestId, made, left) => AdvanceQuote(w, id, requestId, made, left, now)
    case Storing(a, d, runtime) => AdvanceStore(w, id, a, d, runtime)
    case Waiting(a, d, claim, owner) => AdvanceWait(w, id, a, d, claim, owner)
    case Attesting(a, tx, runtime) => AdvanceAttest(w, id, a, tx, runtime)
    case SigningEvidence(key, tx) => AdvanceEvidence(w, id, key, tx, now)
    case Completing(c, q, acc, at) => AdvanceComplete(w, id, c, q, acc, at)
    case Issuing(c, q, acc) => AdvanceIssue(w, id, c, q, acc, now)
  }

  function Next(w: World, step: Step): World {
    match step
    case Authorize(body) => AuthorizeFor(w, body)
    case BeginQuote(id, requestId) =>
      if id in w.handlers || requestId in w.server.quotes then w else With(w, id, Quoting(requestId, map[], w.payees))
    case BeginStore(id, a, d) =>
      if id in w.handlers || !Accepts(w, a) then w
      else With(w, id, Storing(a, d, w.server.demandIndex[a.body.demandId]))
    case BeginAttest(id, a, tx) =>
      if id in w.handlers || !Accepts(w, a) then w
      else With(w, id, Attesting(a, tx, w.server.demandIndex[a.body.demandId]))
    case BeginComplete(id, c) => if id in w.handlers then w else StartComplete(w, id, c)
    case SignAcknowledgement(claim, now) => Sign(w, claim, now)
    case FailSigning(claim) => Fail(w, claim)
    case FinishAcknowledgement(claim) => Finish(w, claim)
    case Move(id, now) => if id in w.handlers then Advance(w, id, w.handlers[id], now) else w
    case Abandon(id) => Without(w, id)
  }

  function Run(w: World, steps: seq<Step>): World
    decreases |steps|
  {
    if steps == [] then w else Run(Next(w, steps[0]), steps[1..])
  }

  lemma OneStep(w: World, step: Step)
    ensures Run(w, [step]) == Next(w, step)
  {
    assert Run(Next(w, step), []) == Next(w, step);
    assert [step][1..] == [];
  }

  lemma {:induction false} RunSplits(w: World, s: seq<Step>, t: seq<Step>)
    ensures Run(w, s + t) == Run(Run(w, s), t)
    decreases |s|
  {
    if s == [] {
      assert s + t == t;
    } else {
      RunSplits(Next(w, s[0]), s[1..], t);
      assert (s + t)[0] == s[0] && (s + t)[1..] == s[1..] + t;
    }
  }

  // ------------------------------------------------------------ the invariant

  ghost predicate Filed(s: Server, demands: map<nat, Runtime>) {
    forall d :: d in demands ==> d in s.demandIndex && s.demandIndex[d] == demands[d]
  }

  ghost predicate DemandsOk(w: World) {
    && (forall d :: d in w.server.demandIndex ==> d < w.nextDemand && DemandOk(d, w.server.demandIndex[d]))
    && (forall r :: r in w.server.quotes ==> Filed(w.server, w.server.quotes[r].demands))
  }

  predicate DemandOk(d: nat, r: Runtime) {
    r.demand.id == d && r.demand.payee == r.payee.identity && r.demand.satoshis == r.payee.satoshis
  }

  predicate HasAcknowledgement(p: Progress) { p.Signed? || p.Resolved? }

  /** One claim: well formed, in force unless rejected, kept once resolved. */
  ghost predicate ClaimOk(s: Server, c: nat)
    requires c < |s.promises|
  {
    var claim := s.promises[c];
    var key := claim.authorization.body;
    && claim.delivery.body.demandId == key.demandId
    && key.demandId in s.demandIndex && s.demandIndex[key.demandId].payee == claim.payee
    && (!claim.progress.Rejected? ==> key in s.deliveryClaims && s.deliveryClaims[key] == c)
    && (HasAcknowledgement(claim.progress) ==>
          claim.progress.acknowledgement.authorization == key && claim.progress.acknowledgement.delivery == claim.delivery.body)
    && (claim.progress.Resolved? ==>
          key in s.storedDeliveries
          && s.storedDeliveries[key] == Stored(claim.authorization, claim.delivery, claim.progress.acknowledgement, claim.payee))
    && forall b :: 0 <= b < c && s.promises[b].authorization.body == key ==> s.promises[b].progress.Rejected?
  }

  ghost predicate ClaimsOk(s: Server) {
    (forall c :: 0 <= c < |s.promises| ==> ClaimOk(s, c)) && KeysOk(s)
  }

  /** Every entry in force is a claim for its own authorization, and every kept delivery has one, resolved. */
  ghost predicate KeysOk(s: Server) {
    && (forall key :: key in s.deliveryClaims ==>
          s.deliveryClaims[key] < |s.promises| && s.promises[s.deliveryClaims[key]].authorization.body == key)
    && (forall key :: key in s.storedDeliveries ==>
          key in s.deliveryClaims && s.promises[s.deliveryClaims[key]].progress == Resolved(s.storedDeliveries[key].acknowledgement))
  }

  ghost predicate AcknowledgementsOk(w: World) {
    && (forall ack :: ack in w.released.acknowledgements ==>
          ack.authorization in w.server.storedDeliveries
          && w.server.storedDeliveries[ack.authorization].acknowledgement == ack)
    && (forall a :: a in w.answers ==>
          a.authorization.body in w.server.storedDeliveries
          && var kept := w.server.storedDeliveries[a.authorization.body];
             kept.authorization == a.authorization && kept.delivery == a.delivery && kept.acknowledgement == a.acknowledgement)
    && (forall ack :: ack in w.created ==> Backed(w.server, ack))
    && (forall c :: 0 <= c < |w.server.promises| && HasAcknowledgement(w.server.promises[c].progress)
          ==> w.server.promises[c].progress.acknowledgement in w.created)
  }

  ghost predicate Backed(s: Server, ack: Acknowledgement) {
    exists c :: 0 <= c < |s.promises| && s.promises[c].authorization.body == ack.authorization
                && HasAcknowledgement(s.promises[c].progress) && s.promises[c].progress.acknowledgement == ack
  }

  ghost predicate EvidenceOk(w: World) {
    && (forall e :: e in w.released.evidences ==>
          e.authorization in w.server.acceptedTransactions && w.server.acceptedTransactions[e.authorization] == e.transaction)
    && (forall a :: a in w.released.authorizations ==> a.evidenceProvider == ISSUER && a.deliveryProvider == ISSUER)
  }

  /** The delivery of a bundle is kept for its Payee and its authorization is bound to the transaction. */
  ghost predicate Retained(s: Server, b: Bundle, tx: Transaction) {
    var key := b.authorization.body;
    && key in s.storedDeliveries
    && s.storedDeliveries[key].authorization.body == key
    && s.storedDeliveries[key].delivery.body == b.delivery.body
    && s.storedDeliveries[key].acknowledgement == b.acknowledgement
    && key.demandId in s.demandIndex
    && s.demandIndex[key.demandId].payee == s.storedDeliveries[key].payee
    && s.demandIndex[key.demandId].payee.identity == key.payee
    && key in s.acceptedTransactions && s.acceptedTransactions[key] == tx
  }

  ghost predicate ProofsOk(s: Server, q: QuoteRecord, tx: Transaction, acc: Collected) {
    && Filed(s, q.demands) && QuoteOk(q) && CollectedOk(q, tx, acc)
    && forall d :: d in acc.authorized ==> Retained(s, acc.authorized[d], tx)
  }

  predicate SamePair(c: Claim, a: Authorization, d: Delivery) { c.authorization == a && c.delivery == d }

  ghost predicate HandlerOk(s: Server, h: Handler) {
    match h
    case Quoting(_, made, _) => Filed(s, made)
    case Storing(a, _, runtime) => a.body.demandId in s.demandIndex && s.demandIndex[a.body.demandId] == runtime
    case Waiting(a, d, claim, _) => claim < |s.promises| && SamePair(s.promises[claim], a, d)
    case Attesting(_, _, _) => true
    case SigningEvidence(key, tx) => key in s.acceptedTransactions && s.acceptedTransactions[key] == tx
    case Completing(c, q, acc, _) => ProofsOk(s, q, c.transaction, acc)
    case Issuing(c, q, acc) =>
      ProofsOk(s, q, c.transaction, acc) && |acc.receipts| + |acc.authorized| == |q.demands|
  }

  /** A License over exactly the Quote's Demands, each fulfilled by what was collected for it. */
  ghost predicate IssueOk(s: Server, i: Issue) {
    && ProofsOk(s, i.quote, i.transaction, i.collected)
    && |i.collected.receipts| + |i.collected.authorized| == |i.quote.demands|
    && i.license.fulfilments.Keys == i.quote.demands.Keys
    && forall d :: d in i.quote.demands ==>
         && (d in i.collected.receipts || d in i.collected.authorized)
         && i.license.fulfilments[d] == Fulfil(i.collected, d)
  }

  /** The part of the invariant that does not speak about handlers and issues. */
  ghost predicate CoreOk(w: World) {
    DemandsOk(w) && ClaimsOk(w.server) && AcknowledgementsOk(w) && EvidenceOk(w)
  }

  ghost predicate HandlersOk(s: Server, handlers: map<nat, Handler>) {
    forall id :: id in handlers ==> HandlerOk(s, handlers[id])
  }

  ghost predicate IssuesOk(s: Server, issued: set<Issue>) { forall i :: i in issued ==> IssueOk(s, i) }

  ghost predicate Inv(w: World) {
    && CoreOk(w)
    && HandlersOk(w.server, w.handlers)
    && IssuesOk(w.server, w.issued)
  }

  /** What never changes once it is there. */
  ghost predicate Extends(s: Server, t: Server) {
    && (forall d :: d in s.demandIndex ==> d in t.demandIndex && t.demandIndex[d] == s.demandIndex[d])
    && (forall k :: k in s.storedDeliveries ==> k in t.storedDeliveries && t.storedDeliveries[k] == s.storedDeliveries[k])
    && (forall k :: k in s.acceptedTransactions ==> k in t.acceptedTransactions && t.acceptedTransactions[k] == s.acceptedTransactions[k])
    && PairsStay(s.promises, t.promises)
  }

  /** Claims may be added and may progress, but each keeps its pair. */
  ghost predicate PairsStay(was: seq<Claim>, now: seq<Claim>) {
    && |was| <= |now|
    && forall c :: 0 <= c < |was| ==> SamePair(now[c], was[c].authorization, was[c].delivery)
  }
}
