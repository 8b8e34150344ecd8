/**
  Nothing is kept, bound or attested without the Payee: every authorization that the
  issuer acts on was signed by its Demand's own Payee, for the Demand's own amount.
*/
module SettlementAuthority {
  import opened SettlementModel
  import opened SettlementServer
  import opened SettlementMachine
  import Safety = SettlementSafety

  /** The Demand's own Payee has signed it, for the Demand's request and amount. */
  ghost predicate Signed(demands: map<nat, Runtime>, authorizations: set<AuthorizationBody>, key: AuthorizationBody) {
    && key in authorizations && key.demandId in demands
    && demands[key.demandId].payee.identity == key.payee && demands[key.demandId].payee.satoshis == key.satoshis
    && demands[key.demandId].demand.requestId == key.requestId && demands[key.demandId].demand.authorizedOutput
  }

  /** The authorization a handler works on, if it works on one. */
  function KeyOf(h: Handler): set<AuthorizationBody> {
    match h
    case Storing(a, _, _) => {a.body}
    case Waiting(a, _, _, _) => {a.body}
    case Attesting(a, _, _) => {a.body}
    case SigningEvidence(key, _) => {key}
    case _ => {}
  }

  ghost predicate ClaimsSigned(w: World, promises: seq<Claim>) {
    forall c :: 0 <= c < |promises| ==> promises[c].authorization.body in w.released.authorizations
  }

  ghost predicate HandlersSigned(w: World, handlers: map<nat, Handler>) {
    forall id :: id in handlers ==> KeyOf(handlers[id]) <= w.released.authorizations
  }

  /** The authorizations the issuer has acted on. */
  function Acted(s: Server, evidences: set<Evidence>): set<AuthorizationBody> {
    s.storedDeliveries.Keys + s.acceptedTransactions.Keys + s.transactionEvidence.Keys + set e | e in evidences :: e.authorization
  }

  ghost predicate AllSigned(demands: map<nat, Runtime>, authorizations: set<AuthorizationBody>) {
    forall key :: key in authorizations ==> Signed(demands, authorizations, key)
  }

  ghost predicate Authority(w: World) {
    && AllSigned(w.server.demandIndex, w.released.authorizations)
    && ClaimsSigned(w, w.server.promises) && HandlersSigned(w, w.handlers)
    && Acted(w.server, w.released.evidences) <= w.released.authorizations
  }

  /** What a request for an authorization that nobody signed meets: nothing is begun. */
  lemma RequestsAreChecked(w: World, id: nat, a: Authorization, d: Delivery, tx: Transaction)
    requires Inv(w) && Authority(w) && id !in w.handlers
    ensures var taken := Signed(w.server.demandIndex, w.released.authorizations, a.body);
            && (Next(w, BeginStore(id, a, d)) != w <==> taken) && (Next(w, BeginAttest(id, a, tx)) != w <==> taken)
  {
    if Signed(w.server.demandIndex, w.released.authorizations, a.body) {
      assert DemandOk(a.body.demandId, w.server.demandIndex[a.body.demandId]);
      assert id in Next(w, BeginStore(id, a, d)).handlers && id in Next(w, BeginAttest(id, a, tx)).handlers;
    }
  }

  // --------------------------------------------------------- what steps keep

  lemma Assemble(w: World, w': World)
    requires Authority(w) && Extends(w.server, w'.server) && w'.released.authorizations == w.released.authorizations
    requires ClaimsSigned(w', w'.server.promises) && HandlersSigned(w', w'.handlers)
    requires Acted(w'.server, w'.released.evidences) <= w'.released.authorizations
    ensures Authority(w')
  {
    forall key | key in w'.released.authorizations ensures Signed(w'.server.demandIndex, w'.released.authorizations, key) {
      assert Signed(w.server.demandIndex, w.released.authorizations, key);
    }
  }

  lemma AuthorizeKeeps(w: World, body: AuthorizationBody)
    requires DemandsOk(w) && Authority(w)
    ensures Authority(AuthorizeFor(w, body))
  {
    var w' := AuthorizeFor(w, body);
    if w' != w {
      assert DemandOk(body.demandId, w.server.demandIndex[body.demandId]);
      forall key | key in w'.released.authorizations ensures Signed(w'.server.demandIndex, w'.released.authorizations, key) {
        assert key != body ==> Signed(w.server.demandIndex, w.released.authorizations, key);
      }
    }
  }

  /** The moved handler works on nothing new, and what the server acted on was signed. */
  lemma MoveKeeps(w: World, id: nat, now: nat)
    requires Authority(w) && id in w.handlers && Extends(w.server, Advance(w, id, w.handlers[id], now).server)
    ensures Authority(Advance(w, id, w.handlers[id], now))
  {
    var h, w' := w.handlers[id], Advance(w, id, w.handlers[id], now);
    assert KeyOf(h) <= w.released.authorizations;
    MoveKeepsKeys(w, id, h, now);
    MoveActs(w, id, h, now);
    MoveClaims(w, id, h, now);
    Assemble(w, w');
  }

  lemma MoveKeepsKeys(w: World, id: nat, h: Handler, now: nat)
    requires HandlersSigned(w, w.handlers) && KeyOf(h) <= w.released.authorizations && id in w.handlers && w.handlers[id] == h
    ensures var w' := Advance(w, id, h, now);
            HandlersSigned(w', w'.handlers) && w'.released.authorizations == w.released.authorizations
  {
    var w' := Advance(w, id, h, now);
    MovesAlone(w, id, h, now);
    forall o | o in w'.handlers ensures KeyOf(w'.handlers[o]) <= w'.released.authorizations {
      assert o != id ==> KeyOf(w.handlers[o]) <= w.released.authorizations;
    }
  }

  lemma MovesAlone(w: World, id: nat, h: Handler, now: nat)
    requires id in w.handlers && w.handlers[id] == h
    ensures var w' := Advance(w, id, h, now);
            && w'.released.authorizations == w.released.authorizations
            && (forall o :: o in w'.handlers && o != id ==> o in w.handlers && w'.handlers[o] == w.handlers[o])
            && (id in w'.handlers ==> KeyOf(w'.handlers[id]) <= KeyOf(h))
  {
  }

  lemma MoveActs(w: World, id: nat, h: Handler, now: nat)
    ensures var w' := Advance(w, id, h, now);
            Acted(w'.server, w'.released.evidences) <= Acted(w.server, w.released.evidences) + KeyOf(h)
  {
  }

  lemma MoveClaims(w: World, id: nat, h: Handler, now: nat)
    requires ClaimsSigned(w, w.server.promises) && KeyOf(h) <= w.released.authorizations
    ensures var w' := Advance(w, id, h, now); ClaimsSigned(w, w'.server.promises)
  {
  }

  lemma BeginKeeps(w: World, step: Step)
    requires Authority(w) && (step.BeginQuote? || step.BeginStore? || step.BeginAttest? || step.BeginComplete? || step.Abandon?)
    ensures Authority(Next(w, step))
  {
    var w' := Next(w, step);
    BeginsAlone(w, step);
    forall o | o in w'.handlers ensures KeyOf(w'.handlers[o]) <= w'.released.authorizations {
      assert o in w.handlers ==> KeyOf(w.handlers[o]) <= w.released.authorizations;
    }
  }

  lemma BeginsAlone(w: World, step: Step)
    requires step.BeginQuote? || step.BeginStore? || step.BeginAttest? || step.BeginComplete? || step.Abandon?
    ensures var w' := Next(w, step);
            && w'.released == w.released && w'.server == w.server
            && forall o :: o in w'.handlers ==>
                 (o in w.handlers && w'.handlers[o] == w.handlers[o]) || KeyOf(w'.handlers[o]) <= w.released.authorizations
  {
  }

  lemma SignerKeeps(w: World, step: Step)
    requires Authority(w) && (step.SignAcknowledgement? || step.FailSigning? || step.FinishAcknowledgement?)
    ensures Authority(Next(w, step))
  {
    var w' := Next(w, step);
    assert ClaimsSigned(w, w'.server.promises);
    assert w'.handlers == w.handlers && w'.server.demandIndex == w.server.demandIndex;
  }

  lemma NextKeepsAuthority(w: World, step: Step)
    requires Inv(w) && Authority(w)
    ensures Authority(Next(w, step)) && Inv(Next(w, step))
  {
    Safety.NextKeepsInv(w, step);
    match step
    case Authorize(body) => AuthorizeKeeps(w, body);
    case Move(id, now) => if id in w.handlers { MoveKeeps(w, id, now); }
    case SignAcknowledgement(_, _) => SignerKeeps(w, step);
    case FailSigning(_) => SignerKeeps(w, step);
    case FinishAcknowledgement(_) => SignerKeeps(w, step);
    case _ => BeginKeeps(w, step);
  }

  lemma {:induction false} RunKeepsAuthority(w: World, steps: seq<Step>)
    requires Inv(w) && Authority(w)
    ensures Authority(Run(w, steps)) && Inv(Run(w, steps))
    decreases |steps|
  {
    if steps != [] {
      NextKeepsAuthority(w, steps[0]);
      RunKeepsAuthority(Next(w, steps[0]), steps[1..]);
    }
  }

  /**
    In every run, every delivery kept, every transaction bound and every evidence handed
    out is for an authorization that the Demand's own Payee signed for its amount.
  */
  lemma NothingWithoutThePayee(payees: seq<Payee>, steps: seq<Step>)
    ensures var w := Run(Installed(payees), steps);
            forall key :: key in Acted(w.server, w.released.evidences)
              ==> Signed(w.server.demandIndex, w.released.authorizations, key)
  {
    RunKeepsAuthority(Installed(payees), steps);
  }

  /** In every run a request is taken up exactly when the Payee has signed its authorization. */
  lemma OnlySignedIsTakenUp(payees: seq<Payee>, steps: seq<Step>, id: nat, a: Authorization, d: Delivery, tx: Transaction)
    requires id !in Run(Installed(payees), steps).handlers
    ensures var w := Run(Installed(payees), steps);
            var taken := Signed(w.server.demandIndex, w.released.authorizations, a.body);
            && (Next(w, BeginStore(id, a, d)) != w <==> taken) && (Next(w, BeginAttest(id, a, tx)) != w <==> taken)
  {
    RunKeepsAuthority(Installed(payees), steps);
    RequestsAreChecked(Run(Installed(payees), steps), id, a, d, tx);
  }
}
