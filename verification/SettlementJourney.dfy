/** A whole purchase from the empty installation, settled by an authorized output alone. */
module SettlementJourney {
  import opened Common
  import opened SettlementModel
  import opened SettlementServer
  import opened SettlementMachine
  import opened SettlementRuns
  import opened SettlementOverlap
  import Safety = SettlementSafety

  function KeyFor(p: Payee, r: nat, script: nat): AuthorizationBody {
    AuthorizationBody(0, r, p.identity, p.satoshis, script, ISSUER, ISSUER, 0)
  }

  function PaidTo(p: Payee, script: nat): Transaction { Transaction([Output(Some(p.satoshis), script)], 0) }

  function AuthorizationFor(p: Payee, r: nat, script: nat): Authorization { Authorization(KeyFor(p, r, script), 0) }

  function DeliveryFor(p: Payee, r: nat, script: nat): Delivery { Delivery(DeliveryBody(0, r, 0, PaidTo(p, script), 0), 0) }

  function BundleFor(p: Payee, r: nat, script: nat, now: nat): Bundle {
    var a, d := AuthorizationFor(p, r, script), DeliveryFor(p, r, script);
    Bundle(a, d, Evidence(a.body, PaidTo(p, script), ISSUER, now), AcknowledgementFor(a, d, p, now))
  }

  function CompletionFor(p: Payee, r: nat, quote: nat, script: nat, now: nat): Completion {
    Completion(r, quote, PaidTo(p, script), [], [BundleFor(p, r, script, now)])
  }

  /** One bundle that was acknowledged and attested settles the one Demand. */
  lemma OneBundleSettles(p: Payee, r: nat, quote: nat, script: nat, now: nat, released: Released)
    requires p.authorizedOutput && SignedParts(BundleFor(p, r, script, now), released)
    ensures Settled(CompletionFor(p, r, quote, script, now), QuoteFor(p, r, quote), released)
  {
    var c, q, b := CompletionFor(p, r, quote, script, now), QuoteFor(p, r, quote), BundleFor(p, r, script, now);
    var ps := ProofsOf(c);
    assert |ps| == 1 && ps[0] == ByOutput(b);
    assert BundleProves(b, 0, q.demands[0], c.transaction);
    MatchExactly(q, c, ps[0], released);
    assert DemandOf(ps[0]) == 0;
  }

  lemma PaidToPaysOnce(p: Payee, script: nat)
    ensures PaysOnce(PaidTo(p, script).outputs, p.satoshis, script)
  {
    assert Pays(PaidTo(p, script).outputs[0], p.satoshis, script);
  }

  /** After the Quote: the Payee authorizes, the delivery is stored, the transaction attested. */
  lemma IsBundled(p: Payee, r: nat, quote: nat, script: nat, now: nat) returns (steps: seq<Step>)
    requires p.authorizedOutput
    ensures var w := Run(Installed([p]), steps);
            && w.handlers == map[] && w.server.quotes == map[r := QuoteFor(p, r, quote)] && w.server.licenses == map[]
            && SignedParts(BundleFor(p, r, script, now), w.released)
  {
    var a, d, tx := AuthorizationFor(p, r, script), DeliveryFor(p, r, script), PaidTo(p, script);
    var first := QuoteSteps(r, quote);
    IsQuoted(p, r, quote);
    var w := Run(Installed([p]), first);
    var w1 := Next(w, Authorize(a.body));
    OneStep(w, Authorize(a.body));
    assert w1.released == Released({a.body}, {}, {}) && w1.server == w.server;
    var store := StoreSteps(1, a, d, 0, now);
    StoreRun(w1, 1, a, d, now);
    var w2 := Run(w1, store);
    var attest := AttestSteps(1, a, tx, now);
    PaidToPaysOnce(p, script);
    Safety.RunKeepsInv(Installed([p]), first);
    Safety.NextKeepsInv(w, Authorize(a.body));
    Safety.RunKeepsInv(w1, store);
    AttestRun(w2, 1, a, tx, now);
    steps := first + [Authorize(a.body)] + store + attest;
    RunSplits(Installed([p]), first, [Authorize(a.body)]);
    RunSplits(Installed([p]), first + [Authorize(a.body)], store);
    RunSplits(Installed([p]), first + [Authorize(a.body)] + store, attest);
  }

  /**
    For every Payee that takes authorized outputs there is a run from the empty
    installation that ends with a License which rests on one.
  */
  lemma AuthorizedOutputIsLicensed(p: Payee, r: nat, quote: nat, script: nat, now: nat) returns (steps: seq<Step>)
    requires p.authorizedOutput
    ensures var w, b := Run(Installed([p]), steps), BundleFor(p, r, script, now);
            && r in w.server.licenses && 0 in w.server.licenses[r].fulfilments
            && w.server.licenses[r].fulfilments[0] == AuthorizedOutput(b.authorization.body, b.evidence, b.acknowledgement)
  {
    var first := IsBundled(p, r, quote, script, now);
    var w := Run(Installed([p]), first);
    Safety.RunKeepsInv(Installed([p]), first);
    var rest := BundleIsLicensed(w, p, r, quote, script, now);
    steps := first + rest;
    RunSplits(Installed([p]), first, rest);
  }

  lemma BundleIsLicensed(w: World, p: Payee, r: nat, quote: nat, script: nat, now: nat) returns (steps: seq<Step>)
    requires p.authorizedOutput && Inv(w) && SignedParts(BundleFor(p, r, script, now), w.released)
    requires w.handlers == map[] && w.server.quotes == map[r := QuoteFor(p, r, quote)] && w.server.licenses == map[]
    ensures var w', b := Run(w, steps), BundleFor(p, r, script, now);
            && r in w'.server.licenses && 0 in w'.server.licenses[r].fulfilments
            && w'.server.licenses[r].fulfilments[0] == AuthorizedOutput(b.authorization.body, b.evidence, b.acknowledgement)
  {
    var c := CompletionFor(p, r, quote, script, now);
    OneBundleSettles(p, r, quote, script, now, w.released);
    steps := CompleteRun(w, 1, c, now);
    OnlyBundleFulfils(Run(w, steps).server.licenses[r].fulfilments[0], QuoteFor(p, r, quote).demands[0], c);
  }

  lemma OnlyBundleFulfils(f: Fulfilment, runtime: Runtime, c: Completion)
    requires c.receipts == [] && |c.authorizedOutputs| == 1 && FulfilledBy(f, 0, runtime, c)
    ensures var b := c.authorizedOutputs[0]; f == AuthorizedOutput(b.authorization.body, b.evidence, b.acknowledgement)
  {
  }
}
