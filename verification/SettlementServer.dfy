/**
  The issuer's in-memory state, and the segments of its handlers that run without
  an await: each is a function on the state, and the class runs it in place.
*/
module SettlementServer {
  import opened Common
  import opened SettlementModel

  datatype Stored = Stored(
    authorization: Authorization, delivery: Delivery, acknowledgement: Acknowledgement, payee: Payee)

  /** The completion promise of a claim. */
  datatype Progress =
    | Unsigned
    | Signed(acknowledgement: Acknowledgement)
    | Resolved(acknowledgement: Acknowledgement)
    | Rejected

  datatype Claim = Claim(authorization: Authorization, delivery: Delivery, payee: Payee, progress: Progress)

  datatype Fulfilment =
    | Receipted(receipt: Receipt)
    | AuthorizedOutput(authorization: AuthorizationBody, evidence: Evidence, acknowledgement: Acknowledgement)

  datatype License = License(requestId: nat, issuedAt: nat, fulfilments: map<nat, Fulfilment>)

  /** `promises` holds every claim ever made; `deliveryClaims` points at the one in force for an authorization. */
  datatype Server = Server(
    quotes: map<nat, QuoteRecord>,
    demandIndex: map<nat, Runtime>,
    licenses: map<nat, License>,
    storedDeliveries: map<AuthorizationBody, Stored>,
    deliveryClaims: map<AuthorizationBody, nat>,
    promises: seq<Claim>,
    transactionEvidence: map<AuthorizationBody, Evidence>,
    acceptedTransactions: map<AuthorizationBody, Transaction>)

  const FRESH := Server(map[], map[], map[], map[], map[], [], map[], map[])

  // ------------------------------------------------------------ storeDelivery

  datatype Reply = Refused | Known(acknowledgement: Acknowledgement) | Wait(claim: nat, owner: bool)

  datatype Claimed = Claimed(server: Server, reply: Reply)

  /** What a store request meets for its authorization: a kept delivery, a claim in force, or neither. */
  datatype Holding = Vacant | Held(stored: Stored) | Pending(claim: nat)

  ghost predicate Meets(s: Server, key: AuthorizationBody, h: Holding) {
    match h
    case Held(stored) => key in s.storedDeliveries && s.storedDeliveries[key] == stored
    case Pending(claim) =>
      key !in s.storedDeliveries && key in s.deliveryClaims && s.deliveryClaims[key] == claim && claim < |s.promises|
    case Vacant => key !in s.storedDeliveries && (key !in s.deliveryClaims || s.deliveryClaims[key] >= |s.promises|)
  }

  /**
    Exactly what becomes of a store request. It is refused if and only if the delivery
    is for another Demand or a different pair is kept or claimed; an equal kept pair
    gets the kept acknowledgement, an equal claimed pair waits for that claim, and
    otherwise the pair is claimed anew for its Payee.
  */
  lemma ClaimDeliveryExactly(s: Server, a: Authorization, d: Delivery, payee: Payee, h: Holding)
    requires Meets(s, a.body, h)
    ensures var r := ClaimDelivery(s, a, d, payee);
            && (r.reply.Refused? <==>
                  || d.body.demandId != a.body.demandId
                  || (h.Held? && (h.stored.authorization != a || h.stored.delivery != d))
                  || (h.Pending? && (s.promises[h.claim].authorization != a || s.promises[h.claim].delivery != d)))
            && (!r.reply.Refused? ==>
                  match h
                  case Held(stored) => r == Claimed(s, Known(stored.acknowledgement))
                  case Pending(claim) => r == Claimed(s, Wait(claim, false))
                  case Vacant =>
                    && r.reply == Wait(|s.promises|, true)
                    && r.server.promises == s.promises + [Claim(a, d, payee, Unsigned)]
                    && r.server.deliveryClaims == s.deliveryClaims[a.body := |s.promises|]
                    && r.server.storedDeliveries == s.storedDeliveries)
            && (r.reply.Refused? ==> r.server == s)
  {
  }

  /** After validation: the stored pair, a claim in force, or a new claim, all without yielding. */
  function ClaimDelivery(s: Server, a: Authorization, d: Delivery, payee: Payee): Claimed {
    var key := a.body;
    if d.body.demandId != key.demandId then Claimed(s, Refused)
    else if key in s.storedDeliveries then
      var stored := s.storedDeliveries[key];
      Claimed(s, if stored.authorization == a && stored.delivery == d then Known(stored.acknowledgement) else Refused)
    else if key in s.deliveryClaims && s.deliveryClaims[key] < |s.promises| then
      var claim := s.promises[s.deliveryClaims[key]];
      Claimed(s, if claim.authorization == a && claim.delivery == d then Wait(s.deliveryClaims[key], false) else Refused)
    else
      Claimed(s.(promises := s.promises + [Claim(a, d, payee, Unsigned)],
                 deliveryClaims := s.deliveryClaims[key := |s.promises|]),
              Wait(|s.promises|, true))
  }

  function SetProgress(s: Server, claim: nat, progress: Progress): Server
    requires claim < |s.promises|
  {
    s.(promises := s.promises[claim := s.promises[claim].(progress := progress)])
  }

  function AcknowledgementOf(c: Claim, now: nat): Acknowledgement {
    Acknowledgement(c.authorization.body, c.delivery.body, c.payee.identity, ISSUER, now)
  }

  /** The signer has answered: keep the delivery and resolve the promise. */
  function KeepDelivery(s: Server, claim: nat): Server
    requires claim < |s.promises| && s.promises[claim].progress.Signed?
  {
    var c := s.promises[claim];
    SetProgress(s, claim, Resolved(c.progress.acknowledgement)).(
      storedDeliveries := s.storedDeliveries[
        c.authorization.body := Stored(c.authorization, c.delivery, c.progress.acknowledgement, c.payee)])
  }

  /** The claimant's catch: drop the claim if it is still its own. */
  function DropClaim(s: Server, claim: nat): Server
    requires claim < |s.promises|
  {
    var key := s.promises[claim].authorization.body;
    if key in s.deliveryClaims && s.deliveryClaims[key] == claim then s.(deliveryClaims := s.deliveryClaims - {key}) else s
  }

  // -------------------------------------------------------- attestTransaction

  datatype Binding = Mismatch | Existing(evidence: Evidence) | ToSign

  datatype Bound = Bound(server: Server, binding: Binding)

  function MatchingOutputs(outputs: seq<Output>, satoshis: nat, script: nat): nat {
    if outputs == [] then 0
    else (if outputs[|outputs| - 1] == Output(Some(satoshis), script) then 1 else 0)
         + MatchingOutputs(outputs[..|outputs| - 1], satoshis, script)
  }

  /** After validation: bind the authorization to the transaction before the signer yields. */
  function BindTransaction(s: Server, a: Authorization, tx: Transaction, satoshis: nat): Bound {
    var key := a.body;
    if MatchingOutputs(tx.outputs, satoshis, key.script) != 1 then Bound(s, Mismatch)
    else if key in s.acceptedTransactions && s.acceptedTransactions[key] != tx then Bound(s, Mismatch)
    else if key in s.transactionEvidence then Bound(s, Existing(s.transactionEvidence[key]))
    else Bound(s.(acceptedTransactions := s.acceptedTransactions[key := tx]), ToSign)
  }

  predicate Pays(o: Output, satoshis: nat, script: nat) { o.satoshis == Some(satoshis) && o.script == script }

  /** Exactly one output carries the amount to the script. */
  ghost predicate PaysOnce(outputs: seq<Output>, satoshis: nat, script: nat) {
    exists i :: 0 <= i < |outputs| && Pays(outputs[i], satoshis, script)
                && forall j :: 0 <= j < |outputs| && Pays(outputs[j], satoshis, script) ==> j == i
  }

  lemma {:induction false} NoneMatches(outputs: seq<Output>, satoshis: nat, script: nat)
    ensures MatchingOutputs(outputs, satoshis, script) == 0
       <==> forall i :: 0 <= i < |outputs| ==> !Pays(outputs[i], satoshis, script)
  {
    if outputs != [] {
      var n := |outputs| - 1;
      NoneMatches(outputs[..n], satoshis, script);
      assert forall i :: 0 <= i < n ==> outputs[..n][i] == outputs[i];
    }
  }

  lemma {:induction false} OneMatches(outputs: seq<Output>, satoshis: nat, script: nat)
    ensures MatchingOutputs(outputs, satoshis, script) == 1 <==> PaysOnce(outputs, satoshis, script)
  {
    if outputs != [] {
      var n := |outputs| - 1;
      var prefix := outputs[..n];
      OneMatches(prefix, satoshis, script);
      NoneMatches(prefix, satoshis, script);
      assert forall i :: 0 <= i < n ==> prefix[i] == outputs[i];
      if Pays(outputs[n], satoshis, script) {
        if i :| 0 <= i < n && Pays(prefix[i], satoshis, script) { assert Pays(outputs[i], satoshis, script); }
      } else {
        if i :| 0 <= i < n && Pays(prefix[i], satoshis, script)
                && forall j :: 0 <= j < n && Pays(prefix[j], satoshis, script) ==> j == i {
          assert Pays(outputs[i], satoshis, script);
        }
        if PaysOnce(outputs, satoshis, script) {
          var i :| 0 <= i < |outputs| && Pays(outputs[i], satoshis, script)
                   && forall j :: 0 <= j < |outputs| && Pays(outputs[j], satoshis, script) ==> j == i;
          assert Pays(prefix[i], satoshis, script);
        }
      }
    }
  }

  /** The authorization was bound to another transaction before. */
  predicate BoundElsewhere(s: Server, key: AuthorizationBody, tx: Transaction) {
    key in s.acceptedTransactions && s.acceptedTransactions[key] != tx
  }

  /** Exactly what becomes of an attest request, said on the outputs themselves. */
  lemma BindTransactionExactly(s: Server, a: Authorization, tx: Transaction, satoshis: nat)
    ensures var r := BindTransaction(s, a, tx, satoshis);
            && (r.binding.Mismatch? <==> !PaysOnce(tx.outputs, satoshis, a.body.script) || BoundElsewhere(s, a.body, tx))
            && (r.binding.Existing? <==>
                  PaysOnce(tx.outputs, satoshis, a.body.script) && !BoundElsewhere(s, a.body, tx) && a.body in s.transactionEvidence)
            && (r.binding.Existing? ==> r.binding.evidence == s.transactionEvidence[a.body])
            && (r.binding.ToSign? <==>
                  PaysOnce(tx.outputs, satoshis, a.body.script) && !BoundElsewhere(s, a.body, tx) && a.body !in s.transactionEvidence)
            && r.server == (if r.binding.ToSign? then s.(acceptedTransactions := s.acceptedTransactions[a.body := tx]) else s)
  {
    OneMatches(tx.outputs, satoshis, a.body.script);
  }

  function KeepEvidence(s: Server, e: Evidence): Server {
    s.(transactionEvidence := s.transactionEvidence[e.authorization := e])
  }

  // ----------------------------------------------------------------- complete

  function Fulfil(acc: Collected, d: nat): Fulfilment
    requires d in acc.receipts || d in acc.authorized
  {
    if d in acc.receipts then Receipted(acc.receipts[d])
    else var b := acc.authorized[d]; AuthorizedOutput(b.authorization.body, b.evidence, b.acknowledgement)
  }

  /** The License over all Demands of the Quote; every Demand needs a proof for it to be defined. */
  function LicenseOf(requestId: nat, issuedAt: nat, q: QuoteRecord, acc: Collected): License
    requires forall d :: d in q.demands ==> d in acc.receipts || d in acc.authorized
  {
    License(requestId, issuedAt, map d | d in q.demands :: Fulfil(acc, d))
  }

  /** A fulfilment of a License that rests on a proof of the completion, of the Demand's own Payee. */
  ghost predicate FulfilledBy(f: Fulfilment, d: nat, runtime: Runtime, c: Completion) {
    match f
    case Receipted(r) => r in c.receipts && ReceiptProves(r, d, runtime, c.requestId, c.transaction)
    case AuthorizedOutput(key, evidence, acknowledgement) =>
      exists b :: b in c.authorizedOutputs && b.authorization.body == key && b.evidence == evidence
                  && b.acknowledgement == acknowledgement && BundleProves(b, d, runtime, c.transaction)
  }

  datatype Verdict = ProofMissing | AlreadyLicensed(license: License) | ToIssue

  /** What follows the proofs: the size check, and then the License the request may already have. */
  function VerdictOn(s: Server, requestId: nat, q: QuoteRecord, acc: Collected): Verdict {
    if |acc.receipts| + |acc.authorized| != |q.demands| then ProofMissing
    else if requestId in s.licenses then AlreadyLicensed(s.licenses[requestId])
    else ToIssue
  }

  /** A completion settles a Quote: all proofs match, no two share a Demand or an output, and no Demand lacks one. */
  ghost predicate Settled(c: Completion, q: QuoteRecord, released: Released) {
    && AllMatch(q, c, ProofsOf(c), released) && AllDistinct(ProofsOf(c))
    && forall d :: d in q.demands ==> exists i :: 0 <= i < |ProofsOf(c)| && DemandOf(ProofsOf(c)[i]) == d
  }

  // ---------------------------------------------------------------- the object

  class ReferenceLCHServer {
    var quotes: map<nat, QuoteRecord>
    var demandIndex: map<nat, Runtime>
    var licenses: map<nat, License>
    var storedDeliveries: map<AuthorizationBody, Stored>
    var deliveryClaims: map<AuthorizationBody, nat>
    var promises: seq<Claim>
    var transactionEvidence: map<AuthorizationBody, Evidence>
    var acceptedTransactions: map<AuthorizationBody, Transaction>

    function State(): Server
      reads this
    {
      Server(quotes, demandIndex, licenses, storedDeliveries, deliveryClaims, promises, transactionEvidence, acceptedTransactions)
    }

    constructor ()
      ensures State() == FRESH
    {
      quotes, demandIndex, licenses, storedDeliveries := map[], map[], map[], map[];
      deliveryClaims, promises, transactionEvidence, acceptedTransactions := map[], [], map[], map[];
    }

    method StoreDelivery(a: Authorization, d: Delivery, payee: Payee) returns (reply: Reply)
      modifies this
      ensures Claimed(State(), reply) == old(ClaimDelivery(State(), a, d, payee))
    {
      var key := a.body;
      if d.body.demandId != key.demandId { return Refused; }
      if key in storedDeliveries {
        var existing := storedDeliveries[key];
        if existing.authorization != a || existing.delivery != d { return Refused; }
        return Known(existing.acknowledgement);
      }
      if key in deliveryClaims && deliveryClaims[key] < |promises| {
        var claimed := promises[deliveryClaims[key]];
        if claimed.authorization != a || claimed.delivery != d { return Refused; }
        return Wait(deliveryClaims[key], false);
      }
      reply := Wait(|promises|, true);
      deliveryClaims := deliveryClaims[key := |promises|];
      promises := promises + [Claim(a, d, payee, Unsigned)];
    }

    method FinishAcknowledgement(claim: nat)
      requires claim < |promises| && promises[claim].progress.Signed?
      modifies this
      ensures State() == old(KeepDelivery(State(), claim))
    {
      var c := promises[claim];
      storedDeliveries := storedDeliveries[
        c.authorization.body := Stored(c.authorization, c.delivery, c.progress.acknowledgement, c.payee)];
      promises := promises[claim := c.(progress := Resolved(c.progress.acknowledgement))];
    }

    method CatchRejection(claim: nat)
      requires claim < |promises|
      modifies this
      ensures State() == old(DropClaim(State(), claim))
    {
      var key := promises[claim].authorization.body;
      if key in deliveryClaims && deliveryClaims[key] == claim {
        deliveryClaims := deliveryClaims - {key};
      }
    }

    /** The filter over the outputs, then the binding. */
    method AttestTransaction(a: Authorization, tx: Transaction, satoshis: nat) returns (binding: Binding)
      modifies this
      ensures Bound(State(), binding) == old(BindTransaction(State(), a, tx, satoshis))
    {
      var matching := 0;
      for i := 0 to |tx.outputs|
        invariant matching == MatchingOutputs(tx.outputs[..i], satoshis, a.body.script)
        invariant State() == old(State())
      {
        assert tx.outputs[..i + 1][..i] == tx.outputs[..i];
        if tx.outputs[i] == Output(Some(satoshis), a.body.script) { matching := matching + 1; }
      }
      assert tx.outputs[..|tx.outputs|] == tx.outputs;
      if matching != 1 { return Mismatch; }
      if a.body in acceptedTransactions && acceptedTransactions[a.body] != tx { return Mismatch; }
      if a.body in transactionEvidence { return Existing(transactionEvidence[a.body]); }
      acceptedTransactions := acceptedTransactions[a.body := tx];
      binding := ToSign;
    }

    /** The receipts of a completion, in order; the checks of the library are those of ProofMatches. */
    method ValidateReceiptProofs(c: Completion, q: QuoteRecord, released: Released) returns (r: Option<Collected>)
      ensures r == CollectAll(q, c, ProofsOf(c)[..|c.receipts|], released)
    {
      var receipts: map<nat, Receipt> := map[];
      var outputIndices: set<int> := {};
      ghost var ps := ProofsOf(c);
      for i := 0 to |c.receipts|
        invariant CollectAll(q, c, ps[..i], released) == Some(Collected(receipts, map[], outputIndices))
      {
        CollectStep(q, c, ps, released, i);
        assert ps[i] == ByReceipt(c.receipts[i]);
        var receipt := c.receipts[i];
        if !ProofMatches(q, c, ByReceipt(receipt), released)
           || receipt.outputIndex in outputIndices || receipt.demandId in receipts
        {
          FailureStays(q, c, ps, released, i + 1, |c.receipts|);
          return None;
        }
        outputIndices := outputIndices + {receipt.outputIndex};
        receipts := receipts[receipt.demandId := receipt];
      }
      r := Some(Collected(receipts, map[], outputIndices));
    }

    /** One authorized output: valid, for a Demand not yet proved, and on an output not yet used. */
    method UnusedOutput(c: Completion, q: QuoteRecord, released: Released, acc: Collected, bundle: Bundle) returns (ok: bool)
      ensures var demandId, index := bundle.authorization.body.demandId, bundle.delivery.body.outputIndex;
              Collect(q, c, acc, ByOutput(bundle), released)
              == if !ok then None
                 else Some(acc.(authorized := acc.authorized[demandId := bundle], used := acc.used + {index}))
    {
      var demandId := bundle.authorization.body.demandId;
      ok := ProofMatches(q, c, ByOutput(bundle), released) && demandId !in acc.receipts && demandId !in acc.authorized
            && bundle.delivery.body.outputIndex !in acc.used;
    }

    /** The authorized outputs, continuing with the output indices the receipts used. */
    method ValidateAuthorizedOutputProofs(c: Completion, q: QuoteRecord, released: Released,
                                          receipts: map<nat, Receipt>, used: set<int>) returns (r: Option<Collected>)
      requires CollectAll(q, c, ProofsOf(c)[..|c.receipts|], released) == Some(Collected(receipts, map[], used))
      ensures r == CollectAll(q, c, ProofsOf(c), released)
    {
      var authorizedOutputs: map<nat, Bundle> := map[];
      var outputIndices := used;
      ghost var ps, n := ProofsOf(c), |c.receipts|;
      assert ps[..|ps|] == ps;
      for i := 0 to |c.authorizedOutputs|
        invariant CollectAll(q, c, ps[..n + i], released) == Some(Collected(receipts, authorizedOutputs, outputIndices))
      {
        ghost var acc := Collected(receipts, authorizedOutputs, outputIndices);
        OutputStep(q, c, released, i, acc);
        var bundle := c.authorizedOutputs[i];
        var unused := UnusedOutput(c, q, released, Collected(receipts, authorizedOutputs, outputIndices), bundle);
        if !unused { return None; }
        outputIndices := outputIndices + {bundle.delivery.body.outputIndex};
        authorizedOutputs := authorizedOutputs[bundle.authorization.body.demandId := bundle];
      }
      r := Some(Collected(receipts, authorizedOutputs, outputIndices));
    }

    /** Decides after the proofs: some Demand lacks one, the request has its License, or one is to be issued. */
    method AfterProofs(requestId: nat, q: QuoteRecord, tx: Transaction, acc: Collected) returns (v: Verdict)
      requires CollectedOk(q, tx, acc)
      ensures v == VerdictOn(State(), requestId, q, acc)
      ensures v.ProofMissing? <==> exists d :: d in q.demands && d !in acc.receipts && d !in acc.authorized
    {
      SizeCheckCovers(q, tx, acc);
      if |acc.receipts| + |acc.authorized| != |q.demands| { return ProofMissing; }
      v := if requestId in licenses then AlreadyLicensed(licenses[requestId]) else ToIssue;
    }

    /** Issues over the Quote's Demands; CollectedOk and the size check make every `bundle` present. */
    method IssueLicense(requestId: nat, q: QuoteRecord, tx: Transaction, acc: Collected, now: nat) returns (license: License)
      requires CollectedOk(q, tx, acc) && |acc.receipts| + |acc.authorized| == |q.demands|
      modifies this
      ensures forall d :: d in q.demands ==> d in acc.receipts || d in acc.authorized
      ensures license == LicenseOf(requestId, now, q, acc)
      ensures State() == old(State()).(licenses := old(licenses)[requestId := license])
    {
      EveryDemandProved(q, tx, acc);
      license := LicenseOf(requestId, now, q, acc);
      licenses := licenses[requestId := license];
    }

    /**
      A whole completion that nothing overlaps. It succeeds exactly for a known Quote that
      the completion settles; a request that has its License gets that one again.
    */
    method Complete(c: Completion, released: Released, now: nat) returns (license: Option<License>)
      requires forall r :: r in quotes ==> QuoteOk(quotes[r])
      modifies this
      ensures license.Some?
         <==> old(c.requestId in quotes && quotes[c.requestId].quote == c.quote && Settled(c, quotes[c.requestId], released))
      ensures license.None? || old(c.requestId in licenses) ==> State() == old(State())
      ensures license.Some? && old(c.requestId in licenses) ==> license.value == old(licenses[c.requestId])
      ensures license.Some? && old(c.requestId !in licenses) ==>
                && license.value.issuedAt == now
                && license.value.requestId == c.requestId
                && license.value.fulfilments.Keys == old(quotes[c.requestId].demands.Keys)
                && (forall d :: d in license.value.fulfilments ==>
                      FulfilledBy(license.value.fulfilments[d], d, old(quotes[c.requestId].demands[d]), c))
                && State() == old(State()).(licenses := old(licenses)[c.requestId := license.value])
    {
      if c.requestId !in quotes || quotes[c.requestId].quote != c.quote { return None; }
      var q := quotes[c.requestId];
      SettledExactly(c, q, released);
      var receipts := ValidateReceiptProofs(c, q, released);
      if receipts.None? {
        assert ProofsOf(c)[..|ProofsOf(c)|] == ProofsOf(c);
        FailureStays(q, c, ProofsOf(c), released, |c.receipts|, |ProofsOf(c)|);
        return None;
      }
      ReceiptsCollectNoBundles(q, c, |c.receipts|, released);
      var proofs := ValidateAuthorizedOutputProofs(c, q, released, receipts.value.receipts, receipts.value.used);
      if proofs.None? { return None; }
      var verdict := AfterProofs(c.requestId, q, c.transaction, proofs.value);
      match verdict
      case ProofMissing => return None;
      case AlreadyLicensed(existing) => return Some(existing);
      case ToIssue =>
        LicenseIsFulfilled(c, q, released, now);
        var issued := IssueLicense(c.requestId, q, c.transaction, proofs.value, now);
        license := Some(issued);
    }
  }

  lemma LicenseIsFulfilled(c: Completion, q: QuoteRecord, released: Released, now: nat)
    requires QuoteOk(q) && CollectAll(q, c, ProofsOf(c), released).Some?
    requires var acc := CollectAll(q, c, ProofsOf(c), released).value;
             forall d :: d in q.demands ==> d in acc.receipts || d in acc.authorized
    ensures var license := LicenseOf(c.requestId, now, q, CollectAll(q, c, ProofsOf(c), released).value);
            forall d :: d in q.demands ==> d in license.fulfilments && FulfilledBy(license.fulfilments[d], d, q.demands[d], c)
  {
    var acc := CollectAll(q, c, ProofsOf(c), released).value;
    CollectAllExactly(q, c, ProofsOf(c), released);
    CollectAllProves(q, c, ProofsOf(c), released);
    ProofsComeFrom(c);
    forall d | d in q.demands ensures FulfilledBy(Fulfil(acc, d), d, q.demands[d], c) {
      ProofFulfils(c, q, acc, d);
    }
  }

  lemma ProofFulfils(c: Completion, q: QuoteRecord, acc: Collected, d: nat)
    requires Proven(q, c.requestId, c.transaction, acc) && d in q.demands && (d in acc.receipts || d in acc.authorized)
    requires d in acc.receipts ==> acc.receipts[d] in c.receipts
    requires d in acc.authorized ==> acc.authorized[d] in c.authorizedOutputs
    ensures FulfilledBy(Fulfil(acc, d), d, q.demands[d], c)
  {
  }

  /** A completion settles its Quote exactly when the loops accept it and leave no Demand without a proof. */
  lemma SettledExactly(c: Completion, q: QuoteRecord, released: Released)
    requires QuoteOk(q)
    ensures var r := CollectAll(q, c, ProofsOf(c), released);
            && (r.Some? ==> CollectedOk(q, c.transaction, r.value))
            && (Settled(c, q, released)
                <==> r.Some? && forall d :: d in q.demands ==> d in r.value.receipts || d in r.value.authorized)
  {
    CollectAllExactly(q, c, ProofsOf(c), released);
    CollectAllIsOk(q, c, ProofsOf(c), released);
  }

  lemma {:induction false} ReceiptsCollectNoBundles(q: QuoteRecord, c: Completion, n: nat, released: Released)
    requires n <= |c.receipts|
    ensures var r := CollectAll(q, c, ProofsOf(c)[..n], released); r.Some? ==> r.value.authorized == map[]
  {
    if n > 0 {
      assert ProofsOf(c)[..n][..n - 1] == ProofsOf(c)[..n - 1] && ProofsOf(c)[..n][n - 1] == ByReceipt(c.receipts[n - 1]);
      ReceiptsCollectNoBundles(q, c, n - 1, released);
    }
  }

  lemma CollectStep(q: QuoteRecord, c: Completion, ps: seq<Proof>, released: Released, i: nat)
    requires i < |ps|
    ensures var before := CollectAll(q, c, ps[..i], released);
            CollectAll(q, c, ps[..i + 1], released)
            == if before.None? then None else Collect(q, c, before.value, ps[i], released)
  {
    assert ps[..i + 1][..i] == ps[..i];
  }

  lemma OutputStep(q: QuoteRecord, c: Completion, released: Released, i: nat, acc: Collected)
    requires i < |c.authorizedOutputs|
    requires CollectAll(q, c, ProofsOf(c)[..|c.receipts| + i], released) == Some(acc)
    ensures var next := Collect(q, c, acc, ByOutput(c.authorizedOutputs[i]), released);
            && CollectAll(q, c, ProofsOf(c)[..|c.receipts| + i + 1], released) == next
            && (next.None? ==> CollectAll(q, c, ProofsOf(c), released).None?)
  {
    var ps, n := ProofsOf(c), |c.receipts| + i;
    assert ps[n] == ByOutput(c.authorizedOutputs[i]) && ps[..|ps|] == ps;
    CollectStep(q, c, ps, released, n);
    if CollectAll(q, c, ps[..n + 1], released).None? { FailureStays(q, c, ps, released, n + 1, |ps|); }
  }

  lemma {:induction false} FailureStays(q: QuoteRecord, c: Completion, ps: seq<Proof>, released: Released, i: nat, j: nat)
    requires i <= j <= |ps| && CollectAll(q, c, ps[..i], released).None?
    ensures CollectAll(q, c, ps[..j], released).None?
    decreases j - i
  {
    if i < j {
      assert ps[..j][..j - 1] == ps[..j - 1];
      FailureStays(q, c, ps, released, i, j - 1);
    }
  }
}
