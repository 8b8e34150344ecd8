/**
  Settlement proofs of one completion. Signed objects are identified by their
  bodies, transactions by their contents; what an honest signer has signed and
  handed out is recorded in Released.
*/
module SettlementModel {
  import opened Common

  const ISSUER: nat := 0

  datatype Output = Output(satoshis: Option<nat>, script: nat)

  datatype Transaction = Transaction(outputs: seq<Output>, salt: nat)

  datatype Payee = Payee(identity: nat, satoshis: nat, dutyUid: string, authorizedOutput: bool)

  datatype Demand = Demand(id: nat, requestId: nat, payee: nat, satoshis: nat, dutyUid: string, authorizedOutput: bool)

  datatype Runtime = Runtime(demand: Demand, payee: Payee)

  datatype QuoteRecord = QuoteRecord(quote: nat, demands: map<nat, Runtime>)

  datatype AuthorizationBody = AuthorizationBody(
    demandId: nat, requestId: nat, payee: nat, satoshis: nat, script: nat,
    evidenceProvider: nat, deliveryProvider: nat, recoveryUntil: nat)

  datatype Authorization = Authorization(body: AuthorizationBody, signature: nat)

  datatype DeliveryBody = DeliveryBody(demandId: nat, requestId: nat, outputIndex: int, transaction: Transaction, suffix: nat)

  datatype Delivery = Delivery(body: DeliveryBody, signature: nat)

  datatype Acknowledgement = Acknowledgement(
    authorization: AuthorizationBody, delivery: DeliveryBody, payee: nat, provider: nat, storedAt: nat)

  datatype Evidence = Evidence(authorization: AuthorizationBody, transaction: Transaction, provider: nat, observedAt: nat)

  datatype Bundle = Bundle(
    authorization: Authorization, delivery: Delivery, evidence: Evidence, acknowledgement: Acknowledgement)

  /** `genuine` is the verdict of the library's own receipt check. */
  datatype Receipt = Receipt(
    genuine: bool, demandId: nat, requestId: nat, payee: nat, transaction: Transaction, outputIndex: int, satoshis: nat)

  datatype Completion = Completion(
    requestId: nat, quote: nat, transaction: Transaction, receipts: seq<Receipt>, authorizedOutputs: seq<Bundle>)

  datatype Released = Released(
    authorizations: set<AuthorizationBody>, evidences: set<Evidence>, acknowledgements: set<Acknowledgement>)

  /** The library's check of an authorization against its Demand; Payees sign nothing else. */
  predicate ValidAuthorization(a: Authorization, demand: Demand, released: Released) {
    && a.body in released.authorizations
    && demand.authorizedOutput
    && a.body.demandId == demand.id && a.body.requestId == demand.requestId
    && a.body.payee == demand.payee && a.body.satoshis == demand.satoshis
  }

  /** The library's check of a bundle: a signature of the issuer exists only on what the issuer released. */
  predicate ValidBundle(b: Bundle, demand: Demand, tx: Transaction, released: Released) {
    var index := b.delivery.body.outputIndex;
    && ValidAuthorization(b.authorization, demand, released)
    && b.delivery.body.demandId == demand.id && b.delivery.body.requestId == demand.requestId
    && b.delivery.body.transaction == tx
    && 0 <= index < |tx.outputs|
    && tx.outputs[index] == Output(Some(demand.satoshis), b.authorization.body.script)
    && b.evidence.authorization == b.authorization.body && b.evidence.transaction == tx
    && b.evidence.provider == b.authorization.body.evidenceProvider
    && (b.evidence.provider == ISSUER ==> b.evidence in released.evidences)
    && b.acknowledgement.authorization == b.authorization.body && b.acknowledgement.delivery == b.delivery.body
    && b.acknowledgement.payee == b.authorization.body.payee
    && b.acknowledgement.provider == b.authorization.body.deliveryProvider
    && (b.acknowledgement.provider == ISSUER ==> b.acknowledgement in released.acknowledgements)
  }

  // --------------------------------------------------- collecting the proofs

  datatype Proof = ByReceipt(receipt: Receipt) | ByOutput(bundle: Bundle)

  function DemandOf(p: Proof): nat {
    match p case ByReceipt(r) => r.demandId case ByOutput(b) => b.authorization.body.demandId
  }

  function IndexOf(p: Proof): int {
    match p case ByReceipt(r) => r.outputIndex case ByOutput(b) => b.delivery.body.outputIndex
  }

  datatype Collected = Collected(receipts: map<nat, Receipt>, authorized: map<nat, Bundle>, used: set<int>)

  const NOTHING := Collected(map[], map[], {})

  predicate SafeIndex(i: int) { 0 <= i <= MAX_SAFE_INTEGER }

  /** The checks that look at one proof alone. */
  predicate ProofMatches(q: QuoteRecord, c: Completion, p: Proof, released: Released) {
    && DemandOf(p) in q.demands
    && SafeIndex(IndexOf(p))
    && var runtime := q.demands[DemandOf(p)];
       match p
       case ByReceipt(r) =>
         && r.genuine && r.requestId == c.requestId && r.payee == runtime.demand.payee && r.transaction == c.transaction
         && r.outputIndex < |c.transaction.outputs|
         && c.transaction.outputs[r.outputIndex].satoshis == Some(runtime.payee.satoshis)
         && r.satoshis == runtime.payee.satoshis
       case ByOutput(b) => ValidBundle(b, runtime.demand, c.transaction, released)
  }

  /** One iteration of either loop. */
  function Collect(q: QuoteRecord, c: Completion, acc: Collected, p: Proof, released: Released): Option<Collected> {
    if !ProofMatches(q, c, p, released) || IndexOf(p) in acc.used
       || DemandOf(p) in acc.receipts || DemandOf(p) in acc.authorized then None
    else Some(match p
              case ByReceipt(r) => acc.(receipts := acc.receipts[r.demandId := r], used := acc.used + {IndexOf(p)})
              case ByOutput(b) => acc.(authorized := acc.authorized[DemandOf(p) := b], used := acc.used + {IndexOf(p)}))
  }

  function CollectAll(q: QuoteRecord, c: Completion, ps: seq<Proof>, released: Released): Option<Collected> {
    if ps == [] then Some(NOTHING) else
    var before := CollectAll(q, c, ps[..|ps| - 1], released);
    if before.None? then None else Collect(q, c, before.value, ps[|ps| - 1], released)
  }

  /** Receipts first, then authorized outputs. */
  function ProofsOf(c: Completion): seq<Proof> {
    seq(|c.receipts|, i requires 0 <= i < |c.receipts| => ByReceipt(c.receipts[i]))
    + seq(|c.authorizedOutputs|, i requires 0 <= i < |c.authorizedOutputs| => ByOutput(c.authorizedOutputs[i]))
  }

  predicate AllMatch(q: QuoteRecord, c: Completion, ps: seq<Proof>, released: Released) {
    forall i :: 0 <= i < |ps| ==> ProofMatches(q, c, ps[i], released)
  }

  predicate AllDistinct(ps: seq<Proof>) {
    forall i, j :: 0 <= i < j < |ps| ==> DemandOf(ps[i]) != DemandOf(ps[j]) && IndexOf(ps[i]) != IndexOf(ps[j])
  }

  /** What has been collected is exactly what the proofs so far say. */
  ghost predicate Holds(acc: Collected, ps: seq<Proof>) {
    && (forall d :: d in acc.receipts || d in acc.authorized <==> exists i :: 0 <= i < |ps| && DemandOf(ps[i]) == d)
    && (forall x :: x in acc.used <==> exists i :: 0 <= i < |ps| && IndexOf(ps[i]) == x)
    && (forall d :: d in acc.receipts ==> ByReceipt(acc.receipts[d]) in ps)
    && (forall d :: d in acc.authorized ==> ByOutput(acc.authorized[d]) in ps)
  }

  /** The loops accept exactly the lists whose proofs all match and share no Demand and no output. */
  lemma {:induction false} CollectAllExactly(q: QuoteRecord, c: Completion, ps: seq<Proof>, released: Released)
    ensures CollectAll(q, c, ps, released).Some? <==> AllMatch(q, c, ps, released) && AllDistinct(ps)
    ensures CollectAll(q, c, ps, released).Some? ==> Holds(CollectAll(q, c, ps, released).value, ps)
  {
    if ps != [] {
      var n := |ps| - 1;
      var prefix, last := ps[..n], ps[n];
      assert ps == prefix + [last];
      CollectAllExactly(q, c, prefix, released);
      MatchAndDistinctSplit(q, c, prefix, last, released);
      var before := CollectAll(q, c, prefix, released);
      if before.Some? {
        OneMoreHolds(q, c, before.value, prefix, last, released);
        CollectsUnlessShared(q, c, before.value, prefix, last, released);
      }
    }
  }

  lemma MatchAndDistinctSplit(q: QuoteRecord, c: Completion, prefix: seq<Proof>, last: Proof, released: Released)
    ensures AllMatch(q, c, prefix + [last], released) <==> AllMatch(q, c, prefix, released) && ProofMatches(q, c, last, released)
    ensures AllDistinct(prefix + [last]) <==> AllDistinct(prefix) && !Shares(prefix, last)
  {
    var ps := prefix + [last];
    assert forall i :: 0 <= i < |prefix| ==> ps[i] == prefix[i];
    assert ps[|prefix|] == last;
  }

  ghost predicate Shares(ps: seq<Proof>, p: Proof) {
    exists i :: 0 <= i < |ps| && (DemandOf(ps[i]) == DemandOf(p) || IndexOf(ps[i]) == IndexOf(p))
  }

  lemma CollectsUnlessShared(q: QuoteRecord, c: Completion, acc: Collected, ps: seq<Proof>, p: Proof, released: Released)
    requires Holds(acc, ps)
    ensures Collect(q, c, acc, p, released).Some? <==> ProofMatches(q, c, p, released) && !Shares(ps, p)
  {
  }

  lemma OneMoreHolds(q: QuoteRecord, c: Completion, acc: Collected, ps: seq<Proof>, p: Proof, released: Released)
    requires Holds(acc, ps)
    ensures Collect(q, c, acc, p, released).Some? ==> Holds(Collect(q, c, acc, p, released).value, ps + [p])
  {
    var ps' := ps + [p];
    assert ps'[|ps|] == p && forall i :: 0 <= i < |ps| ==> ps'[i] == ps[i];
    var next := Collect(q, c, acc, p, released);
    if next.Some? {
      forall d ensures d in next.value.receipts || d in next.value.authorized <==> exists i :: 0 <= i < |ps'| && DemandOf(ps'[i]) == d {
        OneMoreDemand(ps, p, d);
      }
      forall x ensures x in next.value.used <==> exists i :: 0 <= i < |ps'| && IndexOf(ps'[i]) == x {
        OneMoreOutput(ps, p, x);
      }
      OneMoreIsFiled(q, c, acc, ps, p, released);
    }
  }

  lemma OneMoreIsFiled(q: QuoteRecord, c: Completion, acc: Collected, ps: seq<Proof>, p: Proof, released: Released)
    requires Holds(acc, ps) && Collect(q, c, acc, p, released).Some?
    ensures var next := Collect(q, c, acc, p, released).value;
            && (forall d :: d in next.receipts ==> ByReceipt(next.receipts[d]) in ps + [p])
            && (forall d :: d in next.authorized ==> ByOutput(next.authorized[d]) in ps + [p])
  {
  }

  lemma OneMoreDemand(ps: seq<Proof>, p: Proof, d: nat)
    ensures (exists i :: 0 <= i < |ps + [p]| && DemandOf((ps + [p])[i]) == d)
       <==> DemandOf(p) == d || exists i :: 0 <= i < |ps| && DemandOf(ps[i]) == d
  {
    var ps' := ps + [p];
    assert ps'[|ps|] == p;
    if i :| 0 <= i < |ps| && DemandOf(ps[i]) == d { assert DemandOf(ps'[i]) == d; }
  }

  lemma OneMoreOutput(ps: seq<Proof>, p: Proof, x: int)
    ensures (exists i :: 0 <= i < |ps + [p]| && IndexOf((ps + [p])[i]) == x)
       <==> IndexOf(p) == x || exists i :: 0 <= i < |ps| && IndexOf(ps[i]) == x
  {
    var ps' := ps + [p];
    assert ps'[|ps|] == p;
    if i :| 0 <= i < |ps| && IndexOf(ps[i]) == x { assert IndexOf(ps'[i]) == x; }
  }

  // -------------------------------------------------- settlement is a bijection

  ghost function SumOver(s: set<int>, f: int -> nat): nat {
    if exists x :: x in s then var x :| x in s; f(x) + SumOver(s - {x}, f) else 0
  }

  lemma {:induction false} SumWithout(s: set<int>, f: int -> nat, x: int)
    requires x in s
    ensures SumOver(s, f) == f(x) + SumOver(s - {x}, f)
  {
    var y: int :| y in s && SumOver(s, f) == f(y) + SumOver(s - {y}, f);
    if y != x {
      SumWithout(s - {y}, f, x);
      SumWithout(s - {x}, f, y);
      assert s - {y} - {x} == s - {x} - {y};
    }
  }

  function Settles(acc: Collected, d: int): int {
    if d in acc.receipts then acc.receipts[d].outputIndex
    else if d in acc.authorized then acc.authorized[d].delivery.body.outputIndex else -1
  }

  function OutputSatoshis(tx: Transaction): int -> nat {
    (i: int) => if 0 <= i < |tx.outputs| && tx.outputs[i].satoshis.Some? then tx.outputs[i].satoshis.value else 0
  }

  function DemandSatoshis(q: QuoteRecord): int -> nat {
    (d: int) => if d in q.demands then q.demands[d].demand.satoshis else 0
  }

  /** Demands are created from their Payee's own terms and filed under their own id. */
  ghost predicate QuoteOk(q: QuoteRecord) {
    forall d :: d in q.demands ==>
      && q.demands[d].demand.id == d
      && q.demands[d].demand.payee == q.demands[d].payee.identity
      && q.demands[d].demand.satoshis == q.demands[d].payee.satoshis
  }

  /** What every successful iteration keeps. */
  ghost predicate CollectedOk(q: QuoteRecord, tx: Transaction, acc: Collected) {
    && acc.receipts.Keys !! acc.authorized.Keys
    && acc.receipts.Keys + acc.authorized.Keys <= q.demands.Keys
    && (forall d :: d in acc.authorized ==> acc.authorized[d].authorization.body.demandId == d)
    && (forall d :: d in acc.receipts || d in acc.authorized ==>
          && Settles(acc, d) in acc.used
          && OutputSatoshis(tx)(Settles(acc, d)) == q.demands[d].demand.satoshis)
    && (forall x :: x in acc.used ==>
          && 0 <= x < |tx.outputs|
          && exists d :: (d in acc.receipts || d in acc.authorized) && Settles(acc, d) == x)
    && (forall d, e | (d in acc.receipts || d in acc.authorized) && (e in acc.receipts || e in acc.authorized) ::
          Settles(acc, d) == Settles(acc, e) ==> d == e)
  }

  lemma CollectKeepsOk(q: QuoteRecord, c: Completion, acc: Collected, p: Proof, released: Released)
    requires QuoteOk(q) && CollectedOk(q, c.transaction, acc)
    ensures var next := Collect(q, c, acc, p, released); next.Some? ==> CollectedOk(q, c.transaction, next.value)
  {
    var next := Collect(q, c, acc, p, released);
    if next.Some? {
      assert p.ByOutput? ==> p.bundle.authorization.body.demandId == DemandOf(p);
      var d := DemandOf(p);
      assert Settles(next.value, d) == IndexOf(p);
      assert forall e :: e != d ==> Settles(next.value, e) == Settles(acc, e);
      OneMoreIsOk(q, c.transaction, acc, next.value, d, IndexOf(p));
    }
  }

  /** One more Demand, settled by one more output that pays it. */
  lemma OneMoreIsOk(q: QuoteRecord, tx: Transaction, acc: Collected, next: Collected, d: nat, x: int)
    requires CollectedOk(q, tx, acc) && d in q.demands && d !in acc.receipts && d !in acc.authorized && x !in acc.used
    requires 0 <= x < |tx.outputs| && OutputSatoshis(tx)(x) == q.demands[d].demand.satoshis
    requires next.used == acc.used + {x}
    requires next.receipts.Keys !! next.authorized.Keys
    requires forall e :: e in next.receipts || e in next.authorized <==> e == d || e in acc.receipts || e in acc.authorized
    requires forall e :: e in next.authorized ==> next.authorized[e].authorization.body.demandId == e
    requires Settles(next, d) == x && forall e :: e != d ==> Settles(next, e) == Settles(acc, e)
    ensures CollectedOk(q, tx, next)
  {
    forall y | y in next.used
      ensures 0 <= y < |tx.outputs| && exists e :: (e in next.receipts || e in next.authorized) && Settles(next, e) == y
    {
      if y == x {
        assert d in next.receipts || d in next.authorized;
      } else {
        var e :| (e in acc.receipts || e in acc.authorized) && Settles(acc, e) == y;
        assert e != d && Settles(next, e) == y;
      }
    }
  }

  lemma {:induction false} CollectAllIsOk(q: QuoteRecord, c: Completion, ps: seq<Proof>, released: Released)
    requires QuoteOk(q)
    ensures var r := CollectAll(q, c, ps, released); r.Some? ==> CollectedOk(q, c.transaction, r.value)
  {
    if ps != [] {
      CollectAllIsOk(q, c, ps[..|ps| - 1], released);
      var before := CollectAll(q, c, ps[..|ps| - 1], released);
      if before.Some? { CollectKeepsOk(q, c, before.value, ps[|ps| - 1], released); }
    }
  }

  ghost function Demanded(q: QuoteRecord): set<int> { set d: nat | d in q.demands :: d as int }

  /** The outputs used are those that settle the Demands, one for each, and each pays its Demand. */
  ghost predicate PaysEach(q: QuoteRecord, tx: Transaction, acc: Collected) {
    && acc.used == (set d | d in Demanded(q) :: Settles(acc, d))
    && (forall d, e :: d in Demanded(q) && e in Demanded(q) && Settles(acc, d) == Settles(acc, e) ==> d == e)
    && (forall d :: d in Demanded(q) ==> OutputSatoshis(tx)(Settles(acc, d)) == DemandSatoshis(q)(d))
  }

  /**
    When the size check passes, receipts and authorized outputs partition the
    Quote's Demands, each Demand is paid by an output of its own, nothing else
    was used, and the outputs used pay exactly the Quote's total.
  */
  lemma SettlementIsBijective(q: QuoteRecord, tx: Transaction, acc: Collected)
    requires CollectedOk(q, tx, acc)
    requires |acc.receipts| + |acc.authorized| == |q.demands|
    ensures acc.receipts.Keys + acc.authorized.Keys == q.demands.Keys
    ensures forall d :: d in q.demands && d !in acc.receipts ==> d in acc.authorized
    ensures PaysEach(q, tx, acc)
    ensures SumOver(acc.used, OutputSatoshis(tx)) == SumOver(Demanded(q), DemandSatoshis(q))
  {
    CoversDemands(q, tx, acc);
    IndexCoversUsed(q, tx, acc);
    SumThroughSettles(Demanded(q), acc, DemandSatoshis(q), OutputSatoshis(tx));
  }

  // ------------------------------------------------------ whose proof it is

  /** A genuine receipt by the Demand's own Payee, for this request and transaction and the Payee's amount. */
  predicate ReceiptProves(r: Receipt, d: nat, runtime: Runtime, requestId: nat, tx: Transaction) {
    && r.genuine && r.demandId == d && r.requestId == requestId
    && r.payee == runtime.payee.identity && r.satoshis == runtime.payee.satoshis
    && r.transaction == tx && 0 <= r.outputIndex < |tx.outputs|
    && tx.outputs[r.outputIndex].satoshis == Some(runtime.payee.satoshis)
  }

  /**
    An authorization by the Demand's own Payee, a delivery, evidence and an acknowledgement
    that all speak of it and of this transaction, and an output that pays the amount to its script.
  */
  predicate BundleProves(b: Bundle, d: nat, runtime: Runtime, tx: Transaction) {
    var key, at := b.authorization.body, b.delivery.body.outputIndex;
    && key.demandId == d && key.requestId == runtime.demand.requestId && runtime.demand.authorizedOutput
    && key.payee == runtime.payee.identity && key.satoshis == runtime.payee.satoshis
    && b.delivery.body.demandId == d && b.delivery.body.requestId == key.requestId && b.delivery.body.transaction == tx
    && 0 <= at < |tx.outputs| && tx.outputs[at].satoshis == Some(key.satoshis) && tx.outputs[at].script == key.script
    && b.evidence.authorization == key && b.evidence.transaction == tx && b.evidence.provider == key.evidenceProvider
    && b.acknowledgement.authorization == key && b.acknowledgement.delivery == b.delivery.body
    && b.acknowledgement.payee == runtime.payee.identity && b.acknowledgement.provider == key.deliveryProvider
  }

  ghost predicate Proven(q: QuoteRecord, requestId: nat, tx: Transaction, acc: Collected) {
    && (forall d :: d in acc.receipts ==> d in q.demands && ReceiptProves(acc.receipts[d], d, q.demands[d], requestId, tx))
    && (forall d :: d in acc.authorized ==> d in q.demands && BundleProves(acc.authorized[d], d, q.demands[d], tx))
  }

  /** The Payee signed the authorization, and what names the issuer as its provider was handed out by it. */
  predicate SignedParts(b: Bundle, released: Released) {
    && b.authorization.body in released.authorizations
    && (b.evidence.provider == ISSUER ==> b.evidence in released.evidences)
    && (b.acknowledgement.provider == ISSUER ==> b.acknowledgement in released.acknowledgements)
  }

  /** Exactly which proofs are accepted, on their fields. */
  lemma MatchExactly(q: QuoteRecord, c: Completion, p: Proof, released: Released)
    requires QuoteOk(q)
    ensures var d := DemandOf(p);
            ProofMatches(q, c, p, released) <==>
              && d in q.demands && 0 <= IndexOf(p) <= MAX_SAFE_INTEGER
              && match p
                 case ByReceipt(r) => ReceiptProves(r, d, q.demands[d], c.requestId, c.transaction)
                 case ByOutput(b) => BundleProves(b, d, q.demands[d], c.transaction) && SignedParts(b, released)
  {
  }

  lemma CollectProves(q: QuoteRecord, c: Completion, acc: Collected, p: Proof, released: Released)
    requires QuoteOk(q) && Proven(q, c.requestId, c.transaction, acc)
    ensures var next := Collect(q, c, acc, p, released);
            next.Some? ==> Proven(q, c.requestId, c.transaction, next.value)
  {
    if Collect(q, c, acc, p, released).Some? { MatchExactly(q, c, p, released); }
  }

  /** What the loops accept is proved Demand by Demand by what its own Payee signed. */
  lemma {:induction false} CollectAllProves(q: QuoteRecord, c: Completion, ps: seq<Proof>, released: Released)
    requires QuoteOk(q)
    ensures var r := CollectAll(q, c, ps, released); r.Some? ==> Proven(q, c.requestId, c.transaction, r.value)
  {
    if ps != [] {
      CollectAllProves(q, c, ps[..|ps| - 1], released);
      var before := CollectAll(q, c, ps[..|ps| - 1], released);
      if before.Some? { CollectProves(q, c, before.value, ps[|ps| - 1], released); }
    }
  }

  lemma ProofsComeFrom(c: Completion)
    ensures forall r :: ByReceipt(r) in ProofsOf(c) ==> r in c.receipts
    ensures forall b :: ByOutput(b) in ProofsOf(c) ==> b in c.authorizedOutputs
  {
  }

  // ---------------------------------------------------------- counting Demands

  lemma CoversDemands(q: QuoteRecord, tx: Transaction, acc: Collected)
    requires CollectedOk(q, tx, acc)
    requires |acc.receipts| + |acc.authorized| == |q.demands|
    ensures acc.receipts.Keys + acc.authorized.Keys == q.demands.Keys
  {
    var keys := acc.receipts.Keys + acc.authorized.Keys;
    DisjointSizes(acc.receipts.Keys, acc.authorized.Keys);
    SubsetOfSameSize(keys, q.demands.Keys);
  }

  lemma DisjointSizes(a: set<nat>, b: set<nat>)
    requires a !! b
    ensures |a + b| == |a| + |b|
  {
  }

  lemma EveryDemandProved(q: QuoteRecord, tx: Transaction, acc: Collected)
    requires CollectedOk(q, tx, acc) && |acc.receipts| + |acc.authorized| == |q.demands|
    ensures forall d :: d in q.demands ==> d in acc.receipts || d in acc.authorized
  {
    CoversDemands(q, tx, acc);
    forall d | d in q.demands ensures d in acc.receipts || d in acc.authorized {
      assert d in q.demands.Keys;
    }
  }

  /** The size check compares numbers only, and still decides whether every Demand has its proof. */
  lemma SizeCheckCovers(q: QuoteRecord, tx: Transaction, acc: Collected)
    requires CollectedOk(q, tx, acc)
    ensures |acc.receipts| + |acc.authorized| == |q.demands|
       <==> forall d :: d in q.demands ==> d in acc.receipts || d in acc.authorized
  {
    SizesCover(acc.receipts.Keys, acc.authorized.Keys, q.demands.Keys);
    assert |acc.receipts.Keys| == |acc.receipts| && |acc.authorized.Keys| == |acc.authorized| && |q.demands.Keys| == |q.demands|;
  }

  lemma SizesCover(a: set<nat>, b: set<nat>, all: set<nat>)
    requires a !! b && a + b <= all
    ensures |a| + |b| == |all| <==> forall d :: d in all ==> d in a || d in b
  {
    DisjointSizes(a, b);
    if |a| + |b| == |all| { SubsetOfSameSize(a + b, all); }
    if forall d :: d in all ==> d in a || d in b { assert a + b == all; }
  }

  lemma IndexCoversUsed(q: QuoteRecord, tx: Transaction, acc: Collected)
    requires CollectedOk(q, tx, acc) && acc.receipts.Keys + acc.authorized.Keys == q.demands.Keys
    ensures PaysEach(q, tx, acc)
  {
    forall d | d in Demanded(q)
      ensures d >= 0 && (d in acc.receipts || d in acc.authorized)
    {
      assert d in q.demands.Keys;
    }
    forall x | x in acc.used ensures exists d :: d in Demanded(q) && Settles(acc, d) == x {
      var d: nat :| (d in acc.receipts || d in acc.authorized) && Settles(acc, d) == x;
      assert d in acc.receipts.Keys + acc.authorized.Keys;
      assert d in Demanded(q);
    }
  }

  lemma {:induction false} SubsetOfSameSize(a: set<nat>, b: set<nat>)
    requires a <= b && |a| == |b|
    ensures a == b
  {
    if a != {} {
      var x :| x in a;
      SubsetOfSameSize(a - {x}, b - {x});
    }
  }

  lemma {:induction false} SumThroughSettles(keys: set<int>, acc: Collected, f: int -> nat, g: int -> nat)
    requires forall d :: d in keys ==> f(d) == g(Settles(acc, d))
    requires forall d, e :: d in keys && e in keys && Settles(acc, d) == Settles(acc, e) ==> d == e
    ensures SumOver(set d | d in keys :: Settles(acc, d), g) == SumOver(keys, f)
  {
    if x :| x in keys {
      var image := set d | d in keys :: Settles(acc, d);
      SumWithout(keys, f, x);
      SumThroughSettles(keys - {x}, acc, f, g);
      SumWithout(image, g, Settles(acc, x));
      assert image - {Settles(acc, x)} == set d | d in keys - {x} :: Settles(acc, d);
    }
  }
}
