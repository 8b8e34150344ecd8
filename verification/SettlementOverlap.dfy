/** A concrete run in which two overlapping completions of one request each issue a License. */
module SettlementOverlap {
  import opened Common
  import opened SettlementModel
  import opened SettlementServer
  import opened SettlementMachine
  import opened SettlementRuns

  /** The completion is ready to issue: its receipts alone prove every Demand of the Quote held for it. */
  ghost predicate Ready(w: World, c: Completion, q: QuoteRecord, acc: Collected) {
    && c.requestId in w.server.quotes && w.server.quotes[c.requestId] == q && q.quote == c.quote
    && c.authorizedOutputs == [] && CollectAll(q, c, ProofsOf(c)[..|c.receipts|], w.released) == Some(acc)
    && |acc.receipts| + |acc.authorized| == |q.demands|
    && (forall d :: d in q.demands ==> d in acc.receipts || d in acc.authorized)
  }

  lemma Begins(w: World, id: nat, c: Completion, q: QuoteRecord, acc: Collected)
    requires Ready(w, c, q, acc) && id !in w.handlers
    ensures Next(w, BeginComplete(id, c)) == With(w, id, Completing(c, q, acc, 0))
  {
  }

  lemma Checks(w: World, id: nat, c: Completion, q: QuoteRecord, acc: Collected)
    requires Ready(w, c, q, acc) && c.requestId !in w.server.licenses
    requires id in w.handlers && w.handlers[id] == Completing(c, q, acc, 0)
    ensures Next(w, Move(id, 0)) == With(w, id, Issuing(c, q, acc))
  {
  }

  function Overlapping(c: Completion, a: nat, b: nat, first: nat, second: nat): seq<Step> {
    [BeginComplete(a, c), BeginComplete(b, c), Move(a, 0), Move(b, 0), Move(a, first), Move(b, second)]
  }

  /** Both calls find no License, and so both issue one. */
  lemma BothIssue(w: World, c: Completion, q: QuoteRecord, acc: Collected, a: nat, b: nat, first: nat, second: nat)
    requires Ready(w, c, q, acc) && c.requestId !in w.server.licenses && a != b && a !in w.handlers && b !in w.handlers
    ensures forall now :: now == first || now == second ==>
              Issue(LicenseOf(c.requestId, now, q, acc), q, c.transaction, acc)
              in Run(w, Overlapping(c, a, b, first, second)).issued
  {
    var w1 := With(w, a, Completing(c, q, acc, 0));
    var w2 := With(w1, b, Completing(c, q, acc, 0));
    var w3 := With(w2, a, Issuing(c, q, acc));
    var w4 := With(w3, b, Issuing(c, q, acc));
    Begins(w, a, c, q, acc);
    Begins(w1, b, c, q, acc);
    Checks(w2, a, c, q, acc);
    Checks(w3, b, c, q, acc);
    var w5 := Next(w4, Move(a, first));
    var w6 := Next(w5, Move(b, second));
    SecondIssues(w4, c, q, acc, a, b, first, second);
    SixSteps(w, w1, w2, w3, w4, w5, w6, Overlapping(c, a, b, first, second));
  }

  lemma SecondIssues(w: World, c: Completion, q: QuoteRecord, acc: Collected, a: nat, b: nat, first: nat, second: nat)
    requires Ready(w, c, q, acc) && a != b && a in w.handlers && b in w.handlers
    requires w.handlers[a] == w.handlers[b] == Issuing(c, q, acc)
    ensures forall now :: now == first || now == second ==>
              Issue(LicenseOf(c.requestId, now, q, acc), q, c.transaction, acc)
              in Next(Next(w, Move(a, first)), Move(b, second)).issued
  {
    Issues(w, a, c, q, acc, first);
    Issues(Next(w, Move(a, first)), b, c, q, acc, second);
  }

  lemma SixSteps(w: World, w1: World, w2: World, w3: World, w4: World, w5: World, w6: World, s: seq<Step>)
    requires |s| == 6
    requires Next(w, s[0]) == w1 && Next(w1, s[1]) == w2 && Next(w2, s[2]) == w3
    requires Next(w3, s[3]) == w4 && Next(w4, s[4]) == w5 && Next(w5, s[5]) == w6
    ensures Run(w, s) == w6
  {
    RunSplits(w, s[..3], s[3..]);
    ThreeSteps(w, w1, w2, w3, s[..3]);
    ThreeSteps(w3, w4, w5, w6, s[3..]);
    assert s == s[..3] + s[3..];
  }

  lemma ThreeSteps(w: World, w1: World, w2: World, w3: World, s: seq<Step>)
    requires |s| == 3 && Next(w, s[0]) == w1 && Next(w1, s[1]) == w2 && Next(w2, s[2]) == w3
    ensures Run(w, s) == w3
  {
    assert s[1..][0] == s[1] && s[1..][1..] == s[2..] && s[2..][0] == s[2] && s[2..][1..] == [];
    assert Run(w3, []) == w3;
    assert Run(w2, s[2..]) == Run(w3, []);
    assert Run(w1, s[1..]) == Run(w2, s[2..]);
  }

  // ------------------------------------------------------- from the start

  function PaidBy(p: Payee): Transaction { Transaction([Output(Some(p.satoshis), 0)], 0) }

  function PaidCompletion(p: Payee, r: nat, quote: nat): Completion {
    Completion(r, quote, PaidBy(p), [Receipt(true, 0, r, p.identity, PaidBy(p), 0, p.satoshis)], [])
  }

  function QuoteFor(p: Payee, r: nat, quote: nat): QuoteRecord { QuoteRecord(quote, map[0 := DemandFor(r, p, 0)]) }

  function QuoteSteps(r: nat, quote: nat): seq<Step> { [BeginQuote(0, r), Move(0, 0), Move(0, quote)] }

  lemma IsQuoted(p: Payee, r: nat, quote: nat)
    ensures var w := Run(Installed([p]), QuoteSteps(r, quote));
            && w.server == FRESH.(quotes := map[r := QuoteFor(p, r, quote)], demandIndex := map[0 := DemandFor(r, p, 0)])
            && w.handlers == map[] && w.released == Released({}, {}, {})
  {
    var w := Installed([p]);
    var w1 := With(w, 0, Quoting(r, map[], [p]));
    var w2 := Next(w1, Move(0, 0));
    var w3 := Next(w2, Move(0, quote));
    assert w2.handlers[0] == Quoting(r, map[0 := DemandFor(r, p, 0)], []);
    ThreeSteps(w, w1, w2, w3, QuoteSteps(r, quote));
  }

  lemma OneReceiptSettles(p: Payee, r: nat, quote: nat, released: Released)
    ensures var c, q := PaidCompletion(p, r, quote), QuoteFor(p, r, quote);
            CollectAll(q, c, ProofsOf(c)[..1], released) == Some(Collected(map[0 := c.receipts[0]], map[], {0}))
  {
    var c, q := PaidCompletion(p, r, quote), QuoteFor(p, r, quote);
    var ps := ProofsOf(c)[..1];
    assert ps == [ByReceipt(c.receipts[0])] && ps[..0] == [];
    assert CollectAll(q, c, [], released) == Some(NOTHING);
    assert ProofMatches(q, c, ps[0], released);
    assert NOTHING.receipts[0 := c.receipts[0]] == map[0 := c.receipts[0]] && NOTHING.used + {0} == {0};
    assert Collect(q, c, NOTHING, ps[0], released) == Some(Collected(map[0 := c.receipts[0]], map[], {0}));
    assert ps[..|ps| - 1] == [] && ps[|ps| - 1] == ps[0];
  }

  /**
    Overlapping calls can issue twice. For every Payee there is a run from the empty
    installation in which one request is completed by two overlapping calls, and two
    different Licenses are issued for it, each paid by the same transaction.
  */
  lemma OverlapIssuesTwice(p: Payee, r: nat, quote: nat, first: nat, second: nat) returns (steps: seq<Step>)
    requires first != second
    ensures var issued := Run(Installed([p]), steps).issued;
            exists i, j :: i in issued && j in issued && i.license != j.license && i.license.requestId == r == j.license.requestId
                           && i.quote == j.quote && i.transaction == j.transaction
  {
    var c, q := PaidCompletion(p, r, quote), QuoteFor(p, r, quote);
    var acc := Collected(map[0 := c.receipts[0]], map[], {0});
    var w := Run(Installed([p]), QuoteSteps(r, quote));
    IsQuoted(p, r, quote);
    OneReceiptSettles(p, r, quote, w.released);
    assert |acc.receipts| == 1 && |q.demands| == 1;
    BothIssue(w, c, q, acc, 1, 2, first, second);
    steps := QuoteSteps(r, quote) + Overlapping(c, 1, 2, first, second);
    RunSplits(Installed([p]), QuoteSteps(r, quote), Overlapping(c, 1, 2, first, second));
    var i := Issue(LicenseOf(r, first, q, acc), q, c.transaction, acc);
    var j := Issue(LicenseOf(r, second, q, acc), q, c.transaction, acc);
    assert i.license.issuedAt == first && j.license.issuedAt == second;
  }
}
