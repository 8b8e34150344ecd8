/** Keyset paging over the unspent outputs that the Mandala engine has admitted. */
module Paging {
  import opened Common
  import opened Ordering

  datatype Outpoint = Outpoint(txid: string, outputIndex: int)

  /** Negative, zero or positive, as a sort comparator. */
  function ByOutpoint(left: Outpoint, right: Outpoint): int {
    if StringLess(left.txid, right.txid) then -1
    else if StringLess(right.txid, left.txid) then 1
    else left.outputIndex - right.outputIndex
  }

  predicate Before(left: Outpoint, right: Outpoint) { ByOutpoint(left, right) < 0 }

  /** The filter on the cursor, written out as in the reader. */
  predicate Beyond(o: Outpoint, after: Option<Outpoint>) {
    match after
    case None => true
    case Some(a) => StringLess(a.txid, o.txid) || (o.txid == a.txid && o.outputIndex > a.outputIndex)
  }

  function Filter(s: seq<Outpoint>, after: Option<Outpoint>): seq<Outpoint> {
    if s == [] then [] else (if Beyond(s[0], after) then [s[0]] else []) + Filter(s[1..], after)
  }

  /** `slice(0, limit)`; a negative limit counts from the end. */
  function SliceTo(s: seq<Outpoint>, limit: int): seq<Outpoint> {
    var end := if limit < 0 then |s| + limit else limit;
    if end <= 0 then [] else if end >= |s| then s else s[..end]
  }

  function ListUnspentAdmittedOutputs(stored: seq<Outpoint>, after: Option<Outpoint>, limit: int): seq<Outpoint> {
    SliceTo(Filter(Sort(stored, Before), after), limit)
  }

  lemma ByOutpointIsStrictTotalOrder()
    ensures StrictTotalOrder(Before)
    ensures forall o, a :: Beyond(o, Some(a)) <==> ByOutpoint(o, a) > 0
  {
    forall x: Outpoint, y: Outpoint
      ensures !Before(x, x)
      ensures Before(x, y) || Before(y, x) || x == y
      ensures Beyond(x, Some(y)) <==> ByOutpoint(x, y) > 0
    {
      StringTrichotomy(x.txid, y.txid);
      StringTrichotomy(x.txid, x.txid);
    }
    forall x, y, z | Before(x, y) && Before(y, z) ensures Before(x, z) {
      StringTrichotomy(x.txid, y.txid);
      StringTrichotomy(y.txid, z.txid);
      StringTrichotomy(x.txid, z.txid);
      if StringLess(x.txid, y.txid) && StringLess(y.txid, z.txid) { StringTransitive(x.txid, y.txid, z.txid); }
    }
  }

  /** What comes before what: the transaction ids decide by their first difference, and then the output indices. */
  lemma BeforeExactly(x: Outpoint, y: Outpoint)
    ensures Before(x, y) <==> (exists k: nat :: DiffersAt(x.txid, y.txid, k)) || (x.txid == y.txid && x.outputIndex < y.outputIndex)
  {
    StringLessExactly(x.txid, y.txid);
    StringLessExactly(y.txid, x.txid);
    StringTrichotomy(x.txid, y.txid);
  }

  /** Whatever the limit, a page is a beginning of what lies beyond the cursor; a negative limit leaves that many out. */
  lemma PageLength(stored: seq<Outpoint>, after: Option<Outpoint>, limit: int)
    ensures var page, all := ListUnspentAdmittedOutputs(stored, after, limit), Filter(Sort(stored, Before), after);
            && page <= all
            && (limit >= 0 ==> |page| == limit || (|page| < limit && page == all))
            && (limit < 0 ==> |page| == |all| + limit || (|page| == 0 && |all| + limit < 0))
  {
  }

  lemma {:induction false} FilterAscends(s: seq<Outpoint>, after: Option<Outpoint>)
    requires Ascending(s, Before)
    ensures Ascending(Filter(s, after), Before)
    ensures forall o :: o in Filter(s, after) <==> o in s && Beyond(o, after)
  {
    if s != [] {
      FilterAscends(s[1..], after);
      assert s == [s[0]] + s[1..];
      forall o | o in s[1..] ensures Before(s[0], o) {
        var i :| 0 <= i < |s[1..]| && s[1..][i] == o;
        assert s[i + 1] == o;
      }
      var rest := Filter(s[1..], after);
      forall j | 0 <= j < |rest| ensures Before(s[0], rest[j]) {
        assert rest[j] in rest;
      }
    }
  }

  /** One page: ascending, beyond the cursor, and anything beyond it that is missing comes after a full page. */
  lemma PageIsPrefix(stored: seq<Outpoint>, after: Option<Outpoint>, limit: int)
    requires Distinct(stored) && limit >= 1
    ensures var page := ListUnspentAdmittedOutputs(stored, after, limit);
            && Ascending(page, Before) && |page| <= limit
            && (forall o :: o in page ==> o in stored && Beyond(o, after))
            && (forall o :: o in stored && Beyond(o, after) && o !in page ==> |page| == limit && Before(page[|page| - 1], o))
  {
    ByOutpointIsStrictTotalOrder();
    SortSorts(stored, Before);
    FilterAscends(Sort(stored, Before), after);
    SliceKeeps(Filter(Sort(stored, Before), after), limit);
  }

  lemma SliceKeeps(all: seq<Outpoint>, limit: int)
    requires Ascending(all, Before) && limit >= 1
    ensures var page := SliceTo(all, limit);
            && Ascending(page, Before) && |page| <= limit && page <= all
            && (forall o :: o in page ==> o in all)
            && (forall o :: o in all && o !in page ==> |page| == limit && Before(page[|page| - 1], o))
  {
    var page := SliceTo(all, limit);
    assert page == all[..|page|];
    forall h | 0 <= h < |page| ensures all[h] in page { assert all[h] == page[h]; }
    forall o | o in all && o !in page ensures |page| == limit && Before(page[|page| - 1], o) {
      var i :| 0 <= i < |all| && all[i] == o;
      assert page[|page| - 1] == all[|page| - 1];
    }
  }

  // --------------------------------------------------------------------- scans

  datatype Scanned = Scanned(outputs: seq<Outpoint>, finished: bool)

  /** Feeds each page's last outpoint back; the store may differ at every page. An empty page ends the scan. */
  function Scan(snapshots: seq<seq<Outpoint>>, after: Option<Outpoint>, limit: int): Scanned
    decreases |snapshots|
  {
    if snapshots == [] then Scanned([], false) else
    var page := ListUnspentAdmittedOutputs(snapshots[0], after, limit);
    if page == [] then Scanned([], true) else
    var rest := Scan(snapshots[1..], Some(page[|page| - 1]), limit);
    Scanned(page + rest.outputs, rest.finished)
  }

  ghost predicate AllDistinct(snapshots: seq<seq<Outpoint>>) {
    forall k :: 0 <= k < |snapshots| ==> Distinct(snapshots[k])
  }

  ghost predicate Throughout(o: Outpoint, snapshots: seq<seq<Outpoint>>) {
    forall k :: 0 <= k < |snapshots| ==> o in snapshots[k]
  }

  /** What a scan from a cursor promises. */
  ghost predicate Faithful(r: Scanned, snapshots: seq<seq<Outpoint>>, after: Option<Outpoint>) {
    && Ascending(r.outputs, Before)
    && (forall o :: o in r.outputs ==> Beyond(o, after) && InSome(o, snapshots))
    && (r.finished ==> forall o :: Throughout(o, snapshots) && Beyond(o, after) ==> o in r.outputs)
  }

  ghost predicate InSome(o: Outpoint, snapshots: seq<seq<Outpoint>>) {
    exists k :: 0 <= k < |snapshots| && o in snapshots[k]
  }

  /**
    Paging under change. A finished scan is in strictly ascending order, so nothing
    is visited twice; everything visited was stored when its page was read; and every
    output that was there throughout was visited, whatever else came and went.
  */
  lemma {:induction false} ScanVisitsWhatStays(snapshots: seq<seq<Outpoint>>, after: Option<Outpoint>, limit: int)
    requires AllDistinct(snapshots) && limit >= 1
    ensures Faithful(Scan(snapshots, after, limit), snapshots, after)
    decreases |snapshots|
  {
    if snapshots != [] {
      var page := ListUnspentAdmittedOutputs(snapshots[0], after, limit);
      PageIsPrefix(snapshots[0], after, limit);
      if page == [] {
        assert forall o :: Throughout(o, snapshots) ==> o in snapshots[0];
      } else {
        var last := page[|page| - 1];
        ScanVisitsWhatStays(snapshots[1..], Some(last), limit);
        JoinPages(snapshots, after, limit, page);
      }
    }
  }

  lemma JoinPages(snapshots: seq<seq<Outpoint>>, after: Option<Outpoint>, limit: int, page: seq<Outpoint>)
    requires snapshots != [] && limit >= 1 && Distinct(snapshots[0])
    requires page == ListUnspentAdmittedOutputs(snapshots[0], after, limit) && page != []
    requires Faithful(Scan(snapshots[1..], Some(page[|page| - 1]), limit), snapshots[1..], Some(page[|page| - 1]))
    ensures Faithful(Scan(snapshots, after, limit), snapshots, after)
  {
    PageIsPrefix(snapshots[0], after, limit);
    JoinIsFaithful(snapshots, after, page, Scan(snapshots[1..], Some(page[|page| - 1]), limit));
  }

  lemma JoinIsFaithful(snapshots: seq<seq<Outpoint>>, after: Option<Outpoint>, page: seq<Outpoint>, rest: Scanned)
    requires snapshots != [] && page != [] && Ascending(page, Before)
    requires forall o :: o in page ==> o in snapshots[0] && Beyond(o, after)
    requires forall o :: o in snapshots[0] && Beyond(o, after) && o !in page ==> Before(page[|page| - 1], o)
    requires Faithful(rest, snapshots[1..], Some(page[|page| - 1]))
    ensures Faithful(Scanned(page + rest.outputs, rest.finished), snapshots, after)
  {
    assert page[|page| - 1] in page;
    JoinAscends(page, rest.outputs);
    JoinVisits(snapshots, after, page, rest.outputs);
    if rest.finished { JoinMissesNothing(snapshots, after, page, rest.outputs); }
  }

  /** Everything on the page and after it lies beyond the first cursor and was stored when it was read. */
  lemma JoinVisits(snapshots: seq<seq<Outpoint>>, after: Option<Outpoint>, page: seq<Outpoint>, rest: seq<Outpoint>)
    requires snapshots != [] && page != [] && Beyond(page[|page| - 1], after)
    requires forall o :: o in page ==> o in snapshots[0] && Beyond(o, after)
    requires forall o :: o in rest ==> Beyond(o, Some(page[|page| - 1])) && InSome(o, snapshots[1..])
    ensures forall o :: o in page + rest ==> Beyond(o, after) && InSome(o, snapshots)
  {
    forall o | o in rest ensures Beyond(o, after) && InSome(o, snapshots) {
      var k :| 0 <= k < |snapshots[1..]| && o in snapshots[1..][k];
      assert snapshots[k + 1] == snapshots[1..][k];
      BeyondTransitive(after, page[|page| - 1], o);
    }
    forall o | o in page ensures InSome(o, snapshots) { assert o in snapshots[0]; }
  }

  /** What is not on the page comes after its last outpoint, and so the rest of the scan meets it. */
  lemma JoinMissesNothing(snapshots: seq<seq<Outpoint>>, after: Option<Outpoint>, page: seq<Outpoint>, rest: seq<Outpoint>)
    requires snapshots != [] && page != []
    requires forall o :: o in snapshots[0] && Beyond(o, after) && o !in page ==> Before(page[|page| - 1], o)
    requires forall o :: Throughout(o, snapshots[1..]) && Beyond(o, Some(page[|page| - 1])) ==> o in rest
    ensures forall o :: Throughout(o, snapshots) && Beyond(o, after) ==> o in page + rest
  {
    forall o | Throughout(o, snapshots) && Beyond(o, after) && o !in page ensures o in rest {
      assert o in snapshots[0];
      assert forall k :: 0 <= k < |snapshots[1..]| ==> snapshots[1..][k] == snapshots[k + 1];
      BeyondIsBefore(page[|page| - 1], o);
    }
  }

  lemma BeyondTransitive(after: Option<Outpoint>, last: Outpoint, o: Outpoint)
    requires Beyond(last, after) && Beyond(o, Some(last))
    ensures Beyond(o, after)
  {
    if after.Some? {
      ByOutpointIsStrictTotalOrder();
      BeyondIsBefore(last, o);
      BeyondIsBefore(after.value, last);
      BeyondIsBefore(after.value, o);
    }
  }

  lemma JoinAscends(page: seq<Outpoint>, rest: seq<Outpoint>)
    requires page != [] && Ascending(page, Before) && Ascending(rest, Before)
    requires forall o :: o in rest ==> Beyond(o, Some(page[|page| - 1]))
    ensures Ascending(page + rest, Before)
  {
    ByOutpointIsStrictTotalOrder();
    var last := page[|page| - 1];
    forall i, j | 0 <= i < |page| && 0 <= j < |rest| ensures Before(page[i], rest[j]) {
      assert rest[j] in rest;
      BeyondIsBefore(last, rest[j]);
      assert i < |page| - 1 ==> Before(page[i], last);
    }
  }

  lemma BeyondIsBefore(a: Outpoint, o: Outpoint)
    ensures Beyond(o, Some(a)) <==> Before(a, o)
  {
    StringTrichotomy(o.txid, a.txid);
  }

  /** What of a fixed store lies beyond the cursor. */
  function Remaining(stored: seq<Outpoint>, after: Option<Outpoint>): set<Outpoint> {
    set o | o in stored && Beyond(o, after)
  }

  /** The same store at every page. */
  function Fixed(stored: seq<Outpoint>, n: nat): seq<seq<Outpoint>> {
    if n == 0 then [] else [stored] + Fixed(stored, n - 1)
  }

  lemma {:induction false} FixedEverywhere(stored: seq<Outpoint>, n: nat)
    ensures |Fixed(stored, n)| == n && forall k :: 0 <= k < n ==> Fixed(stored, n)[k] == stored
  {
    if n > 0 { FixedEverywhere(stored, n - 1); }
  }

  /** On a fixed store every nonempty page leaves less, so the scan ends. */
  lemma {:induction false} FixedScanFinishes(stored: seq<Outpoint>, n: nat, after: Option<Outpoint>, limit: int)
    requires Distinct(stored) && limit >= 1 && n > |Remaining(stored, after)|
    ensures Scan(Fixed(stored, n), after, limit).finished
    decreases n
  {
    var last := FirstOfFixedScan(stored, n, after, limit);
    if last.Some? {
      RemainingShrinks(stored, after, last.value);
      FixedScanFinishes(stored, n - 1, last, limit);
    }
  }

  /** One page of a scan of a fixed store: it ends the scan, or hands over its last outpoint as the next cursor. */
  lemma FirstOfFixedScan(stored: seq<Outpoint>, n: nat, after: Option<Outpoint>, limit: int) returns (last: Option<Outpoint>)
    requires Distinct(stored) && limit >= 1 && n > 0
    ensures last.None? ==> Scan(Fixed(stored, n), after, limit).finished
    ensures last.Some? ==>
              && last.value in stored && Beyond(last.value, after)
              && Scan(Fixed(stored, n), after, limit).finished == Scan(Fixed(stored, n - 1), last, limit).finished
  {
    var page := ListUnspentAdmittedOutputs(stored, after, limit);
    assert Fixed(stored, n)[0] == stored && Fixed(stored, n)[1..] == Fixed(stored, n - 1);
    PageIsPrefix(stored, after, limit);
    if page == [] {
      last := None;
    } else {
      assert page[|page| - 1] in page;
      last := Some(page[|page| - 1]);
    }
  }

  lemma RemainingShrinks(stored: seq<Outpoint>, after: Option<Outpoint>, last: Outpoint)
    requires last in stored && Beyond(last, after)
    ensures |Remaining(stored, Some(last))| < |Remaining(stored, after)|
  {
    ByOutpointIsStrictTotalOrder();
    var now, next := Remaining(stored, after), Remaining(stored, Some(last));
    forall o | o in next ensures o in now && o != last {
      BeyondIsBefore(last, o);
      if after.Some? {
        BeyondIsBefore(after.value, last);
        BeyondIsBefore(after.value, o);
      }
    }
    assert next <= now - {last};
    SubsetSize(next, now - {last});
  }

  /** On a fixed store the scan from the start is exactly the sorted whole. */
  lemma FixedScanIsSorted(stored: seq<Outpoint>, limit: int)
    requires Distinct(stored) && limit >= 1
    ensures Scan(Fixed(stored, |stored| + 1), None, limit) == Scanned(Sort(stored, Before), true)
  {
    var snapshots := Fixed(stored, |stored| + 1);
    FixedScanVisitsAll(stored, limit);
    ByOutpointIsStrictTotalOrder();
    SortSorts(stored, Before);
    AscendingUnique(Scan(snapshots, None, limit).outputs, Sort(stored, Before), Before);
  }

  lemma FixedScanVisitsAll(stored: seq<Outpoint>, limit: int)
    requires Distinct(stored) && limit >= 1
    ensures var r := Scan(Fixed(stored, |stored| + 1), None, limit);
            r.finished && Ascending(r.outputs, Before) && forall o :: o in r.outputs <==> o in stored
  {
    var snapshots := Fixed(stored, |stored| + 1);
    FixedEverywhere(stored, |stored| + 1);
    MembersAtMostLength(stored);
    SubsetSize(Remaining(stored, None), set o | o in stored);
    FixedScanFinishes(stored, |stored| + 1, None, limit);
    ScanVisitsWhatStays(snapshots, None, limit);
    FixedScanMembers(stored, snapshots, Scan(snapshots, None, limit).outputs);
  }

  lemma FixedScanMembers(stored: seq<Outpoint>, snapshots: seq<seq<Outpoint>>, outputs: seq<Outpoint>)
    requires forall k :: 0 <= k < |snapshots| ==> snapshots[k] == stored
    requires forall o :: o in outputs ==> InSome(o, snapshots)
    requires forall o :: Throughout(o, snapshots) && Beyond(o, None) ==> o in outputs
    ensures forall o :: o in outputs <==> o in stored
  {
    forall o | o in stored ensures o in outputs {
      assert Throughout(o, snapshots);
    }
  }
}
