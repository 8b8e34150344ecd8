/**
  The publisher of bulk-header snapshots: complete generations behind one pointer.
  `luck` counts the filesystem calls that still succeed; when it runs out the call
  fails, and a crash also skips the cleanup that an exception would run. A removal
  that fails may have deleted part of its folder; `wreck` says what it leaves.
*/
module Snapshot {
  import opened Common
  import opened Ordering

  // ---------------------------------------------------------------- manifests

  datatype ManifestFile = ManifestFile(fileName: string, count: int, fileHash: nat, firstHeight: int)

  datatype Content = Content(size: nat, digest: nat)

  /** A generation's folder; the manifest is None when it is missing or malformed. */
  datatype Folder = Folder(manifest: Option<seq<ManifestFile>>, files: map<string, Content>)

  const SUFFIX := ".headers"

  predicate SafeName(name: string) {
    '/' !in name && |name| >= |SUFFIX| && name[|name| - |SUFFIX|..] == SUFFIX
  }

  /** The checks on one entry that do not look at the others. */
  predicate EntryMatches(folder: Folder, file: ManifestFile) {
    && SafeName(file.fileName)
    && 1 <= file.count <= MAX_SAFE_INTEGER
    && file.fileName in folder.files
    && folder.files[file.fileName] == Content(file.count * 80, file.fileHash)
  }

  function SumCounts(files: seq<ManifestFile>): int {
    if files == [] then 0 else SumCounts(files[..|files| - 1]) + files[|files| - 1].count
  }

  function SumSizes(folder: Folder, files: seq<ManifestFile>): int {
    if files == [] then 0
    else SumSizes(folder, files[..|files| - 1])
         + if files[|files| - 1].fileName in folder.files then folder.files[files[|files| - 1].fileName].size else 0
  }

  /** Every entry matches its file and starts where the entries before it end. */
  ghost predicate Accepted(folder: Folder) {
    folder.manifest.Some? && AcceptedFiles(folder, folder.manifest.value)
  }

  ghost predicate AcceptedFiles(folder: Folder, files: seq<ManifestFile>) {
    forall i :: 0 <= i < |files| ==> EntryAccepted(folder, files, i)
  }

  predicate EntryAccepted(folder: Folder, files: seq<ManifestFile>, i: nat)
    requires i < |files|
  {
    EntryMatches(folder, files[i]) && files[i].firstHeight == SumCounts(files[..i])
  }

  function ManifestMaxHeight(files: seq<ManifestFile>): int {
    if files == [] then -1 else files[|files| - 1].firstHeight + files[|files| - 1].count - 1
  }

  predicate InRange(file: ManifestFile, height: int) { file.firstHeight <= height < file.firstHeight + file.count }

  method ValidateGeneration(folder: Folder) returns (manifest: Option<seq<ManifestFile>>)
    ensures manifest.Some? <==> Accepted(folder)
    ensures manifest.Some? ==> manifest == folder.manifest
  {
    if folder.manifest.None? { return None; }
    var files := folder.manifest.value;
    var expectedFirstHeight := 0;
    for i := 0 to |files|
      invariant forall k :: 0 <= k < i ==> EntryAccepted(folder, files, k)
      invariant expectedFirstHeight == SumCounts(files[..i])
    {
      var file := files[i];
      assert EntryAccepted(folder, files, i) <==> EntryMatches(folder, file) && file.firstHeight == expectedFirstHeight;
      if !EntryMatches(folder, file) || file.firstHeight != expectedFirstHeight { return None; }
      expectedFirstHeight := expectedFirstHeight + file.count;
      assert files[..i + 1][..i] == files[..i];
    }
    manifest := Some(files);
  }

  ghost predicate InSome(files: seq<ManifestFile>, height: int) {
    exists i :: 0 <= i < |files| && InRange(files[i], height)
  }

  /** An accepted manifest partitions the chain: every height up to the maximum is in exactly one entry. */
  lemma AcceptedManifestPartitions(folder: Folder, files: seq<ManifestFile>)
    requires AcceptedFiles(folder, files)
    ensures SumCounts(files) == ManifestMaxHeight(files) + 1
    ensures SumSizes(folder, files) == 80 * (ManifestMaxHeight(files) + 1)
    ensures forall h :: InSome(files, h) <==> 0 <= h <= ManifestMaxHeight(files)
    ensures forall h, i, j :: 0 <= i < |files| && 0 <= j < |files| && InRange(files[i], h) && InRange(files[j], h) ==> i == j
  {
    CountsReachMaximum(folder, files);
    forall h ensures InSome(files, h) <==> 0 <= h <= ManifestMaxHeight(files) {
      CoversItsHeights(folder, files, h);
    }
    forall h, i, j | 0 <= i < j < |files| && InRange(files[i], h) && InRange(files[j], h) ensures false {
      RangesFollow(folder, files, i, j);
    }
  }

  lemma {:induction false} CountsReachMaximum(folder: Folder, files: seq<ManifestFile>)
    requires AcceptedFiles(folder, files)
    ensures SumCounts(files) == ManifestMaxHeight(files) + 1
    ensures SumSizes(folder, files) == 80 * SumCounts(files)
  {
    if files != [] {
      AcceptedPrefix(folder, files);
      assert EntryAccepted(folder, files, |files| - 1);
      CountsReachMaximum(folder, files[..|files| - 1]);
    }
  }

  lemma AcceptedPrefix(folder: Folder, files: seq<ManifestFile>)
    requires AcceptedFiles(folder, files) && files != []
    ensures AcceptedFiles(folder, files[..|files| - 1])
    ensures files[|files| - 1].firstHeight == SumCounts(files[..|files| - 1]) && files[|files| - 1].count >= 1
  {
    var n := |files| - 1;
    assert EntryAccepted(folder, files, n);
    forall i | 0 <= i < n ensures EntryAccepted(folder, files[..n], i) {
      assert EntryAccepted(folder, files, i) && files[..n][i] == files[i] && files[..n][..i] == files[..i];
    }
  }

  lemma InSomeSplits(files: seq<ManifestFile>, h: int)
    requires files != []
    ensures InSome(files, h) <==> InSome(files[..|files| - 1], h) || InRange(files[|files| - 1], h)
  {
  }

  lemma {:induction false} CoversItsHeights(folder: Folder, files: seq<ManifestFile>, h: int)
    requires AcceptedFiles(folder, files)
    ensures InSome(files, h) <==> 0 <= h < SumCounts(files)
  {
    if files != [] {
      AcceptedPrefix(folder, files);
      CoversItsHeights(folder, files[..|files| - 1], h);
      InSomeSplits(files, h);
      CountsNotNegative(folder, files[..|files| - 1]);
    }
  }

  lemma {:induction false} CountsNotNegative(folder: Folder, files: seq<ManifestFile>)
    requires AcceptedFiles(folder, files)
    ensures SumCounts(files) >= 0
  {
    if files != [] {
      AcceptedPrefix(folder, files);
      CountsNotNegative(folder, files[..|files| - 1]);
    }
  }

  /** A later entry starts at or after the end of an earlier one. */
  lemma {:induction false} RangesFollow(folder: Folder, files: seq<ManifestFile>, i: nat, j: nat)
    requires AcceptedFiles(folder, files) && i < j < |files|
    ensures files[i].firstHeight + files[i].count <= files[j].firstHeight
    decreases j
  {
    assert files[..j][..j - 1] == files[..j - 1] && files[..j][j - 1] == files[j - 1];
    assert EntryAccepted(folder, files, j - 1) && EntryAccepted(folder, files, j);
    if i < j - 1 { RangesFollow(folder, files, i, j - 1); }
  }

  /** The entry names a file of its own folder whose size and digest are as it says, and follows the heights before it. */
  predicate EntryHolds(folder: Folder, files: seq<ManifestFile>, i: nat)
    requires i < |files|
  {
    var file := files[i];
    && '/' !in file.fileName && |file.fileName| >= 8 && file.fileName[|file.fileName| - 8..] == ".headers"
    && 1 <= file.count <= 0x1f_ffff_ffff_ffff
    && file.fileName in folder.files && folder.files[file.fileName].digest == file.fileHash
    && folder.files[file.fileName].size == 80 * file.count
    && if i == 0 then file.firstHeight == 0 else file.firstHeight == files[i - 1].firstHeight + files[i - 1].count
  }

  /** Exactly which folders are accepted, entry by entry. */
  lemma AcceptedExactly(folder: Folder)
    ensures Accepted(folder) <==>
              && folder.manifest.Some?
              && forall i :: 0 <= i < |folder.manifest.value| ==> EntryHolds(folder, folder.manifest.value, i)
  {
    if folder.manifest.Some? {
      var files := folder.manifest.value;
      if Accepted(folder) {
        forall i | 0 <= i < |files| ensures EntryHolds(folder, files, i) { AcceptedHolds(folder, files, i); }
      }
      if forall i :: 0 <= i < |files| ==> EntryHolds(folder, files, i) {
        forall i | 0 <= i < |files| ensures EntryAccepted(folder, files, i) { HoldsAccepted(folder, files, i); }
      }
    }
  }

  lemma AcceptedHolds(folder: Folder, files: seq<ManifestFile>, i: nat)
    requires AcceptedFiles(folder, files) && i < |files|
    ensures EntryHolds(folder, files, i)
  {
    assert EntryAccepted(folder, files, i);
    if i > 0 {
      assert EntryAccepted(folder, files, i - 1);
      assert files[..i][..i - 1] == files[..i - 1];
    }
  }

  lemma {:induction false} HoldsAccepted(folder: Folder, files: seq<ManifestFile>, i: nat)
    requires i < |files| && forall k :: 0 <= k <= i ==> EntryHolds(folder, files, k)
    ensures EntryAccepted(folder, files, i)
  {
    assert EntryHolds(folder, files, i);
    if i > 0 {
      HoldsAccepted(folder, files, i - 1);
      assert files[..i][..i - 1] == files[..i - 1];
    }
  }

  // ---------------------------------------------------------------- collection

  /** The newest names by string order, and the active one. */
  function Retained(listing: seq<string>, maxGenerations: nat, active: string): set<string> {
    var newest := Sort(listing, StringLess);
    (set i | 0 <= i < |newest| && i >= |newest| - maxGenerations :: newest[i]) + {active}
  }

  /** How many of the names are newer. */
  function Newer(names: set<string>, g: string): nat { |set h | h in names && StringLess(g, h)| }

  /** A name is retained exactly when it is active or fewer than the maximum are newer. */
  lemma RetainedExactly(listing: seq<string>, names: set<string>, maxGenerations: nat, active: string, g: string)
    requires Distinct(listing) && g in names && forall h :: h in listing <==> h in names
    ensures g in Retained(listing, maxGenerations, active) <==> g == active || Newer(names, g) < maxGenerations
  {
    var newest := Sort(listing, StringLess);
    var from := FirstRetained(newest, maxGenerations);
    RetainedAreLast(listing, maxGenerations, active);
    var i := RankOf(listing, names, g);
    assert g in newest[from..] <==> i >= from;
  }

  /** Where a name stands among the sorted ones, and how many are newer. */
  lemma RankOf(listing: seq<string>, names: set<string>, g: string) returns (i: nat)
    requires Distinct(listing) && g in names && forall h :: h in listing <==> h in names
    ensures var newest := Sort(listing, StringLess);
            && i < |newest| && Newer(names, g) == |newest| - 1 - i
            && forall from :: 0 <= from <= |newest| ==> (g in newest[from..] <==> i >= from)
  {
    var newest := Sort(listing, StringLess);
    StringLessIsStrictTotalOrder();
    SortSorts(listing, StringLess);
    i :| 0 <= i < |newest| && newest[i] == g;
    GreaterAreAfter(newest, StringLess, i);
    assert (set h | h in names && StringLess(g, h)) == Above(newest, StringLess, g);
    AscendingIsDistinct(newest, StringLess);
    forall from | 0 <= from <= |newest| ensures g in newest[from..] <==> i >= from { InTail(newest, from, i); }
  }

  lemma InTail(s: seq<string>, from: nat, i: nat)
    requires Distinct(s) && i < |s| && from <= |s|
    ensures s[i] in s[from..] <==> i >= from
  {
    if i >= from { assert s[from..][i - from] == s[i]; }
    if k :| 0 <= k < |s[from..]| && s[from..][k] == s[i] { assert s[from + k] == s[i]; }
  }

  function FirstRetained(newest: seq<string>, maxGenerations: nat): nat {
    if |newest| > maxGenerations then |newest| - maxGenerations else 0
  }

  lemma RetainedAreLast(listing: seq<string>, maxGenerations: nat, active: string)
    ensures var newest := Sort(listing, StringLess);
            Retained(listing, maxGenerations, active) == (set x | x in newest[FirstRetained(newest, maxGenerations)..]) + {active}
  {
    var newest := Sort(listing, StringLess);
    var from := FirstRetained(newest, maxGenerations);
    assert (set i | 0 <= i < |newest| && i >= |newest| - maxGenerations :: newest[i]) == (set x | x in newest[from..]);
  }

  lemma RetainedIsSmall(listing: seq<string>, maxGenerations: nat, active: string)
    ensures |Retained(listing, maxGenerations, active)| <= maxGenerations + 1
  {
    var newest := Sort(listing, StringLess);
    RetainedAreLast(listing, maxGenerations, active);
    MembersAtMostLength(newest[FirstRetained(newest, maxGenerations)..]);
  }

  // ---------------------------------------------------------------- the object

  datatype Published = Published(generation: string, fileCount: nat, maxHeight: int)

  datatype Outcome = Done(snapshot: Published) | Failed | Crashed

  /** One publish of a sequence: what it exports, and when the filesystem fails or the process crashes. */
  datatype Attempt = Attempt(nonce: string, exported: Folder, luck: nat, crashing: bool, wreck: Option<Folder>)

  ghost predicate Exports(attempts: seq<Attempt>, generation: string, folder: Folder) {
    exists k :: 0 <= k < |attempts| && attempts[k].nonce == generation && attempts[k].exported == folder && Accepted(folder)
  }

  /** A generation of before that is no longer what it was. */
  predicate Damaged(was: map<string, Folder>, now: map<string, Folder>, g: string) {
    g in was && g in now && now[g] != was[g]
  }

  /** A generation of before, untouched, or an accepted export. */
  ghost predicate Accounted(attempts: seq<Attempt>, was: map<string, Folder>, now: map<string, Folder>, g: string) {
    g in now && ((g in was && now[g] == was[g]) || Exports(attempts, g, now[g]))
  }

  predicate AllDone(outcomes: seq<Outcome>) { forall k :: 0 <= k < |outcomes| ==> outcomes[k].Done? }

  lemma AllDoneOneMore(outcomes: seq<Outcome>, outcome: Outcome)
    ensures AllDone(outcomes + [outcome]) == (AllDone(outcomes) && outcome.Done?)
  {
    var more := outcomes + [outcome];
    assert more[|outcomes|] == outcome && forall k :: 0 <= k < |outcomes| ==> more[k] == outcomes[k];
  }

  /** Of the generations there were, exactly the active one and those with fewer than the maximum newer ones are left. */
  ghost predicate KeepsNewest(was: map<string, Folder>, now: map<string, Folder>, active: string, maxGenerations: nat) {
    forall g :: g in now <==> g in was && (g == active || Newer(was.Keys, g) < maxGenerations)
  }

  /** What one publish of `nonce` may do to the active link and the generations, by how it ends. */
  ghost predicate Publishes(link: Option<string>, was: map<string, Folder>, active: Option<string>, now: map<string, Folder>,
                            nonce: string, exported: Folder, maxGenerations: nat, r: Outcome)
  {
    && (active == link || (active == Some(nonce) && nonce !in was))
    && (forall g :: g in now ==> g == nonce || g in was)
    && (nonce in now && nonce !in was ==> Accepted(exported) && now[nonce] == exported)
    && (active == link && active.Some? && active.value in was ==> active.value in now && now[active.value] == was[active.value])
    // only one generation is ever damaged, only once the link points at the new one, and none by a publish that succeeds
    && (forall g :: Damaged(was, now, g) ==> active == Some(nonce) && g != nonce && !r.Done?)
    && (forall g, h :: Damaged(was, now, g) && Damaged(was, now, h) ==> g == h)
    && (!Accepted(exported) ==> active == link && now == was)
    && (r.Done? ==>
          && active == Some(nonce) && nonce !in was && nonce in now && now[nonce] == exported
          && |now| <= maxGenerations + 1 && KeepsNewest(was[nonce := exported], now, nonce, maxGenerations)
          && exported.manifest.Some?
          && r.snapshot == Published(nonce, |exported.manifest.value|, ManifestMaxHeight(exported.manifest.value)))
  }

  lemma SameWithout(was: map<string, Folder>, now: map<string, Folder>, nonce: string)
    requires nonce !in was && was - {nonce} == now - {nonce}
    ensures nonce !in now ==> now == was
  {
    if nonce !in now { assert was - {nonce} == was && now - {nonce} == now; }
  }

  lemma DamagedSince(was: map<string, Folder>, promoted: map<string, Folder>, now: map<string, Folder>, nonce: string, exported: Folder)
    requires nonce !in was && promoted == was[nonce := exported]
    ensures forall g :: Damaged(was, now, g) ==> g != nonce && Damaged(promoted, now, g)
  {
  }

  class BulkHeaderSnapshotPublisher {
    const maxGenerations: nat
    var generations: map<string, Folder>
    var staging: map<string, Folder>
    var links: map<string, string>
    var active: Option<string>
    var luck: nat
    var crashing: bool
    var wreck: Option<Folder>

    constructor (maxGenerations: nat)
      requires maxGenerations >= 1
      ensures Valid() && active == None && generations == map[] && this.maxGenerations == maxGenerations
    {
      this.maxGenerations := maxGenerations;
      generations, staging, links, active, luck, crashing, wreck := map[], map[], map[], None, 0, false, None;
    }

    /** The pointer is absent or names a generation that is there, complete and validated. */
    ghost predicate Valid()
      reads this
    {
      active.Some? ==> active.value in generations && Accepted(generations[active.value])
    }

    /** The names found in the folder, in whatever order. */
    method ListGenerations() returns (listing: seq<string>)
      ensures forall g :: g in listing <==> g in generations
      ensures |listing| == |generations| && Distinct(listing)
    {
      listing := [];
      var left := generations.Keys;
      while left != {}
        invariant left <= generations.Keys && |listing| + |left| == |generations|
        invariant forall g :: g in listing <==> g in generations && g !in left
        invariant Distinct(listing)
      {
        var g :| g in left;
        listing := listing + [g];
        left := left - {g};
      }
    }

    method Try() returns (ok: bool)
      modifies this`luck
      ensures ok == (old(luck) > 0)
      ensures luck == if ok then old(luck) - 1 else 0
    {
      ok := luck > 0;
      if ok { luck := luck - 1; }
    }

    /** Points the pointer at a generation; the rename is the only step that changes it. */
    method SwitchActivePointer(generation: string) returns (ok: bool)
      requires Valid() && generation in generations && Accepted(generations[generation])
      modifies this`luck, this`links, this`active
      ensures Valid()
      ensures active == old(active) || active == Some(generation)
      ensures ok ==> active == Some(generation)
      ensures generation !in old(links) && old(luck) >= 3 ==> ok && luck == old(luck) - 3
      ensures ok || !crashing ==> links == old(links)
    {
      ok := Try();
      if !ok || generation in links { return false; }
      links := links[generation := generation];
      ok := Try();
      if ok {
        active := Some(links[generation]);
        links := links - {generation};
        ok := Try();
      }
      if !crashing { links := links - {generation}; }
    }

    /**
      Deletes what is neither among the newest nor active. Where it stops, one of those
      may be half deleted; nothing else is touched.
    */
    method CollectOldGenerations(generation: string) returns (ok: bool)
      requires Valid() && active == Some(generation)
      modifies this`luck, this`generations
      ensures Valid() && generations[generation] == old(generations[generation])
      ensures forall g :: g in generations ==> g in old(generations)
      ensures forall g :: Damaged(old(generations), generations, g) ==> !ok && g != generation && wreck == Some(generations[g])
      ensures forall g, h :: Damaged(old(generations), generations, g) && Damaged(old(generations), generations, h) ==> g == h
      ensures ok ==> |generations| <= maxGenerations + 1
      ensures ok ==> KeepsNewest(old(generations), generations, generation, maxGenerations)
      ensures old(luck) >= |old(generations)| + 2 ==> ok
    {
      ok := Try();
      if !ok { return; }
      var listing := ListGenerations();
      var retained := Retained(listing, maxGenerations, generation);
      ghost var stopped;
      ok, stopped := RemoveOthers(listing, retained);
      assert !Damaged(old(generations), generations, generation);
      if !ok { return; }
      RetainedIsSmall(listing, maxGenerations, generation);
      forall g | g in generations ensures g in retained {
        assert g in listing;
      }
      SubsetSize(generations.Keys, retained);
      forall g | g in old(generations)
        ensures g in retained <==> g == generation || Newer(old(generations.Keys), g) < maxGenerations
      {
        RetainedExactly(listing, old(generations.Keys), maxGenerations, generation, g);
      }
      ok := Try();
    }

    /** The deletion loop; `stopped` is the generation whose removal failed, if one did. */
    method RemoveOthers(listing: seq<string>, retained: set<string>) returns (ok: bool, ghost stopped: string)
      modifies this`luck, this`generations
      ensures forall g :: g in generations ==> g in old(generations)
      ensures forall g :: g in retained && g in old(generations) ==> g in generations
      ensures forall g :: Damaged(old(generations), generations, g)
                ==> !ok && g == stopped && g !in retained && wreck == Some(generations[g])
      ensures ok ==> forall g :: g in listing ==> g in retained || g !in generations
      ensures old(luck) >= |listing| + 1 ==> ok && luck >= old(luck) - |listing|
    {
      ghost var all := generations;
      stopped := "";
      for i := 0 to |listing|
        invariant forall g :: g in generations ==> g in all && generations[g] == all[g]
        invariant forall g :: g in retained && g in all ==> g in generations
        invariant forall k :: 0 <= k < i ==> listing[k] in retained || listing[k] !in generations
        invariant luck <= old(luck) && (old(luck) >= |listing| + 1 ==> luck >= old(luck) - i)
      {
        if listing[i] !in retained {
          ok := Try();
          if !ok {
            Remove(listing[i], wreck);
            stopped := listing[i];
            return;
          }
          Remove(listing[i], None);
        }
      }
      ok := true;
    }

    /** A recursive removal, and what is left of the folder when it stops on the way. */
    method Remove(generation: string, left: Option<Folder>)
      modifies this`generations
      ensures left == None || generation !in old(generations) ==> generations == old(generations) - {generation}
      ensures left != None && generation in old(generations) ==> generations == old(generations)[generation := left.value]
    {
      if left.Some? && generation in generations {
        generations := generations[generation := left.value];
      } else {
        generations := generations - {generation};
      }
    }

    /** Exports into staging, validates, and renames the complete folder into place. */
    method Promote(nonce: string, exported: Folder) returns (manifest: Option<seq<ManifestFile>>)
      requires Valid() && nonce in staging
      modifies this`luck, this`staging, this`generations
      ensures Valid()
      ensures manifest.Some? ==>
                && Accepted(exported) && manifest == exported.manifest
                && nonce !in old(generations) && generations == old(generations)[nonce := exported]
      ensures generations == old(generations)
              || (Accepted(exported) && nonce !in old(generations) && generations == old(generations)[nonce := exported])
      ensures Accepted(exported) && nonce !in old(generations) && old(luck) >= 3 ==> manifest.Some? && luck == old(luck) - 3
      ensures staging - {nonce} == old(staging) - {nonce} && (manifest.Some? ==> nonce !in staging)
    {
      var ok := Try();
      if !ok { return None; }
      staging := staging[nonce := exported];
      manifest := ValidateGeneration(exported);
      ok := Try();
      if !ok || manifest.None? || nonce in generations { return None; }
      generations := generations[nonce := exported];
      staging := staging - {nonce};
      ok := Try();
      if !ok { manifest := None; }
    }

    /** Points at the published generation and then collects the old ones. */
    method Activate(generation: string) returns (ok: bool)
      requires Valid() && generation in generations && Accepted(generations[generation])
      modifies this`luck, this`links, this`active, this`generations
      ensures Valid()
      ensures active == old(active) || active == Some(generation)
      ensures generation in generations && generations[generation] == old(generations[generation])
      ensures forall g :: g in generations ==> g in old(generations)
      ensures forall g :: Damaged(old(generations), generations, g) ==> !ok && active == Some(generation) && g != generation
      ensures forall g, h :: Damaged(old(generations), generations, g) && Damaged(old(generations), generations, h) ==> g == h
      ensures ok ==> active == Some(generation) && |generations| <= maxGenerations + 1
      ensures ok ==> KeepsNewest(old(generations), generations, generation, maxGenerations)
      ensures generation !in old(links) && old(luck) >= |old(generations)| + 5 ==> ok
      ensures ok || !crashing ==> links == old(links)
    {
      ok := SwitchActivePointer(generation);
      if ok { ok := CollectOldGenerations(generation); }
    }

    /**
      One publish. Whatever fails and wherever it stops, the pointer is what it was, with
      its generation untouched, or names the new, complete generation.
    */
    method Publish(nonce: string, exported: Folder) returns (r: Outcome)
      requires Valid()
      modifies this
      ensures Valid() && Publishes(old(active), old(generations), active, generations, nonce, exported, maxGenerations, r)
      ensures (Accepted(exported) && nonce !in old(staging) && nonce !in old(links) && nonce !in old(generations)
               && old(luck) >= |old(generations)| + 10) ==> r.Done?
      ensures !r.Crashed? ==> staging == old(staging) && links == old(links)
      ensures r.Crashed? ==> crashing
    {
      var ok := Try();
      if !ok || nonce in staging { return if crashing then Crashed else Failed; }
      staging := staging[nonce := Folder(None, map[])];
      r := Release(nonce, exported);
      if r.Failed? { staging := staging - {nonce}; }
      SameWithout(old(staging), staging, nonce);
    }

    /** From the staged export to the collection of old generations. */
    method Release(nonce: string, exported: Folder) returns (r: Outcome)
      requires Valid() && nonce in staging
      modifies this`luck, this`staging, this`generations, this`links, this`active
      ensures Valid() && Publishes(old(active), old(generations), active, generations, nonce, exported, maxGenerations, r)
      ensures Accepted(exported) && nonce !in old(links) && nonce !in old(generations) && old(luck) >= |old(generations)| + 9 ==> r.Done?
      ensures staging - {nonce} == old(staging) - {nonce} && (r.Done? ==> nonce !in staging)
      ensures r.Crashed? ==> crashing
      ensures !r.Crashed? ==> links == old(links)
    {
      var manifest := Promote(nonce, exported);
      if manifest.Some? {
        ghost var promoted := generations;
        var ok := Activate(nonce);
        DamagedSince(old(generations), promoted, generations, nonce, exported);
        assert active.Some? ==> active == Some(nonce) || !Damaged(promoted, generations, active.value);
        if ok { return Done(Published(nonce, |manifest.value|, ManifestMaxHeight(manifest.value))); }
      }
      r := if crashing then Crashed else Failed;
    }

    /**
      Any sequence of publishes, each failing or crashing wherever its luck ends, also
      inside a removal. At the end the active link points where it did before, at a
      generation nothing has touched, or at one published on the way, exactly as it was
      exported and accepted. When no publish failed, that holds of every generation;
      and a last publish that succeeded leaves few of them.
    */
    method PublishAll(attempts: seq<Attempt>) returns (outcomes: seq<Outcome>)
      requires Valid()
      modifies this
      ensures Valid() && |outcomes| == |attempts|
      ensures active.Some? ==>
                || (active == old(active) && generations[active.value] == old(generations[active.value]))
                || Exports(attempts, active.value, generations[active.value])
      ensures old(active).Some? ==> active.Some?
      ensures forall g :: g in generations ==> g in old(generations) || exists k :: 0 <= k < |attempts| && attempts[k].nonce == g
      ensures AllDone(outcomes) ==>
                forall g :: g in generations ==> Accounted(attempts, old(generations), generations, g)
      ensures attempts != [] && outcomes[|attempts| - 1].Done? ==>
                active == Some(attempts[|attempts| - 1].nonce) && |generations| <= maxGenerations + 1
    {
      outcomes := [];
      ghost var clean := true;
      for i := 0 to |attempts|
        invariant Valid() && |outcomes| == i
        invariant active.Some? ==>
                    || (active == old(active) && generations[active.value] == old(generations[active.value]))
                    || Exports(attempts, active.value, generations[active.value])
        invariant old(active).Some? ==> active.Some?
        invariant forall g :: g in generations ==> g in old(generations) || exists k :: 0 <= k < i && attempts[k].nonce == g
        invariant clean == AllDone(outcomes)
        invariant clean ==> forall g :: g in generations ==> Accounted(attempts, old(generations), generations, g)
        invariant i > 0 && outcomes[i - 1].Done? ==>
                    active == Some(attempts[i - 1].nonce) && |generations| <= maxGenerations + 1
      {
        luck, crashing, wreck := attempts[i].luck, attempts[i].crashing, attempts[i].wreck;
        ghost var was := generations;
        var nonce := attempts[i].nonce;
        var outcome := Publish(nonce, attempts[i].exported);
        AllDoneOneMore(outcomes, outcome);
        outcomes := outcomes + [outcome];
        assert nonce in generations && nonce !in was ==> Exports(attempts, nonce, generations[nonce]);
        if clean && outcome.Done? {
          forall g | g in generations ensures Accounted(attempts, old(generations), generations, g) {
            assert g != nonce ==> g in was && !Damaged(was, generations, g) && Accounted(attempts, old(generations), was, g);
          }
        }
        clean := clean && outcome.Done?;
      }
    }
  }

  // ------------------------------------------------------- who calls publish

  /** One export call: from its guard to its height check, then its publish. */
  datatype Export = Checking | Publishing

  datatype Process = Process(isExporting: bool, lastExported: Option<int>, exports: map<nat, Export>)

  datatype Event =
    | Trigger(id: nat)
    | Height(id: nat, height: int)
    | Finish(id: nat, maxHeight: Option<int>)
    | Restart(currentMaxHeight: Option<int>)

  /** The first export ever, or a new multiple of 100000 crossed. */
  predicate ShouldExport(last: Option<int>, height: int) { last.None? || height / 100000 > last.value / 100000 }

  /** Header events and timers trigger exports at any time; `finally` clears the flag. */
  function Handle(p: Process, e: Event): Process {
    match e
    case Trigger(id) =>
      if p.isExporting || id in p.exports then p else p.(isExporting := true, exports := p.exports[id := Checking])
    case Height(id, height) =>
      if id !in p.exports || p.exports[id] != Checking then p
      else if ShouldExport(p.lastExported, height) then p.(exports := p.exports[id := Publishing])
      else p.(isExporting := false, exports := p.exports - {id})
    case Finish(id, maxHeight) =>
      if id !in p.exports then p
      else Process(false, if maxHeight.Some? && p.exports[id] == Publishing then maxHeight else p.lastExported, p.exports - {id})
    case Restart(max) => Process(false, max, map[])
  }

  function HandleAll(p: Process, events: seq<Event>): Process
    decreases |events|
  {
    if events == [] then p else HandleAll(Handle(p, events[0]), events[1..])
  }

  /** After the first export, another is due exactly when a multiple of 100000 lies above the last height. */
  lemma ShouldExportExactly(last: int, height: int)
    ensures ShouldExport(None, height)
    ensures ShouldExport(Some(last), height) <==> exists m: int :: last < 100000 * m <= height
  {
    if ShouldExport(Some(last), height) {
      assert last < 100000 * (last / 100000 + 1) <= height;
    }
    if m :| last < 100000 * m <= height {
      assert last / 100000 < m <= height / 100000;
    }
  }

  /** One export call from an idle process: it publishes exactly when due, and then remembers the height it published. */
  lemma ExportCycle(p: Process, id: nat, height: int, maxHeight: Option<int>)
    requires !p.isExporting && p.exports == map[]
    ensures var checked := Handle(Handle(p, Trigger(id)), Height(id, height));
            var finished := Handle(checked, Finish(id, maxHeight));
            && (id in checked.exports && checked.exports[id].Publishing? <==> ShouldExport(p.lastExported, height))
            && (!ShouldExport(p.lastExported, height) ==> checked == p)
            && finished == (if ShouldExport(p.lastExported, height) && maxHeight.Some? then p.(lastExported := maxHeight) else p)
  {
  }

  predicate AtMostOne(p: Process) {
    && (forall i, j :: i in p.exports && j in p.exports ==> i == j)
    && (p.isExporting <==> exists i :: i in p.exports)
  }

  /** However triggers, failures and restarts interleave, no two publishes are ever in flight together. */
  lemma {:induction false} PublishesNeverOverlap(p: Process, events: seq<Event>)
    requires AtMostOne(p)
    ensures AtMostOne(HandleAll(p, events))
    decreases |events|
  {
    if events != [] {
      var p' := Handle(p, events[0]);
      match events[0] {
        case Trigger(id) => if !p.isExporting { assert id in p'.exports; }
        case Height(id, _) => if id in p'.exports { assert id in p.exports; }
        case Finish(id, _) =>
        case Restart(_) =>
      }
      PublishesNeverOverlap(p', events[1..]);
    }
  }
}
