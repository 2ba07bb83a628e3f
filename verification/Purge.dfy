/** The paginated purge of a versioned bucket (internal/steps/s3.go, deleteAllVersions). */
module Purge {
  import opened Records
  import opened Ledgers
  import opened Handlers
  import opened Unwind

  /** A version or delete marker with its version ID. */
  datatype Entry = Entry(versionId: nat, version: Version)

  /** One page of the listing: how many entries it holds, and how the list and delete requests for it go.
      The last page of a plan holds whatever is left. */
  datatype PagePlan = PagePlan(size: nat, listing: Outcome, deleting: Outcome)

  datatype Page = Page(versions: seq<Entry>, markers: seq<Entry>)

  predicate DistinctIds(entries: seq<Entry>) {
    forall i, j :: 0 <= i < j < |entries| ==> entries[i].versionId != entries[j].versionId
  }

  /** The entries that are, or are not, delete markers, in listing order. */
  function OfKind(entries: seq<Entry>, marker: bool): seq<Entry> {
    if entries == [] then []
    else (if entries[0].version.DeleteMarker? == marker then [entries[0]] else []) + OfKind(entries[1..], marker)
  }

  function Dropped(entries: seq<Entry>, ids: set<nat>): seq<Entry> {
    if entries == [] then []
    else (if entries[0].versionId in ids then [] else [entries[0]]) + Dropped(entries[1..], ids)
  }

  /** S3's side: the bucket's contents, newest first. */
  class Bucket {
    var entries: seq<Entry>

    constructor (versions: seq<Version>)
      ensures |entries| == |versions| && DistinctIds(entries)
      ensures forall i | 0 <= i < |versions| :: entries[i].version == versions[i]
    {
      entries := seq(|versions|, i requires 0 <= i < |versions| => Entry(i, versions[i]));
    }

    /** Without an error everything listed is gone; an error may come after the fact. */
    method DeleteObjects(ids: seq<nat>, o: Outcome) returns (ok: bool)
      modifies this
      ensures ok == o.Ok?
      ensures entries == if o.Ok? || o.Lost? then Dropped(old(entries), set id | id in ids) else old(entries)
    {
      if o.Ok? || o.Lost? { entries := Dropped(entries, set id | id in ids); }
      return o.Ok?;
    }
  }

  /** The SDK's paginator: it remembers where the last page ended. */
  class Paginator {
    const plan: seq<PagePlan>
    const contents: seq<Entry>
    var pages: nat
    var marker: nat

    ghost predicate Valid()
      reads this
    {
      pages <= |plan| && marker <= |contents| && (pages == |plan| > 0 ==> marker == |contents|)
    }

    constructor (bucket: Bucket, plan: seq<PagePlan>)
      ensures Valid() && this.plan == plan && contents == bucket.entries && pages == 0 && marker == 0
    {
      this.plan := plan;
      contents := bucket.entries;
      pages := 0;
      marker := 0;
    }

    predicate HasMorePages()
      reads this
    {
      pages < |plan|
    }

    /** The next page, unless the request fails. */
    method NextPage() returns (page: Page, ok: bool)
      requires Valid() && HasMorePages()
      modifies this`pages, this`marker
      ensures Valid() && pages == old(pages) + 1
      ensures ok == plan[old(pages)].listing.Ok?
      ensures marker == old(marker) + PageSize(|contents| - old(marker), plan[old(pages)..])
      ensures page == Page(OfKind(contents[old(marker)..marker], false), OfKind(contents[old(marker)..marker], true))
    {
      var end := marker + PageSize(|contents| - marker, plan[pages..]);
      page := Page(OfKind(contents[marker..end], false), OfKind(contents[marker..end], true));
      ok := plan[pages].listing.Ok?;
      marker := end;
      pages := pages + 1;
    }
  }

  function PageSize(left: nat, plan: seq<PagePlan>): (n: nat)
    requires plan != []
    ensures n <= left
  {
    if |plan| == 1 || left < plan[0].size then left else plan[0].size
  }

  /** How many of left entries a purge deletes, and whether it succeeds. */
  function Outcomes(left: nat, plan: seq<PagePlan>): (nat, bool)
    decreases |plan|
  {
    if plan == [] then (0, true)
    else if !plan[0].listing.Ok? then (0, false)
    else
      var n := PageSize(left, plan);
      var applied := plan[0].deleting.Ok? || plan[0].deleting.Lost?;
      if n == 0 then Outcomes(left, plan[1..])
      else if !plan[0].deleting.Ok? then (if applied then n else 0, false)
      else (n + Outcomes(left - n, plan[1..]).0, Outcomes(left - n, plan[1..]).1)
  }

  lemma {:induction false} OutcomesWithin(left: nat, plan: seq<PagePlan>)
    ensures Outcomes(left, plan).0 <= left
    decreases |plan|
  {
    if plan != [] { OutcomesWithin(left - PageSize(left, plan), plan[1..]); }
  }

  /** A purge that succeeds has deleted everything, however the listing was cut into pages. */
  lemma {:induction false} SuccessDeletesAll(left: nat, plan: seq<PagePlan>)
    requires plan != [] && Outcomes(left, plan).1
    ensures Outcomes(left, plan).0 == left
    decreases |plan|
  {
    var n := PageSize(left, plan);
    if |plan| > 1 { SuccessDeletesAll(left - n, plan[1..]); }
  }

  /** It succeeds exactly when every list request and every delete request of a page with entries goes well. */
  lemma {:induction false} SucceedsIff(left: nat, plan: seq<PagePlan>)
    ensures Outcomes(left, plan).1 <==> NoFault(left, plan)
    decreases |plan|
  {
    if plan != [] { SucceedsIff(left - PageSize(left, plan), plan[1..]); }
  }

  predicate NoFault(left: nat, plan: seq<PagePlan>)
    decreases |plan|
  {
    plan == [] || (
      && plan[0].listing.Ok?
      && (PageSize(left, plan) > 0 ==> plan[0].deleting.Ok?)
      && NoFault(left - PageSize(left, plan), plan[1..]))
  }

  lemma {:induction false} OfKindIds(entries: seq<Entry>, marker: bool)
    ensures forall e | e in OfKind(entries, marker) :: e in entries && e.version.DeleteMarker? == marker
    ensures forall e | e in entries && e.version.DeleteMarker? == marker :: e in OfKind(entries, marker)
  {
    if entries == [] {
    } else {
      OfKindIds(entries[1..], marker);
      assert entries == [entries[0]] + entries[1..];
    }
  }

  lemma {:induction false} DroppedSplits(a: seq<Entry>, b: seq<Entry>, ids: set<nat>)
    ensures Dropped(a + b, ids) == Dropped(a, ids) + Dropped(b, ids)
  {
    if a == [] {
      assert a + b == b;
    } else {
      assert (a + b)[0] == a[0] && (a + b)[1..] == a[1..] + b;
      DroppedSplits(a[1..], b, ids);
    }
  }

  lemma {:induction false} DroppedAll(a: seq<Entry>, ids: set<nat>)
    requires forall e | e in a :: e.versionId in ids
    ensures Dropped(a, ids) == []
  {
    if a != [] { assert a[0] in a; DroppedAll(a[1..], ids); }
  }

  lemma {:induction false} DroppedNone(b: seq<Entry>, ids: set<nat>)
    requires forall e | e in b :: e.versionId !in ids
    ensures Dropped(b, ids) == b
  {
    if b != [] { assert b[0] in b; DroppedNone(b[1..], ids); }
  }

  /** Deleting what a page lists removes that page from the front of what is left. */
  lemma PageGoes(contents: seq<Entry>, from: nat, end: nat, ids: seq<nat>)
    requires DistinctIds(contents) && from <= end <= |contents| && Identifies(ids, contents[from..end])
    ensures Dropped(contents[from..], set id | id in ids) == contents[end..]
  {
    var a, b := contents[from..end], contents[end..];
    assert contents[from..] == a + b;
    forall e, f | e in b && f in a ensures f.versionId != e.versionId {
      var j :| 0 <= j < |b| && b[j] == e;
      var i :| 0 <= i < |a| && a[i] == f;
      assert contents[from + i] == f && contents[end + j] == e;
    }
    var gone := set id | id in ids;
    DroppedSplits(a, b, gone);
    DroppedAll(a, gone);
    DroppedNone(b, gone);
  }

  /** ids are exactly the version IDs of the entries. */
  ghost predicate Identifies(ids: seq<nat>, entries: seq<Entry>) {
    && |ids| == |entries|
    && forall id :: id in ids <==> exists e :: e in entries && e.versionId == id
  }

  /** Collects the version IDs of a page: versions first, then delete markers. */
  method ToDelete(page: Page) returns (ids: seq<nat>)
    ensures Identifies(ids, page.versions + page.markers)
  {
    ids := [];
    for i := 0 to |page.versions|
      invariant Identifies(ids, page.versions[..i])
    {
      ids := ids + [page.versions[i].versionId];
      OneMore(ids, page.versions[..i], page.versions[i]);
      assert page.versions[..i + 1] == page.versions[..i] + [page.versions[i]];
    }
    assert page.versions[..|page.versions|] + [] == page.versions;
    for i := 0 to |page.markers|
      invariant Identifies(ids, page.versions + page.markers[..i])
    {
      ids := ids + [page.markers[i].versionId];
      OneMore(ids, page.versions + page.markers[..i], page.markers[i]);
      assert page.versions + page.markers[..i + 1] == page.versions + page.markers[..i] + [page.markers[i]];
    }
    assert page.markers[..|page.markers|] == page.markers;
  }

  lemma OneMore(ids: seq<nat>, entries: seq<Entry>, e: Entry)
    requires ids != [] && ids[|ids| - 1] == e.versionId && Identifies(ids[..|ids| - 1], entries)
    ensures Identifies(ids, entries + [e])
  {
    assert ids == ids[..|ids| - 1] + [e.versionId];
    forall id ensures id in ids <==> exists f :: f in entries + [e] && f.versionId == id {
      if id == e.versionId { assert e in entries + [e]; }
      if f :| f in entries && f.versionId == id { assert f in entries + [e]; }
    }
  }

  /** The outcome of the whole purge, seen when pages of the plan are done and marker entries deleted. */
  ghost predicate SoFar(total: nat, plan: seq<PagePlan>, marker: nat, pages: nat)
    requires marker <= total && pages <= |plan|
  {
    Outcomes(total, plan) == (marker + Outcomes(total - marker, plan[pages..]).0,
                              Outcomes(total - marker, plan[pages..]).1)
  }

  /** The four ways a page can go. */
  lemma OnePage(total: nat, plan: seq<PagePlan>, from: nat, at: nat)
    requires from <= total && at < |plan| && SoFar(total, plan, from, at)
    ensures
      var n := PageSize(total - from, plan[at..]);
      var next := plan[at];
      && (!next.listing.Ok? ==> Outcomes(total, plan) == (from, false))
      && (next.listing.Ok? && n == 0 ==> SoFar(total, plan, from, at + 1))
      && (next.listing.Ok? && n > 0 && !next.deleting.Ok? ==>
            Outcomes(total, plan) == (if next.deleting.Lost? then from + n else from, false))
      && (next.listing.Ok? && n > 0 && next.deleting.Ok? ==> SoFar(total, plan, from + n, at + 1))
  {
    assert plan[at..][1..] == plan[at + 1..];
  }

  /** Deletes page after page and stops at the first error. */
  method DeleteAllVersions(bucket: Bucket, plan: seq<PagePlan>) returns (ok: bool)
    requires plan != [] && DistinctIds(bucket.entries)
    modifies bucket
    ensures ok == Outcomes(|old(bucket.entries)|, plan).1
    ensures Outcomes(|old(bucket.entries)|, plan).0 <= |old(bucket.entries)|
    ensures bucket.entries == old(bucket.entries)[Outcomes(|old(bucket.entries)|, plan).0..]
    ensures ok ==> bucket.entries == []
  {
    hide Outcomes, SoFar, PageSize, OfKind, Dropped, DistinctIds, Identifies;
    var paginator := new Paginator(bucket, plan);
    ghost var contents := bucket.entries;
    OutcomesWithin(|contents|, plan);
    NothingYet(|contents|, plan);
    while paginator.HasMorePages()
      invariant paginator.Valid() && paginator.plan == plan && paginator.contents == contents
      invariant bucket.entries == contents[paginator.marker..]
      invariant SoFar(|contents|, plan, paginator.marker, paginator.pages)
      decreases |plan| - paginator.pages
    {
      ghost var from := paginator.marker;
      var at := paginator.pages;
      OnePage(|contents|, plan, from, at);
      var page, listed := paginator.NextPage();
      if !listed { return false; }
      var toDelete := ToDelete(page);
      PageLists(contents[from..paginator.marker], toDelete);
      AsMany(toDelete, contents[from..paginator.marker]);
      if |toDelete| == 0 {
        continue;
      }
      PageGoes(contents, from, paginator.marker, toDelete);
      var deleted := bucket.DeleteObjects(toDelete, plan[at].deleting);
      if !deleted { return false; }
    }
    AllPagesDone(|contents|, plan, paginator.marker);
    return true;
  }

  lemma AsMany(ids: seq<nat>, entries: seq<Entry>)
    requires Identifies(ids, entries)
    ensures |ids| == |entries|
  {
  }

  lemma NothingYet(total: nat, plan: seq<PagePlan>)
    ensures SoFar(total, plan, 0, 0)
  {
    assert plan[0..] == plan;
  }

  lemma AllPagesDone(total: nat, plan: seq<PagePlan>, marker: nat)
    requires marker <= total && SoFar(total, plan, marker, |plan|)
    ensures Outcomes(total, plan) == (marker, true)
  {
  }

  lemma {:induction false} KindsCount(entries: seq<Entry>)
    ensures |OfKind(entries, false)| + |OfKind(entries, true)| == |entries|
  {
    if entries != [] { KindsCount(entries[1..]); }
  }

  /** The identifiers collected from both lists of a page are those of the page. */
  lemma PageLists(entries: seq<Entry>, ids: seq<nat>)
    requires Identifies(ids, OfKind(entries, false) + OfKind(entries, true))
    ensures Identifies(ids, entries)
  {
    KindsCount(entries);
    OfKindIds(entries, false);
    OfKindIds(entries, true);
    var both := OfKind(entries, false) + OfKind(entries, true);
    assert forall e :: e in both <==> e in entries;
  }

  // ----- the purge inside the compensation -----

  /** As one action of the handler: a purge under any page plan is the purge action with a matching outcome. */
  lemma PurgeIsOneAction(cfg: Settings, w: World, r: Record, plan: seq<PagePlan>)
    requires plan != []
    requires BucketKey(r.s3BucketName) in w.ledger && w.ledger[BucketKey(r.s3BucketName)].BucketItem?
    ensures
      var k := BucketKey(r.s3BucketName);
      var versions := w.ledger[k].versions;
      var (count, ok) := Outcomes(|versions|, plan);
      var v := Perform(cfg, S3, PurgeVersions, w, r, if ok then Ok("") else Partial(count));
      && count <= |versions| && v.Go? == ok
      && v.world == w.(ledger := w.ledger[k := w.ledger[k].(versions := versions[count..])])
  {
    var versions := w.ledger[BucketKey(r.s3BucketName)].versions;
    OutcomesWithin(|versions|, plan);
    if Outcomes(|versions|, plan).1 {
      SuccessDeletesAll(|versions|, plan);
      assert versions[|versions|..] == [];
    }
  }

  /** After a purge without faults the bucket can be deleted, whatever versions and markers had piled up in it. */
  lemma PurgeMakesBucketDeletable(cfg: Settings, w: World, r: Record, plan: seq<PagePlan>)
    requires plan != [] && r.s3BucketName != ""
    requires BucketKey(r.s3BucketName) in w.ledger && w.ledger[BucketKey(r.s3BucketName)].BucketItem?
    ensures
      var k := BucketKey(r.s3BucketName);
      var (count, ok) := Outcomes(|w.ledger[k].versions|, plan);
      var v := Perform(cfg, S3, PurgeVersions, w, r, if ok then Ok("") else Partial(count));
      Legal(v.world, Remove(k)) <==> count == |w.ledger[k].versions|
  {
    hide Perform;
    PurgeIsOneAction(cfg, w, r, plan);
    var k := BucketKey(r.s3BucketName);
    NothingUsesBuckets(w.ledger, k);
    var v := Perform(cfg, S3, PurgeVersions, w, r,
                     if Outcomes(|w.ledger[k].versions|, plan).1 then Ok("")
                     else Partial(Outcomes(|w.ledger[k].versions|, plan).0));
    NothingUsesBuckets(v.world.ledger, k);
  }
}
