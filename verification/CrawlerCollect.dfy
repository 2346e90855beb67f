/** Collecting parcels for the crawler: the parcels matching a configuration are paged, 1000 at a time,
    into crawler plans and targets, either by offset or by asking again for those not yet collected. */
module CrawlerCollect {
  import opened Options
  import opened Chunks
  import opened Sequences

  const LIMIT: nat := 1000

  /** A parcel row. Its account may be null; its tracking number is unique. */
  datatype Parcel = Parcel(trackingNumber: string, account: Option<string>, transporter: string, platform: string,
                           createdAt: int)

  /** The part of a crawler target that the left join compares. */
  datatype Target = Target(trackingNumber: string, account: Option<string>)

  datatype Where = Where(transporter: string, start: int, end: int, accounts: seq<string>, platform: string)

  /** One iteration: the parcels of the page, and whether its plans were saved. */
  datatype Page = Page(parcels: seq<Parcel>, planned: bool)

  /** Both SQL conditions on the account are false for null; `['*']` stands for every internal account. */
  predicate Matches(w: Where, p: Parcel) {
    && p.transporter == w.transporter && w.start <= p.createdAt <= w.end && p.platform == w.platform
    && p.account.Some?
    && if w.accounts == ["*"] then p.account.value != "EXTERNAL_ACCOUNT" else p.account.value in w.accounts
  }

  function TargetOf(p: Parcel): Target { Target(p.trackingNumber, p.account) }

  /** One target per parcel. */
  function TargetsOf(ps: seq<Parcel>): multiset<Target> { multiset(Map(TargetOf, ps)) }

  /** All matching rows, in id order. */
  function Matching(parcels: seq<Parcel>, w: Where): seq<Parcel> {
    if parcels == [] then []
    else (if Matches(w, parcels[0]) then [parcels[0]] else []) + Matching(parcels[1..], w)
  }

  /** `left join … where target.id is null`, in id order. */
  function Uncollected(parcels: seq<Parcel>, targets: multiset<Target>): seq<Parcel> {
    if parcels == [] then []
    else (if TargetOf(parcels[0]) in targets then [] else [parcels[0]]) + Uncollected(parcels[1..], targets)
  }

  function Min(a: nat, b: nat): nat { if a < b then a else b }

  /** `limit` and `offset` of a query result. */
  function Slice(rows: seq<Parcel>, offset: nat, limit: nat): seq<Parcel> {
    rows[Min(offset, |rows|)..Min(offset + limit, |rows|)]
  }

  /** The n-th thousand of the rows, and the rows from it on. */
  function PageOf(rows: seq<Parcel>, n: nat): seq<Parcel> { Slice(rows, n * LIMIT, LIMIT) }

  function RestOf(rows: seq<Parcel>, n: nat): seq<Parcel> { rows[Min(n * LIMIT, |rows|)..] }

  function Planned(pages: seq<Page>): nat {
    if pages == [] then 0 else Planned(pages[..|pages| - 1]) + if pages[|pages| - 1].planned then 1 else 0
  }

  /** The targets inserted for the pages whose plans were saved. */
  function Inserted(pages: seq<Page>): multiset<Target> {
    if pages == [] then multiset{}
    else Inserted(pages[..|pages| - 1]) + if pages[|pages| - 1].planned then TargetsOf(pages[|pages| - 1].parcels)
      else multiset{}
  }

  predicate Unique(ps: seq<Parcel>) {
    forall i, j :: 0 <= i < j < |ps| ==> ps[i].trackingNumber != ps[j].trackingNumber
  }

  /** Page k of the offset scheme: the k-th thousand of the matching rows. */
  ghost predicate ByOffset(pages: seq<Page>, rows: seq<Parcel>) {
    forall k :: 0 <= k < |pages| ==> pages[k].parcels == PageOf(rows, k)
  }

  /** Page k of the other scheme: as many thousands of the rows uncollected at the start are past as
      pages were planned before it. */
  ghost predicate ByRequery(pages: seq<Page>, rows: seq<Parcel>) {
    forall k :: 0 <= k < |pages| ==> pages[k].parcels == PageOf(rows, Planned(pages[..k]))
  }

  /** The row is of the transporter and the platform, created in the time span, on one of the accounts, where *
      alone stands for every account but the external one; a null account is none of them. */
  predicate Wanted(p: Parcel, w: Where) {
    && p.transporter == w.transporter && p.platform == w.platform && w.start <= p.createdAt && p.createdAt <= w.end
    && p.account != None && (w.accounts == ["*"] ==> p.account != Some("EXTERNAL_ACCOUNT"))
    && (w.accounts != ["*"] ==> p.account.value in w.accounts)
  }

  /** The places, in table order, of the wanted rows, without those whose number and account have a target if
      only uncollected rows are asked for. */
  ghost predicate Selects(ix: seq<nat>, parcels: seq<Parcel>, w: Where, notCollected: bool, targets: multiset<Target>) {
    && (forall j, k :: 0 <= j < k < |ix| ==> ix[j] < ix[k])
    && (forall k :: 0 <= k < |ix| ==> ix[k] < |parcels|)
    && forall i :: 0 <= i < |parcels| ==>
         (i in ix <==>
           && Wanted(parcels[i], w)
           && (notCollected ==> Target(parcels[i].trackingNumber, parcels[i].account) !in targets))
  }

  /** The parcels of the page are the n-th thousand of the rows at these places. */
  predicate IsPage(page: Page, n: nat, ix: seq<nat>, parcels: seq<Parcel>) {
    && |page.parcels| == (if |ix| <= n * 1000 then 0 else if |ix| - n * 1000 <= 1000 then |ix| - n * 1000 else 1000)
    && forall j :: 0 <= j < |page.parcels| ==>
         n * 1000 + j < |ix| && ix[n * 1000 + j] < |parcels| && page.parcels[j] == parcels[ix[n * 1000 + j]]
  }

  /** The rows found are those at these places. */
  predicate RowsAt(rows: seq<Parcel>, ix: seq<nat>, parcels: seq<Parcel>) {
    |rows| == |ix| && forall k :: 0 <= k < |ix| ==> ix[k] < |parcels| && rows[k] == parcels[ix[k]]
  }

  function Counted(parcels: seq<Parcel>, w: Where, notCollected: bool, targets: multiset<Target>): seq<Parcel> {
    if notCollected then Uncollected(Matching(parcels, w), targets) else Matching(parcels, w)
  }

  lemma CountedAppend(front: seq<Parcel>, last: Parcel, w: Where, notCollected: bool, targets: multiset<Target>)
    ensures Counted(front + [last], w, notCollected, targets) ==
            Counted(front, w, notCollected, targets)
            + if Matches(w, last) && (notCollected ==> TargetOf(last) !in targets) then [last] else []
  {
    MatchingAppend(front, last, w);
    var m, tail := Matching(front, w), if Matches(w, last) then [last] else [];
    UncollectedAppend(m, tail, targets);
  }

  lemma {:induction false} MatchingAppend(front: seq<Parcel>, last: Parcel, w: Where)
    ensures Matching(front + [last], w) == Matching(front, w) + if Matches(w, last) then [last] else []
  {
    if front == [] {
      assert [] + [last] == [last];
    } else {
      MatchingAppend(front[1..], last, w);
      assert (front + [last])[1..] == front[1..] + [last];
    }
  }

  lemma SelectsAppend(ix: seq<nat>, front: seq<Parcel>, last: Parcel, w: Where, notCollected: bool,
                      targets: multiset<Target>) returns (ix': seq<nat>)
    requires Selects(ix, front, w, notCollected, targets)
    ensures ix' == ix + if Matches(w, last) && (notCollected ==> TargetOf(last) !in targets) then [|front|] else []
    ensures Selects(ix', front + [last], w, notCollected, targets)
  {
    forall i | i in ix ensures i < |front| {
      var k :| 0 <= k < |ix| && ix[k] == i;
    }
    ix' := ix + if Matches(w, last) && (notCollected ==> TargetOf(last) !in targets) then [|front|] else [];
  }

  /** What is counted and paged are the wanted rows, in table order. */
  lemma {:induction false} CountedSelects(parcels: seq<Parcel>, w: Where, notCollected: bool,
                                          targets: multiset<Target>)
    returns (ix: seq<nat>)
    ensures Selects(ix, parcels, w, notCollected, targets)
    ensures RowsAt(Counted(parcels, w, notCollected, targets), ix, parcels)
  {
    if parcels == [] {
      ix := [];
    } else {
      var n := |parcels| - 1;
      ix := CountedSelects(parcels[..n], w, notCollected, targets);
      CountedAppend(parcels[..n], parcels[n], w, notCollected, targets);
      assert parcels == parcels[..n] + [parcels[n]];
      ix := SelectsAppend(ix, parcels[..n], parcels[n], w, notCollected, targets);
    }
  }

  /** The pages of a run, in the order of its scheme, hold the wanted rows. */
  ghost predicate PagesSelect(pages: seq<Page>, ix: seq<nat>, parcels: seq<Parcel>, w: Where, notCollected: bool,
                              targets: multiset<Target>)
  {
    && Selects(ix, parcels, w, notCollected, targets) && |pages| == (|ix| + 999) / 1000
    && forall k :: 0 <= k < |pages| ==>
         IsPage(pages[k], if notCollected then Planned(pages[..k]) else k, ix, parcels)
  }

  lemma PagesAre(pages: seq<Page>, parcels: seq<Parcel>, w: Where, notCollected: bool, targets: multiset<Target>)
    returns (ix: seq<nat>)
    requires Follows(pages, Counted(parcels, w, notCollected, targets), notCollected)
    requires |pages| == (|Counted(parcels, w, notCollected, targets)| + LIMIT - 1) / LIMIT
    ensures PagesSelect(pages, ix, parcels, w, notCollected, targets)
  {
    ix := CountedSelects(parcels, w, notCollected, targets);
  }

  class CrawlerTables {
    const parcels: seq<Parcel>
    var targets: multiset<Target>
    var pages: seq<Page>

    constructor (parcels: seq<Parcel>, targets: multiset<Target>)
      ensures this.parcels == parcels && this.targets == targets && pages == []
    {
      this.parcels, this.targets, pages := parcels, targets, [];
    }

    /** The body of the platform loop of `collectTrackingNumbersByDate`, given the counted quantity. */
    method CollectPlatform(w: Where, notCollected: bool) returns (ghost ix: seq<nat>)
      requires Unique(parcels) && pages == []
      modifies this
      ensures Follows(pages, Counted(parcels, w, notCollected, old(targets)), notCollected)
      ensures |pages| == (|Counted(parcels, w, notCollected, old(targets))| + LIMIT - 1) / LIMIT
      ensures targets == old(targets) + Inserted(pages)
      ensures PagesSelect(pages, ix, parcels, w, notCollected, old(targets))
    {
      ghost var counted := Counted(parcels, w, notCollected, targets);
      var quantity := |Counted(parcels, w, notCollected, targets)|;
      var offset := 0;
      MatchingUnique(parcels, w);
      while offset < quantity
        invariant offset == |pages| * LIMIT && offset < quantity + LIMIT
        invariant Going(pages, counted, notCollected, Matching(parcels, w), targets, old(targets))
      {
        var parcelArray := if notCollected then Slice(Uncollected(Matching(parcels, w), targets), 0, LIMIT)
                           else Slice(Matching(parcels, w), offset, LIMIT);
        var flag := *;
        NextPage(pages, Page(parcelArray, flag), counted, notCollected, Matching(parcels, w), targets, old(targets));
        if flag {
          targets := targets + TargetsOf(parcelArray);
        }
        pages := pages + [Page(parcelArray, flag)];
        offset := offset + LIMIT;
      }
      ix := PagesAre(pages, parcels, w, notCollected, old(targets));
    }
  }

  ghost predicate Follows(pages: seq<Page>, counted: seq<Parcel>, notCollected: bool) {
    if notCollected then ByRequery(pages, counted) else ByOffset(pages, counted)
  }

  lemma PageFollows(pages: seq<Page>, page: Page, counted: seq<Parcel>, notCollected: bool)
    requires Follows(pages, counted, notCollected)
    requires page.parcels == PageOf(counted, if notCollected then Planned(pages) else |pages|)
    ensures Follows(pages + [page], counted, notCollected)
  {
    var pages' := pages + [page];
    forall k | 0 <= k < |pages'|
      ensures pages'[k].parcels == PageOf(counted, if notCollected then Planned(pages'[..k]) else k)
    {
      assert pages'[..k] == pages[..k];
      if k == |pages| { assert pages[..k] == pages; }
    }
  }

  lemma PageCounts(pages: seq<Page>, page: Page)
    ensures Planned(pages + [page]) == Planned(pages) + (if page.planned then 1 else 0)
    ensures Inserted(pages + [page]) == Inserted(pages) + if page.planned then TargetsOf(page.parcels) else multiset{}
  {
    assert (pages + [page])[..|pages + [page]| - 1] == pages;
  }

  lemma PageOfRest(rows: seq<Parcel>, n: nat)
    ensures var rest, page := RestOf(rows, n), PageOf(rows, n);
            && Slice(rest, 0, LIMIT) == page && |page| <= |rest| && page == rest[..|page|]
            && rest[|page|..] == RestOf(rows, n + 1)
  {
  }

  /** What the loop keeps: the pages follow their scheme, each planned one has its targets, and the query finds
      what is left. */
  ghost predicate Going(pages: seq<Page>, counted: seq<Parcel>, notCollected: bool, rows: seq<Parcel>,
                        targets: multiset<Target>, targets0: multiset<Target>)
  {
    && Follows(pages, counted, notCollected) && targets == targets0 + Inserted(pages)
    && (notCollected ==> Uncollected(rows, targets) == RestOf(counted, Planned(pages)))
  }

  /** One more page keeps what its scheme says of all pages and of the rows still uncollected. */
  lemma NextPage(pages: seq<Page>, page: Page, counted: seq<Parcel>, notCollected: bool, rows: seq<Parcel>,
                 targets: multiset<Target>, targets0: multiset<Target>)
    requires Unique(rows) && Going(pages, counted, notCollected, rows, targets, targets0)
    requires page.parcels ==
             if notCollected then Slice(Uncollected(rows, targets), 0, LIMIT) else PageOf(counted, |pages|)
    ensures Going(pages + [page], counted, notCollected, rows,
                  if page.planned then targets + TargetsOf(page.parcels) else targets, targets0)
  {
    PageOfRest(counted, if notCollected then Planned(pages) else |pages|);
    PageFollows(pages, page, counted, notCollected);
    PageCounts(pages, page);
    if notCollected && page.planned {
      RestAfterPage(rows, targets, page.parcels, counted, Planned(pages));
    }
  }

  lemma RestAfterPage(rows: seq<Parcel>, targets: multiset<Target>, page: seq<Parcel>, counted: seq<Parcel>, n: nat)
    requires Unique(rows) && Uncollected(rows, targets) == RestOf(counted, n)
             && page == Slice(RestOf(counted, n), 0, LIMIT)
    ensures Uncollected(rows, targets + TargetsOf(page)) == RestOf(counted, n + 1)
  {
    PageOfRest(counted, n);
    PageTaken(rows, targets, |page|);
  }

  // ---------------------------------------------------------------- filters

  lemma {:induction false} MatchingUnique(parcels: seq<Parcel>, w: Where)
    requires Unique(parcels)
    ensures Unique(Matching(parcels, w))
    ensures forall p :: p in Matching(parcels, w) <==> p in parcels && Matches(w, p)
  {
    if parcels != [] {
      MatchingUnique(parcels[1..], w);
      forall p | p in parcels[1..] ensures p.trackingNumber != parcels[0].trackingNumber {
        var j :| 0 <= j < |parcels[1..]| && parcels[1..][j] == p;
        assert parcels[j + 1] == p;
      }
    }
  }

  lemma {:induction false} UncollectedIsFilter(rows: seq<Parcel>, targets: multiset<Target>)
    ensures forall p :: p in Uncollected(rows, targets) <==> p in rows && TargetOf(p) !in targets
  {
    if rows != [] { UncollectedIsFilter(rows[1..], targets); }
  }

  lemma {:induction false} UncollectedTwice(rows: seq<Parcel>, targets: multiset<Target>, more: multiset<Target>)
    ensures Uncollected(rows, targets + more) == Uncollected(Uncollected(rows, targets), more)
  {
    if rows != [] {
      UncollectedTwice(rows[1..], targets, more);
      var u := Uncollected(rows[1..], targets);
      assert ([rows[0]] + u)[1..] == u && [] + u == u;
    }
  }

  lemma {:induction false} UncollectedAppend(a: seq<Parcel>, b: seq<Parcel>, targets: multiset<Target>)
    ensures Uncollected(a + b, targets) == Uncollected(a, targets) + Uncollected(b, targets)
  {
    if a == [] {
      assert a + b == b;
    } else {
      var head := if TargetOf(a[0]) in targets then [] else [a[0]];
      var x, y := Uncollected(a[1..], targets), Uncollected(b, targets);
      assert (a + b)[1..] == a[1..] + b;
      UncollectedAppend(a[1..], b, targets);
      assert head + (x + y) == (head + x) + y;
    }
  }

  lemma {:induction false} UncollectedAllOrNone(rows: seq<Parcel>, targets: multiset<Target>)
    ensures (forall p :: p in rows ==> TargetOf(p) in targets) ==> Uncollected(rows, targets) == []
    ensures (forall p :: p in rows ==> TargetOf(p) !in targets) ==> Uncollected(rows, targets) == rows
  {
    if rows != [] { UncollectedAllOrNone(rows[1..], targets); }
  }

  lemma {:induction false} UncollectedUnique(rows: seq<Parcel>, targets: multiset<Target>)
    requires Unique(rows)
    ensures Unique(Uncollected(rows, targets))
  {
    if rows != [] {
      UncollectedUnique(rows[1..], targets);
      UncollectedIsFilter(rows[1..], targets);
      forall p | p in rows[1..] ensures p.trackingNumber != rows[0].trackingNumber {
        var j :| 0 <= j < |rows[1..]| && rows[1..][j] == p;
        assert rows[j + 1] == p;
      }
    }
  }

  lemma HasTarget(ps: seq<Parcel>, t: Target)
    ensures t in TargetsOf(ps) <==> exists p :: p in ps && TargetOf(p) == t
  {
    var ts := Map(TargetOf, ps);
    assert t in TargetsOf(ps) <==> t in ts;
    if p :| p in ps && TargetOf(p) == t {
      var i :| 0 <= i < |ps| && ps[i] == p;
      assert ts[i] == t;
    }
  }

  lemma RestUntaken(rows: seq<Parcel>, k: nat)
    requires Unique(rows) && k <= |rows|
    ensures forall p :: p in rows[k..] ==> TargetOf(p) !in TargetsOf(rows[..k])
  {
    forall p | p in rows[k..] ensures TargetOf(p) !in TargetsOf(rows[..k]) {
      var j :| 0 <= j < |rows[k..]| && rows[k..][j] == p;
      assert rows[k + j] == p;
      HasTarget(rows[..k], TargetOf(p));
    }
  }

  /** Once the first k uncollected rows have targets, the query returns exactly the others. It rests on
      unique tracking numbers: a target of one row never hides another. */
  lemma PageTaken(rows: seq<Parcel>, targets: multiset<Target>, k: nat)
    requires Unique(rows) && k <= |Uncollected(rows, targets)|
    ensures Uncollected(rows, targets + TargetsOf(Uncollected(rows, targets)[..k])) == Uncollected(rows, targets)[k..]
  {
    var u := Uncollected(rows, targets);
    var page, others, taken := u[..k], u[k..], TargetsOf(u[..k]);
    UncollectedTwice(rows, targets, taken);
    assert u == page + others;
    UncollectedAppend(page, others, taken);
    UncollectedUnique(rows, targets);
    RestUntaken(u, k);
    forall p | p in page ensures TargetOf(p) in taken { HasTarget(page, TargetOf(p)); }
    UncollectedAllOrNone(page, taken);
    UncollectedAllOrNone(others, taken);
  }

  // ---------------------------------------------------------------- how the two schemes compare

  /** The rows a run still has to visit, page after page. */
  lemma {:induction false} SlicesAreChunks(rows: seq<Parcel>, k: nat)
    requires k * LIMIT < |rows|
    ensures k < |Chunk(rows, LIMIT)| && Chunk(rows, LIMIT)[k] == PageOf(rows, k)
    decreases k
  {
    if k > 0 {
      SlicesAreChunks(rows[LIMIT..], k - 1);
      PageOfTail(rows, k);
    }
  }

  lemma PageOfTail(rows: seq<Parcel>, k: nat)
    requires 0 < k && LIMIT <= |rows|
    ensures PageOf(rows[LIMIT..], k - 1) == PageOf(rows, k)
  {
  }

  lemma {:induction false} ChunkCount(rows: seq<Parcel>)
    ensures |Chunk(rows, LIMIT)| == (|rows| + LIMIT - 1) / LIMIT
    decreases |rows|
  {
    if |rows| > LIMIT { ChunkCount(rows[LIMIT..]); }
  }

  function Parcels(pages: seq<Page>): seq<seq<Parcel>> {
    if pages == [] then [] else Parcels(pages[..|pages| - 1]) + [pages[|pages| - 1].parcels]
  }

  lemma {:induction false} ParcelsAt(pages: seq<Page>)
    ensures |Parcels(pages)| == |pages| && forall k :: 0 <= k < |pages| ==> Parcels(pages)[k] == pages[k].parcels
  {
    if pages != [] { ParcelsAt(pages[..|pages| - 1]); }
  }

  /** The offset scheme visits exactly the chunks of the matching rows, in order, planned or not. */
  lemma OffsetVisitsChunks(pages: seq<Page>, rows: seq<Parcel>)
    requires ByOffset(pages, rows) && |pages| == (|rows| + LIMIT - 1) / LIMIT
    ensures Parcels(pages) == Chunk(rows, LIMIT)
  {
    ParcelsAt(pages);
    ChunkCount(rows);
    forall k | 0 <= k < |pages| ensures Parcels(pages)[k] == Chunk(rows, LIMIT)[k] { SlicesAreChunks(rows, k); }
  }

  lemma {:induction false} PlannedBound(pages: seq<Page>)
    ensures Planned(pages) <= |pages|
    ensures Planned(pages) == |pages| <==> forall k :: 0 <= k < |pages| ==> pages[k].planned
    decreases |pages|
  {
    if pages != [] {
      var front := pages[..|pages| - 1];
      PlannedBound(front);
      assert forall k :: 0 <= k < |front| ==> front[k] == pages[k];
    }
  }

  lemma RequeryVisitsChunks(pages: seq<Page>, rows: seq<Parcel>)
    requires ByRequery(pages, rows) && |pages| == (|rows| + LIMIT - 1) / LIMIT
    requires forall k :: 0 <= k < |pages| - 1 ==> pages[k].planned
    ensures Parcels(pages) == Chunk(rows, LIMIT)
  {
    ParcelsAt(pages);
    ChunkCount(rows);
    forall k | 0 <= k < |pages| ensures Parcels(pages)[k] == Chunk(rows, LIMIT)[k] {
      PlannedBound(pages[..k]);
      SlicesAreChunks(rows, k);
    }
  }

  lemma PagesDiffer(rows: seq<Parcel>, a: nat, b: nat)
    requires Unique(rows) && a < b && b * LIMIT < |rows|
    ensures PageOf(rows, a) != PageOf(rows, b)
  {
    assert PageOf(rows, a)[0] == rows[a * LIMIT] && PageOf(rows, b)[0] == rows[b * LIMIT];
  }

  lemma FailureRevisits(pages: seq<Page>, rows: seq<Parcel>, k: nat)
    requires ByRequery(pages, rows) && |pages| == (|rows| + LIMIT - 1) / LIMIT && Unique(rows)
    requires k < |pages| - 1 && !pages[k].planned
    ensures Parcels(pages) != Chunk(rows, LIMIT)
  {
    var last := |pages| - 1;
    PlannedBound(pages[..last]);
    assert !pages[..last][k].planned;
    ParcelsAt(pages);
    SlicesAreChunks(rows, last);
    PagesDiffer(rows, Planned(pages[..last]), last);
  }

  /** The re-query scheme visits those same chunks exactly when no plan but possibly the last failed to
      be saved; a failed page is visited again instead of the next one. */
  lemma RequeryVisitsChunksExactly(pages: seq<Page>, rows: seq<Parcel>)
    requires ByRequery(pages, rows) && |pages| == (|rows| + LIMIT - 1) / LIMIT && Unique(rows)
    ensures Parcels(pages) == Chunk(rows, LIMIT) <==> forall k :: 0 <= k < |pages| - 1 ==> pages[k].planned
  {
    if forall k :: 0 <= k < |pages| - 1 ==> pages[k].planned {
      RequeryVisitsChunks(pages, rows);
    } else {
      var k :| 0 <= k < |pages| - 1 && !pages[k].planned;
      FailureRevisits(pages, rows, k);
    }
  }

  /** If nothing that matches was collected before and every plan is saved, both schemes write the same
      pages in the same order: ceil(n / 1000) pages that hold each matching parcel exactly once. */
  lemma SchemesAgree(parcels: seq<Parcel>, w: Where, targets: multiset<Target>, byOffset: seq<Page>,
                     byRequery: seq<Page>)
    requires Unique(parcels)
    requires forall p :: p in Matching(parcels, w) ==> TargetOf(p) !in targets
    requires ByOffset(byOffset, Matching(parcels, w))
             && ByRequery(byRequery, Uncollected(Matching(parcels, w), targets))
    requires |byOffset| == (|Matching(parcels, w)| + LIMIT - 1) / LIMIT
    requires |byRequery| == (|Uncollected(Matching(parcels, w), targets)| + LIMIT - 1) / LIMIT
    requires forall k :: 0 <= k < |byRequery| ==> byRequery[k].planned
    ensures Parcels(byOffset) == Parcels(byRequery) && Flatten(Parcels(byOffset)) == Matching(parcels, w)
    ensures Unique(Matching(parcels, w))
  {
    var rows := Matching(parcels, w);
    MatchingUnique(parcels, w);
    UncollectedAllOrNone(rows, targets);
    OffsetVisitsChunks(byOffset, rows);
    RequeryVisitsChunksExactly(byRequery, rows);
    ChunkPartitions(rows, LIMIT);
  }

  // ---------------------------------------------------------------- one target per parcel

  lemma TargetsAppend(a: seq<Parcel>, b: seq<Parcel>)
    ensures TargetsOf(a + b) == TargetsOf(a) + TargetsOf(b)
  {
    assert Map(TargetOf, a + b) == Map(TargetOf, a) + Map(TargetOf, b);
  }

  lemma {:induction false} FlattenAppend(ss: seq<seq<Parcel>>, t: seq<Parcel>)
    ensures Flatten(ss + [t]) == Flatten(ss) + t
  {
    if ss == [] {
      assert ss + [t] == [t] && Flatten([t]) == t + Flatten([]);
    } else {
      assert (ss + [t])[1..] == ss[1..] + [t];
      FlattenAppend(ss[1..], t);
    }
  }

  lemma {:induction false} InsertedAll(pages: seq<Page>)
    requires forall k :: 0 <= k < |pages| ==> pages[k].planned
    ensures Inserted(pages) == TargetsOf(Flatten(Parcels(pages)))
  {
    if pages != [] {
      var front, last := pages[..|pages| - 1], pages[|pages| - 1];
      InsertedAll(front);
      FlattenAppend(Parcels(front), last.parcels);
      TargetsAppend(Flatten(Parcels(front)), last.parcels);
    }
  }

  lemma {:induction false} UniqueTargets(rows: seq<Parcel>, t: Target)
    requires Unique(rows)
    ensures TargetsOf(rows)[t] <= 1
  {
    if rows != [] {
      var front, last := rows[..|rows| - 1], rows[|rows| - 1];
      UniqueTargets(front, t);
      assert rows == front + [last];
      TargetsAppend(front, [last]);
      assert Map(TargetOf, [last]) == [TargetOf(last)];
      HasTarget(front, TargetOf(last));
    }
  }

  /** When every plan is saved, each matching parcel ends with exactly one target, in both schemes. */
  lemma EveryParcelTargetedOnce(pages: seq<Page>, rows: seq<Parcel>, p: Parcel)
    requires Parcels(pages) == Chunk(rows, LIMIT) && Unique(rows) && p in rows
    requires forall k :: 0 <= k < |pages| ==> pages[k].planned
    ensures Inserted(pages) == TargetsOf(rows) && Inserted(pages)[Target(p.trackingNumber, p.account)] == 1
  {
    ChunkPartitions(rows, LIMIT);
    InsertedAll(pages);
    HasTarget(rows, TargetOf(p));
    UniqueTargets(rows, TargetOf(p));
  }

  /** The rows of the first n pages. */
  function Taken(rows: seq<Parcel>, n: nat): seq<Parcel> { rows[..Min(n * LIMIT, |rows|)] }

  lemma MorePages(rows: seq<Parcel>, n: nat)
    ensures TargetsOf(Taken(rows, n)) + TargetsOf(PageOf(rows, n)) == TargetsOf(Taken(rows, n + 1))
  {
    assert Taken(rows, n) + PageOf(rows, n) == Taken(rows, n + 1);
    TargetsAppend(Taken(rows, n), PageOf(rows, n));
  }

  /** How many pages of the rows a scheme is past. */
  function Past(pages: seq<Page>, notCollected: bool): nat { if notCollected then Planned(pages) else |pages| }

  lemma InsertedStep(pages: seq<Page>, rows: seq<Parcel>, notCollected: bool)
    requires pages != []
    requires var front, last := pages[..|pages| - 1], pages[|pages| - 1];
             && Inserted(front) <= TargetsOf(Taken(rows, Past(front, notCollected)))
             && last.parcels == PageOf(rows, Past(front, notCollected))
    ensures Inserted(pages) <= TargetsOf(Taken(rows, Past(pages, notCollected)))
  {
    var front, last := pages[..|pages| - 1], pages[|pages| - 1];
    var n := Past(front, notCollected);
    MorePages(rows, n);
    assert Past(pages, notCollected) == if last.planned || !notCollected then n + 1 else n;
  }

  lemma {:induction false} InsertedWithin(pages: seq<Page>, rows: seq<Parcel>, notCollected: bool)
    requires Follows(pages, rows, notCollected)
    ensures Inserted(pages) <= TargetsOf(Taken(rows, Past(pages, notCollected)))
    decreases |pages|
  {
    if pages != [] {
      FollowsFront(pages, rows, notCollected);
      InsertedWithin(pages[..|pages| - 1], rows, notCollected);
      InsertedStep(pages, rows, notCollected);
    }
  }

  lemma FollowsFront(pages: seq<Page>, rows: seq<Parcel>, notCollected: bool)
    requires Follows(pages, rows, notCollected) && pages != []
    ensures var n := |pages| - 1;
            Follows(pages[..n], rows, notCollected)
            && pages[n].parcels == PageOf(rows, Past(pages[..n], notCollected))
  {
    var n := |pages| - 1;
    forall k | 0 <= k < n ensures pages[..n][..k] == pages[..k] {}
  }

  /** Whatever fails to be saved, a run inserts no target twice, in either scheme. */
  lemma InsertedOnce(pages: seq<Page>, rows: seq<Parcel>, notCollected: bool, t: Target)
    requires Follows(pages, rows, notCollected) && Unique(rows)
    ensures Inserted(pages)[t] <= 1
  {
    InsertedWithin(pages, rows, notCollected);
    UniqueTargets(Taken(rows, Past(pages, notCollected)), t);
  }

  predicate Plans(page: Page, t: Target) { page.planned && t in TargetsOf(page.parcels) }

  ghost predicate OnPlannedPage(pages: seq<Page>, t: Target) { exists page :: page in pages && Plans(page, t) }

  lemma LastPlannedPage(front: seq<Page>, last: Page, t: Target)
    ensures OnPlannedPage(front + [last], t) <==> OnPlannedPage(front, t) || Plans(last, t)
  {
    var pages := front + [last];
    assert forall page :: page in pages <==> page in front || page == last;
  }

  lemma LastInserted(front: seq<Page>, last: Page, t: Target)
    ensures t in Inserted(front + [last]) <==> t in Inserted(front) || Plans(last, t)
  {
    PageCounts(front, last);
  }

  lemma {:induction false} InsertedHas(pages: seq<Page>, t: Target)
    ensures t in Inserted(pages) <==> OnPlannedPage(pages, t)
    decreases |pages|
  {
    if pages != [] {
      var front, last := pages[..|pages| - 1], pages[|pages| - 1];
      InsertedHas(front, t);
      LastPlannedPage(front, last, t);
      LastInserted(front, last, t);
      assert pages == front + [last];
    }
  }

  lemma RequeryInsertsNew(pages: seq<Page>, rows: seq<Parcel>, targets: multiset<Target>, t: Target)
    requires Follows(pages, Uncollected(rows, targets), true) && t in Inserted(pages)
    ensures t !in targets
  {
    var counted := Uncollected(rows, targets);
    InsertedWithin(pages, counted, true);
    HasTarget(Taken(counted, Past(pages, true)), t);
    UncollectedIsFilter(rows, targets);
  }

  /** A parcel ends with a second target exactly when paging by offset visits it, with its plans saved, although
      it had a target before; asking again for uncollected rows never gives a second one. */
  lemma SecondTargetExactly(pages: seq<Page>, rows: seq<Parcel>, targets: multiset<Target>, notCollected: bool,
                            t: Target)
    requires Unique(rows) && Follows(pages, if notCollected then Uncollected(rows, targets) else rows, notCollected)
    requires targets[t] <= 1
    ensures Inserted(pages)[t] <= 1
    ensures (targets + Inserted(pages))[t] > 1 <==> !notCollected && t in targets && OnPlannedPage(pages, t)
  {
    if notCollected {
      UncollectedUnique(rows, targets);
      if t in Inserted(pages) { RequeryInsertsNew(pages, rows, targets, t); }
    }
    InsertedOnce(pages, if notCollected then Uncollected(rows, targets) else rows, notCollected, t);
    InsertedHas(pages, t);
  }

  /** One collected parcel, paged by offset once more. */
  lemma CollectedTwice(p: Parcel)
    ensures var pages := [Page([p], true)];
            ByOffset(pages, [p]) && (multiset{TargetOf(p)} + Inserted(pages))[TargetOf(p)] == 2
  {
    var pages := [Page([p], true)];
    assert PageOf([p], 0) == [p] && pages[..0] == [];
    assert Map(TargetOf, [p]) == [TargetOf(p)];
  }

  // ---------------------------------------------------------------- a failed page

  /** The plans of the first page are not saved, and it is visited twice. */
  function FailedThenSaved(rows: seq<Parcel>): seq<Page> { [Page(PageOf(rows, 0), false), Page(PageOf(rows, 0), true)] }

  lemma VisitedTwice(rows: seq<Parcel>)
    ensures ByRequery(FailedThenSaved(rows), rows) && Inserted(FailedThenSaved(rows)) == TargetsOf(PageOf(rows, 0))
  {
    var pages := FailedThenSaved(rows);
    assert pages[..1] == [pages[0]] && pages[..0] == [] && [pages[0]][..0] == [];
    assert Planned(pages[..0]) == 0 && Planned(pages[..1]) == 0;
    assert Inserted([pages[0]]) == multiset{};
  }

  lemma SecondPageMissed(rows: seq<Parcel>)
    requires Unique(rows) && LIMIT < |rows| <= 2 * LIMIT
    ensures Parcels(FailedThenSaved(rows)) != Chunk(rows, LIMIT)
    ensures TargetOf(rows[LIMIT]) !in Inserted(FailedThenSaved(rows))
  {
    VisitedTwice(rows);
    FailureRevisits(FailedThenSaved(rows), rows, 0);
    RestUntaken(rows, LIMIT);
    assert PageOf(rows, 0) == rows[..LIMIT] && rows[LIMIT..][0] == rows[LIMIT];
  }

  /** The tracking numbers "", "X", "XX" and so on. */
  lemma ManyParcels(n: nat) returns (rows: seq<Parcel>)
    ensures |rows| == n && Unique(rows)
  {
    rows := seq(n, i requires i >= 0 => Parcel(seq(i, _ => 'X'), Some("A"), "COLISSIMO", "FR", 0));
    assert forall i :: 0 <= i < n ==> |rows[i].trackingNumber| == i;
  }

  /** Of 1001 parcels the last gets no target when the plans of the first page are not saved. */
  lemma LastParcelMissed() returns (rows: seq<Parcel>, pages: seq<Page>)
    ensures |rows| == 1001 && Unique(rows) && ByRequery(pages, rows) && |pages| == (|rows| + LIMIT - 1) / LIMIT
    ensures Parcels(pages) != Chunk(rows, LIMIT) && TargetOf(rows[1000]) !in Inserted(pages)
  {
    rows := ManyParcels(1001);
    pages := FailedThenSaved(rows);
    VisitedTwice(rows);
    SecondPageMissed(rows);
  }
}
