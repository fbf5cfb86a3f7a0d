/** The link and visit store of `src/models/storage.py`: one record per short code, an
    append-only visit list per short code, the ad list, and the aggregate statistics computed
    from them. Files on disk become fields of a `Storage` object. */
module Store {
  import opened Common

  /** A stored link (`Link.to_dict`). Times are seconds since the epoch. */
  datatype LinkRecord = LinkRecord(
    shortCode: string,
    originalUrl: string,
    createdAt: real,
    clickCount: nat,
    isActive: bool)

  /** A stored visit (`LinkVisit.to_dict`). */
  datatype Visit = Visit(
    linkCode: string,
    ipAddress: string,
    userAgent: string,
    referrer: string,
    step: int,
    visitedAt: real)

  /** An entry of the ad list; an absent `is_active` is `None` and reads as active. */
  datatype Ad = Ad(
    id: int,
    adType: Option<string>,
    adContent: Option<string>,
    position: int,
    isActive: Option<bool>)

  datatype Stats = Stats(totalLinks: nat, activeLinks: nat, totalClicks: nat, totalVisits: nat)

  type LinkMap = map<string, LinkRecord>
  type VisitMap = map<string, seq<Visit>>

  /** The visit list of `code`; a code without a visit file has none. */
  function VisitsOf(visits: VisitMap, code: string): seq<Visit> {
    if code in visits then visits[code] else []
  }

  /** Every record is filed under its own short code. */
  ghost predicate KeyedByCode(links: LinkMap) {
    forall c :: c in links ==> links[c].shortCode == c
  }

  predicate SortedByCreatedDesc(ls: seq<LinkRecord>) {
    forall i, j :: 0 <= i < j < |ls| ==> ls[i].createdAt >= ls[j].createdAt
  }

  /** No record of `ls` was created after `t`. */
  predicate NoneLaterThan(ls: seq<LinkRecord>, t: real) {
    forall k :: 0 <= k < |ls| ==> ls[k].createdAt <= t
  }

  lemma {:induction false} NoneLaterCarries(a: seq<LinkRecord>, b: seq<LinkRecord>, r: LinkRecord, t: real)
    requires multiset(a) == multiset(b) + multiset{r}
    requires NoneLaterThan(b, t) && r.createdAt <= t
    ensures NoneLaterThan(a, t)
  {
    forall k | 0 <= k < |a| ensures a[k].createdAt <= t {
      assert a[k] in multiset(a);
      if a[k] != r {
        assert a[k] in multiset(b);
        var m :| 0 <= m < |b| && b[m] == a[k];
      }
    }
  }

  lemma {:induction false} ConsSorted(x: LinkRecord, tail: seq<LinkRecord>)
    requires SortedByCreatedDesc(tail) && NoneLaterThan(tail, x.createdAt)
    ensures SortedByCreatedDesc([x] + tail)
  {
    var res := [x] + tail;
    forall i, j | 0 <= i < j < |res| ensures res[i].createdAt >= res[j].createdAt {
      assert res[j] == tail[j - 1];
      if i > 0 {
        assert res[i] == tail[i - 1];
      }
    }
  }

  /** Inserts `r` into a list sorted newest first, keeping it sorted. */
  function InsertByCreated(r: LinkRecord, ls: seq<LinkRecord>): (res: seq<LinkRecord>)
    requires SortedByCreatedDesc(ls)
    ensures SortedByCreatedDesc(res)
    ensures multiset(res) == multiset(ls) + multiset{r}
  {
    if ls == [] || ls[0].createdAt <= r.createdAt then
      assert NoneLaterThan(ls, r.createdAt) by {
        if ls != [] {
          assert forall k :: 0 < k < |ls| ==> ls[0].createdAt >= ls[k].createdAt;
        }
      }
      ConsSorted(r, ls);
      [r] + ls
    else
      var tail := InsertByCreated(r, ls[1..]);
      assert ls == [ls[0]] + ls[1..];
      assert NoneLaterThan(ls[1..], ls[0].createdAt) by {
        assert forall k :: 0 <= k < |ls[1..]| ==> ls[1..][k] == ls[k + 1];
      }
      NoneLaterCarries(tail, ls[1..], r, ls[0].createdAt);
      ConsSorted(ls[0], tail);
      [ls[0]] + tail
  }

  /** Number of active links (`sum(1 for link in links if link.get('is_active', True))`). */
  function CountActive(ls: seq<LinkRecord>): (n: nat)
    ensures n <= |ls|
    ensures n == |ls| <==> forall i :: 0 <= i < |ls| ==> ls[i].isActive
  {
    if ls == [] then 0
    else
      var rest := CountActive(ls[1..]);
      assert forall i :: 1 <= i < |ls| ==> ls[i] == ls[1..][i - 1];
      (if ls[0].isActive then 1 else 0) + rest
  }

  function SumClicks(ls: seq<LinkRecord>): (n: nat)
    ensures forall i :: 0 <= i < |ls| ==> ls[i].clickCount <= n
    ensures n == 0 <==> forall i :: 0 <= i < |ls| ==> ls[i].clickCount == 0
  {
    if ls == [] then 0
    else
      var rest := SumClicks(ls[1..]);
      assert forall i :: 1 <= i < |ls| ==> ls[i] == ls[1..][i - 1];
      ls[0].clickCount + rest
  }

  function SumVisits(ls: seq<LinkRecord>, visits: VisitMap): (n: nat)
    ensures forall i :: 0 <= i < |ls| ==> |VisitsOf(visits, ls[i].shortCode)| <= n
    ensures n == 0 <==> forall i :: 0 <= i < |ls| ==> VisitsOf(visits, ls[i].shortCode) == []
  {
    if ls == [] then 0
    else
      var rest := SumVisits(ls[1..], visits);
      assert forall i :: 1 <= i < |ls| ==> ls[i] == ls[1..][i - 1];
      |VisitsOf(visits, ls[0].shortCode)| + rest
  }

  /** The statistics of a list of links: counts and sums over it. */
  function StatsOf(ls: seq<LinkRecord>, visits: VisitMap): (s: Stats)
    ensures s.totalLinks == |ls| && s.activeLinks <= s.totalLinks
  {
    Stats(|ls|, CountActive(ls), SumClicks(ls), SumVisits(ls, visits))
  }

  /** Field-by-field sum of two statistics. */
  function Plus(a: Stats, b: Stats): Stats {
    Stats(a.totalLinks + b.totalLinks, a.activeLinks + b.activeLinks,
          a.totalClicks + b.totalClicks, a.totalVisits + b.totalVisits)
  }

  /** The statistics of two lists put together are the sums of their statistics. */
  lemma StatsAppend(x: seq<LinkRecord>, y: seq<LinkRecord>, visits: VisitMap)
    ensures StatsOf(x + y, visits) == Plus(StatsOf(x, visits), StatsOf(y, visits))
  {
    CountActiveAppend(x, y);
    SumClicksAppend(x, y);
    SumVisitsAppend(x, y, visits);
  }

  lemma {:induction false} CountActiveAppend(x: seq<LinkRecord>, y: seq<LinkRecord>)
    ensures CountActive(x + y) == CountActive(x) + CountActive(y)
  {
    if x == [] {
      assert x + y == y;
    } else {
      assert (x + y)[0] == x[0] && (x + y)[1..] == x[1..] + y;
      CountActiveAppend(x[1..], y);
    }
  }

  lemma {:induction false} SumClicksAppend(x: seq<LinkRecord>, y: seq<LinkRecord>)
    ensures SumClicks(x + y) == SumClicks(x) + SumClicks(y)
  {
    if x == [] {
      assert x + y == y;
    } else {
      assert (x + y)[0] == x[0] && (x + y)[1..] == x[1..] + y;
      SumClicksAppend(x[1..], y);
    }
  }

  lemma {:induction false} SumVisitsAppend(x: seq<LinkRecord>, y: seq<LinkRecord>, visits: VisitMap)
    ensures SumVisits(x + y, visits) == SumVisits(x, visits) + SumVisits(y, visits)
  {
    if x == [] {
      assert x + y == y;
    } else {
      assert (x + y)[0] == x[0] && (x + y)[1..] == x[1..] + y;
      SumVisitsAppend(x[1..], y, visits);
    }
  }

  /** The statistics depend only on which records are listed, not on their order: every listing
      of the same links gives the same counts and sums. */
  lemma {:induction false} StatsPermutation(a: seq<LinkRecord>, b: seq<LinkRecord>, visits: VisitMap)
    requires multiset(a) == multiset(b)
    ensures StatsOf(a, visits) == StatsOf(b, visits)
    decreases |a|
  {
    if a == [] {
      assert |b| == |multiset(b)| == 0;
    } else {
      assert a[0] in multiset(b);
      var k :| 0 <= k < |b| && b[k] == a[0];
      WithoutOne(a, b, k);
      StatsPermutation(a[1..], b[..k] + b[k + 1..], visits);
      StatsAppend([a[0]], a[1..], visits);
      assert [a[0]] + a[1..] == a;
      StatsOfWithoutOne(b, k, visits);
    }
  }

  lemma WithoutOne(a: seq<LinkRecord>, b: seq<LinkRecord>, k: int)
    requires multiset(a) == multiset(b) && a != [] && 0 <= k < |b| && b[k] == a[0]
    ensures multiset(a[1..]) == multiset(b[..k] + b[k + 1..])
  {
    assert b == b[..k] + [b[k]] + b[k + 1..];
    assert a == [a[0]] + a[1..];
    assert multiset(b) == multiset(b[..k]) + multiset{b[k]} + multiset(b[k + 1..]);
    assert multiset(a) == multiset{a[0]} + multiset(a[1..]);
    forall x ensures multiset(a[1..])[x] == multiset(b[..k] + b[k + 1..])[x] {
      assert multiset(a)[x] == multiset(b)[x];
    }
  }

  lemma StatsOfWithoutOne(b: seq<LinkRecord>, k: int, visits: VisitMap)
    requires 0 <= k < |b|
    ensures StatsOf(b, visits) == Plus(StatsOf([b[k]], visits), StatsOf(b[..k] + b[k + 1..], visits))
  {
    assert b == b[..k] + ([b[k]] + b[k + 1..]);
    StatsAppend(b[..k], [b[k]] + b[k + 1..], visits);
    StatsAppend([b[k]], b[k + 1..], visits);
    StatsAppend(b[..k], b[k + 1..], visits);
  }

  /** A list holding each stored record at most once, and all of them, is a listing of the map's
      values. */
  lemma ListsValues(ls: seq<LinkRecord>, links: LinkMap)
    requires forall x :: multiset(ls)[x] <= 1
    requires forall i :: 0 <= i < |ls| ==> ls[i].shortCode in links && links[ls[i].shortCode] == ls[i]
    requires forall c :: c in links ==> links[c] in ls
    ensures multiset(ls) == multiset(links.Values)
  {
    forall x ensures multiset(ls)[x] == multiset(links.Values)[x] {
      if x in ls {
        var i :| 0 <= i < |ls| && ls[i] == x;
        assert links[x.shortCode] == x;
      }
    }
  }

  class Storage {
    var links: LinkMap
    var visits: VisitMap
    var ads: seq<Ad>

    ghost predicate Valid()
      reads this
    {
      KeyedByCode(links)
    }

    constructor (ads: seq<Ad>)
      ensures Valid()
      ensures links == map[] && visits == map[] && this.ads == ads
    {
      links := map[];
      visits := map[];
      this.ads := ads;
    }

    /** `save_link`: files `d` under its own short code, replacing any earlier record. */
    method SaveLink(d: LinkRecord)
      requires Valid()
      modifies this
      ensures Valid()
      ensures links == old(links)[d.shortCode := d]
      ensures visits == old(visits) && ads == old(ads)
    {
      links := links[d.shortCode := d];
    }

    /** `get_link`: the record filed under `code`, if any. */
    method GetLink(code: string) returns (r: Option<LinkRecord>)
      ensures r.Some? <==> code in links
      ensures r.Some? ==> r.value == links[code]
    {
      if code in links {
        r := Some(links[code]);
      } else {
        r := None;
      }
    }

    /** `get_all_links`: every stored record once, newest first. */
    method GetAllLinks() returns (ls: seq<LinkRecord>)
      requires Valid()
      ensures |ls| == |links|
      ensures SortedByCreatedDesc(ls)
      ensures forall i :: 0 <= i < |ls| ==> ls[i].shortCode in links && links[ls[i].shortCode] == ls[i]
      ensures forall c :: c in links ==> links[c] in ls
      ensures multiset(ls) == multiset(links.Values)
    {
      ls := [];
      var remaining := links.Keys;
      while remaining != {}
        invariant remaining <= links.Keys
        invariant |ls| + |remaining| == |links|
        invariant SortedByCreatedDesc(ls)
        invariant forall x :: x in ls ==> x.shortCode in links && links[x.shortCode] == x && x.shortCode !in remaining
        invariant forall c :: c in links && c !in remaining ==> links[c] in ls
        invariant forall x :: multiset(ls)[x] <= 1
        decreases |remaining|
      {
        var k :| k in remaining;
        var r := links[k];
        assert r !in ls;
        var next := InsertByCreated(r, ls);
        assert forall x :: x in next <==> x == r || x in ls by {
          forall x ensures x in next <==> x == r || x in ls {
            assert x in next <==> x in multiset(next);
          }
        }
        ls := next;
        remaining := remaining - {k};
      }
      assert links.Keys == links.Keys - remaining;
      ListsValues(ls, links);
    }

    /** `delete_link`: removes the record and its visits when the record exists. */
    method DeleteLink(code: string) returns (ok: bool)
      requires Valid()
      modifies this
      ensures Valid()
      ensures ok == (code in old(links))
      ensures ok ==> links == old(links) - {code} && visits == old(visits) - {code}
      ensures !ok ==> links == old(links) && visits == old(visits)
      ensures ads == old(ads)
    {
      ok := code in links;
      if ok {
        links := links - {code};
        visits := visits - {code};
      }
    }

    /** `save_visit`: appends `v` at the end of the visit list of `code`. */
    method SaveVisit(code: string, v: Visit)
      modifies this
      ensures visits == old(visits)[code := VisitsOf(old(visits), code) + [v]]
      ensures links == old(links) && ads == old(ads)
    {
      visits := visits[code := VisitsOf(visits, code) + [v]];
    }

    /** `get_visits`: the visit list of `code`, empty for a code never visited. */
    method GetVisits(code: string) returns (vs: seq<Visit>)
      ensures code !in visits ==> vs == []
      ensures code in visits ==> vs == visits[code]
    {
      vs := VisitsOf(visits, code);
    }

    /** `get_stats`: the aggregate statistics over all stored links. */
    method GetStats() returns (s: Stats)
      requires Valid()
      ensures s.totalLinks == |links| && s.activeLinks <= s.totalLinks
      ensures s.activeLinks == s.totalLinks <==> forall c :: c in links ==> links[c].isActive
      ensures s.totalClicks == 0 <==> forall c :: c in links ==> links[c].clickCount == 0
      ensures s.totalVisits == 0 <==> forall c :: c in links ==> VisitsOf(visits, c) == []
      ensures forall c :: c in links ==> links[c].clickCount <= s.totalClicks
      ensures exists ls :: multiset(ls) == multiset(links.Values) && s == StatsOf(ls, visits)
    {
      var ls := GetAllLinks();
      s := StatsOf(ls, visits);
      forall c | c in links ensures links[c] in ls && links[c].shortCode == c {
      }
    }
  }
}
