/** The link, visit and ad models of `src/models/link.py`: a `Link` object whose methods update
    its fields and persist them, the per-day visit deduplicator, short-code generation and the
    ad lookup by position. */
module Links {
  import opened Common
  import opened Store

  /** `string.ascii_letters + string.digits`. */
  const AsciiLowercase: string := seq(26, i requires 0 <= i < 26 => ('a' as int + i) as char)
  const AsciiUppercase: string := seq(26, i requires 0 <= i < 26 => ('A' as int + i) as char)
  const Digits: string := seq(10, i requires 0 <= i < 10 => ('0' as int + i) as char)
  const Alphabet: string := AsciiLowercase + AsciiUppercase + Digits
  const CodeLength: nat := 6
  const SecondsPerDay: int := 86400

  /** The calendar day (UTC) of a timestamp: `datetime.utcnow().date()`, counted in whole days
      since the epoch. */
  function Day(t: real): (d: int)
    ensures (d * SecondsPerDay) as real <= t < ((d + 1) * SecondsPerDay) as real
  {
    t.Floor / SecondsPerDay
  }

  predicate IsAlnum(c: char) {
    ('a' <= c <= 'z') || ('A' <= c <= 'Z') || ('0' <= c <= '9')
  }

  /** Some visit in `vs` comes from `ip` on calendar day `day`. */
  predicate VisitedOn(vs: seq<Visit>, ip: string, day: int) {
    exists i :: 0 <= i < |vs| && vs[i].ipAddress == ip && Day(vs[i].visitedAt) == day
  }

  /** The visit lists hold at most one visit per (ip, day): what the deduplicator maintains. */
  ghost predicate Deduplicated(visits: VisitMap) {
    forall c, i, j :: c in visits && 0 <= i < j < |visits[c]| ==>
      !(visits[c][i].ipAddress == visits[c][j].ipAddress && Day(visits[c][i].visitedAt) == Day(visits[c][j].visitedAt))
  }

  /** "Record if first today": appends `v` to its link's visits unless that link already has a
      visit from the same IP on the same day. Returns whether it appended. */
  function RecordIfFirstToday(visits: VisitMap, v: Visit): (r: (bool, VisitMap))
    ensures r.0 <==> !VisitedOn(VisitsOf(visits, v.linkCode), v.ipAddress, Day(v.visitedAt))
    ensures r.0 ==> r.1 == visits[v.linkCode := VisitsOf(visits, v.linkCode) + [v]]
    ensures !r.0 ==> r.1 == visits
    ensures VisitedOn(VisitsOf(r.1, v.linkCode), v.ipAddress, Day(v.visitedAt))
    ensures Deduplicated(visits) ==> Deduplicated(r.1)
  {
    var vs := VisitsOf(visits, v.linkCode);
    if VisitedOn(vs, v.ipAddress, Day(v.visitedAt)) then
      (false, visits)
    else
      var visits' := visits[v.linkCode := vs + [v]];
      assert (vs + [v])[|vs|] == v;
      (true, visits')
  }

  /** The first ad in list order at `position` that is active (an absent flag counts as active). */
  predicate Serves(ad: Ad, position: int) {
    ad.position == position && ad.isActive.GetOr(true)
  }

  function FirstAdAt(ads: seq<Ad>, position: int): (r: Option<Ad>)
    ensures r.None? <==> forall i :: 0 <= i < |ads| ==> !Serves(ads[i], position)
    ensures r.Some? ==> exists i :: 0 <= i < |ads| && ads[i] == r.value && Serves(ads[i], position) &&
                                   forall j :: 0 <= j < i ==> !Serves(ads[j], position)
  {
    if ads == [] then None
    else if Serves(ads[0], position) then Some(ads[0])
    else
      var rest := FirstAdAt(ads[1..], position);
      assert forall i :: 1 <= i < |ads| ==> ads[i] == ads[1..][i - 1];
      if rest.Some? then
        var k :| 0 <= k < |ads[1..]| && ads[1..][k] == rest.value && Serves(ads[1..][k], position) &&
                 forall j :: 0 <= j < k ==> !Serves(ads[1..][j], position);
        assert forall j :: 1 <= j < k + 1 ==> ads[j] == ads[1..][j - 1];
        rest
      else
        rest
  }

  /** `AdConfig.get_by_position`: scans the stored ad list in order. */
  method GetByPosition(store: Storage, position: int) returns (r: Option<Ad>)
    ensures r == FirstAdAt(store.ads, position)
  {
    var ads := store.ads;
    var i := 0;
    while i < |ads|
      invariant 0 <= i <= |ads|
      invariant FirstAdAt(ads[i..], position) == FirstAdAt(ads, position)
    {
      if Serves(ads[i], position) {
        return Some(ads[i]);
      }
      assert ads[i..][1..] == ads[i + 1..];
      i := i + 1;
    }
    r := None;
  }

  /** The linear scan of `has_visited_today` over one visit list. */
  method ScanForDay(vs: seq<Visit>, ip: string, now: real) returns (found: bool)
    ensures found <==> VisitedOn(vs, ip, Day(now))
  {
    var today := Day(now);
    var i := 0;
    while i < |vs|
      invariant 0 <= i <= |vs|
      invariant forall k :: 0 <= k < i ==> !(vs[k].ipAddress == ip && Day(vs[k].visitedAt) == today)
    {
      if Day(vs[i].visitedAt) == today && vs[i].ipAddress == ip {
        return true;
      }
      i := i + 1;
    }
    found := false;
  }

  /** `LinkVisit.has_visited_today`: is there a visit to `code` from `ip` dated today? */
  method HasVisitedToday(store: Storage, code: string, ip: string, now: real) returns (found: bool)
    ensures found <==> VisitedOn(VisitsOf(store.visits, code), ip, Day(now))
  {
    var vs := store.GetVisits(code);
    found := ScanForDay(vs, ip, now);
  }

  /** `LinkVisit(...)`: building a visit stamps it with the current time and saves it, so the
      link's visit list grows by exactly this one record. */
  method NewVisit(store: Storage, code: string, ip: string, userAgent: string, referrer: string, step: int, now: real)
    returns (v: Visit)
    modifies store
    ensures v == Visit(code, ip, userAgent, referrer, step, now)
    ensures store.visits == old(store.visits)[code := VisitsOf(old(store.visits), code) + [v]]
    ensures store.links == old(store.links) && store.ads == old(store.ads)
  {
    v := Visit(code, ip, userAgent, referrer, step, now);
    store.SaveVisit(code, v);
  }

  /** The `attempt`-th candidate code drawn from a stream of `random.choice` results: six
      consecutive draws, each picking one character of `Alphabet`. */
  function Candidate(draws: seq<nat>, attempt: nat): (code: string)
    requires (attempt + 1) * CodeLength <= |draws|
    ensures |code| == CodeLength
    ensures forall i :: 0 <= i < |code| ==> IsAlnum(code[i])
  {
    assert forall k :: 0 <= k < |Alphabet| ==> IsAlnum(Alphabet[k]);
    seq(CodeLength, i requires 0 <= i < CodeLength => Alphabet[draws[attempt * CodeLength + i] % |Alphabet|])
  }

  /** `generate_short_code`: draws candidates until one is not stored. The source retries for
      ever; here the random stream `draws` bounds the retries and `None` means it ran dry. */
  method GenerateShortCode(store: Storage, draws: seq<nat>) returns (code: Option<string>)
    ensures code.Some? ==> |code.value| == CodeLength && (forall i :: 0 <= i < CodeLength ==> IsAlnum(code.value[i]))
    ensures code.Some? ==> code.value !in store.links
    ensures code.Some? ==> exists t: nat :: (t + 1) * CodeLength <= |draws| && code.value == Candidate(draws, t)
    ensures code.None? ==> forall t: nat :: (t + 1) * CodeLength <= |draws| ==> Candidate(draws, t) in store.links
  {
    var attempt: nat := 0;
    while (attempt + 1) * CodeLength <= |draws|
      invariant attempt * CodeLength <= |draws|
      invariant forall t: nat :: t < attempt ==> Candidate(draws, t) in store.links
      decreases |draws| - attempt * CodeLength
    {
      var c := Candidate(draws, attempt);
      var existing := store.GetLink(c);
      if existing.None? {
        return Some(c);
      }
      attempt := attempt + 1;
    }
    code := None;
  }

  class Link {
    var originalUrl: string
    var shortCode: string
    var createdAt: real
    var clickCount: nat
    var isActive: bool

    /** `to_dict`: the record this object persists. */
    function Record(): LinkRecord
      reads this
    {
      LinkRecord(shortCode, originalUrl, createdAt, clickCount, isActive)
    }

    /** `Link(original_url, short_code)`: a new link with no clicks, active, created now, and
        saved at once. */
    constructor (store: Storage, originalUrl: string, shortCode: string, now: real)
      requires store.Valid()
      modifies store
      ensures store.Valid()
      ensures Record() == LinkRecord(shortCode, originalUrl, now, 0, true)
      ensures store.links == old(store.links)[shortCode := Record()]
      ensures store.visits == old(store.visits) && store.ads == old(store.ads)
    {
      this.originalUrl := originalUrl;
      this.shortCode := shortCode;
      createdAt := now;
      clickCount := 0;
      isActive := true;
      new;
      store.SaveLink(Record());
    }

    /** Rebuilds a link object from a stored record without writing anything. */
    constructor FromRecord(r: LinkRecord)
      ensures Record() == r
    {
      originalUrl := r.originalUrl;
      shortCode := r.shortCode;
      createdAt := r.createdAt;
      clickCount := r.clickCount;
      isActive := r.isActive;
    }

    /** `increment_click`: one more click, persisted; nothing else about the link changes. */
    method IncrementClick(store: Storage)
      requires store.Valid()
      modifies this, store
      ensures store.Valid()
      ensures Record() == old(Record()).(clickCount := old(clickCount) + 1)
      ensures store.links == old(store.links)[shortCode := Record()]
      ensures store.visits == old(store.visits) && store.ads == old(store.ads)
    {
      clickCount := clickCount + 1;
      store.SaveLink(Record());
    }

    /** `toggle_active`: flips the active flag and persists it. */
    method ToggleActive(store: Storage)
      requires store.Valid()
      modifies this, store
      ensures store.Valid()
      ensures Record() == old(Record()).(isActive := !old(isActive))
      ensures store.links == old(store.links)[shortCode := Record()]
      ensures store.visits == old(store.visits) && store.ads == old(store.ads)
    {
      isActive := !isActive;
      store.SaveLink(Record());
    }

    /** `delete`: removes the link and, with it, its visits. */
    method Delete(store: Storage)
      requires store.Valid()
      modifies store
      ensures store.Valid()
      ensures store.links == old(store.links) - {shortCode}
      ensures store.visits == (if shortCode in old(store.links) then old(store.visits) - {shortCode} else old(store.visits))
      ensures store.ads == old(store.ads)
    {
      var _ := store.DeleteLink(shortCode);
    }
  }

  /** Toggling twice restores the object and its stored record. */
  method ToggleTwiceRestores(store: Storage, link: Link)
    requires store.Valid() && link.shortCode in store.links && store.links[link.shortCode] == link.Record()
    modifies store, link
    ensures store.Valid()
    ensures link.Record() == old(link.Record())
    ensures store.links == old(store.links) && store.visits == old(store.visits) && store.ads == old(store.ads)
  {
    link.ToggleActive(store);
    link.ToggleActive(store);
  }

  /** `get_by_code` as the model uses it: a read-only lookup that rebuilds the object from the
      stored record (the way `app.py` does). */
  method GetByCode(store: Storage, code: string) returns (link: Link?)
    ensures link == null <==> code !in store.links
    ensures link != null ==> fresh(link) && link.Record() == store.links[code]
  {
    var data := store.GetLink(code);
    if data.Some? {
      link := new Link.FromRecord(data.value);
    } else {
      link := null;
    }
  }

  /** What `get_by_code` as written leaves in the store: its call of the constructor re-saves
      the record with no clicks, active, and created now. */
  function ReadEffectAsWritten(links: LinkMap, code: string, now: real): (links': LinkMap)
    requires code in links
    ensures code in links' && links'[code].isActive && links'[code].clickCount == 0
    ensures links'[code].originalUrl == links[code].originalUrl && links'[code].shortCode == links[code].shortCode
    ensures links'[code].createdAt == now
    ensures forall c :: c != code ==> (c in links' <==> c in links) && (c in links ==> links'[c] == links[c])
  {
    links[code := LinkRecord(links[code].shortCode, links[code].originalUrl, now, 0, true)]
  }

  /** `get_by_code` as written: the returned object carries the stored values, but the store now
      holds the reset record. */
  method GetByCodeAsWritten(store: Storage, code: string, now: real) returns (link: Link?)
    requires store.Valid()
    modifies store
    ensures store.Valid()
    ensures link == null <==> code !in old(store.links)
    ensures link != null ==> fresh(link) && link.Record() == old(store.links)[code]
    ensures link != null ==> store.links == ReadEffectAsWritten(old(store.links), code, now)
    ensures link == null ==> store.links == old(store.links)
    ensures store.visits == old(store.visits) && store.ads == old(store.ads)
  {
    var data := store.GetLink(code);
    if data.Some? {
      var d := data.value;
      link := new Link(store, d.originalUrl, d.shortCode, now);
      link.createdAt := d.createdAt;
      link.clickCount := d.clickCount;
      link.isActive := d.isActive;
    } else {
      link := null;
    }
  }

  /** The discrepancy: reading a deactivated link with clicks through `get_by_code` as written
      turns it active again and erases its clicks in the store, although the caller sees the old
      values. */
  lemma AsWrittenReadReactivates(links: LinkMap, code: string, now: real)
    requires code in links && !links[code].isActive && links[code].clickCount > 0
    ensures var links' := ReadEffectAsWritten(links, code, now);
      links'[code].isActive != links[code].isActive && links'[code].clickCount < links[code].clickCount
  {
  }
}
