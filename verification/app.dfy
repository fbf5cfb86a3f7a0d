/** The single-file version of the service in `app.py`: its own file store with a running
    statistics file, its own `Link` whose updates also adjust those statistics, its own header,
    URL and bot checks, and the same four-step redirect gate (without ads). The gate handlers
    are proved to perform exactly the transitions `Gate.Enter` and `Gate.Advance` describe, and
    every handler that changes links keeps the link counters of the statistics file equal to
    the true counts. */
module App {
  import opened Common
  import opened Store
  import opened Links
  import opened Security
  import opened Gate

  /** What `_read_json` finds at a path: no file, a file that does not parse, or a value. */
  datatype FileState<T> = Missing | Unreadable | Parsed(value: T)

  /** `_read_json`: the parsed value, or `default` for a missing or unreadable file. */
  function ReadJson<T>(f: FileState<T>, default: T): (r: T)
    ensures f.Parsed? ==> r == f.value
    ensures !f.Parsed? ==> r == default
  {
    match f
    case Parsed(v) => v
    case _ => default
  }

  /** The running statistics kept in `stats.json`; integers, since they are decremented. */
  datatype Counters = Counters(totalLinks: int, activeLinks: int, totalClicks: int, totalVisits: int)

  /** What `get_stats` answers when there is no statistics file. */
  const NoCounters := Counters(0, 0, 0, 0)

  /** The codes of the active links. */
  function ActiveCodes(links: LinkMap): set<string> {
    set c | c in links && links[c].isActive
  }

  /** The link counters of the statistics file equal the true counts. */
  predicate CountersAgree(c: Counters, links: LinkMap) {
    c.totalLinks == |links| && c.activeLinks == |ActiveCodes(links)|
  }

  /** Creating an active link under a new code: both link counters go up by one. */
  lemma {:induction false} CreateKeepsAgreement(c: Counters, links: LinkMap, r: LinkRecord)
    requires CountersAgree(c, links) && r.shortCode !in links && r.isActive
    ensures CountersAgree(c.(totalLinks := c.totalLinks + 1, activeLinks := c.activeLinks + 1), links[r.shortCode := r])
  {
    assert ActiveCodes(links[r.shortCode := r]) == ActiveCodes(links) + {r.shortCode};
  }

  /** Flipping a link's active flag: the active counter moves by one in the new flag's direction. */
  lemma {:induction false} ToggleKeepsAgreement(c: Counters, links: LinkMap, code: string)
    requires CountersAgree(c, links) && code in links
    ensures var r := links[code].(isActive := !links[code].isActive);
      CountersAgree(c.(activeLinks := c.activeLinks + (if r.isActive then 1 else -1)), links[code := r])
  {
    var r := links[code].(isActive := !links[code].isActive);
    if r.isActive {
      assert ActiveCodes(links[code := r]) == ActiveCodes(links) + {code};
    } else {
      assert ActiveCodes(links[code := r]) == ActiveCodes(links) - {code};
    }
  }

  /** Deleting a stored link: one link less, and one active link less if it was active. */
  lemma {:induction false} DeleteKeepsAgreement(c: Counters, links: LinkMap, code: string)
    requires CountersAgree(c, links) && code in links
    ensures CountersAgree(c.(totalLinks := c.totalLinks - 1, activeLinks := c.activeLinks - (if links[code].isActive then 1 else 0)),
                          links - {code})
  {
    assert (links - {code}).Keys == links.Keys - {code};
    if links[code].isActive {
      assert ActiveCodes(links - {code}) == ActiveCodes(links) - {code};
    } else {
      assert ActiveCodes(links - {code}) == ActiveCodes(links);
    }
  }

  /** Changes that keep every code and every active flag keep the counters right. */
  lemma {:induction false} SameFlagsKeepAgreement(c: Counters, links: LinkMap, links': LinkMap)
    requires CountersAgree(c, links)
    requires links'.Keys == links.Keys && forall k :: k in links ==> links'[k].isActive == links[k].isActive
    ensures CountersAgree(c, links')
  {
    assert ActiveCodes(links') == ActiveCodes(links);
    assert |links'| == |links'.Keys| == |links.Keys| == |links|;
  }

  /** The file store of `app.py`: a file per link, a visit file per link, and `stats.json`. */
  class AppStorage {
    var links: LinkMap
    var visits: VisitMap
    var statsFile: FileState<Counters>

    ghost predicate Valid()
      reads this
    {
      KeyedByCode(links)
    }

    /** The statistics as `get_stats` reads them. */
    function Stats(): Counters
      reads this
    {
      ReadJson(statsFile, NoCounters)
    }

    /** An empty store: no links, no visits, no statistics file. */
    constructor ()
      ensures Valid() && links == map[] && visits == map[] && statsFile == Missing
      ensures CountersAgree(Stats(), links)
    {
      links := map[];
      visits := map[];
      statsFile := Missing;
    }

    /** `get_link`. */
    method GetLink(code: string) returns (r: Option<LinkRecord>)
      ensures r.Some? <==> code in links
      ensures r.Some? ==> r.value == links[code]
    {
      r := if code in links then Some(links[code]) else None;
    }

    /** `save_link`. */
    method SaveLink(d: LinkRecord)
      requires Valid()
      modifies this
      ensures Valid()
      ensures links == old(links)[d.shortCode := d]
      ensures visits == old(visits) && statsFile == old(statsFile)
    {
      links := links[d.shortCode := d];
    }

    /** `delete_link`: removes the link file if there is one, and the visit directory
        whether or not the link file existed. */
    method DeleteLink(code: string)
      requires Valid()
      modifies this
      ensures Valid()
      ensures links == old(links) - {code} && visits == old(visits) - {code}
      ensures statsFile == old(statsFile)
    {
      links := links - {code};
      visits := visits - {code};
    }

    /** `get_visits`: the visits of `code`, or the default empty list. */
    method GetVisits(code: string) returns (vs: seq<Visit>)
      ensures code !in visits ==> vs == []
      ensures code in visits ==> vs == visits[code]
    {
      vs := VisitsOf(visits, code);
    }

    /** `save_visit`: appends to the visit list of `code`. */
    method SaveVisit(code: string, v: Visit)
      modifies this
      ensures visits == old(visits)[code := VisitsOf(old(visits), code) + [v]]
      ensures links == old(links) && statsFile == old(statsFile)
    {
      visits := visits[code := VisitsOf(visits, code) + [v]];
    }

    /** `get_stats`: the stored statistics, or all zeros when the file is missing or unreadable. */
    method GetStats() returns (c: Counters)
      ensures statsFile.Parsed? ==> c == statsFile.value
      ensures !statsFile.Parsed? ==> c == NoCounters
    {
      c := ReadJson(statsFile, NoCounters);
    }

    /** `save_stats`. */
    method SaveStats(c: Counters)
      modifies this
      ensures statsFile == Parsed(c) && Stats() == c
      ensures links == old(links) && visits == old(visits)
    {
      statsFile := Parsed(c);
    }
  }

  /** The `Link` class of `app.py`; its updates save the link and adjust the statistics. */
  class AppLink {
    var originalUrl: string
    var shortCode: string
    var createdAt: real
    var clickCount: nat
    var isActive: bool

    /** The dictionary `save` writes. */
    function Record(): LinkRecord
      reads this
    {
      LinkRecord(shortCode, originalUrl, createdAt, clickCount, isActive)
    }

    /** `Link(original_url, short_code)`: a new link with no clicks, active, saved at once. */
    constructor (store: AppStorage, originalUrl: string, shortCode: string, now: real)
      requires store.Valid()
      modifies store
      ensures store.Valid()
      ensures Record() == LinkRecord(shortCode, originalUrl, now, 0, true)
      ensures store.links == old(store.links)[shortCode := Record()]
      ensures store.visits == old(store.visits) && store.statsFile == old(store.statsFile)
    {
      this.originalUrl := originalUrl;
      this.shortCode := shortCode;
      clickCount := 0;
      createdAt := now;
      isActive := true;
      new;
      store.SaveLink(Record());
    }

    /** The object `get_by_code` rebuilds from a stored record, without saving. */
    constructor FromRecord(r: LinkRecord)
      ensures Record() == r
    {
      originalUrl := r.originalUrl;
      shortCode := r.shortCode;
      createdAt := r.createdAt;
      clickCount := r.clickCount;
      isActive := r.isActive;
    }

    /** `increment_click`: one click more on the link and in `total_clicks`. */
    method IncrementClick(store: AppStorage)
      requires store.Valid()
      modifies this, store
      ensures store.Valid()
      ensures Record() == old(Record()).(clickCount := old(clickCount) + 1)
      ensures store.links == old(store.links)[old(shortCode) := Record()]
      ensures store.Stats() == old(store.Stats()).(totalClicks := old(store.Stats()).totalClicks + 1)
      ensures store.visits == old(store.visits)
      ensures (old(shortCode) in old(store.links) && old(store.links)[old(shortCode)] == old(Record()) &&
               CountersAgree(old(store.Stats()), old(store.links))) ==> CountersAgree(store.Stats(), store.links)
    {
      clickCount := clickCount + 1;
      store.SaveLink(Record());
      var stats := store.GetStats();
      store.SaveStats(stats.(totalClicks := stats.totalClicks + 1));
      if shortCode in old(store.links) && old(store.links)[shortCode] == old(Record()) && CountersAgree(old(store.Stats()), old(store.links)) {
        SameFlagsKeepAgreement(old(store.Stats()), old(store.links), store.links);
      }
    }

    /** `toggle_active`: flips the flag and moves `active_links` by one in its new direction. */
    method ToggleActive(store: AppStorage)
      requires store.Valid()
      modifies this, store
      ensures store.Valid()
      ensures Record() == old(Record()).(isActive := !old(isActive))
      ensures store.links == old(store.links)[shortCode := Record()]
      ensures store.Stats() == old(store.Stats()).(activeLinks := old(store.Stats()).activeLinks + (if isActive then 1 else -1))
      ensures store.visits == old(store.visits)
    {
      isActive := !isActive;
      store.SaveLink(Record());
      var stats := store.GetStats();
      if isActive {
        stats := stats.(activeLinks := stats.activeLinks + 1);
      } else {
        stats := stats.(activeLinks := stats.activeLinks - 1);
      }
      store.SaveStats(stats);
    }

    /** `delete`: removes link and visits; one link less, one active link less if this one is
        active. `total_clicks` and `total_visits` are left as they are. */
    method Delete(store: AppStorage)
      requires store.Valid()
      modifies store
      ensures store.Valid()
      ensures store.links == old(store.links) - {shortCode} && store.visits == old(store.visits) - {shortCode}
      ensures store.Stats() == old(store.Stats()).(totalLinks := old(store.Stats()).totalLinks - 1,
                                                   activeLinks := old(store.Stats()).activeLinks - (if isActive then 1 else 0))
    {
      store.DeleteLink(shortCode);
      var stats := store.GetStats();
      stats := stats.(totalLinks := stats.totalLinks - 1);
      if isActive {
        stats := stats.(activeLinks := stats.activeLinks - 1);
      }
      store.SaveStats(stats);
    }
  }

  /** `Link.get_by_code` of `app.py`: rebuilds the stored link and writes nothing. */
  method GetByCode(store: AppStorage, code: string) returns (link: AppLink?)
    ensures link == null <==> code !in store.links
    ensures link != null ==> fresh(link) && link.Record() == store.links[code]
  {
    var data := store.GetLink(code);
    if data.None? {
      return null;
    }
    link := new AppLink.FromRecord(data.value);
  }

  /** `_generate_short_code`: six random alphanumerics per attempt until a free code comes up;
      `draws` is the random stream and `None` means it ran dry. */
  method GenerateShortCode(store: AppStorage, draws: seq<nat>) returns (code: Option<string>)
    ensures code.Some? ==> |code.value| == CodeLength && (forall i :: 0 <= i < CodeLength ==> IsAlnum(code.value[i]))
    ensures code.Some? ==> code.value !in store.links
    ensures code.Some? ==> exists t: nat :: (t + 1) * CodeLength <= |draws| && code.value == Candidate(draws, t)
    ensures code.None? ==> forall t: nat :: (t + 1) * CodeLength <= |draws| ==> Candidate(draws, t) in store.links
  {
    var attempt: nat := 0;
    while (attempt + 1) * CodeLength <= |draws|
      invariant attempt * CodeLength <= |draws|
      invariant forall t: nat :: t < attempt ==> Candidate(draws, t) in store.links
      decreases |draws| - attempt * CodeLength
    {
      var c := Candidate(draws, attempt);
      var existing := store.GetLink(c);
      if existing.None? {
        return Some(c);
      }
      attempt := attempt + 1;
    }
    code := None;
  }

  /** `LinkVisit(...)` of `app.py`: saves the visit and adds one to `total_visits`. */
  method NewVisit(store: AppStorage, code: string, ip: string, userAgent: string, referrer: string, step: int, now: real)
    returns (v: Visit)
    modifies store
    ensures v == Visit(code, ip, userAgent, referrer, step, now)
    ensures store.visits == old(store.visits)[code := VisitsOf(old(store.visits), code) + [v]]
    ensures store.links == old(store.links)
    ensures store.Stats() == old(store.Stats()).(totalVisits := old(store.Stats()).totalVisits + 1)
  {
    v := Visit(code, ip, userAgent, referrer, step, now);
    store.SaveVisit(code, v);
    var stats := store.GetStats();
    store.SaveStats(stats.(totalVisits := stats.totalVisits + 1));
  }

  /** `LinkVisit.has_visited_today` of `app.py` (on the server's local date). */
  method HasVisitedToday(store: AppStorage, code: string, ip: string, now: real) returns (found: bool)
    ensures found <==> VisitedOn(VisitsOf(store.visits, code), ip, Day(now))
  {
    var vs := store.GetVisits(code);
    found := ScanForDay(vs, ip, now);
  }

  /** The step every gate handler repeats: record a visit unless the IP already visited the
      link today (`if not LinkVisit.has_visited_today(...): LinkVisit(...)`); a recorded visit
      adds one to `total_visits`. */
  method RecordStepVisit(store: AppStorage, rq: Request, step: int) returns (recorded: bool)
    modifies store
    ensures recorded <==> !VisitedOn(VisitsOf(old(store.visits), rq.code), rq.ip, Day(rq.now))
    ensures recorded ==> store.visits == old(store.visits)[rq.code := VisitsOf(old(store.visits), rq.code) + [VisitOf(rq, step)]]
    ensures !recorded ==> store.visits == old(store.visits)
    ensures store.links == old(store.links)
    ensures store.Stats() == old(store.Stats()).(totalVisits := old(store.Stats()).totalVisits + if recorded then 1 else 0)
  {
    var seen := HasVisitedToday(store, rq.code, rq.ip, rq.now);
    recorded := !seen;
    if recorded {
      var _ := NewVisit(store, rq.code, rq.ip, rq.userAgent, rq.referrer, step, rq.now);
    }
  }

  /** `get_client_ip` of `app.py`: as in `src/utils/security.py`, except that a missing remote
      address falls back to `127.0.0.1`. */
  function ClientIp(h: Headers): (ip: string)
    ensures Given(h.xForwardedFor) || Given(h.xRealIp) || h.remoteAddr != "" ==> ip == GetClientIp(h)
    ensures !Given(h.xForwardedFor) && !Given(h.xRealIp) && h.remoteAddr == "" ==> ip == "127.0.0.1"
    ensures !Given(h.xForwardedFor) && !Given(h.xRealIp) ==> ip != ""
  {
    if Given(h.xForwardedFor) || Given(h.xRealIp) || h.remoteAddr != "" then GetClientIp(h) else "127.0.0.1"
  }

  const MaxUrlLength: int := 2048
  const MsgTooLong := "URL çok uzun"
  const MsgBadFormat := "Geçersiz URL formatı"
  const MsgHttpOnly := "Sadece HTTP/HTTPS protokolleri desteklenir"

  /** `validate_url` of `app.py`: rejects, in this order, an empty or over-long URL, a URL the
      `validators.url` check refuses (`wellFormed`, given), and one not starting with
      `http://` or `https://`. */
  function ValidateUrl(url: string, wellFormed: bool): (v: Verdict)
    ensures v.ok <==> 0 < |url| <= MaxUrlLength && wellFormed && (StartsWith(url, "http://") || StartsWith(url, "https://"))
    ensures (url == "" || |url| > MaxUrlLength) ==> v.message == MsgTooLong
    ensures 0 < |url| <= MaxUrlLength && !wellFormed ==> v.message == MsgBadFormat
    ensures 0 < |url| <= MaxUrlLength && wellFormed && !v.ok ==> v.message == MsgHttpOnly
    ensures v.ok ==> v.message == MsgOk
  {
    if url == "" || |url| > MaxUrlLength then Verdict(false, MsgTooLong)
    else if !wellFormed then Verdict(false, MsgBadFormat)
    else if !(StartsWith(url, "http://") || StartsWith(url, "https://")) then Verdict(false, MsgHttpOnly)
    else Verdict(true, MsgOk)
  }

  const BotPatterns: seq<string> := ["bot", "crawler", "spider", "scraper", "curl", "wget", "python", "requests"]

  /** `is_bot_request` of `app.py`: the lower-cased User-Agent contains one of eight patterns. */
  function IsBotRequest(h: Headers): (r: bool)
    ensures r <==> exists k :: 0 <= k < |BotPatterns| && Contains(Lower(h.userAgent.GetOr("")), BotPatterns[k])
  {
    AnyIn(Lower(h.userAgent.GetOr("")), BotPatterns)
  }

  lemma OccursAtPrefix(s: string, long: string, short: string, i: int)
    requires OccursAt(s, long, i) && StartsWith(long, short)
    ensures OccursAt(s, short, i)
  {
    assert s[i..i + |short|] == s[i..i + |long|][..|short|];
  }

  /** Every User-Agent the module version flags through its first seven indicators is flagged
      here too (`python-requests` contains `python`); the module version additionally flags
      `http`, `automated` and `script`, and this one `python` and `requests` alone. */
  lemma {:induction false} CrawlerIndicatorsAgree(h: Headers, k: int)
    requires 0 <= k < 7 && Contains(Lower(h.userAgent.GetOr("")), Security.BotIndicators[k])
    ensures IsBotRequest(h)
  {
    var ua := Lower(h.userAgent.GetOr(""));
    var i :| 0 <= i <= |ua| - |Security.BotIndicators[k]| && OccursAt(ua, Security.BotIndicators[k], i);
    if k < 6 {
      assert BotPatterns[k] == Security.BotIndicators[k];
      assert Contains(ua, BotPatterns[k]);
    } else {
      assert Security.BotIndicators[6] == "python-requests";
      assert StartsWith("python-requests", "python");
      OccursAtPrefix(ua, "python-requests", "python", i);
      assert BotPatterns[6] == "python";
      assert Contains(ua, BotPatterns[6]);
    }
  }

  /** The HTTP status a gate outcome is answered with in `app.py`: the too-fast case is a 400
      here, where `src/routes/link.py` renders an error page with status 200. */
  function Status(o: Outcome): (code: int)
    ensures code == 404 <==> o.NotFound?
    ensures code == 400 <==> o.TooFast? || o.InvalidStep?
    ensures code == 302 <==> o.Restart? || o.RedirectTo?
    ensures code == 200 <==> o.Render?
  {
    match o
    case NotFound => 404
    case Restart => 302
    case TooFast => 400
    case Render(_, _) => 200
    case RedirectTo(_) => 302
    case InvalidStep => 400
  }

  /** A gate request as `app.py` sees it. */
  function RequestOf(code: string, h: Headers, now: real): Request {
    Request(code, ClientIp(h), h.userAgent.GetOr(""), h.referer.GetOr(""), now)
  }

  /** The gate's world in `app.py`: no ads are looked up there. */
  function WorldOf(store: AppStorage, session: Session): World
    reads store
  {
    World(store.links, store.visits, [], session)
  }

  /** `redirect_link` of `app.py`. */
  method RedirectLink(store: AppStorage, session: Session, code: string, h: Headers, now: real)
    returns (out: Outcome, session': Session)
    requires store.Valid()
    modifies store
    ensures store.Valid()
    ensures var e := Enter(old(WorldOf(store, session)), RequestOf(code, h, now));
      out == e.outcome && WorldOf(store, session') == e.world
    ensures store.Stats() == old(store.Stats()).(totalVisits :=
      old(store.Stats()).totalVisits + |VisitsOf(store.visits, code)| - |VisitsOf(old(store.visits), code)|)
    ensures CountersAgree(old(store.Stats()), old(store.links)) ==> CountersAgree(store.Stats(), store.links)
  {
    var rq := RequestOf(code, h, now);
    var link := GetByCode(store, code);
    if link == null || !link.isActive {
      return NotFound, session;
    }
    session' := session[code := GateSession(1, now, rq.ip)];
    var _ := RecordStepVisit(store, rq, 1);
    out := Render(1, None);
  }

  /** `redirect_step` of `app.py`. */
  method RedirectStep(store: AppStorage, session: Session, code: string, n: int, h: Headers, now: real)
    returns (out: Outcome, session': Session)
    requires store.Valid()
    modifies store
    ensures store.Valid()
    ensures var e := Advance(old(WorldOf(store, session)), RequestOf(code, h, now), n);
      out == e.outcome && WorldOf(store, session') == e.world &&
      store.Stats() == old(store.Stats()).(
        totalClicks := old(store.Stats()).totalClicks + (if e.clicked then 1 else 0),
        totalVisits := old(store.Stats()).totalVisits + |VisitsOf(store.visits, code)| - |VisitsOf(old(store.visits), code)|)
    ensures CountersAgree(old(store.Stats()), old(store.links)) ==> CountersAgree(store.Stats(), store.links)
  {
    ghost var w := WorldOf(store, session);
    var rq := RequestOf(code, h, now);
    var link := GetByCode(store, code);
    if link == null || !link.isActive {
      assert Advance(w, rq, n) == Effect(NotFound, w, false);
      return NotFound, session;
    }
    if code !in session {
      assert Advance(w, rq, n) == Effect(Restart, w, false);
      return Restart, session;
    }
    var current := session[code];
    if current.ip != rq.ip || n != current.step + 1 {
      assert Advance(w, rq, n) == Effect(Restart, w, false);
      return Restart, session;
    }
    if now - current.startTime < (current.step * StepSeconds) as real {
      assert Advance(w, rq, n) == Effect(TooFast, w, false);
      return TooFast, session;
    }
    out, session' := Proceed(store, session, rq, link, n);
  }

  /** The part of `redirect_step` after every check passed: store the step, then render steps 2
      and 3, finish at step 4, or answer that the step is invalid. */
  method Proceed(store: AppStorage, session: Session, rq: Request, link: AppLink, n: int)
    returns (out: Outcome, session': Session)
    requires store.Valid()
    requires rq.code in store.links && link.Record() == store.links[rq.code]
    requires Passes(WorldOf(store, session), rq, n)
    modifies store, link
    ensures store.Valid()
    ensures var e := Advance(old(WorldOf(store, session)), rq, n);
      out == e.outcome && WorldOf(store, session') == e.world &&
      store.Stats() == old(store.Stats()).(
        totalClicks := old(store.Stats()).totalClicks + (if e.clicked then 1 else 0),
        totalVisits := old(store.Stats()).totalVisits + |VisitsOf(store.visits, rq.code)| - |VisitsOf(old(store.visits), rq.code)|)
    ensures CountersAgree(old(store.Stats()), old(store.links)) ==> CountersAgree(store.Stats(), store.links)
  {
    ghost var w := WorldOf(store, session);
    if n == LastStep {
      var recorded;
      out, session', recorded := Finish(store, session, rq, link);
      FinishIsAdvance(w, rq, recorded, store.links, store.visits, session');
      assert |VisitsOf(store.visits, rq.code)| == |VisitsOf(w.visits, rq.code)| + (if recorded then 1 else 0);
    } else if n == 2 || n == 3 {
      var recorded := RecordStepVisit(store, rq, n);
      session' := session[rq.code := session[rq.code].(step := n)];
      out := Render(n, None);
      AdStepIsAdvance(w, rq, n, recorded, store.visits, session');
      assert |VisitsOf(store.visits, rq.code)| == |VisitsOf(w.visits, rq.code)| + (if recorded then 1 else 0);
    } else {
      session' := session[rq.code := session[rq.code].(step := n)];
      out := InvalidStep;
      assert Advance(w, rq, n) == Effect(InvalidStep, w.(session := session'), false);
    }
  }

  /** Step 4 of `redirect_step`: record the visit unless the IP already visited today, count a
      click exactly then (both in the statistics too), drop the gate session and redirect to the
      original URL. */
  method Finish(store: AppStorage, session: Session, rq: Request, link: AppLink)
    returns (out: Outcome, session': Session, recorded: bool)
    requires store.Valid()
    requires rq.code in store.links && link.Record() == store.links[rq.code] && rq.code in session
    modifies store, link
    ensures store.Valid()
    ensures recorded <==> !VisitedOn(VisitsOf(old(store.visits), rq.code), rq.ip, Day(rq.now))
    ensures recorded ==> store.visits == old(store.visits)[rq.code := VisitsOf(old(store.visits), rq.code) + [VisitOf(rq, LastStep)]]
    ensures !recorded ==> store.visits == old(store.visits)
    ensures recorded ==> store.links == Clicked(old(store.links), rq.code)
    ensures !recorded ==> store.links == old(store.links)
    ensures out == RedirectTo(old(store.links)[rq.code].originalUrl)
    ensures session' == session[rq.code := session[rq.code].(step := LastStep)] - {rq.code}
    ensures store.Stats() == old(store.Stats()).(
      totalClicks := old(store.Stats()).totalClicks + (if recorded then 1 else 0),
      totalVisits := old(store.Stats()).totalVisits + (if recorded then 1 else 0))
    ensures CountersAgree(old(store.Stats()), old(store.links)) ==> CountersAgree(store.Stats(), store.links)
  {
    ghost var l := store.links[rq.code];
    recorded := RecordStepVisit(store, rq, LastStep);
    assert store.links == old(store.links) && link.Record() == l;
    ghost var counted := store.Stats();
    if recorded {
      assert link.shortCode == rq.code;
      link.IncrementClick(store);
      assert store.links == Clicked(old(store.links), rq.code);
      assert store.Stats() == counted.(totalClicks := counted.totalClicks + 1);
    }
    session' := session[rq.code := session[rq.code].(step := LastStep)] - {rq.code};
    out := RedirectTo(link.originalUrl);
    assert out == RedirectTo(l.originalUrl);
  }

  /** `shorten_url` of `app.py`: no rate limit and no spam check; a created link adds one to
      both link counters. */
  method ShortenUrl(store: AppStorage, url: Option<string>, h: Headers, wellFormed: bool, draws: seq<nat>, now: real)
    returns (res: ShortenResult)
    requires store.Valid()
    modifies store
    ensures store.Valid()
    ensures res == MissingUrl <==> !Given(url)
    ensures res == BotRejected <==> Given(url) && IsBotRequest(h)
    ensures res.Unsafe? <==> Given(url) && !IsBotRequest(h) && !ValidateUrl(url.value, wellFormed).ok
    ensures res.Unsafe? ==> res.message == ValidateUrl(url.value, wellFormed).message
    ensures res.Created? || res.NoFreeCode? <==> Given(url) && !IsBotRequest(h) && ValidateUrl(url.value, wellFormed).ok
    ensures res.Created? ==>
      && res.shortCode !in old(store.links) && |res.shortCode| == CodeLength
      && url.Some? && res.originalUrl == url.value && res.shortUrl == "/l/" + res.shortCode
      && store.links == old(store.links)[res.shortCode := LinkRecord(res.shortCode, url.value, now, 0, true)]
      && store.Stats() == old(store.Stats()).(totalLinks := old(store.Stats()).totalLinks + 1,
                                               activeLinks := old(store.Stats()).activeLinks + 1)
    ensures !res.Created? ==> store.links == old(store.links) && store.Stats() == old(store.Stats())
    ensures store.visits == old(store.visits)
    ensures CountersAgree(old(store.Stats()), old(store.links)) ==> CountersAgree(store.Stats(), store.links)
  {
    if !Given(url) {
      return MissingUrl;
    }
    if IsBotRequest(h) {
      return BotRejected;
    }
    var v := ValidateUrl(url.value, wellFormed);
    if !v.ok {
      return Unsafe(v.message);
    }
    var code := GenerateShortCode(store, draws);
    if code.None? {
      return NoFreeCode;
    }
    ghost var before := store.links;
    var link := new AppLink(store, url.value, code.value, now);
    var stats := store.GetStats();
    store.SaveStats(stats.(totalLinks := stats.totalLinks + 1, activeLinks := stats.activeLinks + 1));
    if CountersAgree(old(store.Stats()), before) {
      CreateKeepsAgreement(old(store.Stats()), before, link.Record());
    }
    res := Created(link.shortCode, "/l/" + link.shortCode, link.originalUrl);
  }

  /** An admin API answer of `app.py`: 401 without the `admin_logged_in` flag, else the result. */
  datatype Authorized<T> = LoginNeeded | Answered(result: T)

  /** `api_delete_link` of `app.py`: `true` when the link existed and was deleted, `false` (404)
      when there is no such link. */
  method ApiDeleteLink(store: AppStorage, loggedIn: bool, code: string) returns (r: Authorized<bool>)
    requires store.Valid()
    modifies store
    ensures store.Valid()
    ensures r.Answered? <==> loggedIn
    ensures r.Answered? ==> (r.result <==> code in old(store.links))
    ensures r == Answered(true) ==> store.links == old(store.links) - {code} && store.visits == old(store.visits) - {code}
    ensures r == Answered(true) ==>
      store.Stats() == old(store.Stats()).(totalLinks := old(store.Stats()).totalLinks - 1,
                                           activeLinks := old(store.Stats()).activeLinks - (if old(store.links)[code].isActive then 1 else 0))
    ensures r != Answered(true) ==> store.links == old(store.links) && store.visits == old(store.visits) && store.Stats() == old(store.Stats())
    ensures CountersAgree(old(store.Stats()), old(store.links)) ==> CountersAgree(store.Stats(), store.links)
  {
    if !loggedIn {
      return LoginNeeded;
    }
    var link := GetByCode(store, code);
    if link == null {
      return Answered(false);
    }
    link.Delete(store);
    if CountersAgree(old(store.Stats()), old(store.links)) {
      DeleteKeepsAgreement(old(store.Stats()), old(store.links), code);
    }
    r := Answered(true);
  }

  /** `api_toggle_link` of `app.py`: the new active flag, or `None` (404) when there is no such link. */
  method ApiToggleLink(store: AppStorage, loggedIn: bool, code: string) returns (r: Authorized<Option<bool>>)
    requires store.Valid()
    modifies store
    ensures store.Valid()
    ensures r.Answered? <==> loggedIn
    ensures r.Answered? ==> (r.result.Some? <==> code in old(store.links))
    ensures r.Answered? && r.result.Some? ==>
      && r.result.value == !old(store.links)[code].isActive
      && store.links == old(store.links)[code := old(store.links)[code].(isActive := r.result.value)]
      && store.Stats() == old(store.Stats()).(activeLinks := old(store.Stats()).activeLinks + (if r.result.value then 1 else -1))
    ensures !(r.Answered? && r.result.Some?) ==> store.links == old(store.links) && store.Stats() == old(store.Stats())
    ensures store.visits == old(store.visits)
    ensures CountersAgree(old(store.Stats()), old(store.links)) ==> CountersAgree(store.Stats(), store.links)
  {
    if !loggedIn {
      return LoginNeeded;
    }
    var link := GetByCode(store, code);
    if link == null {
      return Answered(None);
    }
    link.ToggleActive(store);
    if CountersAgree(old(store.Stats()), old(store.links)) {
      ToggleKeepsAgreement(old(store.Stats()), old(store.links), code);
    }
    r := Answered(Some(link.isActive));
  }
}
