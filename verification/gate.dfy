/** The redirect gate of `src/routes/link.py`: entry at `/l/{code}`, then steps 2, 3 and 4 at
    `/l/{code}/step/{n}`, each checked against the per-browser session (step reached, start
    time, bound IP), with visits recorded at most once per IP and day and clicks counted only
    together with a newly recorded step-4 visit. Also the check order of `shorten_url`.

    The protocol is first stated as pure transition functions (`Enter`, `Advance`) over a
    `World`; the handlers `RedirectLink` and `RedirectStep`, which update the store as they go,
    are proved to perform exactly those transitions. */
module Gate {
  import opened Common
  import opened Store
  import opened Links
  import opened Security

  /** Seconds of waiting demanded per step already reached. */
  const StepSeconds: int := 15
  const LastStep: int := 4

  /** The three session keys `link_{code}_step`, `link_{code}_start_time`, `link_{code}_ip`,
      which the handlers always write together and pop together. */
  datatype GateSession = GateSession(step: int, startTime: real, ip: string)
  type Session = map<string, GateSession>

  /** One request to the gate, with the client IP and headers already resolved. */
  datatype Request = Request(code: string, ip: string, userAgent: string, referrer: string, now: real)

  datatype Outcome =
    | NotFound                          // 404 "Link bulunamadı"
    | Restart                           // redirect back to the entry page
    | TooFast                           // the "too fast" error page, session unchanged
    | Render(step: int, ad: Option<Ad>) // the page of step 1, 2 or 3 with its ad
    | RedirectTo(url: string)           // the final redirect to the destination
    | InvalidStep                       // 400 "Geçersiz adım"

  /** Everything a gate request can read or write. */
  datatype World = World(links: LinkMap, visits: VisitMap, ads: seq<Ad>, session: Session)

  /** The result of one request: the response, the new world, and whether a click was counted. */
  datatype Effect = Effect(outcome: Outcome, world: World, clicked: bool)

  predicate LinkActive(links: LinkMap, code: string) {
    code in links && links[code].isActive
  }

  /** Every visit list of `before` is a prefix of the one in `after`: visits are append-only. */
  ghost predicate VisitsGrow(before: VisitMap, after: VisitMap) {
    forall c :: c in before ==> c in after && before[c] <= after[c]
  }

  /** The session changes nothing but `code`'s entry. */
  ghost predicate OtherEntriesKept(before: Session, after: Session, code: string) {
    forall c :: c != code ==> (c in after <==> c in before) && (c in before ==> after[c] == before[c])
  }

  /** The passive outcomes leave the world as it was. */
  predicate Rejected(o: Outcome) {
    o.NotFound? || o.Restart? || o.TooFast?
  }

  function RequestOf(code: string, h: Headers, now: real): Request {
    Request(code, GetClientIp(h), h.userAgent.GetOr(""), h.referer.GetOr(""), now)
  }

  /** The visit a request records at step `step`. */
  function VisitOf(rq: Request, step: int): Visit {
    Visit(rq.code, rq.ip, rq.userAgent, rq.referrer, step, rq.now)
  }

  /** `redirect_link`: a missing or inactive link is not found and nothing changes; otherwise
      the session of the code is (re)started at step 1, now, from this IP, and a step-1 visit
      is recorded unless the IP already visited the link today. */
  function Enter(w: World, rq: Request): (e: Effect)
    ensures e.outcome.NotFound? <==> !LinkActive(w.links, rq.code)
    ensures e.outcome.NotFound? ==> e.world == w
    ensures !e.outcome.NotFound? ==>
      e.outcome == Render(1, FirstAdAt(w.ads, 1)) &&
      e.world.session == w.session[rq.code := GateSession(1, rq.now, rq.ip)] &&
      VisitedOn(VisitsOf(e.world.visits, rq.code), rq.ip, Day(rq.now))
    ensures !e.outcome.NotFound? && VisitedOn(VisitsOf(w.visits, rq.code), rq.ip, Day(rq.now)) ==>
      e.world.visits == w.visits
    ensures !e.outcome.NotFound? && !VisitedOn(VisitsOf(w.visits, rq.code), rq.ip, Day(rq.now)) ==>
      e.world.visits == w.visits[rq.code := VisitsOf(w.visits, rq.code) + [VisitOf(rq, 1)]]
    ensures !e.clicked && e.world.links == w.links && e.world.ads == w.ads
    ensures OtherEntriesKept(w.session, e.world.session, rq.code)
    ensures VisitsGrow(w.visits, e.world.visits)
    ensures forall c :: c != rq.code ==> VisitsOf(e.world.visits, c) == VisitsOf(w.visits, c)
    ensures Deduplicated(w.visits) ==> Deduplicated(e.world.visits)
  {
    if !LinkActive(w.links, rq.code) then
      Effect(NotFound, w, false)
    else
      var session := w.session[rq.code := GateSession(1, rq.now, rq.ip)];
      var (_, visits) := RecordIfFirstToday(w.visits, VisitOf(rq, 1));
      Effect(Render(1, FirstAdAt(w.ads, 1)), w.(visits := visits, session := session), false)
  }

  /** The request for step `n` passes every check: link live, session present, same IP, next
      step in order, and enough time since entry. */
  predicate Passes(w: World, rq: Request, n: int) {
    && LinkActive(w.links, rq.code)
    && rq.code in w.session
    && w.session[rq.code].ip == rq.ip
    && n == w.session[rq.code].step + 1
    && rq.now - w.session[rq.code].startTime >= (w.session[rq.code].step * StepSeconds) as real
  }

  /** The links after one more click on the link under `code`. */
  function Clicked(links: LinkMap, code: string): LinkMap
    requires code in links
  {
    links[code := links[code].(clickCount := links[code].clickCount + 1)]
  }

  /** The advance of a request that passed every check: the session moves to step `n`; steps 2
      and 3 record the visit if it is the first of the IP today and render; the last step does
      the same recording, counts a click exactly when that visit was recorded, clears the session
      and redirects; any other step is rejected as invalid, with the session already moved. */
  function AdvancePassed(w: World, rq: Request, n: int): (e: Effect)
    requires Passes(w, rq, n)
    ensures n != LastStep ==> e.world.session == w.session[rq.code := w.session[rq.code].(step := n)]
    ensures n == LastStep ==> e.world.session == w.session - {rq.code}
    ensures e.outcome.Render? <==> n == 2 || n == 3
    ensures e.outcome.Render? ==> e.outcome == Render(n, FirstAdAt(w.ads, n))
    ensures e.outcome.RedirectTo? <==> n == LastStep
    ensures e.outcome.RedirectTo? ==> e.outcome.url == w.links[rq.code].originalUrl
    ensures e.outcome.InvalidStep? <==> n != 2 && n != 3 && n != LastStep
    ensures !Rejected(e.outcome)
    ensures !e.outcome.InvalidStep? ==> VisitedOn(VisitsOf(e.world.visits, rq.code), rq.ip, Day(rq.now))
    ensures e.clicked <==> e.outcome.RedirectTo? && !VisitedOn(VisitsOf(w.visits, rq.code), rq.ip, Day(rq.now))
    ensures e.world.links == if e.clicked then Clicked(w.links, rq.code) else w.links
    ensures e.world.ads == w.ads
    ensures OtherEntriesKept(w.session, e.world.session, rq.code)
    ensures VisitsGrow(w.visits, e.world.visits)
    ensures forall c :: c != rq.code ==> VisitsOf(e.world.visits, c) == VisitsOf(w.visits, c)
    ensures Deduplicated(w.visits) ==> Deduplicated(e.world.visits)
  {
    var session := w.session[rq.code := w.session[rq.code].(step := n)];
    if n == 2 || n == 3 then
      var (_, visits) := RecordIfFirstToday(w.visits, VisitOf(rq, n));
      Effect(Render(n, FirstAdAt(w.ads, n)), w.(visits := visits, session := session), false)
    else if n == LastStep then
      var (recorded, visits) := RecordIfFirstToday(w.visits, VisitOf(rq, n));
      var links := if recorded then Clicked(w.links, rq.code) else w.links;
      Effect(RedirectTo(w.links[rq.code].originalUrl), World(links, visits, w.ads, session - {rq.code}), recorded)
    else
      Effect(InvalidStep, w.(session := session), false)
  }

  /** `redirect_step`: the checks in their order (not found, no session, other IP, out of order,
      too fast), then the advance. Steps 2 and 3 render; step 4 counts a click exactly when its
      visit is the first of the IP today, clears the session and redirects. */
  function Advance(w: World, rq: Request, n: int): (e: Effect)
    ensures e.outcome.NotFound? <==> !LinkActive(w.links, rq.code)
    ensures e.outcome.Restart? <==> (LinkActive(w.links, rq.code) &&
      (rq.code !in w.session || w.session[rq.code].ip != rq.ip || n != w.session[rq.code].step + 1))
    ensures e.outcome.TooFast? <==> (LinkActive(w.links, rq.code) && rq.code in w.session &&
      w.session[rq.code].ip == rq.ip && n == w.session[rq.code].step + 1 &&
      rq.now - w.session[rq.code].startTime < (w.session[rq.code].step * StepSeconds) as real)
    ensures Rejected(e.outcome) <==> !Passes(w, rq, n)
    ensures Rejected(e.outcome) ==> e.world == w && !e.clicked
    ensures Passes(w, rq, n) ==> e == AdvancePassed(w, rq, n)
    ensures Passes(w, rq, n) ==> rq.now - w.session[rq.code].startTime >= ((n - 1) * StepSeconds) as real
  {
    if !LinkActive(w.links, rq.code) then Effect(NotFound, w, false)
    else if rq.code !in w.session then Effect(Restart, w, false)
    else
      var g := w.session[rq.code];
      if g.ip != rq.ip then Effect(Restart, w, false)
      else if n != g.step + 1 then Effect(Restart, w, false)
      else if rq.now - g.startTime < (g.step * StepSeconds) as real then Effect(TooFast, w, false)
      else AdvancePassed(w, rq, n)
  }

  /** A request at step 2 or 3 that passes every check, unfolded: the session moves to the
      step and the visit is recorded if it is the first of the day; nothing is clicked. */
  lemma AdvanceAtAdStep(w: World, rq: Request, n: int)
    requires Passes(w, rq, n) && (n == 2 || n == 3)
    ensures Advance(w, rq, n) ==
      Effect(Render(n, FirstAdAt(w.ads, n)),
             w.(visits := RecordIfFirstToday(w.visits, VisitOf(rq, n)).1,
                session := w.session[rq.code := w.session[rq.code].(step := n)]),
             false)
  {
  }

  /** A request at the last step that passes every check, unfolded: the visit is recorded if it
      is the first of the day, and that decides the click. */
  lemma AdvanceAtLastStep(w: World, rq: Request)
    requires Passes(w, rq, LastStep)
    ensures var r := RecordIfFirstToday(w.visits, VisitOf(rq, LastStep));
      var link := w.links[rq.code];
      Advance(w, rq, LastStep) ==
        Effect(RedirectTo(link.originalUrl),
               World(if r.0 then Clicked(w.links, rq.code) else w.links,
                     r.1, w.ads, w.session[rq.code := w.session[rq.code].(step := LastStep)] - {rq.code}),
               r.0)
  {
  }

  /** A passed request at step 2 or 3 whose visit was recorded exactly when it was the first
      of the day has the effect `Advance` describes. */
  lemma {:induction false} AdStepIsAdvance(w: World, rq: Request, n: int, recorded: bool, visits: VisitMap, session: Session)
    requires Passes(w, rq, n) && (n == 2 || n == 3)
    requires recorded <==> !VisitedOn(VisitsOf(w.visits, rq.code), rq.ip, Day(rq.now))
    requires recorded ==> visits == w.visits[rq.code := VisitsOf(w.visits, rq.code) + [VisitOf(rq, n)]]
    requires !recorded ==> visits == w.visits
    requires session == w.session[rq.code := w.session[rq.code].(step := n)]
    ensures Advance(w, rq, n) == Effect(Render(n, FirstAdAt(w.ads, n)), w.(visits := visits, session := session), false)
  {
    AdvanceAtAdStep(w, rq, n);
  }

  /** A passed request at the last step that recorded its visit and counted a click exactly when
      the visit was the first of the day, and dropped the session, has the effect `Advance`
      describes. */
  lemma {:induction false} FinishIsAdvance(w: World, rq: Request, recorded: bool, links: LinkMap, visits: VisitMap, session: Session)
    requires Passes(w, rq, LastStep)
    requires recorded <==> !VisitedOn(VisitsOf(w.visits, rq.code), rq.ip, Day(rq.now))
    requires recorded ==> visits == w.visits[rq.code := VisitsOf(w.visits, rq.code) + [VisitOf(rq, LastStep)]]
    requires !recorded ==> visits == w.visits
    requires recorded ==> links == Clicked(w.links, rq.code)
    requires !recorded ==> links == w.links
    requires session == w.session[rq.code := w.session[rq.code].(step := LastStep)] - {rq.code}
    ensures Advance(w, rq, LastStep) == Effect(RedirectTo(w.links[rq.code].originalUrl), World(links, visits, w.ads, session), recorded)
  {
    AdvanceAtLastStep(w, rq);
  }

  /** Each browser has its own cookie jar and so its own session. */
  type BrowserId = nat

  /** The server as many browsers see it: one shared store, and one session per browser. */
  datatype Server = Server(links: LinkMap, visits: VisitMap, ads: seq<Ad>, sessions: map<BrowserId, Session>)

  /** A request and the browser that sends it, in the order requests arrive from all browsers. */
  datatype Hit = EntryHit(browser: BrowserId, rq: Request) | StepHit(browser: BrowserId, rq: Request, n: int)

  /** What browser `b` sees: the shared store and its own session, empty for a new browser. */
  function ViewOf(s: Server, b: BrowserId): World {
    World(s.links, s.visits, s.ads, if b in s.sessions then s.sessions[b] else map[])
  }

  /** One request, handled against the view of the browser that sent it. */
  function Apply(s: Server, h: Hit): Effect {
    var w := ViewOf(s, h.browser);
    match h
    case EntryHit(_, rq) => Enter(w, rq)
    case StepHit(_, rq, n) => Advance(w, rq, n)
  }

  /** The server after a request: the store as the handler left it, and the sender's session
      replaced by the handler's; other browsers' sessions are untouched. */
  function After(s: Server, h: Hit): Server {
    var e := Apply(s, h);
    Server(e.world.links, e.world.visits, e.world.ads, s.sessions[h.browser := e.world.session])
  }

  /** The responses to a sequence of requests, each handled on the server the previous one left. */
  function Outcomes(s: Server, hits: seq<Hit>): (os: seq<Outcome>)
    ensures |os| == |hits|
    decreases |hits|
  {
    if hits == [] then []
    else [Apply(s, hits[0]).outcome] + Outcomes(After(s, hits[0]), hits[1..])
  }

  /** The visitor key a request is counted under. */
  predicate KeyIs(rq: Request, code: string, ip: string, day: int) {
    rq.code == code && rq.ip == ip && Day(rq.now) == day
  }

  /** How many requests of `hits`, from any browser, counted a click for link `code`, IP `ip`,
      on day `day`. */
  function ClicksFor(s: Server, hits: seq<Hit>, code: string, ip: string, day: int): nat
    decreases |hits|
  {
    if hits == [] then 0
    else
      (if Apply(s, hits[0]).clicked && KeyIs(hits[0].rq, code, ip, day) then 1 else 0) +
      ClicksFor(After(s, hits[0]), hits[1..], code, ip, day)
  }

  lemma VisitedOnGrows(before: VisitMap, after: VisitMap, code: string, ip: string, day: int)
    requires VisitsGrow(before, after)
    requires VisitedOn(VisitsOf(before, code), ip, day)
    ensures VisitedOn(VisitsOf(after, code), ip, day)
  {
    var vs := VisitsOf(before, code);
    var i :| 0 <= i < |vs| && vs[i].ipAddress == ip && Day(vs[i].visitedAt) == day;
    assert VisitsOf(after, code)[i] == vs[i];
  }

  /** At most one click per (link, IP, day), however the requests of any number of browsers
      (several of them behind one address) interleave: a click is only counted with the first
      visit of the IP that day, and once that visit exists no later request of the same key
      counts one. */
  lemma {:induction false} AtMostOneClickPerVisitorDay(s: Server, hits: seq<Hit>, code: string, ip: string, day: int)
    ensures ClicksFor(s, hits, code, ip, day) <= if VisitedOn(VisitsOf(s.visits, code), ip, day) then 0 else 1
    decreases |hits|
  {
    if hits != [] {
      var e := Apply(s, hits[0]);
      var w := ViewOf(s, hits[0].browser);
      AtMostOneClickPerVisitorDay(After(s, hits[0]), hits[1..], code, ip, day);
      if VisitedOn(VisitsOf(s.visits, code), ip, day) {
        VisitedOnGrows(w.visits, e.world.visits, code, ip, day);
      }
      if e.clicked && KeyIs(hits[0].rq, code, ip, day) {
        assert hits[0].StepHit?;
        assert Passes(w, hits[0].rq, hits[0].n);
        assert VisitedOn(VisitsOf(e.world.visits, code), ip, day);
      }
    }
  }

  /** A flow that enters and finishes on the same day never counts a click, whatever other
      browsers do in between: the entry already recorded the step-1 visit that the step-4 check
      then finds. */
  lemma SameDayFlowNeverClicks(s: Server, b: BrowserId, rq: Request, rest: seq<Hit>)
    requires LinkActive(s.links, rq.code)
    ensures ClicksFor(s, [EntryHit(b, rq)] + rest, rq.code, rq.ip, Day(rq.now)) == 0
  {
    var hits := [EntryHit(b, rq)] + rest;
    assert hits[1..] == rest;
    AtMostOneClickPerVisitorDay(After(s, hits[0]), rest, rq.code, rq.ip, Day(rq.now));
  }

  /** Every session entry is at step 1, 2 or 3: what entry writes and advancing keeps. */
  ghost predicate InFlow(s: Session) {
    forall c :: c in s ==> 1 <= s[c].step <= 3
  }

  ghost predicate AllInFlow(s: Server) {
    forall b :: b in s.sessions ==> InFlow(s.sessions[b])
  }

  /** The "Geçersiz adım" branch is dead: from sessions that entry and advancing produce, no
      request sequence of any browsers ever gets the invalid-step response. */
  lemma {:induction false} InvalidStepUnreachable(s: Server, hits: seq<Hit>)
    requires AllInFlow(s)
    ensures forall k :: 0 <= k < |hits| ==> !Outcomes(s, hits)[k].InvalidStep?
    decreases |hits|
  {
    if hits != [] {
      var e := Apply(s, hits[0]);
      assert InFlow(ViewOf(s, hits[0].browser).session);
      assert InFlow(e.world.session);
      assert AllInFlow(After(s, hits[0]));
      InvalidStepUnreachable(After(s, hits[0]), hits[1..]);
      assert Outcomes(s, hits) == [e.outcome] + Outcomes(After(s, hits[0]), hits[1..]);
    }
  }

  /** With a read-only lookup a link that is missing or switched off stays not found for every
      browser: the gate itself never creates links or changes their active flag. */
  lemma {:induction false} InactiveLinkStaysNotFound(s: Server, hits: seq<Hit>, code: string)
    requires !LinkActive(s.links, code)
    ensures forall k :: 0 <= k < |hits| && hits[k].rq.code == code ==> Outcomes(s, hits)[k].NotFound?
    decreases |hits|
  {
    if hits != [] {
      var e := Apply(s, hits[0]);
      assert !LinkActive(e.world.links, code);
      InactiveLinkStaysNotFound(After(s, hits[0]), hits[1..], code);
      assert Outcomes(s, hits) == [e.outcome] + Outcomes(After(s, hits[0]), hits[1..]);
    }
  }

  /** With `get_by_code` as written, a switched-off link answers 404 once, but that very lookup
      re-saves it as active, so the next entry request gets through. */
  lemma AsWrittenSecondEntryPasses(w: World, rq: Request, later: Request)
    requires rq.code in w.links && !w.links[rq.code].isActive && later.code == rq.code
    ensures Enter(w, rq).outcome.NotFound?
    ensures !Enter(w.(links := ReadEffectAsWritten(w.links, rq.code, rq.now)), later).outcome.NotFound?
  {
  }

  /** The world the store object and a session value form. */
  function WorldOf(store: Storage, session: Session): World
    reads store
  {
    World(store.links, store.visits, store.ads, session)
  }

  /** `redirect_link` (GET /l/{code}). */
  method RedirectLink(store: Storage, session: Session, code: string, h: Headers, now: real)
    returns (out: Outcome, session': Session)
    requires store.Valid()
    modifies store
    ensures store.Valid()
    ensures Effect(out, WorldOf(store, session'), false) == Enter(old(WorldOf(store, session)), RequestOf(code, h, now))
  {
    var rq := RequestOf(code, h, now);
    var link := GetByCode(store, code);
    if link == null || !link.isActive {
      return NotFound, session;
    }
    session' := session[code := GateSession(1, now, GetClientIp(h))];
    var clientIp := GetClientIp(h);
    var seen := HasVisitedToday(store, code, clientIp, now);
    if !seen {
      var _ := NewVisit(store, code, clientIp, rq.userAgent, rq.referrer, 1, now);
    }
    var ad := GetByPosition(store, 1);
    out := Render(1, ad);
  }

  /** `if not LinkVisit.has_visited_today(...): LinkVisit(...)`, as every gate handler does it:
      the visit of `rq` at `step` is saved exactly when it is the IP's first of the day. */
  method RecordStepVisit(store: Storage, rq: Request, step: int) returns (recorded: bool)
    modifies store
    ensures recorded <==> !VisitedOn(VisitsOf(old(store.visits), rq.code), rq.ip, Day(rq.now))
    ensures recorded ==> store.visits == old(store.visits)[rq.code := VisitsOf(old(store.visits), rq.code) + [VisitOf(rq, step)]]
    ensures !recorded ==> store.visits == old(store.visits)
    ensures store.links == old(store.links) && store.ads == old(store.ads)
  {
    var seen := HasVisitedToday(store, rq.code, rq.ip, rq.now);
    recorded := !seen;
    if recorded {
      var _ := NewVisit(store, rq.code, rq.ip, rq.userAgent, rq.referrer, step, rq.now);
    }
  }

  /** `redirect_step` (GET /l/{code}/step/{n}). */
  method RedirectStep(store: Storage, session: Session, code: string, n: int, h: Headers, now: real)
    returns (out: Outcome, session': Session)
    requires store.Valid()
    modifies store
    ensures store.Valid()
    ensures var e := Advance(old(WorldOf(store, session)), RequestOf(code, h, now), n);
      out == e.outcome && WorldOf(store, session') == e.world
  {
    ghost var w := WorldOf(store, session);
    var rq := RequestOf(code, h, now);
    var link := GetByCode(store, code);
    if link == null || !link.isActive {
      assert Advance(w, rq, n) == Effect(NotFound, w, false);
      return NotFound, session;
    }
    if code !in session {
      assert Advance(w, rq, n) == Effect(Restart, w, false);
      return Restart, session;
    }
    var current := session[code];
    if current.ip != rq.ip || n != current.step + 1 {
      assert Advance(w, rq, n) == Effect(Restart, w, false);
      return Restart, session;
    }
    if now - current.startTime < (current.step * StepSeconds) as real {
      assert Advance(w, rq, n) == Effect(TooFast, w, false);
      return TooFast, session;
    }
    out, session' := Proceed(store, session, rq, link, n);
  }

  /** The part of `redirect_step` after every check passed: store the step, then render steps 2
      and 3 with their ad, finish at step 4, or answer that the step is invalid. */
  method Proceed(store: Storage, session: Session, rq: Request, link: Link, n: int)
    returns (out: Outcome, session': Session)
    requires store.Valid()
    requires rq.code in store.links && link.Record() == store.links[rq.code]
    requires Passes(WorldOf(store, session), rq, n)
    modifies store, link
    ensures store.Valid()
    ensures var e := Advance(old(WorldOf(store, session)), rq, n);
      out == e.outcome && WorldOf(store, session') == e.world
  {
    ghost var w := WorldOf(store, session);
    if n == LastStep {
      var recorded;
      out, session', recorded := Finish(store, session, rq, link);
      FinishIsAdvance(w, rq, recorded, store.links, store.visits, session');
    } else if n == 2 || n == 3 {
      var ad := GetByPosition(store, n);
      var recorded := RecordStepVisit(store, rq, n);
      session' := session[rq.code := session[rq.code].(step := n)];
      out := Render(n, ad);
      AdStepIsAdvance(w, rq, n, recorded, store.visits, session');
    } else {
      session' := session[rq.code := session[rq.code].(step := n)];
      out := InvalidStep;
      assert Advance(w, rq, n) == Effect(InvalidStep, w.(session := session'), false);
    }
  }

  /** Step 4 of `redirect_step`: record the visit unless the IP already visited today, count a
      click exactly then, drop the gate session and redirect to the original URL. */
  method Finish(store: Storage, session: Session, rq: Request, link: Link)
    returns (out: Outcome, session': Session, recorded: bool)
    requires store.Valid()
    requires rq.code in store.links && link.Record() == store.links[rq.code] && rq.code in session
    modifies store, link
    ensures store.Valid()
    ensures recorded <==> !VisitedOn(VisitsOf(old(store.visits), rq.code), rq.ip, Day(rq.now))
    ensures recorded ==> store.visits == old(store.visits)[rq.code := VisitsOf(old(store.visits), rq.code) + [VisitOf(rq, LastStep)]]
    ensures !recorded ==> store.visits == old(store.visits)
    ensures recorded ==> store.links == Clicked(old(store.links), rq.code)
    ensures !recorded ==> store.links == old(store.links)
    ensures store.ads == old(store.ads)
    ensures out == RedirectTo(old(store.links)[rq.code].originalUrl)
    ensures session' == session[rq.code := session[rq.code].(step := LastStep)] - {rq.code}
  {
    ghost var l := store.links[rq.code];
    recorded := RecordStepVisit(store, rq, LastStep);
    assert store.links == old(store.links) && link.Record() == l;
    if recorded {
      assert link.shortCode == rq.code;
      link.IncrementClick(store);
      assert store.links == Clicked(old(store.links), rq.code);
    }
    session' := session[rq.code := session[rq.code].(step := LastStep)] - {rq.code};
    out := RedirectTo(link.originalUrl);
    assert out == RedirectTo(l.originalUrl);
  }

  /** The responses of `shorten_url` (POST /shorten). */
  datatype ShortenResult =
    | TooManyRequests          // 429 from the rate limiter
    | MissingUrl               // 400 "URL gerekli"
    | BotRejected              // 403
    | Unsafe(message: string)  // 400 with the message of `validate_url`
    | BadFormat                // 400 "Geçersiz URL formatı"
    | Spam(message: string)    // 429 from `anti_spam_check`
    | Created(shortCode: string, shortUrl: string, originalUrl: string)  // 201
    | NoFreeCode               // the random stream ran out before a free code was drawn

  /** `shorten_url`'s at most five requests per minute and IP. */
  const ShortenMaxRequests: int := 5
  const ShortenWindow: real := 60.0

  /** The screening of `shorten_url` once the rate limiter admitted the request: the first
      failing check in the order URL present, not a bot, `validate_url`, well-formed URL (the
      `validators.url` verdict, given), spam check; `None` when all pass. */
  function Screen(url: Option<string>, h: Headers, wellFormed: bool, log: RequestLog, now: real): (r: Option<ShortenResult>)
    ensures r == Some(MissingUrl) <==> !Given(url)
    ensures r == Some(BotRejected) <==> Given(url) && IsBotRequest(h)
    ensures r.Some? && r.value.Unsafe? <==> Given(url) && !IsBotRequest(h) && !ValidateUrl(url.value).ok
    ensures r == Some(BadFormat) <==> Given(url) && !IsBotRequest(h) && ValidateUrl(url.value).ok && !wellFormed
    ensures r.Some? && r.value.Spam? <==> (Given(url) && !IsBotRequest(h) && ValidateUrl(url.value).ok && wellFormed &&
      !AntiSpamCheck(log, GetClientIp(h), url.value, now).ok)
    ensures r.None? ==> Given(url) && ValidateUrl(url.value).ok && wellFormed && AntiSpamCheck(log, GetClientIp(h), url.value, now).ok
    ensures r.Some? ==> !r.value.Created? && !r.value.TooManyRequests? && !r.value.NoFreeCode?
  {
    if !Given(url) then Some(MissingUrl)
    else if IsBotRequest(h) then Some(BotRejected)
    else
      var v := ValidateUrl(url.value);
      if !v.ok then Some(Unsafe(v.message))
      else if !wellFormed then Some(BadFormat)
      else
        var spam := AntiSpamCheck(log, GetClientIp(h), url.value, now);
        if !spam.ok then Some(Spam(spam.message)) else None
  }

  /** `shorten_url` behind `rate_limit(max_requests=5, window_seconds=60)`. A new link gets a
      code drawn from `draws` that no stored link has, starts with no clicks and is active. */
  method ShortenUrl(store: Storage, limiter: RateLimiter, url: Option<string>, h: Headers, wellFormed: bool,
                    draws: seq<nat>, now: real) returns (res: ShortenResult)
    requires store.Valid()
    modifies store, limiter
    ensures store.Valid()
    ensures var admitted := Admit(old(limiter.log), GetClientIp(h), now, ShortenMaxRequests, ShortenWindow);
      && limiter.log == admitted.1
      && (!admitted.0 ==> res == TooManyRequests)
      && (admitted.0 ==> match Screen(url, h, wellFormed, admitted.1, now)
                         case Some(rejection) => res == rejection
                         case None => res.Created? || res.NoFreeCode?)
    ensures !res.Created? ==> store.links == old(store.links)
    ensures res.Created? ==>
      && res.shortCode !in old(store.links)
      && |res.shortCode| == CodeLength
      && url.Some? && res.originalUrl == url.value
      && res.shortUrl == "/api/l/" + res.shortCode
      && store.links == old(store.links)[res.shortCode := LinkRecord(res.shortCode, url.value, now, 0, true)]
    ensures store.visits == old(store.visits) && store.ads == old(store.ads)
  {
    var ip := GetClientIp(h);
    var allowed := limiter.Check(ip, now, ShortenMaxRequests, ShortenWindow);
    if !allowed {
      return TooManyRequests;
    }
    var rejection := Screen(url, h, wellFormed, limiter.log, now);
    if rejection.Some? {
      return rejection.value;
    }
    var code := GenerateShortCode(store, draws);
    if code.None? {
      return NoFreeCode;
    }
    var link := new Link(store, url.value, code.value, now);
    res := Created(link.shortCode, "/api/l/" + link.shortCode, link.originalUrl);
  }
}
