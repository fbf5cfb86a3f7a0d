# lnkskp in Dafny

A model of the URL shortener `lnkskp`, whose redirect path is gated by a timed four-step ad-wall.

The model covers the following parts.

- **The redirect gate.** This is `redirect_link` and `redirect_step` in `src/routes/link.py`, and their copy in `app.py`.
  - Each browser session holds, per short code, the step reached, the entry time and the bound IP (`Gate.GateSession`).
  - A step request is checked in a fixed order: link live, session present, same IP, next step, and enough time since entry (15 s per step already reached).
  - Only then does the step advance. Steps 2 and 3 render a page. Step 4 clears the session and redirects to the original URL.
- **The visit deduplicator and the click counter.** Every gate request records a visit only when the link has no visit from that IP on the same calendar day. Step 4 counts a click exactly when its own visit was recorded.
- **The stores.** These are the store of `src/models/storage.py` and the store of `app.py`. Each holds link records by code and an append-only visit list per code. The store of `src/models/storage.py` also holds the ad list; the store of `app.py` instead holds a running statistics file. The `Link` classes update their fields and persist them.
- **The helpers of `src/utils/security.py`.** These are the sliding-window rate limiter, client-IP selection, bot detection, URL screening, the spam check and the log clean-up.
- **The admin routes of `src/routes/admin.py`.** These are the login gate, the login rule, the visit listing and the ad-list create, update and delete.
- **The ad configuration of `src/models/ad_config.py`.** This covers the set, get, toggle and timing updates, the CPM summary, the rule-based advice and the one-shot optimisation.

## How the model is built

The gate is stated twice.

- **The protocol.** Two pure transition functions over a `World` (links, visits, ads, session) state the protocol: `Gate.Enter` and `Gate.Advance`, with `Gate.AdvancePassed` for a request that passed every check.
- **The handlers.** These are methods that update a `Store.Storage` (or `App.AppStorage`) object step by step, as the Python handlers do. Each is proved to perform exactly the transition the functions describe.
- **The lookup the handlers use.** `Gate.RedirectLink`, `Gate.RedirectStep` and `AdminRoutes.ApiLinkVisits` use the read-only lookup `Links.GetByCode`. The handlers in `src/routes/link.py:50,84` and `src/routes/admin.py:64` call `get_by_code` of `src/models/link.py`, which writes to the store (see Findings); that behaviour is modelled separately as `Links.GetByCodeAsWritten`.

Properties over whole request sequences are lemmas about the transition functions. The sequences interleave the requests of any number of browsers, each with its own session, over the one shared store (`Gate.Server`):

- at most one click per (link, IP, day), also when several browsers share one IP;
- the invalid-step branch is unreachable;
- a switched-off link stays not found.

For `app.py`, the handlers are also proved to keep the `total_links` and `active_links` counters of `stats.json` equal to the true counts, whenever they were equal before.

Other modelling choices:

- **Time.** Times are `real` seconds. A calendar day is `Links.Day(t)`, the whole days since the epoch. `src/models/link.py` uses the UTC date and `app.py` the server's local date; both are this one function of a single clock.
- **The gate session.** The three session keys `link_{code}_step`, `link_{code}_start_time` and `link_{code}_ip` are always written and popped together. The model keeps them as one record per code.
- **Randomness and foreign checks.** `random.choice` becomes a parameter `draws`, the stream of random indices. `validators.url` becomes a boolean parameter `wellFormed`, and `check_password_hash` becomes a function parameter.
- **The ad configuration store.** `AdConfigManager` reads and writes its configuration with `Storage._read_json` and `Storage._write_json`. These are not defined in `src/models/storage.py`. The model keeps the stored configuration as the field `config` of an `AdConfigManager` object, starting from the default that `get_ad_config` falls back to.
- **Behaviour worth knowing.**
  - **Clicks in a completed flow.** A completed flow on the day it started never counts a click. Entry has already recorded the IP's visit for that day, so the step-4 check finds it (`Gate.SameDayFlowNeverClicks`). A click is only counted when the calendar day changes mid-flow.
  - **Restart.** A restart leaves the session as it was and only redirects. The session is rewritten by the next entry request.
  - **Too fast.** A "too fast" request gets an error page in `src/routes/link.py` and a 400 in `app.py` (`App.Status`).

## Model

| member | source | states |
|---|---|---|
| Common.Contains | src/utils/security.py:58 | Python's `sub in s`: true iff `sub` occurs at some index of `s` |
| Common.Lower | src/utils/security.py:51 | `str.lower()`: same length, each character lowered |
| Common.Strip | src/utils/security.py:43 | `str.strip()`: a slice of the input, everything before and after it is whitespace, and it neither starts nor ends with whitespace |
| Common.FirstField | src/utils/security.py:43 | `s.split(sep)[0]`: a prefix of `s` without `sep`, followed in `s` by `sep` unless it is all of `s` |
| Store.InsertByCreated | src/models/storage.py:45 | inserting into a newest-first list keeps it sorted and adds exactly that record (multiset) |
| Store.CountActive | src/models/storage.py:121 | the active count is at most the number of links, and equal to it iff every link is active |
| Store.SumClicks | src/models/storage.py:122 | the click total bounds every link's clicks and is 0 iff no link has a click |
| Store.SumVisits | src/models/storage.py:128 | the visit total bounds every link's visit count and is 0 iff no link has a visit |
| Store.StatsOf | src/models/storage.py:119-129 | `total_links` is the number of links and `active_links` does not exceed it |
| Store.StatsAppend | src/models/storage.py:119-129 | the statistics of two lists put together are the field-wise sums |
| Store.StatsPermutation | src/models/storage.py:119-129 | two listings of the same records give the same statistics, so the order `get_all_links` returns does not matter |
| Store.Storage.SaveLink | src/models/storage.py:21-26 | the record is filed under its own code, replacing any earlier one; nothing else changes |
| Store.Storage.GetLink | src/models/storage.py:29-35 | returns the record filed under the code, `None` iff there is none |
| Store.Storage.GetAllLinks | src/models/storage.py:38-45 | returns every stored record exactly once (as a multiset, the map's values), sorted by `created_at` newest first |
| Store.Storage.DeleteLink | src/models/storage.py:48-60 | true iff the link existed; then link and visits are removed; otherwise nothing changes |
| Store.Storage.SaveVisit | src/models/storage.py:63-77 | appends the visit at the end of the code's list, keeping earlier visits in order |
| Store.Storage.GetVisits | src/models/storage.py:80-86 | the code's visit list, empty for a code never visited |
| Store.Storage.GetStats | src/models/storage.py:117-135 | the statistics of a listing of exactly the stored records; with `Store.StatsPermutation` this fixes every total. Also: `total_links` is the number of links, active at most total, each total 0 exactly when every link contributes 0 |
| Links.RecordIfFirstToday | src/routes/link.py:63-71 | appends iff the link has no visit from the IP that day; afterwards such a visit exists; keeps the visit lists deduplicated |
| Links.Day | src/models/link.py:108-111 | `.date()`: the day number `d` whose 86400 seconds contain the timestamp |
| Links.FirstAdAt | src/models/link.py:149-155 | the first ad in list order at the position that is active (absent flag = active), `None` iff none serves |
| Links.GetByPosition | src/models/link.py:149-155 | the loop returns exactly `FirstAdAt` of the stored ads |
| Links.ScanForDay | src/models/link.py:110-114 | the loop finds a visit iff one has the IP and today's date |
| Links.HasVisitedToday | src/models/link.py:104-114 | true iff the code's stored visits include one from the IP dated today |
| Links.NewVisit | src/models/link.py:80-87 | building a visit stamps it with now and appends exactly it to the code's list |
| Links.Candidate | src/models/link.py:73-75 | each candidate code has six characters, all ASCII letters or digits |
| Links.GenerateShortCode | src/models/link.py:71-77 | a returned code is a six-character alphanumeric candidate not in the store; `None` only if every drawn candidate was taken |
| Links.Link.constructor | src/models/link.py:8-14 | a new link has no clicks, is active, is created now and is saved under its code |
| Links.Link.FromRecord | src/models/link.py:62-66 | the object rebuilt from a stored record carries exactly its fields |
| Links.Link.IncrementClick | src/models/link.py:35-38 | one more click, persisted; no other field changes |
| Links.Link.ToggleActive | src/models/link.py:40-44 | the active flag flips and is persisted; no other field changes |
| Links.Link.Delete | src/models/link.py:31-33 | the link and, if it existed, its visits are removed |
| Links.ToggleTwiceRestores | src/models/link.py:40-44 | two toggles restore the object and the stored record |
| Links.GetByCode | src/models/link.py:59-68 | corrected lookup: a fresh object equal to the stored record, `null` iff there is none, and nothing is written |
| Links.ReadEffectAsWritten | src/models/link.py:59-67 | the store after `get_by_code` as written: that link re-saved with its code and URL, active, no clicks and created now; others untouched |
| Links.GetByCodeAsWritten | src/models/link.py:59-67 | as written: the object carries the stored values but the store holds the reset record |
| Links.AsWrittenReadReactivates | src/models/link.py:59-67 | reading a deactivated link with clicks as written reactivates it and loses its clicks |
| Security.GetClientIp | src/utils/security.py:40-47 | the first comma-field of X-Forwarded-For with surrounding whitespace removed, if given; else X-Real-IP if given; else the remote address |
| Security.ForwardedIp | src/utils/security.py:42-43 | the X-Forwarded-For branch: the first comma-field with surrounding whitespace removed; contains no comma and occurs in the header |
| Security.PlainForwardedForIsKept | src/utils/security.py:42-43 | a single unpadded X-Forwarded-For address is returned unchanged |
| Security.AnyIn | src/utils/security.py:58 | true iff one of the patterns occurs in the string |
| Security.AnyPrefix | src/utils/security.py:77 | true iff the string starts with one of the prefixes |
| Security.IsBotRequest | src/utils/security.py:49-58 | true iff the lower-cased User-Agent contains one of the ten indicators |
| Security.HttpUserAgentIsBot | src/utils/security.py:53-55 | any User-Agent containing "http" in any case is classed as a bot |
| Security.ValidateUrl | src/utils/security.py:60-80 | accepts iff non-empty, no dangerous domain (any case) and no blocked scheme; each rejection has its message, in that order |
| Security.Recent | src/utils/security.py:21-24 | keeps exactly the timestamps younger than the window, each as often as it occurs |
| Security.RecentAppend | src/utils/security.py:21-24 | the filter keeps order: filtering a concatenation concatenates the filtered parts |
| Security.RecentIdempotent | src/utils/security.py:21-24 | filtering twice with the same cut-off is filtering once |
| Security.LogOf | src/utils/security.py:8 | `defaultdict(list)`: the IP's log, empty for an IP never seen |
| Security.Admit | src/utils/security.py:11-38 | drops stale entries, admits iff fewer than `max` remain and then logs now; other IPs untouched; keeps every log within `max` |
| Security.AntiSpamCheck | src/utils/security.py:82-100 | fails iff more than 3 logged requests of the IP are younger than 10 s; never depends on the URL |
| Security.Cleaned | src/utils/security.py:110-119 | after clean-up every IP keeps exactly its entries younger than an hour, and no IP maps to an empty list |
| Security.RateLimiter.Check | src/utils/security.py:11-38 | the decorator's decision and new log are exactly `Admit` |
| Security.RateLimiter.CleanOldData | src/utils/security.py:110-119 | the loop over the IPs leaves exactly `Cleaned` of the old log |
| Gate.Enter | src/routes/link.py:47-79 | not found iff the link is missing or inactive, with nothing changed; otherwise the session restarts at step 1, now, this IP, and exactly the step-1 visit of this request is appended iff the IP has no visit to the link today (else the visits are unchanged) |
| Gate.AdvancePassed | src/routes/link.py:122-178 | after the checks: steps 2 and 3 render with their ad, step 4 redirects, clears the session and clicks iff the IP had no visit today, any other step is invalid; visits only grow and stay deduplicated |
| Gate.Advance | src/routes/link.py:81-178 | the checks in order: not found, restart (no session, other IP, wrong step), too fast; each leaves everything unchanged; a passing request waited `(n-1)*15` s since entry |
| Gate.AdvanceAtAdStep | src/routes/link.py:122-156 | a passing step-2 or step-3 request, unfolded |
| Gate.AdvanceAtLastStep | src/routes/link.py:157-176 | a passing step-4 request, unfolded |
| Gate.AdStepIsAdvance | src/routes/link.py:125-156 | recording the visit and moving the session is the `Advance` effect |
| Gate.FinishIsAdvance | src/routes/link.py:157-176 | recording, clicking iff recorded and dropping the session is the `Advance` effect |
| Gate.AtMostOneClickPerVisitorDay | src/routes/link.py:157-169 | over any interleaving of requests from any browsers, at most one click per (link, IP, day), and none once that day's visit exists |
| Gate.SameDayFlowNeverClicks | src/routes/link.py:63-169 | a flow that starts with entry on a live link counts no click for that IP on that day, whatever other browsers send in between |
| Gate.InvalidStepUnreachable | src/routes/link.py:58-178 | from sessions at steps 1 to 3, no request sequence ever gets the invalid-step response |
| Gate.InactiveLinkStaysNotFound | src/routes/link.py:84-87 | with a read-only lookup, every request for a missing or inactive link is not found, however many requests come |
| Gate.AsWrittenSecondEntryPasses | src/routes/link.py:50-53 | with `get_by_code` as written, an inactive link answers 404 once and then lets the next entry through |
| Gate.RedirectLink | src/routes/link.py:47-79 | the handler performs exactly `Enter` on the store and session |
| Gate.RecordStepVisit | src/routes/link.py:129-136 | saves the step's visit iff the IP has none for the link today; links and ads unchanged |
| Gate.RedirectStep | src/routes/link.py:81-178 | the handler performs exactly `Advance` on the store and session |
| Gate.Proceed | src/routes/link.py:122-178 | the part after the checks performs exactly `Advance` |
| Gate.Finish | src/routes/link.py:157-176 | step 4: visit saved and click counted iff first visit today, session cleared, redirect to the original URL |
| Gate.Screen | src/routes/link.py:13-36 | the first failing check in the order URL given, not a bot, `validate_url`, well-formed, spam; none iff all pass |
| Gate.ShortenUrl | src/routes/link.py:9-45 | rate limit first; a created link has a fresh six-character code, no clicks, is active and is the only store change |
| AdminRoutes.AdminPanel | src/routes/admin.py:18-22 | the panel is served iff `admin_id` is in the session |
| AdminRoutes.Login | src/routes/admin.py:24-43 | `admin_id` is set to the username iff an account exists with that username and the password check passes; otherwise the session is unchanged |
| AdminRoutes.ApiLinkVisits | src/routes/admin.py:61-68 | behind the login gate; 404 iff the link is missing, else its visit list |
| AdminRoutes.MaxId | src/routes/admin.py:98 | the largest id, or 0: non-negative, bounds every id, and attained unless 0 |
| AdminRoutes.NextIdIsFresh | src/routes/admin.py:98 | the new id is positive and greater than every existing id |
| AdminRoutes.NewAd | src/routes/admin.py:99-105 | the new ad has the fresh id and the given fields, with position 1 and active unless given |
| AdminRoutes.ApiCreateAd | src/routes/admin.py:93-108 | behind the login gate; appends exactly the new ad at the end |
| AdminRoutes.IndexOfId | src/routes/admin.py:115-116 | the index of the first ad with the id, `None` iff no ad has it |
| AdminRoutes.Patched | src/routes/admin.py:117-120 | each field the request carries replaces the old one; the id and the other fields are kept |
| AdminRoutes.ApiUpdateAd | src/routes/admin.py:110-123 | behind the login gate; patches only the first ad with the id; 404 with nothing saved iff none |
| AdminRoutes.WithoutId | src/routes/admin.py:129 | keeps exactly the ads whose id differs; shorter iff some ad had the id |
| AdminRoutes.WithoutIdAppend | src/routes/admin.py:129 | the filter keeps relative order: filtering a concatenation concatenates the filtered parts |
| AdminRoutes.WithoutIdIdempotent | src/routes/admin.py:125-131 | deleting an id twice is deleting it once |
| AdminRoutes.ApiDeleteAd | src/routes/admin.py:125-131 | behind the login gate; removes every ad with the id and reports success either way |
| AdConfiguration.ActiveCount | src/models/ad_config.py:247 | the number of enabled positions: at most the configured ones, 0 iff none is enabled |
| AdConfiguration.AdPositionsCount | src/models/ad_config.py:17-58 | there are eight known positions |
| AdConfiguration.ActiveCountAtMostEight | src/models/ad_config.py:17-58 | with only known positions configured, at most eight are enabled |
| AdConfiguration.AdCode | src/models/ad_config.py:164-171 | the code iff the position is configured and enabled, else `None` |
| AdConfiguration.CpmSettingsOf | src/models/ad_config.py:197-206 | `total_ad_positions` is the number of enabled positions; timing optimised iff the step wait is at least 15000 ms; the popup and interstitial flags are copied |
| AdConfiguration.TrackedAdvice | src/models/ad_config.py:243-264 | after all five rules, each advice is present iff its rule applies, in rule order |
| AdConfiguration.Consider | src/models/ad_config.py:249-262 | one rule appends its advice exactly when its condition holds |
| AdConfiguration.OptimizationRecommendations | src/models/ad_config.py:243-264 | each of the five advices appears iff its rule applies, in the fixed order, with nothing else |
| AdConfiguration.Optimized | src/models/ad_config.py:300-320 | popup, interstitial and popunder on, minimum view time 15 and the default timing, which counts as optimised; positions, the master switch and the ad-block setting kept; the popup, interstitial and wait advice then no longer apply, and the other two advices are as before |
| AdConfiguration.AdConfigManager.constructor | src/models/ad_config.py:119-138 | with nothing stored the configuration is the default |
| AdConfiguration.AdConfigManager.SetAdCode | src/models/ad_config.py:147-161 | an unknown position is refused and nothing is saved; a known one gets the code, enabled, with its info |
| AdConfiguration.AdConfigManager.TogglePosition | src/models/ad_config.py:174-180 | no-op for an absent position, else only that position's flag is set to the given value; a disabled position yields no code |
| AdConfiguration.AdConfigManager.UpdateTimingSettings | src/models/ad_config.py:183-194 | exactly the given delays are replaced |
| AdConfiguration.AdConfigManager.OptimizeForMaximumCpm | src/models/ad_config.py:300-320 | the configuration becomes `Optimized` of the old one, with the fixed message |
| App.ReadJson | app.py:36-43 | the parsed value, or the default for a missing or unreadable file |
| App.CreateKeepsAgreement | app.py:322-325 | adding an active link under a new code and both counters keeps them true |
| App.ToggleKeepsAgreement | app.py:152-160 | flipping a flag and moving `active_links` by one keeps the counters true |
| App.DeleteKeepsAgreement | app.py:162-168 | removing a link and adjusting both counters keeps them true |
| App.SameFlagsKeepAgreement | app.py:145-150 | changes that keep every code and flag keep the counters true |
| App.AppStorage.GetLink | app.py:62-64 | the stored record, `None` iff absent |
| App.AppStorage.SaveLink | app.py:67-69 | files the record under its code; visits and statistics unchanged |
| App.AppStorage.DeleteLink | app.py:72-79 | removes the link and the visit list whether or not the link existed |
| App.AppStorage.GetVisits | app.py:82-84 | the code's visits, or the empty default |
| App.AppStorage.SaveVisit | app.py:87-93 | appends to the code's visit list |
| App.AppStorage.GetStats | app.py:112-113 | the stored counters, or all zeros |
| App.AppStorage.SaveStats | app.py:116-117 | the statistics file holds exactly the counters |
| App.AppLink.constructor | app.py:121-127 | a new link with no clicks, active, saved under its code |
| App.AppLink.FromRecord | app.py:193-198 | the object rebuilt from a stored record carries exactly its fields |
| App.AppLink.IncrementClick | app.py:145-150 | one click more on the link and in `total_clicks`; the link counters stay true |
| App.AppLink.ToggleActive | app.py:152-160 | flips the flag and moves `active_links` by one in the new direction |
| App.AppLink.Delete | app.py:162-168 | removes link and visits; one link less, one active link less if it was active |
| App.GetByCode | app.py:189-200 | a fresh object equal to the stored record, `null` iff absent; nothing is written |
| App.GenerateShortCode | app.py:129-133 | a returned code is a six-character alphanumeric candidate not in the store |
| App.NewVisit | app.py:204-225 | appends the visit and adds one to `total_visits` |
| App.HasVisitedToday | app.py:232-240 | true iff the code has a visit from the IP dated today |
| App.RecordStepVisit | app.py:387-396 | saves the visit iff it is the IP's first today, and `total_visits` grows by exactly that |
| App.ClientIp | app.py:274-280 | as `Security.GetClientIp`, except that a missing remote address gives `127.0.0.1` |
| App.ValidateUrl | app.py:282-292 | accepts iff 1 to 2048 characters, well-formed and `http://` or `https://`; each rejection has its message, in that order |
| App.IsBotRequest | app.py:294-297 | true iff the lower-cased User-Agent contains one of the eight patterns |
| App.CrawlerIndicatorsAgree | app.py:294-297 | whatever the module version flags through its first seven indicators, this version flags too |
| App.Status | app.py:359-427 | 404 not found, 400 too fast or invalid step, 302 restart or redirect, 200 page |
| App.RedirectLink | app.py:334-355 | performs exactly `Enter`, counts recorded visits in `total_visits`, keeps the link counters true |
| App.RedirectStep | app.py:357-427 | performs exactly `Advance`; `total_clicks` grows iff a click was counted and `total_visits` by the recorded visits |
| App.Proceed | app.py:385-427 | the part after the checks performs exactly `Advance`, with the same statistics |
| App.Finish | app.py:409-425 | step 4: visit and click iff first visit today, both also in the statistics; session cleared; redirect |
| App.ShortenUrl | app.py:305-331 | checks in order URL given, not a bot, `validate_url`; a created link is fresh and adds one to both link counters, which stay true |
| App.ApiDeleteLink | app.py:484-494 | behind the login flag; true iff the link existed, then link and visits are gone, the stats file loses one link (and one active link if it was active) and the counters stay true |
| App.ApiToggleLink | app.py:496-506 | behind the login flag; the new flag iff the link exists, only its flag changes, the active count in the stats file moves by one in the flag's direction, and the counters stay true |

## Findings

| source | as written | input that shows it | evidently intended | confidence | as-written member | corrected member |
|---|---|---|---|---|---|---|
| src/models/link.py:59-67 | `get_by_code` builds the object with the constructor, whose `save` rewrites the stored record with `click_count` 0, `is_active` true and a new `created_at`; the stored values are copied back only into the object | a stored link with `is_active` false and `click_count` 5, then any request to `/l/{code}`: the first answers 404 and leaves the link stored as active with 0 clicks, so the next entry passes | a read-only lookup that rebuilds the object from the record, as `app.py:189-200` does | not executed | Links.GetByCodeAsWritten | Links.GetByCode |

`Links.AsWrittenReadReactivates` and `Gate.AsWrittenSecondEntryPasses` exhibit the as-written behaviour. `Gate.InactiveLinkStaysNotFound` is the property of the corrected lookup, which the gate handlers use.

## Left out

- **File I/O.** Reading, writing and listing JSON files, and directory handling, are left out. The stores are fields holding maps and sequences, and every request runs atomically one after another. The read-modify-write races on counters, visit lists and the rate-limit log are not modelled.
- **Flask plumbing.** Requests, responses, templates, redirects, blueprints and decorators are left out. Headers, the client IP, the clock and the session are parameters; responses are datatypes.
- **Date handling.** `time.time()`, `datetime.utcnow()`, `datetime.now()` and `fromisoformat` are left out. A timestamp is one real number of seconds, and a date is `Links.Day` of it. The difference between UTC and local dates is not modelled.
- **String case and whitespace.** `str.lower()` is modelled on the ASCII letters only. `str.strip()` removes the ASCII characters for which `str.isspace()` holds: space, `\t`, `\n`, `\r`, `\x0b`, `\x0c` and the separators `\x1c` to `\x1f`. Non-ASCII whitespace such as U+0085 or U+00A0 is not stripped in the model.
- **Admin requests.** A JSON field given as an explicit `null` is modelled like an absent field in the ad requests.
- **`to_dict`.** Its `visits_count` field and the `visits_count` property of `app.py` are not kept in the records.
- **Statistics-file write in `get_stats`.** The write of `stats.json` inside `get_stats` in `src/models/storage.py` is left out; the method only computes.
- **Import-time defaults.** The default admin account and default ads written at import time are left out.
- **Unused or float-valued parts.** These are left out:
  - the md5 cache key of `anti_spam_check`, which is computed and never used;
  - the float `estimated_cpm_multiplier`;
  - `generate_config_summary`;
  - the ad-network code builders `setup_google_adsense` and `setup_media_net`;
  - the `AD_NETWORKS` examples;
  - `security_headers`.
- **`app.py` admin routes.** Its login, logout and panel, its SHA-256 password hashing, and its link list and statistics routes are left out. In `src/routes/admin.py` the `api_get_stats`, `api_get_links`, `api_get_ads`, `logout`, `api_delete_link` and `api_toggle_link` routes are left out; the last two are the same operations modelled for `app.py`.
- **`Link.get_all`.** In `src/models/link.py` it re-saves every link through the constructor, like `get_by_code`. It is not modelled.
- Links.GenerateShortCode: the source retries for ever. The model draws from a finite random stream `draws` and answers `None` when the stream runs out. Termination of the source loop is not modelled.
- App.GenerateShortCode: same fuel bound as `Links.GenerateShortCode`.
- AdminRoutes.Login: the password check of werkzeug is a function parameter, so the model says nothing about hashing.
- App.AppLink.Delete: `total_clicks` and `total_visits` keep the deleted link's clicks and visits, as in the source. The model proves only the link counters true, not these two totals.
- Gate.ShortenUrl: `validators.url` is the boolean parameter `wellFormed`.
- App.ShortenUrl: `validators.url` is the boolean parameter `wellFormed`.
- Gate.RedirectLink: uses the read-only lookup, so the store write that `get_by_code` of `src/models/link.py` makes on every request is not repeated in the handler. `Gate.RedirectStep` and `AdminRoutes.ApiLinkVisits` do the same. That write is modelled on its own by `Links.GetByCodeAsWritten`, and its effect on the gate by `Gate.AsWrittenSecondEntryPasses`.
