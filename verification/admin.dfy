/** The admin routes of `src/routes/admin.py`: the `admin_id` session gate, the login rule, the
    visit listing of one link, and the editing of the ad list kept in the store (create with a
    fresh id, update in place by id, delete by id). */
module AdminRoutes {
  import opened Common
  import opened Store
  import opened Links

  /** The `admin_id` session value: the name of the logged-in admin, if any. */
  type AdminSession = Option<string>

  /** A response of a route behind the login gate: either the redirect to the login page, or
      the handler ran and answered `result`. */
  datatype Guarded<T> = RedirectToLogin | Ran(result: T)

  /** `login_required` and the inline check of `admin_panel`: the handler runs only with an
      `admin_id` in the session. */
  predicate LoggedIn(adminId: AdminSession) {
    adminId.Some?
  }

  datatype Page = PanelPage

  /** `admin_panel`. */
  function AdminPanel(adminId: AdminSession): (r: Guarded<Page>)
    ensures r.Ran? <==> LoggedIn(adminId)
  {
    if !LoggedIn(adminId) then RedirectToLogin else Ran(PanelPage)
  }

  /** The stored admin account (`Storage.get_admin`). */
  datatype Account = Account(username: string, passwordHash: string)

  /** `login` on POST: the session gets `admin_id := username` exactly when an account is stored,
      its username equals the submitted one, and the password check (werkzeug's
      `check_password_hash`, a parameter here) accepts the submitted password; otherwise the
      session is left as it was. */
  function Login(adminId: AdminSession, account: Option<Account>, username: Option<string>, password: Option<string>,
                 checkPasswordHash: (string, Option<string>) -> bool): (r: (bool, AdminSession))
    ensures r.0 <==> account.Some? && username == Some(account.value.username) &&
                     checkPasswordHash(account.value.passwordHash, password)
    ensures r.0 ==> r.1 == username && LoggedIn(r.1)
    ensures !r.0 ==> r.1 == adminId
  {
    if account.Some? && username == Some(account.value.username) && checkPasswordHash(account.value.passwordHash, password) then
      (true, username)
    else
      (false, adminId)
  }

  /** `api_link_visits`: the visit list of a stored link, or `None` (404) for an unknown code.
      The lookup is the read-only one, so nothing is written. */
  method ApiLinkVisits(store: Storage, adminId: AdminSession, code: string) returns (r: Guarded<Option<seq<Visit>>>)
    ensures r.Ran? <==> LoggedIn(adminId)
    ensures r.Ran? ==> (r.result.None? <==> code !in store.links)
    ensures r.Ran? && r.result.Some? ==> r.result.value == VisitsOf(store.visits, code)
  {
    if !LoggedIn(adminId) {
      return RedirectToLogin;
    }
    var link := GetByCode(store, code);
    if link == null {
      return Ran(None);
    }
    var visits := store.GetVisits(code);
    r := Ran(Some(visits));
  }

  /** The largest id in `ads`, or 0 (`max([ad['id'] for ad in ads] + [0])`). */
  function MaxId(ads: seq<Ad>): (m: int)
    ensures m >= 0
    ensures forall i :: 0 <= i < |ads| ==> ads[i].id <= m
    ensures m == 0 || exists i :: 0 <= i < |ads| && ads[i].id == m
  {
    if ads == [] then 0
    else
      var rest := MaxId(ads[1..]);
      assert forall i :: 1 <= i < |ads| ==> ads[i] == ads[1..][i - 1];
      if ads[0].id >= rest then ads[0].id
      else if rest == 0 then 0
      else
        var k :| 0 <= k < |ads[1..]| && ads[1..][k].id == rest;
        assert ads[k + 1].id == rest;
        rest
  }

  /** The id `api_create_ad` gives a new ad. */
  function NextId(ads: seq<Ad>): int {
    MaxId(ads) + 1
  }

  /** The new id is positive and collides with no existing ad. */
  lemma NextIdIsFresh(ads: seq<Ad>)
    ensures NextId(ads) >= 1
    ensures forall i :: 0 <= i < |ads| ==> ads[i].id < NextId(ads)
  {
  }

  /** The JSON body of an ad request; `None` is a key the body does not carry. */
  datatype AdRequest = AdRequest(adType: Option<string>, adContent: Option<string>, position: Option<int>, isActive: Option<bool>)

  /** The ad `api_create_ad` builds: the new id, the given type and content (absent reads as
      null), position 1 and active unless given. */
  function NewAd(ads: seq<Ad>, req: AdRequest): (ad: Ad)
    ensures ad.id == NextId(ads)
    ensures ad.adType == req.adType && ad.adContent == req.adContent
    ensures req.position.None? ==> ad.position == 1
    ensures req.position.Some? ==> ad.position == req.position.value
    ensures req.isActive.None? ==> ad.isActive == Some(true)
    ensures req.isActive.Some? ==> ad.isActive == req.isActive
  {
    Ad(NextId(ads), req.adType, req.adContent, req.position.GetOr(1), Some(req.isActive.GetOr(true)))
  }

  /** `api_create_ad`: appends the new ad at the end of the list. */
  method ApiCreateAd(store: Storage, adminId: AdminSession, req: AdRequest) returns (r: Guarded<Ad>)
    modifies store
    ensures r.Ran? <==> LoggedIn(adminId)
    ensures r.Ran? ==> r.result == NewAd(old(store.ads), req) && store.ads == old(store.ads) + [r.result]
    ensures !r.Ran? ==> store.ads == old(store.ads)
    ensures store.links == old(store.links) && store.visits == old(store.visits)
  {
    if !LoggedIn(adminId) {
      return RedirectToLogin;
    }
    var ad := NewAd(store.ads, req);
    store.ads := store.ads + [ad];
    r := Ran(ad);
  }

  /** The index of the first ad with id `id`. */
  function IndexOfId(ads: seq<Ad>, id: int): (r: Option<nat>)
    ensures r.None? <==> forall i :: 0 <= i < |ads| ==> ads[i].id != id
    ensures r.Some? ==> r.value < |ads| && ads[r.value].id == id && forall j :: 0 <= j < r.value ==> ads[j].id != id
  {
    if ads == [] then None
    else if ads[0].id == id then Some(0)
    else
      var rest := IndexOfId(ads[1..], id);
      assert forall i :: 1 <= i < |ads| ==> ads[i] == ads[1..][i - 1];
      match rest
      case None => None
      case Some(k) => Some(k + 1)
  }

  /** The fields of `ad` after an update: each field the request carries replaces the old one. */
  function Patched(ad: Ad, req: AdRequest): (r: Ad)
    ensures r.id == ad.id
    ensures r.adType == (if req.adType.Some? then req.adType else ad.adType)
    ensures r.adContent == (if req.adContent.Some? then req.adContent else ad.adContent)
    ensures r.position == req.position.GetOr(ad.position)
    ensures r.isActive == (if req.isActive.Some? then req.isActive else ad.isActive)
  {
    Ad(ad.id,
       if req.adType.Some? then req.adType else ad.adType,
       if req.adContent.Some? then req.adContent else ad.adContent,
       req.position.GetOr(ad.position),
       if req.isActive.Some? then req.isActive else ad.isActive)
  }

  /** `api_update_ad`: patches the first ad with the id in place and saves the list; with no
      such ad it answers `None` (404) and saves nothing. */
  method ApiUpdateAd(store: Storage, adminId: AdminSession, id: int, req: AdRequest) returns (r: Guarded<Option<Ad>>)
    modifies store
    ensures r.Ran? <==> LoggedIn(adminId)
    ensures r.Ran? ==> (r.result.None? <==> IndexOfId(old(store.ads), id).None?)
    ensures r.Ran? && r.result.Some? ==>
      var k := IndexOfId(old(store.ads), id).value;
      && r.result.value == Patched(old(store.ads)[k], req)
      && store.ads == old(store.ads)[k := r.result.value]
    ensures !(r.Ran? && r.result.Some?) ==> store.ads == old(store.ads)
    ensures store.links == old(store.links) && store.visits == old(store.visits)
  {
    if !LoggedIn(adminId) {
      return RedirectToLogin;
    }
    var i := 0;
    while i < |store.ads|
      invariant 0 <= i <= |store.ads|
      invariant store.ads == old(store.ads)
      invariant forall j :: 0 <= j < i ==> store.ads[j].id != id
    {
      if store.ads[i].id == id {
        var ad := Patched(store.ads[i], req);
        store.ads := store.ads[i := ad];
        return Ran(Some(ad));
      }
      i := i + 1;
    }
    r := Ran(None);
  }

  /** The ads whose id is not `id`, in their order (`[ad for ad in ads if ad['id'] != id]`). */
  function WithoutId(ads: seq<Ad>, id: int): (r: seq<Ad>)
    ensures forall a :: a in r <==> a in ads && a.id != id
    ensures |r| <= |ads|
    ensures |r| == |ads| <==> forall i :: 0 <= i < |ads| ==> ads[i].id != id
  {
    if ads == [] then []
    else
      var rest := WithoutId(ads[1..], id);
      assert ads == [ads[0]] + ads[1..];
      assert forall i :: 1 <= i < |ads| ==> ads[i] == ads[1..][i - 1];
      if ads[0].id == id then rest else [ads[0]] + rest
  }

  /** Filtering keeps the relative order: filtering a concatenation is concatenating the
      filtered parts. */
  lemma {:induction false} WithoutIdAppend(a: seq<Ad>, b: seq<Ad>, id: int)
    ensures WithoutId(a + b, id) == WithoutId(a, id) + WithoutId(b, id)
    decreases |a|
  {
    if a == [] {
      assert a + b == b;
    } else {
      assert (a + b)[0] == a[0];
      assert (a + b)[1..] == a[1..] + b;
      WithoutIdAppend(a[1..], b, id);
    }
  }

  /** Deleting twice is deleting once. */
  lemma {:induction false} WithoutIdIdempotent(ads: seq<Ad>, id: int)
    ensures WithoutId(WithoutId(ads, id), id) == WithoutId(ads, id)
  {
    var r := WithoutId(ads, id);
    assert forall i :: 0 <= i < |r| ==> r[i].id != id by {
      forall i | 0 <= i < |r| ensures r[i].id != id {
        assert r[i] in r;
      }
    }
    WithoutNothing(r, id);
  }

  lemma {:induction false} WithoutNothing(ads: seq<Ad>, id: int)
    requires forall i :: 0 <= i < |ads| ==> ads[i].id != id
    ensures WithoutId(ads, id) == ads
  {
    if ads != [] {
      WithoutNothing(ads[1..], id);
      assert ads == [ads[0]] + ads[1..];
    }
  }

  /** `api_delete_ad`: drops every ad with the id and reports success whether or not any matched. */
  method ApiDeleteAd(store: Storage, adminId: AdminSession, id: int) returns (r: Guarded<bool>)
    modifies store
    ensures r.Ran? <==> LoggedIn(adminId)
    ensures r.Ran? ==> r.result && store.ads == WithoutId(old(store.ads), id)
    ensures !r.Ran? ==> store.ads == old(store.ads)
    ensures store.links == old(store.links) && store.visits == old(store.visits)
  {
    if !LoggedIn(adminId) {
      return RedirectToLogin;
    }
    store.ads := WithoutId(store.ads, id);
    r := Ran(true);
  }
}
