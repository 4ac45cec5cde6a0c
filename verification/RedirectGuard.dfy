/**
 The redirect guard in front of the web app (frontend/src/proxy.ts): which visitor is
 sent where, and where the browser comes to rest. The `next` parameter is written back
 through the browser's path normaliser, an arbitrary function here.
 */
module RedirectGuard {
  import opened Common

  datatype Kind = Firm | Portal | Provider

  // What the access token says about its account.
  datatype Metadata = Metadata(clientId: Option<string>, isPortal: bool, isStaff: bool, hasTenant: bool, superadmin: Option<bool>)

  datatype Visitor = Visitor(signedIn: bool, metadata: Option<Metadata>)

  datatype Url = Url(path: string, next: Option<string>)

  const FIRM_ROUTES: seq<string> := [
    "/overview", "/billing", "/clients", "/workflows", "/timesheet", "/deadlines",
    "/reminders", "/services", "/engagements", "/team", "/users", "/reporting",
    "/notifications", "/integrations", "/settings", "/custom-fields", "/import", "/admin"]

  const FIRM_HOME := "/overview"
  const PORTAL_HOME := "/dashboard"
  const PROVIDER_HOME := "/admin"
  const LOGIN := "/login"
  const SIGNUP := "/signup"

  predicate Under(path: string, route: string) {
    path == route || route + "/" <= path
  }

  predicate OnFirmRoute(path: string) {
    exists i :: 0 <= i < |FIRM_ROUTES| && Under(path, FIRM_ROUTES[i])
  }

  predicate Protected(path: string) {
    Under(path, PORTAL_HOME) || OnFirmRoute(path)
  }

  predicate AuthOnly(path: string) {
    path == LOGIN || path == SIGNUP
  }

  function KindOf(metadata: Option<Metadata>): Option<Kind> {
    match metadata
    case None => None
    case Some(m) =>
      if m.clientId.Some? && m.clientId.value != "" then Some(Portal)
      else if m.isPortal then Some(Portal)
      else if m.isStaff then Some(if m.hasTenant then Firm else Provider)
      else None
  }

  function SuperadminOf(metadata: Option<Metadata>): Option<bool> {
    if metadata.None? then None else metadata.value.superadmin
  }

  function Home(kind: Option<Kind>): string {
    match kind
    case Some(Portal) => PORTAL_HOME
    case Some(Provider) => PROVIDER_HOME
    case _ => FIRM_HOME
  }

  // Where the guard sends the visitor; None lets the request through.
  function Guard(v: Visitor, url: Url, normalise: string -> string): Option<Url> {
    var kind := KindOf(v.metadata);
    if !v.signedIn then
      if Protected(url.path) then Some(Url(LOGIN, Some(url.path))) else None
    else if AuthOnly(url.path) then
      Some(Url(if url.next.Some? && "/" <= url.next.value then normalise(url.next.value) else Home(kind), None))
    else if kind == Some(Portal) && OnFirmRoute(url.path) then Some(Url(PORTAL_HOME, None))
    else if (kind == Some(Firm) || kind == Some(Provider)) && Under(url.path, PORTAL_HOME) then
      Some(Url(if kind == Some(Provider) then PROVIDER_HOME else FIRM_HOME, None))
    else if Under(url.path, PROVIDER_HOME) && SuperadminOf(v.metadata) == Some(false) then
      Some(Url(if kind == Some(Portal) then PORTAL_HOME else FIRM_HOME, None))
    else None
  }

  // The URL after at most `hops` redirects.
  function Follow(v: Visitor, url: Url, normalise: string -> string, hops: nat): Url
    decreases hops
  {
    if hops == 0 then url
    else
      match Guard(v, url, normalise)
      case None => url
      case Some(target) => Follow(v, target, normalise, hops - 1)
  }

  // Whose account it is, from the token: a client's, or else the firm's or provider's staff.
  predicate ClientAccount(v: Visitor) {
    v.metadata.Some? && (v.metadata.value.isPortal || (v.metadata.value.clientId.Some? && |v.metadata.value.clientId.value| > 0))
  }

  predicate StaffAccount(v: Visitor) {
    v.metadata.Some? && v.metadata.value.isStaff && !ClientAccount(v)
  }

  predicate KnownOrdinary(v: Visitor) {
    v.metadata.Some? && v.metadata.value.superadmin == Some(false)
  }

  // The pages meant for a visitor.
  predicate Allowed(v: Visitor, path: string) {
    if !v.signedIn then !Under(path, "/dashboard") && !OnFirmRoute(path)
    else
      && path != "/login" && path != "/signup"
      && (ClientAccount(v) ==> !OnFirmRoute(path))
      && (StaffAccount(v) ==> !Under(path, "/dashboard"))
      && (KnownOrdinary(v) ==> !Under(path, "/admin"))
  }

  // A route and everything below it, but not a longer name that begins alike.
  lemma UnderIs(path: string, route: string)
    ensures Under(path, route) <==> path == route || exists rest :: path == route + "/" + rest
  {
    if route + "/" <= path {
      assert path == route + "/" + path[|route| + 1..];
    }
  }

  lemma LetsThroughExactlyTheAllowed(v: Visitor, url: Url, normalise: string -> string)
    ensures Guard(v, url, normalise).None? <==> Allowed(v, url.path)
  {
    if Under(url.path, PROVIDER_HOME) {
      assert FIRM_ROUTES[17] == PROVIDER_HOME;
    }
  }

  lemma Apart(path: string, route: string, i: nat)
    requires i < |path| && i < |route| && path[i] != route[i]
    ensures !Under(path, route)
  {
    assert (route + "/")[i] == route[i];
  }

  lemma HomesAreAllowedPages()
    ensures OnFirmRoute(FIRM_HOME) && !Under(FIRM_HOME, PORTAL_HOME) && !Under(FIRM_HOME, PROVIDER_HOME)
    ensures !OnFirmRoute(PORTAL_HOME) && !Under(PORTAL_HOME, PROVIDER_HOME)
    ensures !Under(PROVIDER_HOME, PORTAL_HOME)
    ensures !Protected(LOGIN)
  {
    assert FIRM_ROUTES[0] == FIRM_HOME;
    Apart(FIRM_HOME, PORTAL_HOME, 1);
    Apart(FIRM_HOME, PROVIDER_HOME, 1);
    Apart(PORTAL_HOME, PROVIDER_HOME, 1);
    Apart(PROVIDER_HOME, PORTAL_HOME, 1);
    Apart(LOGIN, PORTAL_HOME, 1);
    forall i | 0 <= i < |FIRM_ROUTES|
      ensures !Under(PORTAL_HOME, FIRM_ROUTES[i]) && !Under(LOGIN, FIRM_ROUTES[i])
    {
      Apart(PORTAL_HOME, FIRM_ROUTES[i], if FIRM_ROUTES[i][1] == 'd' then 2 else 1);
      Apart(LOGIN, FIRM_ROUTES[i], 1);
    }
  }

  ghost predicate Rests(v: Visitor, url: Url, normalise: string -> string, hops: nat) {
    Guard(v, Follow(v, url, normalise, hops), normalise).None?
  }

  lemma {:induction false} RestsLater(v: Visitor, url: Url, normalise: string -> string, hops: nat)
    requires Rests(v, url, normalise, hops)
    ensures Rests(v, url, normalise, hops + 1)
    ensures Follow(v, url, normalise, hops + 1) == Follow(v, url, normalise, hops)
    decreases hops
  {
    if hops > 0 && Guard(v, url, normalise).Some? {
      RestsLater(v, Guard(v, url, normalise).value, normalise, hops - 1);
    }
  }

  // Clients belong on the portal, staff without a firm on the console, all others (and
  // staff sent away from the console) on the overview.
  predicate IsHome(v: Visitor, path: string) {
    if ClientAccount(v) then path == "/dashboard"
    else path == "/overview" || (path == "/admin" && StaffAccount(v) && !v.metadata.value.hasTenant)
  }

  // After signing in with nowhere to go, each lands on their own home first.
  lemma SigningInLeadsHome(v: Visitor, normalise: string -> string)
    requires v.signedIn
    ensures Guard(v, Url("/login", None), normalise) ==
              Some(Url(if ClientAccount(v) then "/dashboard"
                       else if StaffAccount(v) && !v.metadata.value.hasTenant then "/admin" else "/overview", None))
  {
  }

  // A home page is a stop, except the console for an account known not to run it.
  lemma HomeRestsWithinOne(v: Visitor, path: string, normalise: string -> string)
    requires v.signedIn && IsHome(v, path)
    ensures Rests(v, Url(path, None), normalise, 1)
  {
    HomesAreAllowedPages();
    assert Guard(v, Url(FIRM_HOME, None), normalise).None? || KindOf(v.metadata) == Some(Portal);
    var target := Guard(v, Url(path, None), normalise);
    assert target.Some? ==> target == Some(Url(FIRM_HOME, None));
    if target.Some? {
      assert Follow(v, Url(path, None), normalise, 1) == Follow(v, target.value, normalise, 0);
    }
  }

  // Only `next` sends a signed-in visitor anywhere but home.
  lemma RedirectsGoHome(v: Visitor, url: Url, normalise: string -> string)
    requires v.signedIn && Guard(v, url, normalise).Some?
    ensures var target := Guard(v, url, normalise).value;
            target.next.None? && (IsHome(v, target.path) || (AuthOnly(url.path) && url.next.Some?))
  {
  }

  lemma RestsWithinTwo(v: Visitor, url: Url, normalise: string -> string)
    requires v.signedIn && url.next.None?
    ensures Rests(v, url, normalise, 2)
  {
    match Guard(v, url, normalise)
    case None =>
    case Some(target) =>
      RedirectsGoHome(v, url, normalise);
      HomeRestsWithinOne(v, target.path, normalise);
      assert Follow(v, url, normalise, 2) == Follow(v, target, normalise, 1);
  }

  // Every visitor comes to rest within three redirects, on a page meant for them.
  lemma StopsWithinThree(v: Visitor, url: Url, normalise: string -> string)
    ensures Rests(v, url, normalise, 3) && Allowed(v, Follow(v, url, normalise, 3).path)
  {
    match Guard(v, url, normalise) {
      case None =>
      case Some(target) =>
        assert Follow(v, url, normalise, 3) == Follow(v, target, normalise, 2);
        if v.signedIn {
          RedirectsGoHome(v, url, normalise);
          RestsWithinTwo(v, target, normalise);
        } else {
          HomesAreAllowedPages();
        }
    }
    LetsThroughExactlyTheAllowed(v, Follow(v, url, normalise, 3), normalise);
  }

  // Three are needed: a provider not known to be superadmin, signed in on the way to the portal.
  lemma TwoMayNotBeEnough(normalise: string -> string)
    requires normalise(PORTAL_HOME) == PORTAL_HOME
    ensures var v := Visitor(true, Some(Metadata(None, false, true, false, Some(false))));
            !Rests(v, Url(LOGIN, Some(PORTAL_HOME)), normalise, 2)
  {
    var v := Visitor(true, Some(Metadata(None, false, true, false, Some(false))));
    HomesAreAllowedPages();
    assert "/" <= PORTAL_HOME;
    var second, third := Url(PORTAL_HOME, None), Url(PROVIDER_HOME, None);
    assert Guard(v, Url(LOGIN, Some(PORTAL_HOME)), normalise) == Some(second);
    assert Guard(v, second, normalise) == Some(third);
    assert Follow(v, second, normalise, 1) == Follow(v, third, normalise, 0) == third;
    assert Follow(v, Url(LOGIN, Some(PORTAL_HOME)), normalise, 2) == Follow(v, second, normalise, 1);
    assert Guard(v, third, normalise).Some?;
  }

  lemma ProtectedPathsAreRooted(path: string)
    requires Protected(path)
    ensures "/" <= path
  {
  }

  lemma HomesStayHome(v: Visitor, url: Url, normalise: string -> string)
    requires v.signedIn && url.next.None? && Guard(v, url, normalise).Some?
    ensures IsHome(v, Follow(v, url, normalise, 2).path)
  {
    var target := Guard(v, url, normalise).value;
    RedirectsGoHome(v, url, normalise);
    assert Follow(v, url, normalise, 2) == Follow(v, target, normalise, 1);
    if Guard(v, target, normalise).Some? {
      RedirectsGoHome(v, target, normalise);
      assert Follow(v, target, normalise, 1) == Follow(v, Guard(v, target, normalise).value, normalise, 0);
    }
  }

  // A protected page asked for while signed out is reached after signing in exactly
  // when it is meant for the account; otherwise the visitor ends up at one of their homes.
  lemma DeepLinkSurvivesExactly(v: Visitor, path: string, normalise: string -> string)
    requires v.signedIn && Protected(path) && normalise(path) == path
    ensures var detour := Guard(Visitor(false, None), Url(path, None), normalise);
            && detour == Some(Url(LOGIN, Some(path)))
            && var rest := Follow(v, detour.value, normalise, 3).path;
               (rest == path <==> Allowed(v, path)) && (rest != path ==> IsHome(v, rest))
  {
    ProtectedPathsAreRooted(path);
    var login, page := Url(LOGIN, Some(path)), Url(path, None);
    assert Guard(v, login, normalise) == Some(page);
    assert Follow(v, login, normalise, 3) == Follow(v, page, normalise, 2);
    LetsThroughExactlyTheAllowed(v, page, normalise);
    StopsWithinThree(v, login, normalise);
    if !Allowed(v, path) {
      HomesStayHome(v, page, normalise);
    }
  }
}
