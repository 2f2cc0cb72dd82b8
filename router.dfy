/**
 * The route table's authentication flags and the navigation guard that runs
 * before every navigation: it takes an identity from a deep link or from the
 * Telegram host runtime, persists it, and decides whether the navigation
 * proceeds or is redirected.
 */
module Router {
  import opened Wrappers
  import opened Strings
  import opened BrowserStorage

  const RootPath := "/"
  const LoginPath := "/login"
  const RegistrationRequiredPath := "/registration-required"
  const LandingPath := "/app/summaries"

  /**
   * A route as the guard sees it: its full path and its `meta.requiresAuth`
   * (`None` when the record has no meta). Children of `/app` appear with
   * their full paths and carry the flag they inherit from `/app`.
   */
  datatype RouteRecord = RouteRecord(path: string, requiresAuth: Option<bool>)

  const Routes: seq<RouteRecord> := [
    RouteRecord(RootPath, None),
    RouteRecord(LoginPath, Some(false)),
    RouteRecord(RegistrationRequiredPath, Some(false)),
    RouteRecord("/app", Some(true)),
    RouteRecord("/app/profile", Some(true)),
    RouteRecord(LandingPath, Some(true)),
    RouteRecord("/app/breaking-news", Some(true))
  ]

  /** `to.meta.requiresAuth` of the first route whose path is `path`; `None` if none matches. */
  function RouteMeta(routes: seq<RouteRecord>, path: string): Option<bool>
  {
    if routes == [] then None
    else if routes[0].path == path then routes[0].requiresAuth
    else RouteMeta(routes[1..], path)
  }

  /** Truthiness of `to.meta.requiresAuth`. */
  predicate RequiresAuth(path: string)
  {
    RouteMeta(Routes, path) == Some(true)
  }

  lemma {:induction false} RouteMetaAt(routes: seq<RouteRecord>, path: string, i: nat)
    requires i < |routes| && routes[i].path == path
    requires forall j :: 0 <= j < i ==> routes[j].path != path
    ensures RouteMeta(routes, path) == routes[i].requiresAuth
  {
    if i > 0 {
      RouteMetaAt(routes[1..], path, i - 1);
    }
  }

  /** The `/app` pages require an identity; login, registration-required and the root do not. */
  lemma RouteTableFlags()
    ensures RequiresAuth("/app/profile") && RequiresAuth(LandingPath) && RequiresAuth("/app/breaking-news")
    ensures !RequiresAuth(LoginPath) && !RequiresAuth(RegistrationRequiredPath) && !RequiresAuth(RootPath)
  {
    RouteMetaAt(Routes, RootPath, 0);
    RouteMetaAt(Routes, LoginPath, 1);
    RouteMetaAt(Routes, RegistrationRequiredPath, 2);
    RouteMetaAt(Routes, "/app/profile", 4);
    RouteMetaAt(Routes, LandingPath, 5);
    RouteMetaAt(Routes, "/app/breaking-news", 6);
  }

  /** What the guard passes to `next`: nothing, or a path to go to instead. */
  datatype NavigationResult = Proceed | RedirectTo(path: string)

  /** The Telegram user the host runtime exposes; its numeric id is stored as `String(id)`. */
  datatype HostUser = HostUser(id: int)

  /** Whether the page runs inside the Telegram host runtime, and with which user, if any. */
  datatype HostRuntime = NoHost | TelegramHost(user: Option<HostUser>)

  /** The storage after the guard's writes: the deep-link id, else the host user's id. */
  function GuardStorage(items: map<string, string>, urlTelegramId: Option<string>, host: HostRuntime): map<string, string>
  {
    if Present(urlTelegramId) then items[TelegramIdKey := urlTelegramId.value]
    else match host
      case TelegramHost(Some(u)) => items[TelegramIdKey := IntToDecimal(u.id)]
      case _ => items
  }

  /** The normal auth check on the stored id, the target's flag and the target's path. */
  function Decide(storedId: Option<string>, requiresAuth: bool, path: string): NavigationResult
  {
    if requiresAuth && !Present(storedId) then RedirectTo(LoginPath)
    else if !requiresAuth && Present(storedId) && (path == LoginPath || path == RootPath) then RedirectTo(LandingPath)
    else if path == RootPath then RedirectTo(LandingPath)
    else Proceed
  }

  /** The guard's answer, given the storage it starts from. */
  function GuardDecision(items: map<string, string>, urlTelegramId: Option<string>, host: HostRuntime, path: string): NavigationResult
  {
    if Present(urlTelegramId) then RedirectTo(LandingPath)
    else Decide(Lookup(GuardStorage(items, urlTelegramId, host), TelegramIdKey), RequiresAuth(path), path)
  }

  /**
   * `router.beforeEach`: writes the identity, reports whether the query
   * string is stripped from the address bar, and returns what `next` receives.
   */
  method BeforeEach(storage: LocalStorage, urlTelegramId: Option<string>, host: HostRuntime, path: string)
    returns (result: NavigationResult, urlCleaned: bool)
    modifies storage
    ensures storage.items == GuardStorage(old(storage.items), urlTelegramId, host)
    ensures result == GuardDecision(old(storage.items), urlTelegramId, host, path)
    ensures urlCleaned == Present(urlTelegramId)
  {
    if urlTelegramId.Some? && urlTelegramId.value != "" {
      storage.SetItem(TelegramIdKey, urlTelegramId.value);
      urlCleaned := true;
      result := RedirectTo(LandingPath);
      return;
    }
    urlCleaned := false;
    if host.TelegramHost? && host.user.Some? {
      storage.SetItem(TelegramIdKey, IntToDecimal(host.user.value.id));
    }
    var telegramId := storage.GetItem(TelegramIdKey);
    var requiresAuth := RequiresAuth(path);
    if requiresAuth && !Present(telegramId) {
      result := RedirectTo(LoginPath);
    } else if !requiresAuth && Present(telegramId) && (path == LoginPath || path == RootPath) {
      result := RedirectTo(LandingPath);
    } else if path == RootPath {
      result := RedirectTo(LandingPath);
    } else {
      result := Proceed;
    }
  }

  /** A deep-link id is stored and the navigation goes to the landing page, whatever the target. */
  lemma DeepLinkGoesToLanding(items: map<string, string>, urlTelegramId: Option<string>, host: HostRuntime, path: string)
    requires Present(urlTelegramId)
    ensures GuardDecision(items, urlTelegramId, host, path) == RedirectTo(LandingPath)
    ensures Lookup(GuardStorage(items, urlTelegramId, host), TelegramIdKey) == urlTelegramId
  {
  }

  /** Inside the host runtime with a user and no deep link, the stored id becomes `String(user.id)`. */
  lemma HostUserIsStored(items: map<string, string>, host: HostRuntime, path: string)
    requires host.TelegramHost? && host.user.Some?
    ensures Lookup(GuardStorage(items, None, host), TelegramIdKey) == Some(IntToDecimal(host.user.value.id))
    ensures GuardDecision(items, None, host, path) == Decide(Some(IntToDecimal(host.user.value.id)), RequiresAuth(path), path)
  {
  }

  /** The guard never removes the stored id and touches no other key. */
  lemma GuardKeepsStoredId(items: map<string, string>, urlTelegramId: Option<string>, host: HostRuntime)
    ensures TelegramIdKey in items ==> TelegramIdKey in GuardStorage(items, urlTelegramId, host)
    ensures forall k :: k != TelegramIdKey ==>
      Lookup(GuardStorage(items, urlTelegramId, host), k) == Lookup(items, k)
  {
  }

  /** With an id already stored, the guard never sends the user to the login page. */
  lemma NoLoginWithStoredId(items: map<string, string>, urlTelegramId: Option<string>, host: HostRuntime, path: string)
    requires Present(Lookup(items, TelegramIdKey))
    ensures GuardDecision(items, urlTelegramId, host, path) != RedirectTo(LoginPath)
  {
  }

  /** When `Decide` lets a navigation through, and when it sends it to login or to the landing page. */
  lemma DecideCases(storedId: Option<string>, requiresAuth: bool, path: string)
    ensures Decide(storedId, requiresAuth, path) == RedirectTo(LoginPath) <==> requiresAuth && !Present(storedId)
    ensures Decide(storedId, requiresAuth, path) == Proceed <==>
      (requiresAuth ==> Present(storedId)) && path != RootPath && !(!requiresAuth && Present(storedId) && path == LoginPath)
    ensures Decide(storedId, requiresAuth, path) in {Proceed, RedirectTo(LoginPath), RedirectTo(LandingPath)}
  {
  }

  /** The documented scenarios: a protected page with no identity, login with one, registration-required with one. */
  lemma GuardExamples(items: map<string, string>)
    requires Present(Lookup(items, TelegramIdKey))
    ensures GuardDecision(map[], None, NoHost, LandingPath) == RedirectTo(LoginPath)
    ensures GuardDecision(items, None, NoHost, LoginPath) == RedirectTo(LandingPath)
    ensures GuardDecision(items, None, NoHost, RegistrationRequiredPath) == Proceed
  {
    RouteTableFlags();
  }
}
