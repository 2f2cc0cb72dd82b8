/**
 * The authentication store: the signed-in user, a loading flag, and the
 * stored Telegram identifier that the rest of the client (the navigation
 * guard, the request interceptor) reads.
 */
module Auth {
  import opened Wrappers
  import opened Strings
  import opened Entities
  import opened BrowserStorage
  import opened Api
  import opened Router

  class AuthStore {
    var user: Option<User>
    var isLoading: bool
    const storage: LocalStorage

    constructor (storage: LocalStorage)
      ensures user == None && !isLoading && this.storage == storage
    {
      user := None;
      isLoading := false;
      this.storage := storage;
    }

    /** `isAuthenticated`: a user record is held. */
    predicate IsAuthenticated()
      reads this
    {
      user.Some?
    }

    /**
     * `loadUser(telegramId)`; `response` answers `GET /api/users/check/{telegramId}/`.
     * On success the body (possibly null) becomes the user and the id is
     * stored; on failure nothing changes and the normalised error is rethrown.
     */
    method LoadUser(telegramId: string, response: Response<Option<User>>) returns (outcome: Result<(), Failure>)
      modifies this, storage
      ensures !isLoading
      ensures outcome.Ok? <==> response.Ok?
      ensures response.Ok? ==> (IsAuthenticated() <==> response.value.Some?)
      ensures response.Ok? ==> user == response.value && storage.items == old(storage.items)[TelegramIdKey := telegramId]
      ensures response.Err? ==>
        user == old(user) && storage.items == old(storage.items)
        && outcome == Err(HttpFailure(NormalizeError(response.error)))
    {
      isLoading := true;
      match Settle(response) {
        case Ok(userData) =>
          user := userData;
          storage.SetItem(TelegramIdKey, telegramId);
          outcome := Ok(());
        case Err(f) =>
          outcome := Err(f);
      }
      isLoading := false;
    }

    /** `logout`: forgets the user and the stored id. */
    method Logout()
      modifies this, storage
      ensures user == None && !IsAuthenticated()
      ensures storage.items == old(storage.items) - {TelegramIdKey}
      ensures isLoading == old(isLoading)
    {
      user := None;
      storage.RemoveItem(TelegramIdKey);
    }

    /**
     * `initAuth`: with a stored id, loads that user; a failed load logs out.
     * Without a stored id nothing happens.
     */
    method InitAuth(response: Response<Option<User>>)
      modifies this, storage
      ensures !Present(Lookup(old(storage.items), TelegramIdKey)) ==> unchanged(this) && unchanged(storage)
      ensures Present(Lookup(old(storage.items), TelegramIdKey)) && response.Ok? ==>
        user == response.value && storage.items == old(storage.items) && !isLoading
      ensures Present(Lookup(old(storage.items), TelegramIdKey)) && response.Err? ==>
        user == None && storage.items == old(storage.items) - {TelegramIdKey} && !isLoading
    {
      var telegramId := storage.GetItem(TelegramIdKey);
      if telegramId.Some? && telegramId.value != "" {
        var outcome := LoadUser(telegramId.value, response);
        if outcome.Err? {
          Logout();
        }
      }
    }

    /**
     * `handleAuthCallback`: with an id in the address, loads that user and
     * strips the query string. A failed load is not handled here: the user
     * and the stored id stay as they were.
     */
    method HandleAuthCallback(urlTelegramId: Option<string>, response: Response<Option<User>>) returns (urlCleaned: bool)
      modifies this, storage
      ensures urlCleaned == Present(urlTelegramId)
      ensures !Present(urlTelegramId) ==> unchanged(this) && unchanged(storage)
      ensures Present(urlTelegramId) && response.Ok? ==>
        user == response.value && storage.items == old(storage.items)[TelegramIdKey := urlTelegramId.value]
      ensures Present(urlTelegramId) && response.Err? ==> user == old(user) && storage.items == old(storage.items)
    {
      urlCleaned := false;
      if urlTelegramId.Some? && urlTelegramId.value != "" {
        var _ := LoadUser(urlTelegramId.value, response);
        urlCleaned := true;
      }
    }
  }

  /** After a logout, every page that requires an identity sends the user to the login page. */
  lemma LoggedOutGoesToLogin(items: map<string, string>, path: string)
    requires RequiresAuth(path)
    ensures GuardDecision(items - {TelegramIdKey}, None, NoHost, path) == RedirectTo(LoginPath)
  {
  }

  /**
   * After a successful load with a non-empty id, a protected page is let
   * through by the guard, even when the user body was null.
   */
  lemma LoadedIdOpensProtectedPages(items: map<string, string>, telegramId: string, path: string)
    requires telegramId != "" && RequiresAuth(path)
    ensures GuardDecision(items[TelegramIdKey := telegramId], None, NoHost, path) == Proceed
  {
    RouteTableFlags();
  }
}
