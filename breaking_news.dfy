/**
 * The breaking-news store: whether the user may see breaking news, and the
 * news of a list of days keyed by day. Loading asks for access first when it
 * is not known to be granted, then fetches the days one after the other.
 */
module BreakingNews {
  import opened Wrappers
  import opened Entities
  import opened BrowserStorage
  import opened Api
  import opened AsyncCall

  /** The news array of one day as the store keeps it (items may be null). */
  type DayNews = seq<Option<CollectedPost>>

  /** `access || false`: granted only when the check came back true. */
  predicate AccessGranted(response: Response<AccessBody>)
  {
    ValueOf(CheckBreakingNewsAccess(response)) == Some(true)
  }

  /** Access is granted exactly when the body's flag is `true`. */
  lemma AccessGrantedIff(response: Response<AccessBody>)
    ensures AccessGranted(response) <==> response == Ok(AccessFlags(Some(true)))
  {
  }

  /**
   * The backend as the `i`-th per-day request of a load finds it; the days
   * are fetched one after the other, so a later request may be answered
   * differently from an earlier one for the same day.
   */
  type NewsOverTime = nat -> NewsEndpoint

  /** What the `i`-th day's request stores: its array when one came back, nothing for null or a failure. */
  function Fetched(news: NewsOverTime, storedId: Option<string>, dates: seq<string>, i: nat): Option<DayNews>
    requires i < |dates|
  {
    var outcome := GetBreakingNewsByDate(news(i), storedId, dates[i]);
    if outcome.Ok? && outcome.value.Some? then Some(outcome.value.value) else None
  }

  /** `newsByDate` after the first `n` days: each stored array under its day, a later one replacing an earlier one. */
  function NewsMap(news: NewsOverTime, storedId: Option<string>, dates: seq<string>, n: nat): map<string, DayNews>
    requires n <= |dates|
  {
    if n == 0 then map[]
    else
      var m := NewsMap(news, storedId, dates, n - 1);
      match Fetched(news, storedId, dates, n - 1)
      case Some(items) => m[dates[n - 1] := items]
      case None => m
  }

  /** A day is a key exactly when some request for it stored an array. */
  lemma {:induction false} NewsMapKeys(news: NewsOverTime, storedId: Option<string>, dates: seq<string>, n: nat)
    requires n <= |dates|
    ensures forall d :: d in NewsMap(news, storedId, dates, n) <==>
      exists i :: 0 <= i < n && dates[i] == d && Fetched(news, storedId, dates, i).Some?
  {
    if n > 0 {
      NewsMapKeys(news, storedId, dates, n - 1);
    }
  }

  /** Under each day sits the array of the last request for that day that stored one. */
  lemma {:induction false} NewsMapLastWins(news: NewsOverTime, storedId: Option<string>, dates: seq<string>, n: nat, i: nat)
    requires i < n <= |dates| && Fetched(news, storedId, dates, i).Some?
    requires forall j :: i < j < n && dates[j] == dates[i] ==> Fetched(news, storedId, dates, j).None?
    ensures dates[i] in NewsMap(news, storedId, dates, n)
    ensures NewsMap(news, storedId, dates, n)[dates[i]] == Fetched(news, storedId, dates, i).value
  {
    if i < n - 1 {
      NewsMapLastWins(news, storedId, dates, n - 1, i);
    }
  }

  class BreakingNewsStore {
    var breakingNews: map<string, DayNews>
    var hasAccess: bool
    const storage: LocalStorage

    constructor (storage: LocalStorage)
      ensures breakingNews == map[] && !hasAccess && this.storage == storage
    {
      breakingNews := map[];
      hasAccess := false;
      this.storage := storage;
    }

    /** `checkAccess`; `response` answers the access check. */
    method CheckAccess(call: ApiCall, response: Response<AccessBody>) returns (granted: bool)
      modifies this, call
      ensures granted == hasAccess == AccessGranted(response)
      ensures breakingNews == old(breakingNews)
      ensures !call.loading && call.error == ErrorAfter(CheckBreakingNewsAccess(response))
    {
      var access := call.Execute(CheckBreakingNewsAccess(response));
      hasAccess := access.Some? && access.value;
      granted := hasAccess;
    }

    /**
     * `loadBreakingNews(telegramId, dates)`: without access (after checking
     * when it was not yet granted) nothing is fetched and the news stay as
     * they were; with access, the news are replaced by the days' map.
     */
    method LoadBreakingNews(call: ApiCall, dates: seq<string>, accessResponse: Response<AccessBody>, news: NewsOverTime)
      modifies this, call
      ensures hasAccess == (old(hasAccess) || AccessGranted(accessResponse))
      ensures !hasAccess ==> breakingNews == old(breakingNews)
      ensures hasAccess ==> breakingNews == NewsMap(news, Lookup(storage.items, TelegramIdKey), dates, |dates|)
      ensures hasAccess && dates != [] ==>
        !call.loading
        && call.error == ErrorAfter(GetBreakingNewsByDate(news(|dates| - 1), Lookup(storage.items, TelegramIdKey), dates[|dates| - 1]))
      ensures old(hasAccess) && dates == [] ==> unchanged(call)
      ensures !hasAccess ==> !call.loading && call.error == ErrorAfter(CheckBreakingNewsAccess(accessResponse))
    {
      if !hasAccess {
        var _ := CheckAccess(call, accessResponse);
      }
      if !hasAccess {
        return;
      }
      var storedId := storage.GetItem(TelegramIdKey);
      var newsByDate: map<string, DayNews> := map[];
      for i := 0 to |dates|
        invariant newsByDate == NewsMap(news, storedId, dates, i)
        invariant i > 0 ==> !call.loading && call.error == ErrorAfter(GetBreakingNewsByDate(news(i - 1), storedId, dates[i - 1]))
        invariant i == 0 && old(hasAccess) ==> unchanged(call)
        invariant hasAccess
      {
        var dayNews := call.Execute(GetBreakingNewsByDate(news(i), storedId, dates[i]));
        if dayNews.Some? && dayNews.value.Some? {
          newsByDate := newsByDate[dates[i] := dayNews.value.value];
        }
      }
      breakingNews := newsByDate;
    }
  }
}
