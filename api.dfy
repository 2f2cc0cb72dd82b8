/**
 * The HTTP service layer: the two interceptors every request passes through,
 * the endpoint operations with their per-endpoint error rules, the
 * per-channel aggregation of summaries, and the day-by-day expansion of a
 * breaking-news range.
 *
 * The backend is not modelled: each operation receives the answer of every
 * request it sends, either as a `Response` value (one request) or as an
 * endpoint function from the request's path argument and query parameters
 * to its answer (a fan-out of requests).
 */
module Api {
  import opened Wrappers
  import opened Strings
  import opened Entities
  import opened Calendar
  import opened BrowserStorage

  // ---------------------------------------------------------------------
  // Interceptors
  // ---------------------------------------------------------------------

  datatype HttpMethod = Get | Post

  /** Query parameters or a JSON body, as string fields. */
  type Fields = map<string, string>

  /**
   * The request interceptor's effect on a request's query parameters and
   * body: with a non-empty stored id, a GET that has a params object gets
   * `telegram_id` there; otherwise a request that has a body gets it there;
   * other requests go out as they are.
   */
  function WithIdentity(httpMethod: HttpMethod, params: Option<Fields>, data: Option<Fields>, storedId: Option<string>)
    : (r: (Option<Fields>, Option<Fields>))
    ensures r.0.Some? == params.Some? && r.1.Some? == data.Some?
    ensures r.0 == params || r.1 == data
    ensures !Present(storedId) ==> r == (params, data)
    ensures Present(storedId) && httpMethod == Get && params.Some? ==>
      Lookup(r.0.value, TelegramIdKey) == storedId && r.1 == data
    ensures Present(storedId) && !(httpMethod == Get && params.Some?) && data.Some? ==>
      Lookup(r.1.value, TelegramIdKey) == storedId && r.0 == params
    ensures r.0.Some? ==> forall k :: k != TelegramIdKey ==> Lookup(r.0.value, k) == Lookup(params.value, k)
    ensures r.1.Some? ==> forall k :: k != TelegramIdKey ==> Lookup(r.1.value, k) == Lookup(data.value, k)
  {
    if !Present(storedId) then (params, data)
    else if httpMethod == Get && params.Some? then (Some(params.value[TelegramIdKey := storedId.value]), data)
    else if data.Some? then (params, Some(data.value[TelegramIdKey := storedId.value]))
    else (params, data)
  }

  /** An outgoing request as the request interceptor sees it. */
  class RequestConfig {
    const httpMethod: HttpMethod
    var params: Option<Fields>
    var data: Option<Fields>

    constructor (httpMethod: HttpMethod, params: Option<Fields>, data: Option<Fields>)
      ensures this.httpMethod == httpMethod && this.params == params && this.data == data
    {
      this.httpMethod := httpMethod;
      this.params := params;
      this.data := data;
    }

    /** The request interceptor: reads the stored id and mutates the request in place. */
    method AttachIdentity(storage: LocalStorage)
      modifies this
      ensures (params, data) == WithIdentity(httpMethod, old(params), old(data), Lookup(storage.items, TelegramIdKey))
    {
      var telegramId := storage.GetItem(TelegramIdKey);
      if telegramId.Some? && telegramId.value != "" {
        if httpMethod == Get && params.Some? {
          params := Some(params.value[TelegramIdKey := telegramId.value]);
        } else if data.Some? {
          data := Some(data.value[TelegramIdKey := telegramId.value]);
        }
      }
    }
  }

  /** The query parameters a GET with params object `params` goes out with. */
  function QueryParams(params: Fields, storedId: Option<string>): (r: Fields)
    ensures Present(storedId) ==> Lookup(r, TelegramIdKey) == storedId
    ensures forall k :: k != TelegramIdKey ==> Lookup(r, k) == Lookup(params, k)
  {
    WithIdentity(Get, Some(params), None, storedId).0.value
  }

  /**
   * The response interceptor: every failed request is rejected with
   * `{error, status, message}`: the library's message or a default text, the
   * response status or 500 when there is none (or it is 0), and the server's
   * `error` field or else the library's message.
   */
  function NormalizeError(t: TransportError): (e: ApiError)
    ensures e.error != "" && e.status != 0 && e.message.Some?
    ensures t.message != "" ==> e.error == t.message
    ensures t.message == "" ==> e.error == DefaultErrorMessage
    ensures t.response.Some? && t.response.value.status == 0 ==> e.status == DefaultErrorStatus
    ensures t.response.None? ==> e.status == DefaultErrorStatus && e.message == Some(t.message)
    ensures t.response.Some? && t.response.value.status != 0 ==> e.status == t.response.value.status
    ensures t.response.Some? && Present(t.response.value.errorField) ==> e.message == t.response.value.errorField
    ensures !(t.response.Some? && Present(t.response.value.errorField)) ==> e.message == Some(t.message)
  {
    var status := if t.response.Some? && t.response.value.status != 0 then t.response.value.status else DefaultErrorStatus;
    var serverError := if t.response.Some? then t.response.value.errorField else None;
    ApiError(
      if t.message != "" then t.message else DefaultErrorMessage,
      status,
      if Present(serverError) then serverError else Some(t.message))
  }

  /**
   * A request after the response interceptor, as the service methods await
   * it: the body on success, the normalised error otherwise. `getUser`,
   * `getUserSubscription` and `getBreakingNewsByDate` return exactly this.
   */
  function Settle<T>(r: Response<T>): (out: Result<T, Failure>)
    ensures out.Ok? <==> r.Ok?
    ensures r.Ok? ==> out.value == r.value
    ensures r.Err? ==> out.error == HttpFailure(NormalizeError(r.error)) && out.error.apiError.status != 0
  {
    match r
    case Ok(body) => Ok(body)
    case Err(t) => Err(HttpFailure(NormalizeError(t)))
  }

  // ---------------------------------------------------------------------
  // User and subscription endpoints
  // ---------------------------------------------------------------------

  /**
   * `checkUserExists`: true when the lookup succeeds, false when it fails
   * with status 404, and the normalised error for every other failure.
   */
  function CheckUserExists(r: Response<Option<User>>): (out: Result<bool, Failure>)
    ensures out == Ok(true) <==> r.Ok?
    ensures out == Ok(false) <==> r.Err? && NormalizeError(r.error).status == 404
    ensures out.Err? <==> r.Err? && NormalizeError(r.error).status != 404
    ensures out.Err? ==> out.error == HttpFailure(NormalizeError(r.error))
  {
    match r
    case Ok(_) => Ok(true)
    case Err(t) =>
      var e := NormalizeError(t);
      if e.status == 404 then Ok(false) else Err(HttpFailure(e))
  }

  /** `notifyBotCacheUpdate`: a failed notification is swallowed. */
  function NotifyBotCacheUpdate(r: Response<()>): (out: Result<(), Failure>)
    ensures out == Ok(())
  {
    Ok(())
  }

  /**
   * `updateUserLanguage`, `updateUserTime` and `removeChannel`: the update
   * request, then the cache notification. The operation fails exactly when
   * the update fails, with the update's normalised error, and the
   * notification's answer never matters.
   */
  function UpdateThenNotify(update: Response<()>, notify: Response<()>): (out: Result<(), Failure>)
    ensures out.Ok? <==> update.Ok?
    ensures update.Err? ==> out == Err(HttpFailure(NormalizeError(update.error)))
  {
    match Settle(update)
    case Err(f) => Err(f)
    case Ok(_) => NotifyBotCacheUpdate(notify)
  }

  /** The notification cannot change the outcome of an update. */
  lemma NotificationIsIrrelevant(update: Response<()>, notify1: Response<()>, notify2: Response<()>)
    ensures UpdateThenNotify(update, notify1) == UpdateThenNotify(update, notify2)
  {
  }

  /** The body of the breaking-news access check: null, or an object whose flag may be missing. */
  datatype AccessBody = NullBody | AccessFlags(canAccessBreakingNews: Option<bool>)

  /**
   * `checkBreakingNewsAccess`: the flag, with a missing flag read as false;
   * a null body makes the field read throw.
   */
  function CheckBreakingNewsAccess(r: Response<AccessBody>): (out: Result<bool, Failure>)
    ensures out == Ok(true) <==> r.Ok? && r.value == AccessFlags(Some(true))
    ensures out == Ok(false) <==> r.Ok? && r.value.AccessFlags? && r.value.canAccessBreakingNews != Some(true)
    ensures r.Ok? && r.value.NullBody? ==> out.Err? && out.error.ScriptFailure?
    ensures r.Err? ==> out == Err(HttpFailure(NormalizeError(r.error)))
  {
    match Settle<AccessBody>(r)
    case Err(f) => Err(f)
    case Ok(NullBody) => Err(ScriptFailure("Cannot read properties of null (reading 'can_access_breaking_news')"))
    case Ok(AccessFlags(flag)) => Ok(flag == Some(true))
  }

  // ---------------------------------------------------------------------
  // Channels and posts
  // ---------------------------------------------------------------------

  /** The body of the channel list: an array of channels, or something else. */
  datatype ChannelsBody = ChannelArray(channels: seq<Channel>) | NotAnArray

  /** `getUserChannels`: the array, or an empty list for any other body. */
  function GetUserChannels(r: Response<ChannelsBody>): (out: Result<seq<Channel>, Failure>)
    ensures out.Ok? <==> r.Ok?
    ensures r.Ok? && r.value.ChannelArray? ==> out.value == r.value.channels
    ensures r.Ok? && r.value.NotAnArray? ==> out.value == []
    ensures r.Err? ==> out.error == HttpFailure(NormalizeError(r.error))
  {
    match Settle<ChannelsBody>(r)
    case Err(f) => Err(f)
    case Ok(ChannelArray(cs)) => Ok(cs)
    case Ok(NotAnArray) => Ok([])
  }

  /** The answer of `GET /api/posts/channel/{channelId}/` for the given query parameters: null or an array. */
  type PostsEndpoint = (string, Fields) -> Response<Option<seq<Post>>>

  const StartDateParam := "start_date"
  const EndDateParam := "end_date"

  /** The date filter of `getPostsByChannel`: a bound is sent only when it is a non-empty string. */
  function PostQueryParams(startDate: Option<string>, endDate: Option<string>): (m: Fields)
    ensures StartDateParam in m <==> Present(startDate)
    ensures EndDateParam in m <==> Present(endDate)
    ensures Present(startDate) ==> m[StartDateParam] == startDate.value
    ensures Present(endDate) ==> m[EndDateParam] == endDate.value
    ensures forall k :: k in m ==> k == StartDateParam || k == EndDateParam
  {
    var withStart: Fields := if Present(startDate) then map[StartDateParam := startDate.value] else map[];
    if Present(endDate) then withStart[EndDateParam := endDate.value] else withStart
  }

  /**
   * `getPostsByChannel`: an unfiltered probe request, then the filtered
   * request. Either failing fails the call; a null filtered body is an empty
   * list. The probe's body is only logged.
   */
  function GetPostsByChannel(fetch: PostsEndpoint, storedId: Option<string>, channelId: string,
                             startDate: Option<string>, endDate: Option<string>): (out: Result<seq<Post>, Failure>)
    ensures out.Ok? <==>
      fetch(channelId, QueryParams(map[], storedId)).Ok?
      && fetch(channelId, QueryParams(PostQueryParams(startDate, endDate), storedId)).Ok?
    ensures out.Ok? ==>
      var body := fetch(channelId, QueryParams(PostQueryParams(startDate, endDate), storedId)).value;
      out.value == if body.Some? then body.value else []
  {
    match Settle(fetch(channelId, QueryParams(map[], storedId)))
    case Err(f) => Err(f)
    case Ok(_) =>
      match Settle(fetch(channelId, QueryParams(PostQueryParams(startDate, endDate), storedId)))
      case Err(f) => Err(f)
      case Ok(body) => Ok(if body.Some? then body.value else [])
  }

  /** The group `getUserSummaries` builds for a channel from the outcome of its posts request. */
  function GroupFor(channel: Channel, posts: Result<seq<Post>, Failure>): (g: PostGroup)
    ensures g.channelId == channel.telegramId && g.channelTitle == channel.title && g.channelUsername == channel.username
    ensures g.posts == if posts.Ok? then posts.value else []
  {
    PostGroup(channel.telegramId, channel.title, channel.username, if posts.Ok? then posts.value else [])
  }

  /** One group per channel, in channel order; a channel whose posts request failed gets no posts. */
  function ChannelGroups(channels: seq<Channel>, fetch: PostsEndpoint, storedId: Option<string>,
                         startDate: string, endDate: string): (gs: seq<PostGroup>)
    ensures |gs| == |channels|
    ensures forall i :: 0 <= i < |gs| ==>
      gs[i] == GroupFor(channels[i], GetPostsByChannel(fetch, storedId, channels[i].telegramId, Some(startDate), Some(endDate)))
  {
    seq(|channels|, i requires 0 <= i < |channels| =>
      GroupFor(channels[i], GetPostsByChannel(fetch, storedId, channels[i].telegramId, Some(startDate), Some(endDate))))
  }

  /** `filter(group => group.posts.length > 0)`. */
  function DropEmptyGroups(gs: seq<PostGroup>): (r: seq<PostGroup>)
    ensures |r| <= |gs|
    ensures forall g :: g in r <==> g in gs && g.posts != []
  {
    if gs == [] then []
    else if gs[0].posts != [] then [gs[0]] + DropEmptyGroups(gs[1..])
    else DropEmptyGroups(gs[1..])
  }

  /** The filter keeps the groups in their order: it distributes over concatenation. */
  lemma {:induction false} DropEmptyGroupsAppend(a: seq<PostGroup>, b: seq<PostGroup>)
    ensures DropEmptyGroups(a + b) == DropEmptyGroups(a) + DropEmptyGroups(b)
  {
    if a != [] {
      assert (a + b)[1..] == a[1..] + b;
      DropEmptyGroupsAppend(a[1..], b);
    } else {
      assert a + b == b;
    }
  }

  /**
   * `getUserSummaries`: the user's channels, then every channel's posts for
   * the window, then only the groups that have posts. A failed channel list
   * fails the call; a failed channel only loses its posts.
   */
  function GetUserSummaries(channelsResponse: Response<ChannelsBody>, fetch: PostsEndpoint, storedId: Option<string>,
                            startDate: string, endDate: string): (out: Result<seq<PostGroup>, Failure>)
    ensures out.Ok? <==> channelsResponse.Ok?
    ensures out.Ok? ==> forall g :: g in out.value ==> g.posts != []
    ensures out.Ok? ==>
      out.value == DropEmptyGroups(ChannelGroups(GetUserChannels(channelsResponse).value, fetch, storedId, startDate, endDate))
  {
    match GetUserChannels(channelsResponse)
    case Err(f) => Err(f)
    case Ok(channels) =>
      if channels == [] then Ok([])
      else Ok(DropEmptyGroups(ChannelGroups(channels, fetch, storedId, startDate, endDate)))
  }

  /** Every group `getUserSummaries` returns belongs to one of the user's channels. */
  lemma SummariesFromUserChannels(channelsResponse: Response<ChannelsBody>, fetch: PostsEndpoint, storedId: Option<string>,
                                  startDate: string, endDate: string)
    requires channelsResponse.Ok?
    ensures forall g :: g in GetUserSummaries(channelsResponse, fetch, storedId, startDate, endDate).value ==>
      exists c :: c in GetUserChannels(channelsResponse).value && c.telegramId == g.channelId
  {
    var channels := GetUserChannels(channelsResponse).value;
    var gs := ChannelGroups(channels, fetch, storedId, startDate, endDate);
    forall g | g in GetUserSummaries(channelsResponse, fetch, storedId, startDate, endDate).value
      ensures exists c :: c in channels && c.telegramId == g.channelId
    {
      var i :| 0 <= i < |gs| && gs[i] == g;
      assert channels[i] in channels;
    }
  }

  /**
   * A channel whose posts request fails yields an empty group, and no group
   * of that channel survives the filter.
   */
  lemma FailedChannelDropped(channelsResponse: Response<ChannelsBody>, fetch: PostsEndpoint, storedId: Option<string>,
                             startDate: string, endDate: string, k: nat)
    requires channelsResponse.Ok?
    requires k < |GetUserChannels(channelsResponse).value|
    requires GetPostsByChannel(fetch, storedId, GetUserChannels(channelsResponse).value[k].telegramId,
                               Some(startDate), Some(endDate)).Err?
    ensures ChannelGroups(GetUserChannels(channelsResponse).value, fetch, storedId, startDate, endDate)[k].posts == []
    ensures forall g :: g in GetUserSummaries(channelsResponse, fetch, storedId, startDate, endDate).value ==>
      g.channelId != GetUserChannels(channelsResponse).value[k].telegramId
  {
    var channels := GetUserChannels(channelsResponse).value;
    var gs := ChannelGroups(channels, fetch, storedId, startDate, endDate);
    forall g | g in GetUserSummaries(channelsResponse, fetch, storedId, startDate, endDate).value
      ensures g.channelId != channels[k].telegramId
    {
      assert g in gs;
      var i :| 0 <= i < |gs| && gs[i] == g;
    }
  }

  // ---------------------------------------------------------------------
  // Breaking news
  // ---------------------------------------------------------------------

  /** A breaking-news body: null, or an array whose items may be null. */
  type NewsBody = Option<seq<Option<CollectedPost>>>

  /** The answer of `GET /api/important_collected_posts/` for the given query parameters. */
  type NewsEndpoint = Fields -> Response<NewsBody>

  const DateParam := "date"

  /** `getBreakingNewsByDate`: one request with the `date` parameter; the body as it came. */
  function GetBreakingNewsByDate(news: NewsEndpoint, storedId: Option<string>, date: string): (out: Result<NewsBody, Failure>)
    ensures out.Ok? <==> news(QueryParams(map[DateParam := date], storedId)).Ok?
    ensures out.Ok? ==> out.value == news(QueryParams(map[DateParam := date], storedId)).value
  {
    Settle(news(QueryParams(map[DateParam := date], storedId)))
  }

  /** The years of the days from `start` to `end` lie between theirs. */
  lemma DaysFromYears(start: Date, end: Date)
    requires Valid(start) && Valid(end)
    ensures forall i :: 0 <= i < |DaysFrom(start, end)| ==>
      start.year <= DaysFrom(start, end)[i].year <= end.year
  {
  }

  /** A run of days, each written out by `format`, in order. */
  function MapDays(format: Date --> string, days: seq<Date>): (r: seq<string>)
    requires forall i :: 0 <= i < |days| ==> format.requires(days[i])
    ensures |r| == |days|
    ensures r != [] ==> r[0] == format(days[0]) && r[|r| - 1] == format(days[|days| - 1])
  {
    if days == [] then [] else [format(days[0])] + MapDays(format, days[1..])
  }

  /** Each string is the formatted day at the same position. */
  lemma {:induction false} MapDaysAt(format: Date --> string, days: seq<Date>, i: nat)
    requires forall i :: 0 <= i < |days| ==> format.requires(days[i])
    requires i < |days|
    ensures MapDays(format, days)[i] == format(days[i])
  {
    if i > 0 {
      MapDaysAt(format, days[1..], i - 1);
    }
  }

  /** Appending a day appends its formatted string. */
  lemma {:induction false} MapDaysSnoc(format: Date --> string, days: seq<Date>, d: Date)
    requires forall i :: 0 <= i < |days| ==> format.requires(days[i])
    requires format.requires(d)
    ensures MapDays(format, days + [d]) == MapDays(format, days) + [format(d)]
  {
    if days != [] {
      assert (days + [d])[0] == days[0] && (days + [d])[1..] == days[1..] + [d];
      MapDaysSnoc(format, days[1..], d);
    }
  }

  /** The ISO day strings of the days from `start` to `end`, inclusive. */
  function IsoDaysBetween(start: Date, end: Date): (r: seq<string>)
    requires Valid(start) && Valid(end) && 0 <= start.year && end.year <= 9999
    ensures |r| == |DaysFrom(start, end)|
    ensures r != [] ==> r[0] == IsoDay(start) && r[|r| - 1] == IsoDay(end)
  {
    DaysFromYears(start, end);
    MapDays(IsoDay, DaysFrom(start, end))
  }

  /** Peeling the first day off a non-empty run. */
  lemma IsoDaysStep(d: Date, end: Date)
    requires Valid(d) && Valid(end) && 0 <= d.year && end.year <= 9999 && NotAfter(d, end)
    ensures IsoDaysBetween(d, end) == [IsoDay(d)] + IsoDaysBetween(NextDay(d), end)
  {
    var rest := DaysFrom(NextDay(d), end);
    assert DaysFrom(d, end) == [d] + rest;
    assert ([d] + rest)[1..] == rest;
    DaysFromYears(d, end);
  }

  /**
   * The dates `getDateRange` yields: every calendar day from the start to the
   * end inclusive as `YYYY-MM-DD`; nothing when either bound is not a valid
   * date-only ISO string or the start is after the end.
   */
  function DateRange(startDate: string, endDate: string): (dates: seq<string>)
    ensures dates != [] ==> ParseIsoDay(startDate).Some? && ParseIsoDay(endDate).Some?
    ensures dates != [] ==> dates[0] == startDate && dates[|dates| - 1] == endDate
    ensures ParseIsoDay(startDate).Some? && ParseIsoDay(endDate).Some? ==>
      (dates == [] <==> Before(ParseIsoDay(endDate).value, ParseIsoDay(startDate).value))
  {
    var start, end := ParseIsoDay(startDate), ParseIsoDay(endDate);
    if start.Some? && end.Some? then
      var dates := IsoDaysBetween(start.value, end.value);
      if dates != [] then
        IsoOfParsed(startDate);
        IsoOfParsed(endDate);
        dates
      else []
    else []
  }

  /**
   * For two real days written as ISO strings, the range is the ISO strings
   * of the consecutive days from the first to the second, inclusive.
   */
  lemma DateRangeOfDays(start: Date, end: Date)
    requires Valid(start) && Valid(end) && 0 <= start.year <= 9999 && 0 <= end.year <= 9999
    ensures DateRange(IsoDay(start), IsoDay(end)) == IsoDaysBetween(start, end)
  {
    ParseIsoDayRoundTrip(start);
    ParseIsoDayRoundTrip(end);
  }

  /** A string that parses as an ISO day is that day's ISO string. */
  lemma IsoOfParsed(s: string)
    requires ParseIsoDay(s).Some?
    ensures IsoDay(ParseIsoDay(s).value) == s
  {
    var parts := Split(s, '-');
    var d := ParseIsoDay(s).value;
    PadOfDigits(parts[0], 4);
    PadOfDigits(parts[1], 2);
    PadOfDigits(parts[2], 2);
    assert d == Date(DigitsValue(parts[0]), DigitsValue(parts[1]), DigitsValue(parts[2]));
    Join3(parts[0], parts[1], parts[2], '-');
    assert parts == [parts[0], parts[1], parts[2]];
    assert IsoDay(d) == parts[0] + ['-'] + parts[1] + ['-'] + parts[2];
  }

  /** A digit string of exactly `width` digits is the padded form of its value. */
  lemma {:induction false} PadOfDigits(s: string, width: nat)
    requires |s| == width && width >= 1 && AllDigits(s)
    ensures PadStart(DigitsValue(s), width) == s
  {
    DigitsValueBound(s);
    PadStartLength(DigitsValue(s), width);
    CanonicalDigits(PadStart(DigitsValue(s), width), s);
  }

  /**
   * `getDateRange`: walks a day cursor from the start while it is not after
   * the end, collecting each day's ISO string.
   */
  method GetDateRange(startDate: string, endDate: string) returns (dates: seq<string>)
    ensures dates == DateRange(startDate, endDate)
  {
    var start, end := ParseIsoDay(startDate), ParseIsoDay(endDate);
    if start.None? || end.None? {
      return [];
    }
    dates := CollectIsoDays(start.value, end.value);
    DateRangeOfParsed(startDate, endDate);
  }

  /** The loop of `getDateRange`: a day cursor from `start`, while it is not after `end`. */
  method CollectIsoDays(start: Date, end: Date) returns (dates: seq<string>)
    requires Valid(start) && Valid(end) && 0 <= start.year && end.year <= 9999
    ensures dates == IsoDaysBetween(start, end)
  {
    ghost var days := DaysFrom(start, end);
    DaysFromYears(start, end);
    dates := [];
    var d := start;
    while NotAfter(d, end)
      invariant Valid(d) && |dates| <= |days| && DaysFrom(d, end) == days[|dates|..]
      invariant dates == MapDays(IsoDay, days[..|dates|])
      decreases |days| - |dates|
    {
      CursorStep(IsoDay, days, |dates|, d, end);
      dates := dates + [IsoDay(d)];
      d := NextDay(d);
    }
    assert days[..|dates|] == days;
  }

  /**
   * One turn of the cursor loop: the cursor is the next day of the run, its
   * string extends the collected prefix and the rest of the run starts at
   * the following day.
   */
  lemma CursorStep(format: Date --> string, days: seq<Date>, k: nat, d: Date, end: Date)
    requires Valid(d) && Valid(end) && NotAfter(d, end)
    requires forall i :: 0 <= i < |days| ==> format.requires(days[i])
    requires k <= |days| && DaysFrom(d, end) == days[k..]
    ensures k < |days| && days[k] == d && format.requires(d)
    ensures DaysFrom(NextDay(d), end) == days[k + 1..]
    ensures MapDays(format, days[..k + 1]) == MapDays(format, days[..k]) + [format(d)]
  {
    DaysFromStep(d, end);
    assert days[k..][0] == days[k];
    assert days[..k + 1] == days[..k] + [d];
    assert days[k + 1..] == days[k..][1..];
    MapDaysSnoc(format, days[..k], d);
  }

  /** For two parseable bounds, the range is the ISO strings of the days between them. */
  lemma DateRangeOfParsed(startDate: string, endDate: string)
    requires ParseIsoDay(startDate).Some? && ParseIsoDay(endDate).Some?
    ensures DateRange(startDate, endDate) == IsoDaysBetween(ParseIsoDay(startDate).value, ParseIsoDay(endDate).value)
  {
  }

  /**
   * The per-day requests of a range, one per date in order; the first failure
   * in date order fails the whole batch.
   */
  function FetchDays(news: NewsEndpoint, storedId: Option<string>, dates: seq<string>)
    : (out: Result<seq<NewsBody>, Failure>)
    ensures out.Ok? <==> forall i :: 0 <= i < |dates| ==> GetBreakingNewsByDate(news, storedId, dates[i]).Ok?
    ensures out.Ok? ==> |out.value| == |dates|
    ensures out.Ok? ==> forall i :: 0 <= i < |dates| ==> out.value[i] == GetBreakingNewsByDate(news, storedId, dates[i]).value
    ensures out.Err? ==> exists i :: 0 <= i < |dates| && GetBreakingNewsByDate(news, storedId, dates[i]) == Err(out.error)
  {
    if dates == [] then Ok([])
    else
      match GetBreakingNewsByDate(news, storedId, dates[0])
      case Err(f) => Err(f)
      case Ok(body) =>
        var rest := FetchDays(news, storedId, dates[1..]);
        if rest.Err? then
          Err(rest.error)
        else
          Ok([body] + rest.value)
  }

  /** `filter(post => post !== null)` on one array. */
  function NonNull(items: seq<Option<CollectedPost>>): (r: seq<CollectedPost>)
    ensures |r| <= |items|
    ensures forall p :: p in r <==> Some(p) in items
  {
    if items == [] then []
    else if items[0].Some? then [items[0].value] + NonNull(items[1..])
    else NonNull(items[1..])
  }

  /** Dropping the nulls keeps the posts' order. */
  lemma {:induction false} NonNullAppend(a: seq<Option<CollectedPost>>, b: seq<Option<CollectedPost>>)
    ensures NonNull(a + b) == NonNull(a) + NonNull(b)
  {
    if a != [] {
      assert (a + b)[1..] == a[1..] + b;
      NonNullAppend(a[1..], b);
    } else {
      assert a + b == b;
    }
  }

  /** The non-null posts of one body; a null body contributes nothing. */
  function BodyPosts(body: NewsBody): seq<CollectedPost>
  {
    if body.Some? then NonNull(body.value) else []
  }

  /** `results.flat()` followed by dropping nulls: the bodies' posts, body after body. */
  function Collect(bodies: seq<NewsBody>): seq<CollectedPost>
  {
    if bodies == [] then [] else BodyPosts(bodies[0]) + Collect(bodies[1..])
  }

  /** A post is collected exactly when some body holds it. */
  lemma {:induction false} CollectMembers(bodies: seq<NewsBody>)
    ensures forall p :: p in Collect(bodies) <==> exists i :: 0 <= i < |bodies| && p in BodyPosts(bodies[i])
  {
    if bodies != [] {
      CollectMembers(bodies[1..]);
      assert Collect(bodies) == BodyPosts(bodies[0]) + Collect(bodies[1..]);
      forall p | p in Collect(bodies) ensures exists i :: 0 <= i < |bodies| && p in BodyPosts(bodies[i]) {
        if p !in BodyPosts(bodies[0]) {
          var j :| 0 <= j < |bodies[1..]| && p in BodyPosts(bodies[1..][j]);
          assert bodies[1..][j] == bodies[j + 1];
        }
      }
      forall p, i | 0 <= i < |bodies| && p in BodyPosts(bodies[i]) ensures p in Collect(bodies) {
        if i > 0 {
          assert bodies[1..][i - 1] == bodies[i];
        }
      }
    }
  }

  /** The collected posts keep the order of the bodies: collecting distributes over concatenation. */
  lemma {:induction false} CollectAppend(a: seq<NewsBody>, b: seq<NewsBody>)
    ensures Collect(a + b) == Collect(a) + Collect(b)
  {
    if a == [] {
      assert a + b == b;
    } else {
      assert (a + b)[1..] == a[1..] + b;
      CollectAppend(a[1..], b);
    }
  }

  /** The per-day requests for `dates`, then their non-null posts flattened in date order. */
  function CollectDays(news: NewsEndpoint, storedId: Option<string>, dates: seq<string>)
    : (out: Result<seq<CollectedPost>, Failure>)
    ensures out.Ok? <==> forall i :: 0 <= i < |dates| ==> GetBreakingNewsByDate(news, storedId, dates[i]).Ok?
    ensures dates == [] ==> out == Ok([])
  {
    match FetchDays(news, storedId, dates)
    case Err(f) => Err(f)
    case Ok(bodies) => Ok(Collect(bodies))
  }

  /** A post is collected exactly when some day's request returned it. */
  lemma CollectDaysContents(news: NewsEndpoint, storedId: Option<string>, dates: seq<string>)
    requires CollectDays(news, storedId, dates).Ok?
    ensures forall p :: p in CollectDays(news, storedId, dates).value <==>
      exists i :: 0 <= i < |dates| && p in BodyPosts(GetBreakingNewsByDate(news, storedId, dates[i]).value)
  {
    var bodies := FetchDays(news, storedId, dates).value;
    CollectMembers(bodies);
    assert forall i :: 0 <= i < |dates| ==> bodies[i] == GetBreakingNewsByDate(news, storedId, dates[i]).value;
  }

  /**
   * `getBreakingNewsRange`: one request per day of the range, all bodies
   * flattened in date order, nulls dropped; any failed day fails the call.
   */
  function GetBreakingNewsRange(news: NewsEndpoint, storedId: Option<string>, startDate: string, endDate: string)
    : (out: Result<seq<CollectedPost>, Failure>)
    ensures var dates := DateRange(startDate, endDate);
      out.Ok? <==> forall i :: 0 <= i < |dates| ==> GetBreakingNewsByDate(news, storedId, dates[i]).Ok?
    ensures DateRange(startDate, endDate) == [] ==> out == Ok([])
  {
    CollectDays(news, storedId, DateRange(startDate, endDate))
  }

  /** A post is in the range's result exactly when some day of the range returned it. */
  lemma RangeContents(news: NewsEndpoint, storedId: Option<string>, startDate: string, endDate: string)
    requires GetBreakingNewsRange(news, storedId, startDate, endDate).Ok?
    ensures var dates := DateRange(startDate, endDate);
      forall p :: p in GetBreakingNewsRange(news, storedId, startDate, endDate).value <==>
        exists i :: 0 <= i < |dates| && p in BodyPosts(GetBreakingNewsByDate(news, storedId, dates[i]).value)
  {
    CollectDaysContents(news, storedId, DateRange(startDate, endDate));
  }

  /** The documented example range expands to exactly three days. */
  lemma ExampleRangeDays(first: string, second: string, third: string)
    requires first == "2024-01-01" && second == "2024-01-02" && third == "2024-01-03"
    ensures DateRange(first, third) == [first, second, third]
  {
    var d1, d2, d3 := Date(2024, 1, 1), Date(2024, 1, 2), Date(2024, 1, 3);
    IsoExample(d1, first);
    IsoExample(d2, second);
    IsoExample(d3, third);
    DateRangeOfDays(d1, d3);
    ConsecutiveDays(d1, d2, d3);
  }

  /** Three consecutive days give a range of their three ISO strings. */
  lemma ConsecutiveDays(d1: Date, d2: Date, d3: Date)
    requires Valid(d1) && 0 <= d1.year && d3.year <= 9999
    requires d2 == NextDay(d1) && d3 == NextDay(d2)
    ensures IsoDaysBetween(d1, d3) == [IsoDay(d1), IsoDay(d2), IsoDay(d3)]
  {
    IsoDaysStep(d1, d3);
    IsoDaysStep(d2, d3);
    IsoDaysStep(d3, d3);
    assert DaysFrom(NextDay(d3), d3) == [];
  }

  /**
   * The documented example: the range 2024-01-01 to 2024-01-03 sends exactly
   * three per-day requests and concatenates their posts in date order.
   */
  lemma BreakingNewsRangeExample(news: NewsEndpoint, storedId: Option<string>, first: string, second: string, third: string)
    requires first == "2024-01-01" && second == "2024-01-02" && third == "2024-01-03"
    requires GetBreakingNewsByDate(news, storedId, first).Ok?
    requires GetBreakingNewsByDate(news, storedId, second).Ok?
    requires GetBreakingNewsByDate(news, storedId, third).Ok?
    ensures GetBreakingNewsRange(news, storedId, first, third)
      == Ok(BodyPosts(GetBreakingNewsByDate(news, storedId, first).value)
          + BodyPosts(GetBreakingNewsByDate(news, storedId, second).value)
          + BodyPosts(GetBreakingNewsByDate(news, storedId, third).value))
  {
    ExampleRangeDays(first, second, third);
    ThreeDayRange(news, storedId, first, second, third);
  }

  lemma ThreeDayRange(news: NewsEndpoint, storedId: Option<string>, a: string, b: string, c: string)
    requires GetBreakingNewsByDate(news, storedId, a).Ok?
    requires GetBreakingNewsByDate(news, storedId, b).Ok?
    requires GetBreakingNewsByDate(news, storedId, c).Ok?
    ensures CollectDays(news, storedId, [a, b, c])
      == Ok(BodyPosts(GetBreakingNewsByDate(news, storedId, a).value)
          + BodyPosts(GetBreakingNewsByDate(news, storedId, b).value)
          + BodyPosts(GetBreakingNewsByDate(news, storedId, c).value))
  {
    var days := [a, b, c];
    var bodies := FetchThree(news, storedId, days);
    CollectThree(bodies[0], bodies[1], bodies[2]);
  }

  lemma FetchThree(news: NewsEndpoint, storedId: Option<string>, days: seq<string>) returns (b: seq<NewsBody>)
    requires |days| == 3
    requires forall i :: 0 <= i < 3 ==> GetBreakingNewsByDate(news, storedId, days[i]).Ok?
    ensures |b| == 3 && FetchDays(news, storedId, days) == Ok([b[0], b[1], b[2]])
    ensures forall i :: 0 <= i < 3 ==> b[i] == GetBreakingNewsByDate(news, storedId, days[i]).value
  {
    b := FetchDays(news, storedId, days).value;
    assert b == [b[0], b[1], b[2]];
  }

  lemma CollectThree(b0: NewsBody, b1: NewsBody, b2: NewsBody)
    ensures Collect([b0, b1, b2]) == BodyPosts(b0) + BodyPosts(b1) + BodyPosts(b2)
  {
    assert [b0, b1, b2] == [b0] + [b1] + [b2];
    CollectAppend([b0] + [b1], [b2]);
    CollectAppend([b0], [b1]);
    CollectOne(b0);
    CollectOne(b1);
    CollectOne(b2);
  }

  lemma CollectOne(body: NewsBody)
    ensures Collect([body]) == BodyPosts(body)
  {
    assert [body][1..] == [];
  }

  /** The ISO string of a concrete day, spelled out. */
  lemma IsoExample(d: Date, s: string)
    requires Valid(d) && d.year == 2024 && 1 <= d.month <= 9 && 1 <= d.day <= 9
    requires s == "2024-0" + [DigitChar(d.month)] + "-0" + [DigitChar(d.day)]
    ensures IsoDay(d) == s
  {
    Year2024(d.year);
    OneDigitPad(d.month);
    OneDigitPad(d.day);
  }

  lemma Year2024(y: nat)
    requires y == 2024
    ensures PadStart(y, 4) == "2024"
  {
    assert NatToDecimal(2) == "2";
    assert NatToDecimal(20) == "20";
    assert NatToDecimal(202) == "202";
    assert NatToDecimal(y) == "2024";
  }

  lemma OneDigitPad(n: nat)
    requires 1 <= n <= 9
    ensures PadStart(n, 2) == "0" + [DigitChar(n)]
  {
    assert NatToDecimal(n) == [DigitChar(n)];
    assert Zeros(1) == "0";
  }
}
