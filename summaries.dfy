/**
 * The summaries store shared by the summaries view: the posts of the
 * selected day grouped by channel, optionally narrowed to one channel. A load
 * asks the backend for a three-day window ending on the selected day and
 * keeps only the posts whose own date is that day.
 */
module Summaries {
  import opened Wrappers
  import opened Strings
  import opened Entities
  import opened Calendar
  import opened BrowserStorage
  import opened Api
  import opened AsyncCall

  // ---------------------------------------------------------------------
  // Filters
  // ---------------------------------------------------------------------

  /** A post belongs to the day when the part of its `posted_date` before any `T` is the day's string. */
  predicate PostOnDate(p: Post, date: string)
  {
    Present(p.postedDate) && Split(p.postedDate.value, 'T')[0] == date
  }

  /** The posts of the day, in their order. */
  function PostsOnDate(posts: seq<Post>, date: string): (r: seq<Post>)
    ensures |r| <= |posts|
    ensures forall p :: p in r <==> p in posts && PostOnDate(p, date)
  {
    if posts == [] then []
    else if PostOnDate(posts[0], date) then [posts[0]] + PostsOnDate(posts[1..], date)
    else PostsOnDate(posts[1..], date)
  }

  /** The day filter keeps the order of the posts: filtering a concatenation concatenates the filtered parts. */
  lemma {:induction false} PostsOnDateAppend(a: seq<Post>, b: seq<Post>, date: string)
    ensures PostsOnDate(a + b, date) == PostsOnDate(a, date) + PostsOnDate(b, date)
  {
    if a != [] {
      assert (a + b)[1..] == a[1..] + b;
      PostsOnDateAppend(a[1..], b, date);
    } else {
      assert a + b == b;
    }
  }

  /** Every group with its posts narrowed to the day (`{...group, posts: ...}`). */
  function RestrictToDate(groups: seq<PostGroup>, date: string): (r: seq<PostGroup>)
    ensures |r| == |groups|
    ensures forall i :: 0 <= i < |r| ==> r[i] == groups[i].(posts := PostsOnDate(groups[i].posts, date))
  {
    seq(|groups|, i requires 0 <= i < |groups| => groups[i].(posts := PostsOnDate(groups[i].posts, date)))
  }

  /** The groups of the day: narrowed to the day, then the groups left empty dropped. */
  function GroupsOnDate(groups: seq<PostGroup>, date: string): seq<PostGroup>
  {
    DropEmptyGroups(RestrictToDate(groups, date))
  }

  /**
   * A group is among the day's groups exactly when it is some input group
   * narrowed to the day and it still has posts.
   */
  lemma GroupsOnDateMembers(groups: seq<PostGroup>, date: string)
    ensures forall g :: g in GroupsOnDate(groups, date) <==>
      g.posts != [] && exists h :: h in groups && g == h.(posts := PostsOnDate(h.posts, date))
  {
    var restricted := RestrictToDate(groups, date);
    forall g | g in GroupsOnDate(groups, date)
      ensures exists h :: h in groups && g == h.(posts := PostsOnDate(h.posts, date))
    {
      var i :| 0 <= i < |restricted| && restricted[i] == g;
      assert groups[i] in groups;
    }
    forall h | h in groups && PostsOnDate(h.posts, date) != []
      ensures h.(posts := PostsOnDate(h.posts, date)) in GroupsOnDate(groups, date)
    {
      var i :| 0 <= i < |groups| && groups[i] == h;
      assert restricted[i] == h.(posts := PostsOnDate(h.posts, date));
    }
  }

  /** Narrowing to the day keeps the groups' order. */
  lemma GroupsOnDateAppend(a: seq<PostGroup>, b: seq<PostGroup>, date: string)
    ensures GroupsOnDate(a + b, date) == GroupsOnDate(a, date) + GroupsOnDate(b, date)
  {
    assert RestrictToDate(a + b, date) == RestrictToDate(a, date) + RestrictToDate(b, date);
    DropEmptyGroupsAppend(RestrictToDate(a, date), RestrictToDate(b, date));
  }

  /** The groups of one channel, in their order. */
  function GroupsOfChannel(groups: seq<PostGroup>, channelId: string): (r: seq<PostGroup>)
    ensures |r| <= |groups|
    ensures forall g :: g in r <==> g in groups && g.channelId == channelId
  {
    if groups == [] then []
    else if groups[0].channelId == channelId then [groups[0]] + GroupsOfChannel(groups[1..], channelId)
    else GroupsOfChannel(groups[1..], channelId)
  }

  /** The channel filter keeps the groups' order. */
  lemma {:induction false} GroupsOfChannelAppend(a: seq<PostGroup>, b: seq<PostGroup>, channelId: string)
    ensures GroupsOfChannel(a + b, channelId) == GroupsOfChannel(a, channelId) + GroupsOfChannel(b, channelId)
  {
    if a != [] {
      assert (a + b)[1..] == a[1..] + b;
      GroupsOfChannelAppend(a[1..], b, channelId);
    } else {
      assert a + b == b;
    }
  }

  /** `applyChannelFilter`'s result: every group when no channel is selected, else that channel's groups. */
  function ChannelFilter(all: seq<PostGroup>, selected: Option<string>): (r: seq<PostGroup>)
    ensures selected.None? ==> r == all
    ensures selected.Some? ==> forall g :: g in r <==> g in all && g.channelId == selected.value
  {
    if selected.None? then all else GroupsOfChannel(all, selected.value)
  }

  /** `applyChannelFilter` keeps the order of the loaded groups. */
  lemma ChannelFilterAppend(a: seq<PostGroup>, b: seq<PostGroup>, selected: Option<string>)
    ensures ChannelFilter(a + b, selected) == ChannelFilter(a, selected) + ChannelFilter(b, selected)
  {
    if selected.Some? {
      GroupsOfChannelAppend(a, b, selected.value);
    }
  }

  /** Filtering by a channel twice is filtering once. */
  lemma {:induction false} GroupsOfChannelIdempotent(groups: seq<PostGroup>, channelId: string)
    ensures GroupsOfChannel(GroupsOfChannel(groups, channelId), channelId) == GroupsOfChannel(groups, channelId)
  {
    if groups != [] {
      GroupsOfChannelIdempotent(groups[1..], channelId);
      if groups[0].channelId == channelId {
        var r := GroupsOfChannel(groups, channelId);
        assert r[0] == groups[0] && r[1..] == GroupsOfChannel(groups[1..], channelId);
      }
    }
  }

  /** Re-applying the channel filter to what it produced changes nothing. */
  lemma ChannelFilterIdempotent(all: seq<PostGroup>, selected: Option<string>)
    ensures ChannelFilter(ChannelFilter(all, selected), selected) == ChannelFilter(all, selected)
  {
    if selected.Some? {
      GroupsOfChannelIdempotent(all, selected.value);
    }
  }

  /** `allChannels.find(c => c.telegram_id === id)`: the first channel with that id. */
  function FindChannel(channels: seq<Channel>, id: string): (r: Option<Channel>)
    ensures r.Some? ==> r.value in channels && r.value.telegramId == id
    ensures r.None? <==> forall c :: c in channels ==> c.telegramId != id
    ensures channels != [] && channels[0].telegramId == id ==> r == Some(channels[0])
  {
    if channels == [] then None
    else if channels[0].telegramId == id then Some(channels[0])
    else FindChannel(channels[1..], id)
  }

  /** The channel found is at some position with no channel of that id before it. */
  lemma {:induction false} FindChannelFirst(channels: seq<Channel>, id: string)
    ensures FindChannel(channels, id).Some? ==>
      exists i :: 0 <= i < |channels| && channels[i] == FindChannel(channels, id).value
        && forall j :: 0 <= j < i ==> channels[j].telegramId != id
  {
    if channels != [] && channels[0].telegramId != id {
      var r := FindChannel(channels, id);
      FindChannelFirst(channels[1..], id);
      if r.Some? {
        var rest := channels[1..];
        var i :| 0 <= i < |rest| && rest[i] == r.value && forall j :: 0 <= j < i ==> rest[j].telegramId != id;
        assert channels[i + 1] == r.value;
        forall j | 0 <= j < i + 1
          ensures channels[j].telegramId != id
        {
          if j > 0 {
            assert channels[j] == rest[j - 1];
          }
        }
      }
    } else if channels != [] {
      assert channels[0] == FindChannel(channels, id).value;
    }
  }

  /** What a list shows after a load for `date`: non-empty groups of posts of that day only. */
  predicate ShowsOnly(groups: seq<PostGroup>, date: string)
  {
    forall g :: g in groups ==> g.posts != [] && forall p :: p in g.posts ==> PostOnDate(p, date)
  }

  lemma GroupsOnDateShowsOnly(groups: seq<PostGroup>, date: string)
    ensures ShowsOnly(GroupsOnDate(groups, date), date)
  {
    var restricted := RestrictToDate(groups, date);
    forall g | g in GroupsOnDate(groups, date)
      ensures forall p :: p in g.posts ==> PostOnDate(p, date)
    {
      var i :| 0 <= i < |restricted| && restricted[i] == g;
    }
  }

  lemma ChannelFilterShowsOnly(all: seq<PostGroup>, selected: Option<string>, date: string)
    requires ShowsOnly(all, date)
    ensures ShowsOnly(ChannelFilter(all, selected), date)
  {
  }

  // ---------------------------------------------------------------------
  // The display window
  // ---------------------------------------------------------------------

  /**
   * The window a load asks the backend for, as `(start, end)` day strings:
   * from two days before the selected day to the selected day, built with
   * local-time dates and formatted as `YYYY-MM-DD`. `None` when the day
   * string does not split into three numbers.
   */
  function SummaryWindow(date: string): (w: Option<(string, string)>)
    ensures w.Some? <==> ParseDayParts(date).Some?
  {
    match ParseDayParts(date)
    case None => None
    case Some((y, m, d)) =>
      var days := WindowDays(y, m, d);
      Some((LocalFormat(days.0), LocalFormat(days.1)))
  }

  /** For a real day from year 100 on, the window runs from the day two days earlier to the day itself. */
  lemma WindowOfDay(d: Date)
    requires Valid(d) && d.year >= 100
    ensures SummaryWindow(LocalFormat(d)) == Some((LocalFormat(PrevDay(PrevDay(d))), LocalFormat(d)))
  {
    ParseLocalFormat(d);
    WindowOfParts(LocalFormat(d), d.year, d.month, d.day);
    WindowOfValid(d);
  }

  lemma WindowOfParts(date: string, y: nat, m: nat, d: nat)
    requires ParseDayParts(date) == Some((y, m, d))
    ensures SummaryWindow(date) == Some((LocalFormat(WindowDays(y, m, d).0), LocalFormat(WindowDays(y, m, d).1)))
  {
  }

  /** The documented example: the window of 2024-03-01 starts on 2024-02-28 (a leap year). */
  lemma WindowAcrossMonthStart(d: Date, start: Date)
    requires d == Date(2024, 3, 1) && start == Date(2024, 2, 28)
    ensures SummaryWindow(LocalFormat(d)) == Some((LocalFormat(start), LocalFormat(d)))
  {
    TwoDaysBeforeMarchFirst(d, start);
    WindowOfDay(d);
  }

  lemma TwoDaysBeforeMarchFirst(d: Date, start: Date)
    requires d == Date(2024, 3, 1) && start == Date(2024, 2, 28)
    ensures Valid(d) && d.year >= 100 && PrevDay(PrevDay(d)) == start
  {
    assert DaysInMonth(2024, 2) == 29;
  }


  // ---------------------------------------------------------------------
  // What a load does
  // ---------------------------------------------------------------------

  /**
   * The backend's answers to the requests of one load: the channel list the
   * store asks for itself, the channel list that `getUserSummaries` asks for
   * on its own, and the posts requests. The two channel lists are separate
   * requests and need not agree.
   */
  datatype Backend = Backend(channelList: Response<ChannelsBody>, summaryChannels: Response<ChannelsBody>, posts: PostsEndpoint)

  /** The channel list as `loadSummaries` keeps it: the list, or empty when the request failed. */
  function ChannelsOrEmpty(channelsResponse: Response<ChannelsBody>): (cs: seq<Channel>)
    ensures channelsResponse.Err? ==> cs == []
    ensures channelsResponse.Ok? ==> cs == GetUserChannels(channelsResponse).value
  {
    match GetUserChannels(channelsResponse)
    case Ok(channels) => channels
    case Err(_) => []
  }

  /** The request a load sends through `execute`, with its outcome, if it gets that far. */
  datatype Fetch =
    | NoFetch
    | ChannelFetch(channel: Channel, posts: Result<seq<Post>, Failure>)
    | AllFetch(groups: Result<seq<PostGroup>, Failure>)

  /**
   * With a channel selected, that channel's posts for the window (no request
   * when the channel is not among the user's); otherwise the summaries of
   * every channel, which fetch the channel list again.
   */
  function LoadFetch(selected: Option<string>, channels: seq<Channel>, window: (string, string),
                     backend: Backend, storedId: Option<string>): Fetch
  {
    if Present(selected) then
      match FindChannel(channels, selected.value)
      case None => NoFetch
      case Some(ch) => ChannelFetch(ch, GetPostsByChannel(backend.posts, storedId, ch.telegramId, Some(window.0), Some(window.1)))
    else
      AllFetch(GetUserSummaries(backend.summaryChannels, backend.posts, storedId, window.0, window.1))
  }

  /** The group of the selected channel: present only when some post of the day came back. */
  function SelectedChannelGroups(channel: Channel, posts: Result<seq<Post>, Failure>, date: string): (r: seq<PostGroup>)
    ensures |r| <= 1
    ensures r != [] ==> r[0].channelId == channel.telegramId && r[0].posts != []
    ensures r != [] <==> posts.Ok? && PostsOnDate(posts.value, date) != []
    ensures r != [] ==> r == [PostGroup(channel.telegramId, channel.title, channel.username, PostsOnDate(posts.value, date))]
    ensures ShowsOnly(r, date)
  {
    match ValueOf(posts)
    case None => []
    case Some(ps) =>
      var onDate := PostsOnDate(ps, date);
      if |onDate| > 0 then [PostGroup(channel.telegramId, channel.title, channel.username, onDate)] else []
  }

  /** `(summaries, allSummaries)` after the request of a load has settled. */
  function LoadedLists(f: Fetch, selected: Option<string>, date: string): (seq<PostGroup>, seq<PostGroup>)
  {
    match f
    case NoFetch => ([], [])
    case ChannelFetch(ch, posts) =>
      var gs := SelectedChannelGroups(ch, posts, date);
      (gs, gs)
    case AllFetch(groups) =>
      match ValueOf(groups)
      case None => ([], [])
      case Some(data) =>
        var all := GroupsOnDate(data, date);
        (ChannelFilter(all, selected), all)
  }

  /** The store's state, as one value. */
  datatype SummariesView = SummariesView(
    summaries: seq<PostGroup>,
    allSummaries: seq<PostGroup>,
    selectedDate: string,
    selectedChannelId: Option<string>,
    allChannels: seq<Channel>)

  /** The request a load sends through `execute` once its window is known (none without a window). */
  function FetchIn(v: SummariesView, window: Option<(string, string)>, backend: Backend, storedId: Option<string>): Fetch
  {
    match window
    case None => NoFetch
    case Some(w) => LoadFetch(v.selectedChannelId, ChannelsOrEmpty(backend.channelList), w, backend, storedId)
  }

  /** The store after a load for `date` whose window is `window`: the lists are left alone without one. */
  function LoadIn(v: SummariesView, date: string, window: Option<(string, string)>, backend: Backend,
                  storedId: Option<string>): SummariesView
  {
    var v1 := v.(selectedDate := date, allChannels := ChannelsOrEmpty(backend.channelList));
    if window.None? then v1
    else
      var lists := LoadedLists(FetchIn(v, window, backend, storedId), v.selectedChannelId, date);
      v1.(summaries := lists.0, allSummaries := lists.1)
  }

  /** The request `loadSummaries(date)` sends through `execute`, given the state it starts from. */
  function PlannedFetch(v: SummariesView, date: string, backend: Backend, storedId: Option<string>): Fetch
  {
    FetchIn(v, SummaryWindow(date), backend, storedId)
  }

  /** The store after `loadSummaries(date)`. */
  function LoadEffect(v: SummariesView, date: string, backend: Backend, storedId: Option<string>): SummariesView
  {
    LoadIn(v, date, SummaryWindow(date), backend, storedId)
  }

  /** The error slot of the load's `execute` after the request settled. */
  function FetchError(f: Fetch): Option<ApiError>
  {
    match f
    case NoFetch => None
    case ChannelFetch(_, posts) => ErrorAfter(posts)
    case AllFetch(groups) => ErrorAfter(groups)
  }

  /**
   * The store after `setSelectedChannel(channelId)`: a reload for the
   * selected day when there is one and an id is stored; with no day
   * selected, only the channel filter is re-applied.
   */
  function SelectEffect(v: SummariesView, channelId: Option<string>, backend: Backend, storedId: Option<string>): SummariesView
  {
    var v1 := v.(selectedChannelId := channelId);
    if v.selectedDate != "" then
      if Present(storedId) then LoadEffect(v1, v.selectedDate, backend, storedId) else v1
    else
      v1.(summaries := ChannelFilter(v1.allSummaries, channelId))
  }

  // ---------------------------------------------------------------------
  // Properties of a load
  // ---------------------------------------------------------------------

  /**
   * After a load whose day string parses, both lists hold only non-empty
   * groups of posts dated that day; the day is recorded and the channel
   * selection is kept.
   */
  lemma LoadShowsOnlyDate(v: SummariesView, date: string, backend: Backend, storedId: Option<string>)
    requires SummaryWindow(date).Some?
    ensures var r := LoadEffect(v, date, backend, storedId);
      ShowsOnly(r.summaries, date) && ShowsOnly(r.allSummaries, date)
      && r.selectedDate == date && r.selectedChannelId == v.selectedChannelId
  {
    ListsShowOnly(PlannedFetch(v, date, backend, storedId), v.selectedChannelId, date);
  }

  /** Whatever the request returned, both lists built from it hold only non-empty groups of the day's posts. */
  lemma ListsShowOnly(f: Fetch, selected: Option<string>, date: string)
    ensures ShowsOnly(LoadedLists(f, selected, date).0, date) && ShowsOnly(LoadedLists(f, selected, date).1, date)
  {
    if f.AllFetch? && f.groups.Ok? {
      GroupsOnDateShowsOnly(f.groups.value, date);
      ChannelFilterShowsOnly(GroupsOnDate(f.groups.value, date), selected, date);
    }
  }

  /** A day string that does not split into three numbers leaves both lists as they were and sends no request. */
  lemma InvalidDateKeepsLists(v: SummariesView, date: string, backend: Backend, storedId: Option<string>)
    requires ParseDayParts(date).None?
    ensures var r := LoadEffect(v, date, backend, storedId);
      r.summaries == v.summaries && r.allSummaries == v.allSummaries
      && r.selectedDate == date && r.allChannels == ChannelsOrEmpty(backend.channelList)
    ensures PlannedFetch(v, date, backend, storedId) == NoFetch
  {
  }

  /**
   * With a channel selected, both lists end up equal and hold at most that
   * channel's group; a channel that is not among the user's empties both
   * without a request.
   */
  lemma SelectedChannelLoad(v: SummariesView, date: string, backend: Backend, storedId: Option<string>)
    requires SummaryWindow(date).Some? && Present(v.selectedChannelId)
    ensures var r := LoadEffect(v, date, backend, storedId);
      r.summaries == r.allSummaries && |r.summaries| <= 1
      && (r.summaries != [] ==> r.summaries[0].channelId == v.selectedChannelId.value)
    ensures FindChannel(ChannelsOrEmpty(backend.channelList), v.selectedChannelId.value).None? ==>
      var r := LoadEffect(v, date, backend, storedId);
      r.summaries == [] && r.allSummaries == [] && PlannedFetch(v, date, backend, storedId) == NoFetch
  {
  }

  /** Narrowing to a day and dropping empty groups keeps only groups of channels already present. */
  lemma GroupsOnDateChannels(groups: seq<PostGroup>, date: string)
    ensures forall g :: g in GroupsOnDate(groups, date) ==> exists h :: h in groups && h.channelId == g.channelId
  {
    var restricted := RestrictToDate(groups, date);
    forall g | g in GroupsOnDate(groups, date)
      ensures exists h :: h in groups && h.channelId == g.channelId
    {
      var i :| 0 <= i < |restricted| && restricted[i] == g;
      assert groups[i] in groups;
    }
  }

  /**
   * With no channel selected, the shown list is the whole list, and every
   * group in it belongs to one of the channels that `getUserSummaries`
   * listed; when its channel request answered as the store's own did, that
   * is one of the loaded channels.
   */
  lemma AllChannelsLoad(v: SummariesView, date: string, backend: Backend, storedId: Option<string>)
    requires SummaryWindow(date).Some? && v.selectedChannelId.None?
    ensures var r := LoadEffect(v, date, backend, storedId);
      r.summaries == r.allSummaries
      && forall g :: g in r.allSummaries ==>
        exists c :: c in ChannelsOrEmpty(backend.summaryChannels) && c.telegramId == g.channelId
    ensures backend.summaryChannels == backend.channelList ==>
      var r := LoadEffect(v, date, backend, storedId);
      forall g :: g in r.allSummaries ==> exists c :: c in r.allChannels && c.telegramId == g.channelId
  {
    AllChannelsLists(backend, storedId, SummaryWindow(date).value, date);
  }

  /** The lists an all-channels request yields: equal, and every group is one of the listed channels'. */
  lemma AllChannelsLists(backend: Backend, storedId: Option<string>, window: (string, string), date: string)
    ensures var lists := LoadedLists(AllFetch(GetUserSummaries(backend.summaryChannels, backend.posts, storedId, window.0, window.1)), None, date);
      lists.0 == lists.1
      && forall g :: g in lists.1 ==> exists c :: c in ChannelsOrEmpty(backend.summaryChannels) && c.telegramId == g.channelId
  {
    var outcome := GetUserSummaries(backend.summaryChannels, backend.posts, storedId, window.0, window.1);
    if outcome.Ok? {
      SummariesFromUserChannels(backend.summaryChannels, backend.posts, storedId, window.0, window.1);
      GroupsOnDateChannels(outcome.value, date);
    }
  }

  /**
   * With no channel selected and the summaries request answered with
   * `data`, the whole list holds exactly the returned groups that have posts
   * of the day, each narrowed to those posts, in the returned order.
   */
  lemma AllChannelsComplete(v: SummariesView, date: string, backend: Backend, storedId: Option<string>,
                            data: seq<PostGroup>)
    requires SummaryWindow(date).Some? && v.selectedChannelId.None?
    requires PlannedFetch(v, date, backend, storedId) == AllFetch(Ok(data))
    ensures var r := LoadEffect(v, date, backend, storedId);
      (forall g :: g in r.allSummaries <==>
        g.posts != [] && exists h :: h in data && g == h.(posts := PostsOnDate(h.posts, date)))
      && (forall a, b :: data == a + b ==> r.allSummaries == GroupsOnDate(a, date) + GroupsOnDate(b, date))
  {
    AllFetchLists(data, date);
  }

  lemma AllFetchLists(data: seq<PostGroup>, date: string)
    ensures var all := LoadedLists(AllFetch(Ok(data)), None, date).1;
      (forall g :: g in all <==> g.posts != [] && exists h :: h in data && g == h.(posts := PostsOnDate(h.posts, date)))
      && (forall a, b :: data == a + b ==> all == GroupsOnDate(a, date) + GroupsOnDate(b, date))
  {
    GroupsOnDateMembers(data, date);
    forall a, b | data == a + b
      ensures GroupsOnDate(data, date) == GroupsOnDate(a, date) + GroupsOnDate(b, date)
    {
      GroupsOnDateAppend(a, b, date);
    }
  }

  /** A failed request empties both lists. */
  lemma FailedLoadEmpties(v: SummariesView, date: string, backend: Backend, storedId: Option<string>)
    requires SummaryWindow(date).Some?
    requires FetchError(PlannedFetch(v, date, backend, storedId)).Some?
    ensures var r := LoadEffect(v, date, backend, storedId);
      r.summaries == [] && r.allSummaries == []
  {
    FailedFetchLists(PlannedFetch(v, date, backend, storedId), v.selectedChannelId, date);
  }

  lemma FailedFetchLists(f: Fetch, selected: Option<string>, date: string)
    requires FetchError(f).Some?
    ensures LoadedLists(f, selected, date) == ([], [])
  {
  }

  /** Choosing a channel with no day selected only re-filters what is loaded, without a request. */
  lemma SelectWithoutDate(v: SummariesView, channelId: Option<string>, backend: Backend, storedId: Option<string>)
    requires v.selectedDate == ""
    ensures var r := SelectEffect(v, channelId, backend, storedId);
      r.allSummaries == v.allSummaries && r.allChannels == v.allChannels
      && r.selectedChannelId == channelId && r.summaries == ChannelFilter(v.allSummaries, channelId)
  {
  }

  /** Choosing a channel with a day selected reloads that day under the new selection. */
  lemma SelectWithDate(v: SummariesView, channelId: Option<string>, backend: Backend, storedId: Option<string>)
    requires v.selectedDate != "" && Present(storedId) && SummaryWindow(v.selectedDate).Some?
    ensures var r := SelectEffect(v, channelId, backend, storedId);
      r.selectedChannelId == channelId && r.selectedDate == v.selectedDate
      && ShowsOnly(r.summaries, v.selectedDate) && ShowsOnly(r.allSummaries, v.selectedDate)
  {
    LoadShowsOnlyDate(v.(selectedChannelId := channelId), v.selectedDate, backend, storedId);
  }

  // ---------------------------------------------------------------------
  // The store
  // ---------------------------------------------------------------------

  class SummariesStore {
    var summaries: seq<PostGroup>
    var allSummaries: seq<PostGroup>
    var selectedDate: string
    var selectedChannelId: Option<string>
    var allChannels: seq<Channel>
    const storage: LocalStorage

    constructor (storage: LocalStorage)
      ensures Snapshot() == SummariesView([], [], "", None, []) && this.storage == storage
    {
      summaries := [];
      allSummaries := [];
      selectedDate := "";
      selectedChannelId := None;
      allChannels := [];
      this.storage := storage;
    }

    function Snapshot(): SummariesView
      reads this
    {
      SummariesView(summaries, allSummaries, selectedDate, selectedChannelId, allChannels)
    }

    /** `applyChannelFilter`. */
    method ApplyChannelFilter()
      modifies this
      ensures Snapshot() == old(Snapshot()).(summaries := ChannelFilter(old(allSummaries), old(selectedChannelId)))
    {
      if selectedChannelId.None? {
        summaries := allSummaries;
      } else {
        summaries := GroupsOfChannel(allSummaries, selectedChannelId.value);
      }
    }

    /** `loadSummaries(telegramId, date)`; `backend` answers the requests it sends. */
    method LoadSummaries(call: ApiCall, date: string, backend: Backend)
      modifies this, call
      ensures Snapshot() == LoadEffect(old(Snapshot()), date, backend, Lookup(storage.items, TelegramIdKey))
      ensures PlannedFetch(old(Snapshot()), date, backend, Lookup(storage.items, TelegramIdKey)) == NoFetch ==>
        unchanged(call)
      ensures PlannedFetch(old(Snapshot()), date, backend, Lookup(storage.items, TelegramIdKey)) != NoFetch ==>
        !call.loading
        && call.error == FetchError(PlannedFetch(old(Snapshot()), date, backend, Lookup(storage.items, TelegramIdKey)))
      ensures SummaryWindow(date).Some? ==> ShowsOnly(summaries, date) && ShowsOnly(allSummaries, date)
    {
      LoadInWindow(call, date, SummaryWindow(date), backend);
    }

    /** `loadSummaries` for a day whose window has been worked out as `window`. */
    method LoadInWindow(call: ApiCall, date: string, window: Option<(string, string)>, backend: Backend)
      modifies this, call
      ensures Snapshot() == LoadIn(old(Snapshot()), date, window, backend, Lookup(storage.items, TelegramIdKey))
      ensures FetchIn(old(Snapshot()), window, backend, Lookup(storage.items, TelegramIdKey)) == NoFetch ==>
        unchanged(call)
      ensures FetchIn(old(Snapshot()), window, backend, Lookup(storage.items, TelegramIdKey)) != NoFetch ==>
        !call.loading
        && call.error == FetchError(FetchIn(old(Snapshot()), window, backend, Lookup(storage.items, TelegramIdKey)))
      ensures window.Some? ==> ShowsOnly(summaries, date) && ShowsOnly(allSummaries, date)
    {
      ghost var before := Snapshot();
      selectedDate := date;
      var channels := GetUserChannels(backend.channelList);
      allChannels := if channels.Ok? then channels.value else [];
      if window.None? {
        return;
      }
      var storedId := storage.GetItem(TelegramIdKey);
      ghost var planned := FetchIn(before, window, backend, storedId);
      if selectedChannelId.Some? && selectedChannelId.value != "" {
        var channel := FindChannel(allChannels, selectedChannelId.value);
        if channel.Some? {
          LoadChannelPosts(call, channel.value, date, window.value, backend.posts, storedId);
        } else {
          summaries := [];
          allSummaries := [];
        }
      } else {
        LoadAllChannels(call, date, window.value, backend.summaryChannels, backend.posts, storedId);
      }
      assert (summaries, allSummaries) == LoadedLists(planned, before.selectedChannelId, date);
      ListsShowOnly(planned, before.selectedChannelId, date);
    }

    /** The selected-channel branch of `loadSummaries`, once the channel is found. */
    method LoadChannelPosts(call: ApiCall, ch: Channel, date: string, window: (string, string),
                            fetch: PostsEndpoint, storedId: Option<string>)
      modifies this, call
      ensures var outcome := GetPostsByChannel(fetch, storedId, ch.telegramId, Some(window.0), Some(window.1));
        summaries == allSummaries == SelectedChannelGroups(ch, outcome, date)
        && !call.loading && call.error == ErrorAfter(outcome)
      ensures selectedDate == old(selectedDate) && selectedChannelId == old(selectedChannelId)
        && allChannels == old(allChannels)
    {
      var posts := call.Execute(GetPostsByChannel(fetch, storedId, ch.telegramId, Some(window.0), Some(window.1)));
      if posts.Some? {
        var onDate := PostsOnDate(posts.value, date);
        if |onDate| > 0 {
          summaries := [PostGroup(ch.telegramId, ch.title, ch.username, onDate)];
          allSummaries := summaries;
        } else {
          summaries := [];
          allSummaries := [];
        }
      } else {
        summaries := [];
        allSummaries := [];
      }
    }

    /**
     * The all-channels branch of `loadSummaries`; `summaryChannels` answers
     * the channel request that `getUserSummaries` sends itself.
     */
    method LoadAllChannels(call: ApiCall, date: string, window: (string, string),
                           summaryChannels: Response<ChannelsBody>, fetch: PostsEndpoint, storedId: Option<string>)
      modifies this, call
      ensures var outcome := GetUserSummaries(summaryChannels, fetch, storedId, window.0, window.1);
        (summaries, allSummaries) == LoadedLists(AllFetch(outcome), selectedChannelId, date)
        && !call.loading && call.error == ErrorAfter(outcome)
      ensures selectedDate == old(selectedDate) && selectedChannelId == old(selectedChannelId)
        && allChannels == old(allChannels)
    {
      var data := call.Execute(GetUserSummaries(summaryChannels, fetch, storedId, window.0, window.1));
      if data.Some? {
        allSummaries := GroupsOnDate(data.value, date);
        ApplyChannelFilter();
      } else {
        allSummaries := [];
        summaries := [];
      }
    }

    /**
     * `setSelectedChannel(channelId)`; the reload it may trigger is answered
     * by `backend` and leaves the wrapper as `LoadSummaries` does.
     */
    method SetSelectedChannel(call: ApiCall, channelId: Option<string>, backend: Backend)
      modifies this, call
      ensures Snapshot() == SelectEffect(old(Snapshot()), channelId, backend, Lookup(storage.items, TelegramIdKey))
      ensures old(selectedDate) == "" || !Present(Lookup(storage.items, TelegramIdKey)) ==> unchanged(call)
      ensures old(selectedDate) != "" && Present(Lookup(storage.items, TelegramIdKey)) ==>
        var planned := PlannedFetch(old(Snapshot()).(selectedChannelId := channelId), old(selectedDate), backend,
                                    Lookup(storage.items, TelegramIdKey));
        (planned == NoFetch ==> unchanged(call))
        && (planned != NoFetch ==> !call.loading && call.error == FetchError(planned))
    {
      selectedChannelId := channelId;
      if selectedDate != "" {
        var telegramId := storage.GetItem(TelegramIdKey);
        if telegramId.Some? && telegramId.value != "" {
          LoadSummaries(call, selectedDate, backend);
        }
      } else {
        ApplyChannelFilter();
      }
    }
  }
}
