/**
 * The profile store shared by the profile view: the cached user, their
 * subscription and their channel list, with the loads that refresh them, the
 * preference updates, channel removal and the two derived counters.
 */
module UserStore {
  import opened Wrappers
  import opened Entities
  import opened Api
  import opened AsyncCall

  /** The channel-limit shown when the subscription gives none (or gives 0). */
  const DefaultMaxChannels := 3

  /**
   * A cached record after a load through `execute`: replaced only by a
   * record that actually came back (a null body or a failure keeps the old one).
   */
  function AfterLoad<T>(current: Option<T>, loaded: Option<Option<T>>): (r: Option<T>)
    ensures r == current || (loaded.Some? && r == loaded.value)
    ensures loaded.Some? && loaded.value.Some? ==> r == loaded.value
    ensures current.Some? ==> r.Some?
  {
    if loaded.Some? && loaded.value.Some? then loaded.value else current
  }

  /** The cached channel list after a load: any list that came back replaces it, even an empty one. */
  function ChannelsAfterLoad(current: seq<Channel>, loaded: Option<seq<Channel>>): (r: seq<Channel>)
    ensures loaded.Some? ==> r == loaded.value
    ensures loaded.None? ==> r == current
  {
    if loaded.Some? then loaded.value else current
  }

  /** The documented case: a successful load of no channels clears the list. */
  lemma EmptyChannelListReplaces(current: seq<Channel>, response: Response<ChannelsBody>)
    requires response == Ok(ChannelArray([])) || response == Ok(NotAnArray)
    ensures ChannelsAfterLoad(current, ValueOf(GetUserChannels(response))) == []
  {
  }

  /** The cached user after `updateLanguage`: patched when one is cached, whatever the request did. */
  function WithLanguage(user: Option<User>, language: string): (r: Option<User>)
    ensures r.Some? <==> user.Some?
    ensures user.Some? ==> r.value.language == language && r.value == user.value.(language := language)
  {
    if user.Some? then Some(user.value.(language := language)) else None
  }

  /** The cached user after `updateTime`: patched when one is cached, whatever the request did. */
  function WithHour(user: Option<User>, hour: string): (r: Option<User>)
    ensures r.Some? <==> user.Some?
    ensures user.Some? ==> r.value.hour == Some(hour) && r.value == user.value.(hour := Some(hour))
  {
    if user.Some? then Some(user.value.(hour := Some(hour))) else None
  }

  class ProfileStore {
    var user: Option<User>
    var subscription: Option<SubscriptionInfo>
    var channels: seq<Channel>

    constructor ()
      ensures user == None && subscription == None && channels == []
    {
      user := None;
      subscription := None;
      channels := [];
    }

    /** `channelCount`: the subscription's channel count; 0 without a subscription or a count. */
    function ChannelCount(): (n: int)
      reads this
      ensures subscription.None? ==> n == 0
      ensures n == 0 || subscription.value.currentChannelCount == Some(n)
      ensures subscription.Some? && subscription.value.currentChannelCount.Some? ==>
        n == subscription.value.currentChannelCount.value
    {
      if subscription.Some? && subscription.value.currentChannelCount.Some? then subscription.value.currentChannelCount.value
      else 0
    }

    /** `maxChannels`: the subscription's limit; 3 without a subscription, without a limit, or with 0. */
    function MaxChannels(): (n: int)
      reads this
      ensures n != 0
      ensures subscription.None? ==> n == DefaultMaxChannels
      ensures n == DefaultMaxChannels || subscription.value.maxChannels == Some(n)
      ensures subscription.Some? && subscription.value.maxChannels.Some? && subscription.value.maxChannels.value != 0 ==>
        n == subscription.value.maxChannels.value
    {
      if subscription.Some? && subscription.value.maxChannels.Some? && subscription.value.maxChannels.value != 0
      then subscription.value.maxChannels.value
      else DefaultMaxChannels
    }

    /** `loadUser`; `response` answers `GET /api/users/check/{telegramId}/`. */
    method LoadUser(call: ApiCall, response: Response<Option<User>>)
      modifies this, call
      ensures user == AfterLoad(old(user), ValueOf(Settle(response)))
      ensures subscription == old(subscription) && channels == old(channels)
      ensures !call.loading && call.error == ErrorAfter(Settle(response))
    {
      var userData := call.Execute(Settle(response));
      if userData.Some? && userData.value.Some? {
        user := userData.value;
      }
    }

    /** `loadSubscription`; `response` answers the subscription request. */
    method LoadSubscription(call: ApiCall, response: Response<Option<SubscriptionInfo>>)
      modifies this, call
      ensures subscription == AfterLoad(old(subscription), ValueOf(Settle(response)))
      ensures user == old(user) && channels == old(channels)
      ensures !call.loading && call.error == ErrorAfter(Settle(response))
    {
      var subscriptionData := call.Execute(Settle(response));
      if subscriptionData.Some? && subscriptionData.value.Some? {
        subscription := subscriptionData.value;
      }
    }

    /** `loadChannels`; `response` answers the channel-list request. */
    method LoadChannels(call: ApiCall, response: Response<ChannelsBody>)
      modifies this, call
      ensures channels == ChannelsAfterLoad(old(channels), ValueOf(GetUserChannels(response)))
      ensures user == old(user) && subscription == old(subscription)
      ensures !call.loading && call.error == ErrorAfter(GetUserChannels(response))
    {
      var channelsData := call.Execute(GetUserChannels(response));
      if channelsData.Some? {
        channels := channelsData.value;
      }
    }

    /**
     * `updateLanguage`: the update request and its cache notification, then
     * the cached user's language is set, even when the request failed.
     */
    method UpdateLanguage(call: ApiCall, language: string, update: Response<()>, notify: Response<()>)
      modifies this, call
      ensures user == WithLanguage(old(user), language)
      ensures subscription == old(subscription) && channels == old(channels)
      ensures !call.loading && call.error == ErrorAfter(UpdateThenNotify(update, notify))
    {
      var _ := call.Execute(UpdateThenNotify(update, notify));
      if user.Some? {
        user := Some(user.value.(language := language));
      }
    }

    /** `updateTime`: as `updateLanguage`, for the delivery hour. */
    method UpdateTime(call: ApiCall, hour: string, update: Response<()>, notify: Response<()>)
      modifies this, call
      ensures user == WithHour(old(user), hour)
      ensures subscription == old(subscription) && channels == old(channels)
      ensures !call.loading && call.error == ErrorAfter(UpdateThenNotify(update, notify))
    {
      var _ := call.Execute(UpdateThenNotify(update, notify));
      if user.Some? {
        user := Some(user.value.(hour := Some(hour)));
      }
    }

    /**
     * `removeChannel`: the removal (with its notification), then a reload of
     * the channels and of the subscription, whatever the removal did. Each
     * step clears the error slot, so the slot ends with the subscription
     * load's error only.
     */
    method RemoveChannel(call: ApiCall, remove: Response<()>, notify: Response<()>,
                         channelsResponse: Response<ChannelsBody>, subscriptionResponse: Response<Option<SubscriptionInfo>>)
      modifies this, call
      ensures channels == ChannelsAfterLoad(old(channels), ValueOf(GetUserChannels(channelsResponse)))
      ensures subscription == AfterLoad(old(subscription), ValueOf(Settle(subscriptionResponse)))
      ensures user == old(user)
      ensures !call.loading && call.error == ErrorAfter(Settle(subscriptionResponse))
    {
      var _ := call.Execute(UpdateThenNotify(remove, notify));
      LoadChannels(call, channelsResponse);
      LoadSubscription(call, subscriptionResponse);
    }
  }

  /** A failed removal is no longer reported once the subscription reload succeeds. */
  method RemovalErrorOverwritten(store: ProfileStore, call: ApiCall, remove: Response<()>, notify: Response<()>,
                                 channelsResponse: Response<ChannelsBody>, subscriptionResponse: Response<Option<SubscriptionInfo>>)
    requires remove.Err? && subscriptionResponse.Ok?
    modifies store, call
    ensures call.error == None
  {
    store.RemoveChannel(call, remove, notify, channelsResponse, subscriptionResponse);
  }
}
