/**
 * The records the client exchanges with its backend, and the shapes its
 * failures take. Fields the core never reads are kept where they name what
 * the record is; JavaScript `null` is `None`.
 */
module Entities {
  import opened Wrappers

  datatype User = User(
    id: string,
    telegramId: string,
    username: Option<string>,
    name: Option<string>,
    phoneNumber: Option<string>,
    language: string,
    hour: Option<string>,
    dateJoined: string)

  /**
   * What the client reads of a subscription: the capability flags and the
   * channel counters. A counter the backend leaves out is `None`.
   */
  datatype SubscriptionInfo = SubscriptionInfo(
    planId: Option<string>,
    subscriptionActive: bool,
    trialActive: bool,
    canAccessBreakingNews: bool,
    canUseAiChat: bool,
    canAddChannels: bool,
    currentChannelCount: Option<int>,
    maxChannels: Option<int>)

  datatype Channel = Channel(telegramId: string, title: string, username: Option<string>)

  datatype Post = Post(
    id: string,
    created: string,
    postedDate: Option<string>,
    link: string,
    text: Option<string>,
    title: Option<string>,
    summary: Option<string>,
    channelId: string)

  /** A breaking-news item: a shape of its own, not a `Post`. */
  datatype CollectedPost = CollectedPost(
    telegramId: string,
    sourceChannel: string,
    title: string,
    link: string,
    text: string,
    summary: string,
    category: string,
    importanceScore: int,
    postedDate: string)

  /** The posts of one channel for a display window. */
  datatype PostGroup = PostGroup(
    channelId: string,
    channelTitle: string,
    channelUsername: Option<string>,
    posts: seq<Post>)

  /** The texts and status an error record falls back to when the failure carries none. */
  const DefaultErrorMessage := "An error occurred"
  const DefaultErrorStatus := 500

  /** The normalised error record: `error`, `status` and an optional `message`. */
  datatype ApiError = ApiError(error: string, status: int, message: Option<string>)

  /** The HTTP response that came with a failed request, when there was one. */
  datatype ErrorResponse = ErrorResponse(status: int, errorField: Option<string>)

  /** A failed request as the HTTP library reports it, before normalisation. */
  datatype TransportError = TransportError(message: string, response: Option<ErrorResponse>)

  /** The answer of one backend endpoint: a response body, or a transport failure. */
  type Response<T> = Result<T, TransportError>

  /**
   * What a service operation can throw: the normalised HTTP error, or a
   * script error (a `TypeError` from reading a field of a null body).
   */
  datatype Failure = HttpFailure(apiError: ApiError) | ScriptFailure(message: string)
}
