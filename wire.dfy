/** Response shapes of the chat service's HTTP API and the outcome of a remote call.

    Every network call of the client is replaced by a value of `Remote<T>`: `Done(v)`
    when the call returned the response `v`, `Failed(detail)` when it threw (a non-2xx
    status, a transport error or a body that did not parse), `detail` being the
    message of the thrown error. JSON field names are given in the comments. */
module Wire {

  datatype Option<+T> = None | Some(value: T) {
    /** `x ?? d` */
    function GetOr(default: T): T {
      match this
      case Some(v) => v
      case None => default
    }
  }

  datatype Remote<+T> = Done(value: T) | Failed(detail: string)

  /** JavaScript truthiness of an optional string: present and not empty. */
  predicate Truthy(s: Option<string>) {
    s.Some? && s.value != ""
  }

  /** JavaScript truthiness of an optional number: present and not zero. */
  predicate TruthyNumber(n: Option<int>) {
    n.Some? && n.value != 0
  }

  /** A chat message: `hunter` is the sender, `time` unix seconds. */
  datatype Message = Message(
    hunter: string,
    message: string,
    time: int,
    seen: int,
    random: int,
    thumb: Option<string>)

  /** `notifier_data` of a poll response. */
  datatype NotifierData = NotifierData(partner: string)

  /** Response of `/random/poll`: `messages`, `messageshash`, `partner_state`,
      `notifier_data`, `notifier_hash`, `new_messages_t`. */
  datatype PollResponse = PollResponse(
    messages: Option<seq<Message>>,
    messageshash: Option<string>,
    partnerState: string,
    notifierData: Option<NotifierData>,
    notifierHash: Option<string>,
    newMessagesT: Option<int>)

  /** Response of `/random/start`: `{random: {status}}`. */
  datatype StartResponse = StartResponse(randomStatus: string)

  /** Response of `/random/send`: `delivery`, `msg_id`. */
  datatype SendResponse = SendResponse(delivery: string, msgId: int)

  /** Response of `/auth/check-username`: `available`, `error`, `suggestions`. */
  datatype CheckUsernameResponse = CheckUsernameResponse(
    available: Option<bool>,
    error: Option<string>,
    suggestions: Option<seq<string>>)

  /** Response of `/auth/register-guest`: `auth`, `status`, `details: {username, avatar, thumb}`. */
  datatype RegisterResponse = RegisterResponse(
    auth: string,
    status: string,
    username: string,
    avatar: string,
    thumb: string)

  /** One gallery entry of `/memes`; `roomId` is the JSON `roomId`. */
  datatype Meme = Meme(
    id: string,
    filename: string,
    path: string,
    hunter: string,
    rank: string,
    date: string,
    likes: int,
    dislikes: int,
    height: string,
    width: string,
    roomId: string)

  /** Response of `/memes`: `memes`, `has_more`. */
  datatype MemesResponse = MemesResponse(memes: seq<Meme>, hasMore: bool)
}
