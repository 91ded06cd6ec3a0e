/**
 * The request-shaping rules of the client: how `_request` classifies a reply,
 * how `_chats` puts times on the wire, and how the constructor tells a chat
 * pass from a chat token.
 */
module Requests {
  import opened Wrappers

  /** Why a request or a scheduled operation failed. */
  datatype Failure =
    | ApiError(body: string)   // `_request` threw the parsed body of a reply outside [200, 400)
    | TransportError           // the fetch itself or the JSON parsing failed
    | UsersUndefined           // `Object.keys(this.users)` while `users` is still undefined

  /** `_request` after the reply arrived: a status in [200, 400) returns the body, any other throws it. */
  function Settle<T>(status: int, body: T): (r: Result<T, T>)
    ensures r.Ok? <==> 200 <= status < 400
    ensures r == Ok(body) || r == Err(body)
  {
    if status < 200 || status >= 400 then Err(body) else Ok(body)
  }

  /**
   * A JS timestamp (milliseconds) as the chat API wants it: `Math.floor(ms / 1000)`
   * seconds, and `undefined` stays `undefined`. Dafny's `/` with a positive
   * divisor rounds down, which is `Math.floor` also for negative times.
   */
  function ToWireTime(ms: Option<int>): (r: Option<int>)
    ensures r.Some? <==> ms.Some?
    ensures ms.Some? ==> r.value * 1000 <= ms.value < r.value * 1000 + 1000
  {
    match ms
    case None => None
    case Some(x) => Some(x / 1000)
  }

  /** Converting whole seconds to milliseconds and back to the wire is the identity. */
  lemma SecondsRoundTrip(s: int)
    ensures ToWireTime(Some(s * 1000)) == Some(s)
  {
  }

  /** Later times never go on the wire as earlier seconds. */
  lemma ToWireTimeMonotonic(a: int, b: int)
    requires a <= b
    ensures ToWireTime(Some(a)).value <= ToWireTime(Some(b)).value
  {
  }

  /** The JSON body `_chats` posts to `/chats.json`. */
  datatype ChatsBody = ChatsBody(chatToken: string, usernames: seq<string>, before: Option<int>, after: Option<int>)

  /** `_chats(usernames, before, after)`: the token and users go as they are, both bounds in wire seconds. */
  function ChatsRequest(token: string, usernames: seq<string>, before: Option<int>, after: Option<int>): ChatsBody
  {
    ChatsBody(token, usernames, ToWireTime(before), ToWireTime(after))
  }

  /** What poll asks for: no upper bound, and whole seconds no later than the last poll. */
  lemma PollRequestBounds(token: string, usernames: seq<string>, lastPoll: int)
    ensures ChatsRequest(token, usernames, None, Some(lastPoll)).before == None
    ensures ChatsRequest(token, usernames, None, Some(lastPoll)).after.Some?
    ensures var s := ChatsRequest(token, usernames, None, Some(lastPoll)).after.value; s * 1000 <= lastPoll < s * 1000 + 1000
  {
  }

  /** The constructor's test: a string of length 5 is a chat pass, anything else a chat token. */
  predicate IsPass(tokenOrPass: string) {
    |tokenOrPass| == 5
  }

  /**
   * The token the client ends up with. A pass is exchanged at /get_token.json and
   * the outcome of that exchange is the outcome of construction; a token is kept.
   */
  function ResolveToken(tokenOrPass: string, exchange: Result<string, Failure>): (r: Result<string, Failure>)
    ensures !IsPass(tokenOrPass) ==> r == Ok(tokenOrPass)
    ensures IsPass(tokenOrPass) ==> r == exchange
  {
    if IsPass(tokenOrPass) then exchange else Ok(tokenOrPass)
  }

  /** A token supplied directly does not depend on any exchange: none takes place. */
  lemma TokenNeedsNoExchange(tokenOrPass: string, e1: Result<string, Failure>, e2: Result<string, Failure>)
    requires !IsPass(tokenOrPass)
    ensures ResolveToken(tokenOrPass, e1) == ResolveToken(tokenOrPass, e2) == Ok(tokenOrPass)
  {
  }
}
