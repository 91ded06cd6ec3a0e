/**
 * The client object: its session state (token, users, last poll time), its
 * three handler lists, and the operations that update them. `calls` records
 * every call of a host handler, in order.
 */
module ChatApi {
  import opened Wrappers
  import opened JsObjects
  import opened Requests
  import opened Polling
  import opened Account
  import opened Events

  class HackmudChatApi {
    var token: string
    /** `None` while `users` is still undefined, that is, until an account sync succeeds. */
    var users: Option<UserChannels>
    /** JS timestamp (milliseconds) of the last successful poll. */
    var lastPoll: int
    var pollHandlers: seq<Handler>
    var errorHandlers: seq<Handler>
    var accountSyncHandlers: seq<Handler>
    var calls: seq<Invocation>

    /** `this.eventHandlers[NameText(e)]`. */
    function Handlers(e: EventName): seq<Handler>
      reads this
    {
      match e
      case Poll => pollHandlers
      case Error => errorHandlers
      case AccountSync => accountSyncHandlers
    }

    /**
     * The part of the constructor after the token is known: the first account
     * sync, with a failure reported as an `error` event, then the first poll time.
     */
    constructor (token: string, initialSync: Result<AccountUsers, Failure>, now: int)
      ensures this.token == token
      ensures users == (if initialSync.Ok? then Some(Reshape(initialSync.value)) else None)
      ensures lastPoll == now
      ensures pollHandlers == [] && errorHandlers == [] && accountSyncHandlers == []
      ensures calls == []
    {
      this.token := token;
      users := None;
      lastPoll := 0;
      pollHandlers, errorHandlers, accountSyncHandlers := [], [], [];
      calls := [];
      new;
      var synced := SyncAccountData(initialSync);
      if synced.Err? {
        var _ := SendEvent(NameText(Error), ErrorData(synced.error));
      }
      lastPoll := now;
    }

    /**
     * `new HackmudChatAPI(tokenOrPass, ...)`: a pass is exchanged for a token first,
     * and a failed exchange makes construction throw.
     */
    static method Create(tokenOrPass: string, exchange: Result<string, Failure>,
                         initialSync: Result<AccountUsers, Failure>, now: int)
      returns (r: Result<HackmudChatApi, Failure>)
      ensures r.Err? <==> ResolveToken(tokenOrPass, exchange).Err?
      ensures r.Err? ==> r.error == ResolveToken(tokenOrPass, exchange).error
      ensures r.Ok? ==> fresh(r.value) && r.value.token == ResolveToken(tokenOrPass, exchange).value
      ensures r.Ok? ==> r.value.lastPoll == now && r.value.calls == []
      ensures r.Ok? ==> r.value.users == (if initialSync.Ok? then Some(Reshape(initialSync.value)) else None)
      ensures r.Ok? ==> r.value.pollHandlers == [] && r.value.errorHandlers == [] && r.value.accountSyncHandlers == []
    {
      var token := ResolveToken(tokenOrPass, exchange);
      if token.Err? {
        return Err(token.error);
      }
      var api := new HackmudChatApi(token.value, initialSync, now);
      r := Ok(api);
    }

    /** `eventStore.push(handler)` on list `e`. */
    method Push(e: EventName, handler: Handler)
      modifies this`pollHandlers, this`errorHandlers, this`accountSyncHandlers
      ensures forall e' :: Handlers(e') == if e' == e then old(Handlers(e')) + [handler] else old(Handlers(e'))
    {
      match e
      case Poll => pollHandlers := pollHandlers + [handler];
      case Error => errorHandlers := errorHandlers + [handler];
      case AccountSync => accountSyncHandlers := accountSyncHandlers + [handler];
    }

    /** `on(name, handler)`: append to the named list, or throw for an unknown name and change nothing. */
    method On(name: string, handler: Handler) returns (r: Result<(), string>)
      modifies this`pollHandlers, this`errorHandlers, this`accountSyncHandlers
      ensures ParseEventName(name).None? ==> r == Err(InvalidEventName)
      ensures ParseEventName(name).None? ==> forall e :: Handlers(e) == old(Handlers(e))
      ensures ParseEventName(name).Some? ==> r == Ok(())
      ensures ParseEventName(name).Some? ==>
        forall e :: Handlers(e) == (if e == ParseEventName(name).value then old(Handlers(e)) + [handler] else old(Handlers(e)))
    {
      var store := ParseEventName(name);
      if store.None? {
        return Err(InvalidEventName);
      }
      Push(store.value, handler);
      r := Ok(());
    }

    /** `supervise(handler)`: one wrapper at the end of every list, carrying that list's name. */
    method Supervise(id: nat)
      modifies this`pollHandlers, this`errorHandlers, this`accountSyncHandlers
      ensures pollHandlers == old(pollHandlers) + [Supervisor(id, "poll")]
      ensures errorHandlers == old(errorHandlers) + [Supervisor(id, "error")]
      ensures accountSyncHandlers == old(accountSyncHandlers) + [Supervisor(id, "accountSync")]
    {
      for i := 0 to |EventNames|
        invariant forall k :: 0 <= k < i ==>
          Handlers(EventNames[k]) == old(Handlers(EventNames[k])) + [Supervisor(id, NameText(EventNames[k]))]
        invariant forall k :: i <= k < |EventNames| ==> Handlers(EventNames[k]) == old(Handlers(EventNames[k]))
      {
        var e := EventNames[i];
        Push(e, Supervisor(id, NameText(e)));
      }
      assert Handlers(EventNames[0]) == old(Handlers(EventNames[0])) + [Supervisor(id, NameText(EventNames[0]))];
      assert Handlers(EventNames[1]) == old(Handlers(EventNames[1])) + [Supervisor(id, NameText(EventNames[1]))];
      assert Handlers(EventNames[2]) == old(Handlers(EventNames[2])) + [Supervisor(id, NameText(EventNames[2]))];
    }

    /** `_send_event(name, data)`: call every handler of the named list in order, or throw for an unknown name. */
    method SendEvent(name: string, data: Payload) returns (r: Result<(), string>)
      modifies this`calls
      ensures ParseEventName(name).None? ==> r == Err(InvalidEventName) && calls == old(calls)
      ensures ParseEventName(name).Some? ==>
        r == Ok(()) && calls == old(calls) + Dispatch(Handlers(ParseEventName(name).value), data)
    {
      var store := ParseEventName(name);
      if store.None? {
        return Err(InvalidEventName);
      }
      var handlers := Handlers(store.value);
      for i := 0 to |handlers|
        invariant calls == old(calls) + Dispatch(handlers[..i], data)
      {
        assert handlers[..i + 1] == handlers[..i] + [handlers[i]];
        DispatchSnoc(handlers[..i], handlers[i], data);
        calls := calls + [Invoke(handlers[i], data)];
      }
      assert handlers[..|handlers|] == handlers;
      r := Ok(());
    }

    /**
     * `_sync_account_data()`: on a reply, replace `users` by the reshaped account
     * data and emit `accountSync` with it; on a failure, reject and touch nothing.
     */
    method SyncAccountData(reply: Result<AccountUsers, Failure>) returns (r: Result<(), Failure>)
      modifies this`users, this`calls
      ensures reply.Err? ==> r == Err(reply.error) && users == old(users) && calls == old(calls)
      ensures reply.Ok? ==> r == Ok(()) && users == Some(Reshape(reply.value))
      ensures reply.Ok? ==> calls == old(calls) + Dispatch(accountSyncHandlers, SyncData(Reshape(reply.value)))
    {
      if reply.Err? {
        return Err(reply.error);
      }
      users := Some(Reshape(reply.value));
      var _ := SendEvent(NameText(AccountSync), SyncData(users.value));
      r := Ok(());
    }

    /**
     * `_poll()`. `request` is the body sent to /chats.json (none when `users` is
     * undefined and `Object.keys` throws first); `reply` is what came back.
     * Only a completed poll emits `poll` and then moves `lastPoll` to `now`.
     */
    method Poll(reply: Result<Chats, Failure>, now: int) returns (request: Option<ChatsBody>, r: Result<(), Failure>)
      modifies this`lastPoll, this`calls
      ensures users.None? ==> request == None && r == Err(UsersUndefined)
      ensures users.Some? ==> request == Some(ChatsRequest(token, Keys(users.value), None, Some(old(lastPoll))))
      ensures (users.None? || reply.Err?) ==> lastPoll == old(lastPoll) && calls == old(calls)
      ensures users.Some? && reply.Err? ==> r == Err(reply.error)
      ensures users.Some? && reply.Ok? ==> r == Ok(()) && lastPoll == now
      ensures users.Some? && reply.Ok? ==> calls == old(calls) + Dispatch(pollHandlers, PollData(PollPayload(reply.value)))
    {
      if users.None? {
        return None, Err(UsersUndefined);
      }
      request := Some(ChatsRequest(token, Keys(users.value), None, Some(lastPoll)));
      if reply.Err? {
        return request, Err(reply.error);
      }
      var chats := NormalizeChats(reply.value);
      var messages := Flatten(chats);
      var _ := SendEvent(NameText(EventName.Poll), PollData(messages));
      lastPoll := now;
      r := Ok(());
    }

    /** One tick of the account-sync timer: sync, and report a failure as an `error` event. */
    method AccountSyncTick(reply: Result<AccountUsers, Failure>)
      modifies this`users, this`calls
      ensures reply.Err? ==> users == old(users) && calls == old(calls) + Dispatch(errorHandlers, ErrorData(reply.error))
      ensures reply.Ok? ==> users == Some(Reshape(reply.value))
      ensures reply.Ok? ==> calls == old(calls) + Dispatch(accountSyncHandlers, SyncData(Reshape(reply.value)))
    {
      var synced := SyncAccountData(reply);
      if synced.Err? {
        var _ := SendEvent(NameText(Error), ErrorData(synced.error));
      }
    }

    /** One tick of the poll timer: poll, and report a failure as an `error` event. */
    method PollTick(reply: Result<Chats, Failure>, now: int) returns (request: Option<ChatsBody>)
      modifies this`lastPoll, this`calls
      ensures request == if users.None? then None else Some(ChatsRequest(token, Keys(users.value), None, Some(old(lastPoll))))
      ensures users.None? ==> lastPoll == old(lastPoll) && calls == old(calls) + Dispatch(errorHandlers, ErrorData(UsersUndefined))
      ensures users.Some? && reply.Err? ==>
        lastPoll == old(lastPoll) && calls == old(calls) + Dispatch(errorHandlers, ErrorData(reply.error))
      ensures users.Some? && reply.Ok? ==>
        lastPoll == now && calls == old(calls) + Dispatch(pollHandlers, PollData(PollPayload(reply.value)))
    {
      var polled;
      request, polled := Poll(reply, now);
      if polled.Err? {
        var _ := SendEvent(NameText(Error), ErrorData(polled.error));
      }
    }
  }
}
