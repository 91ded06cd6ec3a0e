/**
 * Events of the client: the fixed set of event names with one handler list each,
 * the handlers (opaque, identified by number) and what calling them records.
 */
module Events {
  import opened Wrappers
  import opened Requests
  import opened Polling
  import opened Account

  datatype EventName = Poll | Error | AccountSync

  /** The property name of each handler list in `eventHandlers`. */
  function NameText(e: EventName): string {
    match e
    case Poll => "poll"
    case Error => "error"
    case AccountSync => "accountSync"
  }

  /** `Object.keys(eventHandlers)`, in declaration order. */
  const EventNames: seq<EventName> := [Poll, Error, AccountSync]

  /** `Array.isArray(this.eventHandlers[name])`: only the three list names find a list. */
  function ParseEventName(name: string): (r: Option<EventName>)
    ensures r.Some? ==> NameText(r.value) == name
    ensures r.None? <==> forall e :: NameText(e) != name
  {
    if name == "poll" then Some(Poll)
    else if name == "error" then Some(Error)
    else if name == "accountSync" then Some(AccountSync)
    else None
  }

  /** The message `on` and `_send_event` throw for any other name. */
  const InvalidEventName := "Invalid event name."

  /** The data an event carries. */
  datatype Payload =
    | PollData(messages: seq<Message>)
    | ErrorData(failure: Failure)
    | SyncData(users: UserChannels)

  /**
   * A handler: one the host registered with `on`, or the wrapper
   * `data => handler(eventStoreName, data)` that `supervise` registers.
   */
  datatype Handler = Listener(id: nat) | Supervisor(id: nat, eventName: string)

  /** One call of a host handler: with `(data)`, or with `(eventName, data)` through a supervisor wrapper. */
  datatype Invocation = Invocation(handler: nat, eventName: Option<string>, data: Payload)

  function Invoke(h: Handler, data: Payload): Invocation {
    match h
    case Listener(id) => Invocation(id, None, data)
    case Supervisor(id, name) => Invocation(id, Some(name), data)
  }

  /** `eventStore.forEach(handler => handler(data))`: the calls, in list order. */
  function Dispatch(handlers: seq<Handler>, data: Payload): seq<Invocation> {
    if handlers == [] then [] else [Invoke(handlers[0], data)] + Dispatch(handlers[1..], data)
  }

  /** Dispatch calls every handler exactly once, in registration order, each with the event's data. */
  lemma {:induction false} DispatchAt(handlers: seq<Handler>, data: Payload, i: int)
    requires 0 <= i < |handlers|
    ensures |Dispatch(handlers, data)| == |handlers|
    ensures Dispatch(handlers, data)[i] == Invoke(handlers[i], data)
    ensures Dispatch(handlers, data)[i].data == data
  {
    DispatchLength(handlers, data);
    if i > 0 {
      DispatchAt(handlers[1..], data, i - 1);
    }
  }

  lemma {:induction false} DispatchLength(handlers: seq<Handler>, data: Payload)
    ensures |Dispatch(handlers, data)| == |handlers|
  {
    if handlers != [] {
      DispatchLength(handlers[1..], data);
    }
  }

  /** Calling one more handler at the end adds its call at the end. */
  lemma {:induction false} DispatchSnoc(handlers: seq<Handler>, h: Handler, data: Payload)
    ensures Dispatch(handlers + [h], data) == Dispatch(handlers, data) + [Invoke(h, data)]
  {
    if handlers != [] {
      assert (handlers + [h])[1..] == handlers[1..] + [h];
      DispatchSnoc(handlers[1..], h, data);
    }
  }

  lemma DispatchSingle(h: Handler, data: Payload)
    ensures Dispatch([h], data) == [Invoke(h, data)]
  {
  }

  /** A supervisor wrapper on list `e` calls its handler with `e`'s own name and the data. */
  lemma SupervisorTagsName(id: nat, e: EventName, data: Payload)
    ensures Invoke(Supervisor(id, NameText(e)), data) == Invocation(id, Some(NameText(e)), data)
    ensures ParseEventName(Invoke(Supervisor(id, NameText(e)), data).eventName.value) == Some(e)
  {
  }
}
