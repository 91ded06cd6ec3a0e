/**
 * Whole-client scenarios, proved from the contracts of the class alone: what a
 * host sees through its handlers after registering and after one poll.
 */
module Scenarios {
  import opened Wrappers
  import opened Requests
  import opened Polling
  import opened Events
  import opened ChatApi

  /** An unknown event name is refused; a `poll` handler sees an emitted payload exactly once. */
  method SubscribeThenEmit(messages: seq<Message>) returns (refused: Result<(), string>, seen: seq<Invocation>)
    ensures refused == Err(InvalidEventName)
    ensures seen == [Invocation(1, None, PollData(messages))]
  {
    var api := new HackmudChatApi("0123456789abcdef", Err(TransportError), 0);
    refused := api.On("message", Listener(2));
    var _ := api.On("poll", Listener(1));
    assert api.pollHandlers == [Listener(1)] by {
      assert api.Handlers(EventName.Poll) == [Listener(1)];
    }
    DispatchSingle(Listener(1), PollData(messages));
    var _ := api.SendEvent("poll", PollData(messages));
    seen := api.calls;
  }

  /** Whichever event is emitted, a supervisor receives it once, tagged with that event's name. */
  method SuperviseSeesEveryEvent(e: EventName, data: Payload) returns (seen: seq<Invocation>)
    ensures seen == [Invocation(7, Some(NameText(e)), data)]
  {
    var api := new HackmudChatApi("0123456789abcdef", Err(TransportError), 0);
    api.Supervise(7);
    assert api.Handlers(e) == [Supervisor(7, NameText(e))];
    DispatchSingle(Supervisor(7, NameText(e)), data);
    var _ := api.SendEvent(NameText(e), data);
    seen := api.calls;
  }

  /** The account data of the poll scenario and its reshaped form. */
  lemma AliceBobAccount(account: Account.AccountUsers)
    requires account == [("alice", [("0000", ["alice", "bob"])]), ("bob", [])]
    ensures Account.Reshape(account) == [("alice", ["0000"]), ("bob", [])]
  {
    Account.ReshapeIsChannelLists(account);
    assert JsObjects.Keys(account[0].1) == ["0000"];
    assert JsObjects.Keys(account[1].1) == [];
    assert Account.ChannelLists(account) == [("alice", ["0000"]), ("bob", [])];
  }

  /** What the poll scenario's single `poll` handler is called with. */
  lemma PollCycleDelivery(chats: Chats, payload: Payload)
    requires chats == [("alice", [Message("m", 1000.0, "bob", None, Some("0000"), "hi")]), ("bob", [])]
    requires payload == PollData([Message("m", 1000000.0, "bob", Some("alice"), Some("0000"), "hi")])
    ensures Dispatch([Listener(1)], PollData(PollPayload(chats))) == [Invocation(1, None, payload)]
  {
    PollScenario(chats);
    DispatchSingle(Listener(1), PollData(PollPayload(chats)));
  }

  /**
   * One poll cycle after a successful first sync for alice and bob: the request
   * asks for everything after the construction time, in wire seconds, the `poll`
   * handler sees alice's message normalised, and `lastPoll` moves to the new time.
   */
  method PollCycle() returns (request: Option<ChatsBody>, seen: seq<Invocation>, lastPoll: int)
    ensures request == Some(ChatsBody("0123456789abcdef", ["alice", "bob"], None, Some(1700000000)))
    ensures seen == [Invocation(1, None, PollData([Message("m", 1000000.0, "bob", Some("alice"), Some("0000"), "hi")]))]
    ensures lastPoll == 1700000002000
  {
    var account := [("alice", [("0000", ["alice", "bob"])]), ("bob", [])];
    var users := [("alice", ["0000"]), ("bob", [])];
    AliceBobAccount(account);
    assert JsObjects.Keys(users) == ["alice", "bob"];
    var chats := [("alice", [Message("m", 1000.0, "bob", None, Some("0000"), "hi")]), ("bob", [])];
    PollCycleDelivery(chats, PollData([Message("m", 1000000.0, "bob", Some("alice"), Some("0000"), "hi")]));
    var api := new HackmudChatApi("0123456789abcdef", Ok(account), 1700000000250);
    var _ := api.On("poll", Listener(1));
    assert api.pollHandlers == [Listener(1)] by {
      assert api.Handlers(EventName.Poll) == [Listener(1)];
    }
    request := api.PollTick(Ok(chats), 1700000002000);
    seen := api.calls;
    lastPoll := api.lastPoll;
  }
}
