/**
 * What `_poll` does with the reply of /chats.json: it converts each message's
 * timestamp from seconds to milliseconds, fills in a missing recipient with the
 * user the message was fetched for, and concatenates the per-user lists.
 */
module Polling {
  import opened Wrappers
  import opened JsObjects

  /** One chat message as the chat API returns it; `t` is in seconds until normalised. */
  datatype Message = Message(
    id: string,
    t: real,
    fromUser: string,
    toUser: Option<string>,
    channel: Option<string>,
    msg: string)

  /** The `chats` object of the reply: for each user handle, the messages fetched for it. */
  type Chats = Object<seq<Message>>

  /** JavaScript truthiness of the `to_user` property: absent, null and "" are falsy. */
  predicate Truthy(s: Option<string>) {
    s.Some? && s.value != ""
  }

  /** The body of the `map` callback: `message.t *= 1000; message.to_user = message.to_user || username`. */
  function NormalizeMessage(username: string, m: Message): (r: Message)
    ensures r.t == 1000.0 * m.t
    ensures r.toUser == (if Truthy(m.toUser) then m.toUser else Some(username))
    ensures r.(t := m.t, toUser := m.toUser) == m
  {
    m.(t := m.t * 1000.0, toUser := Some(if Truthy(m.toUser) then m.toUser.value else username))
  }

  /** `chats[username].map(...)`. */
  function NormalizeGroup(username: string, messages: seq<Message>): seq<Message> {
    seq(|messages|, i requires 0 <= i < |messages| => NormalizeMessage(username, messages[i]))
  }

  /** The whole `chats` object after the `forEach`: same users, in the same order, each list normalised. */
  function NormalizeAll(chats: Chats): Chats {
    seq(|chats|, i requires 0 <= i < |chats| => (chats[i].0, NormalizeGroup(chats[i].0, chats[i].1)))
  }

  /** The `forEach` over `Object.keys(chats)` that rewrites `chats[username]` one user at a time. */
  method NormalizeChats(chats: Chats) returns (out: Chats)
    ensures out == NormalizeAll(chats)
  {
    out := chats;
    for i := 0 to |chats|
      invariant |out| == |chats|
      invariant forall j :: 0 <= j < i ==> out[j] == (chats[j].0, NormalizeGroup(chats[j].0, chats[j].1))
      invariant forall j :: i <= j < |chats| ==> out[j] == chats[j]
    {
      var username := out[i].0;
      out := out[i := (username, NormalizeGroup(username, out[i].1))];
    }
  }

  /** `Object.values(chats).reduce((a, x) => a.concat(x), acc)`. */
  function FlattenFrom(acc: seq<Message>, chats: Chats): seq<Message>
    decreases |chats|
  {
    if chats == [] then acc else FlattenFrom(acc + chats[0].1, chats[1..])
  }

  /** The reduce started from `[]`. */
  function Flatten(chats: Chats): seq<Message> {
    FlattenFrom([], chats)
  }

  /** Reference definition: the per-user lists one after another, in key order. */
  function Concat(chats: Chats): seq<Message> {
    if chats == [] then [] else chats[0].1 + Concat(chats[1..])
  }

  /** The number of messages in all per-user lists together. */
  function TotalCount(chats: Chats): nat {
    if chats == [] then 0 else |chats[0].1| + TotalCount(chats[1..])
  }

  lemma {:induction false} FlattenFromIsConcat(acc: seq<Message>, chats: Chats)
    ensures FlattenFrom(acc, chats) == acc + Concat(chats)
    decreases |chats|
  {
    if chats != [] {
      FlattenFromIsConcat(acc + chats[0].1, chats[1..]);
    }
  }

  /** The left fold of `reduce` builds the same sequence as the reference concatenation. */
  lemma FlattenIsConcat(chats: Chats)
    ensures Flatten(chats) == Concat(chats)
  {
    FlattenFromIsConcat([], chats);
  }

  /** The flattened list holds exactly as many messages as the per-user lists together. */
  lemma {:induction false} ConcatLength(chats: Chats)
    ensures |Concat(chats)| == TotalCount(chats)
  {
    if chats != [] {
      ConcatLength(chats[1..]);
    }
  }

  lemma PrefixTail(chats: Chats, i: int)
    requires 0 < i <= |chats|
    ensures chats[..i][1..] == chats[1..][..i - 1]
    ensures TotalCount(chats[..i]) == |chats[0].1| + TotalCount(chats[1..][..i - 1])
  {
  }

  /**
   * Order is kept: message j of user i sits in the flattened list right after
   * all messages of the users before i.
   */
  lemma {:induction false} ConcatAt(chats: Chats, i: int, j: int)
    requires 0 <= i < |chats| && 0 <= j < |chats[i].1|
    ensures TotalCount(chats[..i]) + j < |Concat(chats)|
    ensures Concat(chats)[TotalCount(chats[..i]) + j] == chats[i].1[j]
  {
    ConcatLength(chats);
    if i == 0 {
      assert chats[..0] == [];
    } else {
      PrefixTail(chats, i);
      assert chats[1..][i - 1] == chats[i];
      ConcatAt(chats[1..], i - 1, j);
    }
  }

  /** And nothing else is there: every position of the flattened list falls inside the block of some user i. */
  lemma {:induction false} ConcatIndex(chats: Chats, k: int)
    requires 0 <= k < |Concat(chats)|
    ensures exists i :: 0 <= i < |chats| && TotalCount(chats[..i]) <= k < TotalCount(chats[..i]) + |chats[i].1|
  {
    assert chats[..0] == [];
    if k >= |chats[0].1| {
      ConcatIndex(chats[1..], k - |chats[0].1|);
      var i :| 0 <= i < |chats[1..]| && TotalCount(chats[1..][..i]) <= k - |chats[0].1| < TotalCount(chats[1..][..i]) + |chats[1..][i].1|;
      PrefixTail(chats, i + 1);
      assert chats[1..][i] == chats[i + 1];
    }
  }

  /** The payload of the `poll` event. */
  function PollPayload(chats: Chats): seq<Message> {
    Flatten(NormalizeAll(chats))
  }

  lemma {:induction false} NormalizeAllCount(chats: Chats)
    ensures TotalCount(NormalizeAll(chats)) == TotalCount(chats)
  {
    if chats != [] {
      assert NormalizeAll(chats)[1..] == NormalizeAll(chats[1..]);
      NormalizeAllCount(chats[1..]);
    }
  }

  /**
   * The `poll` payload: as many messages as the reply held, message j of user i at
   * its place in key order, with its time in milliseconds and its recipient defaulted.
   */
  lemma PollPayloadAt(chats: Chats, i: int, j: int)
    requires 0 <= i < |chats| && 0 <= j < |chats[i].1|
    ensures |PollPayload(chats)| == TotalCount(chats)
    ensures TotalCount(chats[..i]) + j < |PollPayload(chats)|
    ensures PollPayload(chats)[TotalCount(chats[..i]) + j] == NormalizeMessage(chats[i].0, chats[i].1[j])
  {
    var n := NormalizeAll(chats);
    FlattenIsConcat(n);
    ConcatLength(n);
    NormalizeAllCount(chats);
    assert n[..i] == NormalizeAll(chats[..i]);
    NormalizeAllCount(chats[..i]);
    ConcatAt(n, i, j);
  }

  /** When every user handle is non-empty, every message of the `poll` payload has a truthy recipient. */
  lemma PollRecipientsSet(chats: Chats)
    requires forall i :: 0 <= i < |chats| ==> chats[i].0 != ""
    ensures forall k :: 0 <= k < |PollPayload(chats)| ==> Truthy(PollPayload(chats)[k].toUser)
  {
    var n := NormalizeAll(chats);
    FlattenIsConcat(n);
    forall k | 0 <= k < |PollPayload(chats)|
      ensures Truthy(PollPayload(chats)[k].toUser)
    {
      ConcatIndex(n, k);
      var i :| 0 <= i < |n| && TotalCount(n[..i]) <= k < TotalCount(n[..i]) + |n[i].1|;
      ConcatAt(n, i, k - TotalCount(n[..i]));
    }
  }

  /**
   * A message without a recipient, fetched for "alice", is normalised to recipient
   * "alice" with its time in milliseconds, and a user with no messages adds nothing.
   */
  lemma PollScenario(chats: Chats)
    requires chats == [("alice", [Message("m", 1000.0, "bob", None, Some("0000"), "hi")]), ("bob", [])]
    ensures PollPayload(chats) == [Message("m", 1000000.0, "bob", Some("alice"), Some("0000"), "hi")]
  {
    var n := NormalizeAll(chats);
    var m := chats[0].1[0];
    assert NormalizeMessage("alice", m) == Message("m", 1000000.0, "bob", Some("alice"), Some("0000"), "hi");
    assert NormalizeGroup("alice", chats[0].1) == [NormalizeMessage("alice", m)];
    assert NormalizeGroup("bob", chats[1].1) == [];
    assert n == [("alice", [Message("m", 1000000.0, "bob", Some("alice"), Some("0000"), "hi")]), ("bob", [])];
    FlattenIsConcat(n);
    assert Concat(n[1..][1..]) == [] by {
      assert n[1..][1..] == [];
    }
    assert Concat(n[1..]) == [];
    assert Concat(n) == n[0].1;
  }
}
