/**
 * Account data: `_sync_account_data` turns the `users` object of /account_data.json
 * (user → channel → members) into the client's `users` (user → channel names).
 */
module Account {
  import opened Wrappers
  import opened JsObjects

  /** `data.users`: for each user handle, an object from channel name to the channel's members. */
  type AccountUsers = Object<Object<seq<string>>>

  /** The client's `users`: for each user handle, the names of its channels. */
  type UserChannels = Object<seq<string>>

  /** The `reduce` over `Object.keys(data.users)`, from accumulator `acc`: `acc[x] = Object.keys(data.users[x])`. */
  function ReshapeFrom(acc: UserChannels, users: AccountUsers): UserChannels
    decreases |users|
  {
    if users == [] then acc
    else ReshapeFrom(Set(acc, users[0].0, Keys(users[0].1)), users[1..])
  }

  /** The reduce started from `{}`. */
  function Reshape(users: AccountUsers): UserChannels {
    ReshapeFrom([], users)
  }

  /** Reference view of the reshape: every user stays where it was and keeps its channel names, in order. */
  function ChannelLists(users: AccountUsers): UserChannels {
    seq(|users|, i requires 0 <= i < |users| => (users[i].0, Keys(users[i].1)))
  }

  lemma ChannelListsCons(users: AccountUsers)
    requires users != []
    ensures ChannelLists(users) == [(users[0].0, Keys(users[0].1))] + ChannelLists(users[1..])
  {
  }

  /** Adding the first user to the accumulator keeps the remaining users' keys out of it. */
  lemma FreshKeysAfterFirst(acc: UserChannels, users: AccountUsers)
    requires users != [] && DistinctKeys(users)
    requires forall i :: 0 <= i < |users| ==> users[i].0 !in Keys(acc)
    ensures DistinctKeys(users[1..])
    ensures forall i :: 0 <= i < |users[1..]| ==> users[1..][i].0 !in Keys(acc + [(users[0].0, Keys(users[0].1))])
  {
    KeysAppend(acc, [(users[0].0, Keys(users[0].1))]);
    forall i | 0 <= i < |users[1..]|
      ensures users[1..][i].0 !in Keys(acc + [(users[0].0, Keys(users[0].1))])
    {
      assert users[1..][i] == users[i + 1];
      assert users[0].0 != users[i + 1].0;
    }
  }

  /** One step of the reduce: a user whose key is new is appended to the accumulator. */
  lemma ReshapeFromStep(acc: UserChannels, users: AccountUsers)
    requires users != [] && users[0].0 !in Keys(acc)
    ensures ReshapeFrom(acc, users) == ReshapeFrom(acc + [(users[0].0, Keys(users[0].1))], users[1..])
  {
  }

  lemma {:induction false} ReshapeFromAppends(acc: UserChannels, users: AccountUsers)
    requires DistinctKeys(users)
    requires forall i :: 0 <= i < |users| ==> users[i].0 !in Keys(acc)
    ensures ReshapeFrom(acc, users) == acc + ChannelLists(users)
    decreases |users|
  {
    if users != [] {
      var entry := (users[0].0, Keys(users[0].1));
      ReshapeFromStep(acc, users);
      FreshKeysAfterFirst(acc, users);
      ReshapeFromAppends(acc + [entry], users[1..]);
      ChannelListsCons(users);
    }
  }

  /** The reshape keeps the users in key order and maps each to the list of its channel keys. */
  lemma ReshapeIsChannelLists(users: AccountUsers)
    requires DistinctKeys(users)
    ensures Reshape(users) == ChannelLists(users)
  {
    ReshapeFromAppends([], users);
  }

  lemma ChannelListsKeys(users: AccountUsers)
    ensures Keys(ChannelLists(users)) == Keys(users)
    ensures DistinctKeys(users) ==> DistinctKeys(ChannelLists(users))
  {
  }

  lemma ChannelListsLookup(users: AccountUsers)
    requires DistinctKeys(users)
    ensures forall i :: 0 <= i < |users| ==> Get(ChannelLists(users), users[i].0) == Some(Keys(users[i].1))
  {
    var r := ChannelLists(users);
    ChannelListsKeys(users);
    forall i | 0 <= i < |users|
      ensures Get(r, users[i].0) == Some(Keys(users[i].1))
    {
      GetAt(r, i);
    }
  }

  /**
   * What the `users` field holds after a sync: the same keys as `data.users` in the
   * same order, and under each user exactly the keys of that user's channel object.
   */
  lemma ReshapeLookup(users: AccountUsers)
    requires DistinctKeys(users)
    ensures Keys(Reshape(users)) == Keys(users)
    ensures DistinctKeys(Reshape(users))
    ensures forall i :: 0 <= i < |users| ==> Get(Reshape(users), users[i].0) == Some(Keys(users[i].1))
  {
    ReshapeIsChannelLists(users);
    ChannelListsKeys(users);
    ChannelListsLookup(users);
  }
}
