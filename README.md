# hackmud chat client: a verified model of its state logic

`HackmudChatAPI` (index.js) is a small client for the hackmud chat HTTP API.
It holds a chat token, the account's users with the channels each one is in,
and the time of the last poll. Three event-handler lists (`poll`, `error`,
`accountSync`) tell the host application what changed. Two timers drive it:
one re-syncs the account data, the other polls for new messages.

This project models the state logic of that class in Dafny and proves what it
promises:

- **Event registry.** `on` appends a handler to one named list. An unknown
  name throws "Invalid event name." and changes nothing. `supervise` appends
  to every list a wrapper that forwards the list's own name. `_send_event`
  calls the handlers of one list in registration order, each exactly once,
  each with the event's data. Handlers are opaque numbers. The field `calls`
  records every call made to a host handler, in order.
- **Polling.** The `/chats.json` request asks for messages after the last poll
  time, converted to wire seconds with `Math.floor(ms / 1000)`. In the reply,
  each timestamp is multiplied by 1000. A missing or empty `to_user` becomes
  the user the message was fetched under. The per-user lists are joined in key
  order and emitted as one `poll` event. Only then does `lastPoll` move to the
  current time.
- **Account sync.** `users` becomes, for each user of the reply, the list of
  its channel names, with the same keys in the same order. Then `accountSync`
  is emitted. A failed fetch leaves `users` unchanged.
- **Request rules.** `_request` settles a reply by its status: the window
  [200, 400) succeeds. The constructor treats a string of length 5 as a chat
  pass and exchanges it for a token; any other string is the token itself.

JavaScript objects are modelled as lists of (key, value) pairs in
`Object.keys` order (module `JsObjects`), so the order of `Object.keys` and
`Object.values` is explicit. `obj[k] = v` is `JsObjects.Set`: it overwrites an
existing key in place and appends a new one. The `forEach` in `_poll` writes
back to a key it has just read, so `NormalizeChats` rewrites that pair by
position. `JsObjects.SetAt` proves this is the same as `Set` when keys are
distinct, as they are in any parsed object. Network replies are inputs: a
`Result` that holds either the parsed data or a `Failure`. `Date.now()` is the
parameter `now`.

Modules: `Wrappers` (Option, Result), `JsObjects`, `Requests` (lines 65-109
and the constructor's pass test), `Account` (`_sync_account_data`), `Polling`
(the body of `_poll` after the request), `Events` (event names, handlers,
dispatch), `ChatApi` (the class itself) and `Scenarios` (whole-client runs
proved from the class's contracts).

Behaviour of the code that the model keeps:

- `lastPoll = Date.now()` runs only after a poll has succeeded and its `poll`
  event has been emitted. A failed poll leaves `lastPoll` unchanged (`Poll`,
  `PollTick`).
- When a reply's status is outside [200, 400), `_request` throws the parsed
  body alone, without the status (`Failure.ApiError(body)`).
- The constructor emits the `error` event of a failed first account sync
  before any handler can have been registered, so the event reaches no one.
  The constructor's contract states `calls == []`.
- If the first sync fails, `users` stays undefined. Each poll then throws
  from `Object.keys(undefined)` before any request goes out, until a sync
  succeeds (`Failure.UsersUndefined`).

## Model

| member | source | states |
|---|---|---|
| JsObjects.Keys | index.js:264 | `Object.keys` lists every own property's key, one per property, in order |
| JsObjects.Get | index.js:264 | a property lookup finds a value exactly when the key is among the object's keys |
| JsObjects.Set | index.js:264 | after `a[x] = v`, `a[x]` is `v`; an existing key keeps its place and the key order; a new key is appended at the end |
| JsObjects.SetAt | index.js:278 | with distinct keys, assigning an existing key rewrites that pair where it stands, which is how `NormalizeChats` writes each `chats[username]` |
| JsObjects.SetLeavesOthers | index.js:264 | assigning one property leaves every other property's value as it was |
| Requests.Settle | index.js:72-73 | a reply succeeds exactly when 200 <= status < 400; success returns the body, failure throws that same body |
| Requests.ToWireTime | index.js:108 | an undefined bound stays undefined; a defined one becomes the whole seconds s with s*1000 <= ms < s*1000 + 1000, i.e. `Math.floor(ms/1000)` |
| Requests.ChatsRequest | index.js:108 | definition of the `_chats` body: token and usernames as given, both bounds through `ToWireTime` |
| Requests.SecondsRoundTrip | index.js:108 | whole seconds turned into milliseconds go back on the wire as the same seconds |
| Requests.ToWireTimeMonotonic | index.js:108 | a later time never goes on the wire as fewer seconds |
| Requests.PollRequestBounds | index.js:273 | the poll request has no `before` bound; its `after` bound is the last poll time floored to seconds |
| Requests.IsPass | index.js:199 | definition of the constructor's test: a string is a pass exactly when its length is 5 |
| Requests.ResolveToken | index.js:199-213 | a length-5 string is a pass, and the exchange's outcome (token or thrown error) is the outcome; any other string is the token |
| Requests.TokenNeedsNoExchange | index.js:213 | a token supplied directly does not depend on any exchange reply |
| Account.ReshapeFrom | index.js:264 | definition of the `reduce` step `a[x] = Object.keys(data.users[x])` through `Set`, from any accumulator |
| Account.Reshape | index.js:264 | definition of the `reduce` started from `{}` |
| Account.ReshapeFromAppends | index.js:264 | folding users with fresh keys into an accumulator appends each user with its channel-name list, in order |
| Account.ReshapeIsChannelLists | index.js:264 | the reduce gives, at position i, user i of `data.users` with the keys of its channel object |
| Account.ReshapeLookup | index.js:264 | the new `users` has the same keys as `data.users`, in the same order and distinct; each user maps to exactly its channel keys |
| Polling.NormalizeMessage | index.js:278-281 | `t` is multiplied by 1000; `to_user` is kept when truthy and otherwise becomes the username; nothing else changes |
| Polling.NormalizeGroup | index.js:278-281 | definition of `chats[username].map(...)`: `NormalizeMessage` under that username, at every position |
| Polling.NormalizeAll | index.js:277-283 | definition of `chats` after the `forEach`: same users in the same order, each list through `NormalizeGroup` |
| Polling.NormalizeChats | index.js:277-283 | the in-place rewrite of every `chats[username]` yields the same users in the same order, each list normalised under its own username |
| Polling.FlattenFrom | index.js:286 | definition of the `reduce((a, x) => a.concat(x), acc)` fold over `Object.values(chats)` |
| Polling.Flatten | index.js:286 | definition of the fold started from `[]` |
| Polling.PollPayload | index.js:277-286 | definition of the `poll` payload: the flatten of the normalised chats |
| Polling.FlattenFromIsConcat | index.js:286 | the `reduce`/`concat` fold started from any accumulator is that accumulator followed by the per-user lists in key order |
| Polling.FlattenIsConcat | index.js:286 | the flatten equals the plain concatenation of the per-user lists in key order |
| Polling.ConcatLength | index.js:286 | the flattened list has as many messages as all per-user lists together |
| Polling.ConcatAt | index.js:286 | message j of user i sits at position (messages of users before i) + j, so order inside and across groups is kept |
| Polling.ConcatIndex | index.js:286 | every position of the flattened list lies in the block of some user's list, so nothing else appears |
| Polling.NormalizeAllCount | index.js:277-283 | normalisation changes no list's length |
| Polling.PollPayloadAt | index.js:277-286 | the `poll` payload has the reply's message count; message j of user i is at its key-order place with time ×1000 and defaulted recipient |
| Polling.PollRecipientsSet | index.js:280 | when usernames are non-empty, every message of the `poll` payload has a truthy `to_user` |
| Polling.PollScenario | index.js:277-286 | alice's message with no recipient and t = 1000 becomes recipient alice, t = 1000000; bob's empty list adds nothing |
| Events.ParseEventName | index.js:159-160 | a name finds a handler list exactly when it is `poll`, `error` or `accountSync`, and then the list of that name |
| Events.Invoke | index.js:185 | definition of one `handler(data)` call: a listener gets `(data)`; a `supervise` wrapper (line 171) passes `(name, data)` on to its host handler |
| Events.Dispatch | index.js:185 | definition of `eventStore.forEach(handler => handler(data))`: one `Invoke` per handler, in list order |
| Events.DispatchAt | index.js:185 | dispatch makes one call per handler, the i-th call to the i-th handler, each with the event's data |
| Events.DispatchLength | index.js:185 | dispatch makes exactly as many calls as there are handlers |
| Events.DispatchSnoc | index.js:185 | one more handler at the end of a list adds its call at the end |
| Events.SupervisorTagsName | index.js:171 | the `supervise` wrapper on list e calls the host handler with e's name, which names list e, and the data |
| ChatApi.HackmudChatApi.Handlers | index.js:159 | definition of the lookup `this.eventHandlers[name]` for a valid name, also used by `_send_event` at line 183: the list field of that event |
| ChatApi.HackmudChatApi.constructor | index.js:215-238 | the token is stored; `users` is the reshaped account data, or undefined if the first sync failed; `lastPoll` is `now`; all lists are empty and no handler was called |
| ChatApi.HackmudChatApi.Create | index.js:196-213 | construction throws exactly when a pass's exchange failed, with that error; otherwise the client holds the resolved token |
| ChatApi.HackmudChatApi.Push | index.js:161 | `push` appends the handler to one list and leaves the other two unchanged |
| ChatApi.HackmudChatApi.On | index.js:158-162 | an unknown name throws "Invalid event name." and changes no list; a valid name appends the handler to that list only |
| ChatApi.HackmudChatApi.Supervise | index.js:168-173 | each of the three lists grows by exactly one wrapper, tagged with that list's name |
| ChatApi.HackmudChatApi.SendEvent | index.js:182-186 | a valid name calls exactly that list's handlers in order with the data; an unknown name throws and calls nothing |
| ChatApi.HackmudChatApi.SyncAccountData | index.js:262-266 | on success `users` becomes the reshaped data and `accountSync` handlers are called with it; on failure it rejects and `users` and calls are unchanged |
| ChatApi.HackmudChatApi.Poll | index.js:271-293 | the request carries the users' keys, no `before`, and `after` = old `lastPoll` in wire seconds; on success `poll` handlers get the normalised flat list, then `lastPoll` = `now`; any failure leaves `lastPoll` and calls unchanged |
| ChatApi.HackmudChatApi.AccountSyncTick | index.js:231-236 | a timer tick either syncs as above or, on failure, calls the `error` handlers with the failure and keeps `users` |
| ChatApi.HackmudChatApi.PollTick | index.js:241-246 | a timer tick either polls as above or calls the `error` handlers with the failure, keeping `lastPoll` |
| Scenarios.SubscribeThenEmit | index.js:158-186 | `on` with an unknown name is refused; a `poll` handler sees an emitted payload exactly once |
| Scenarios.SuperviseSeesEveryEvent | index.js:168-186 | whichever of `poll`, `error`, `accountSync` is emitted, a supervisor receives it exactly once, tagged with that event's name |
| Scenarios.AliceBobAccount | index.js:264 | a concrete account reply reshapes to alice → ["0000"], bob → [] |
| Scenarios.PollCycle | index.js:241-293 | after a first sync, one poll tick requests after floor(lastPoll/1000), delivers alice's normalised message to the `poll` handler and moves `lastPoll` to `now` |

## Left out

- HTTP transport (`node-fetch`), JSON (de)serialisation, base URL and headers (index.js:65-71): a reply is an input, already parsed or failed.
- `deasync.loopWhile` at index.js:211 and 227: the model takes the exchange's and the first sync's outcome as inputs and goes straight on.
- `setInterval`, `clearInterval`, `destroy` and the poll and sync interval values (index.js:231-256): only the body of one timer tick is modelled (`PollTick`, `AccountSyncTick`). Overlapping ticks, and promise interleavings across `await` points, are not modelled.
- `Date.now()` is the parameter `now`. `lastPoll` moves forward only if the clock does; neither the code nor the model checks that.
- `_chat_history`, `history`: they divide by 1000 without flooring, which gives fractional seconds (floating point).
- `send`, `tell`, `_send`, `_tell`, `_get_token`, `_account_data`: one-line wrappers over a request. What they return is the settled reply (`Settle`); the body of `_get_token`'s reply enters `Create` as its `exchange` input.
- Exceptions thrown by host handlers, and how they would escape `_send_event` and the promise chain. Handlers are opaque: they cannot throw or re-enter the client.
- Floating-point rounding of `message.t *= 1000`: `t` is a real number here.
- Message fields other than id, t, from_user, to_user, channel and msg (such as `is_join`) are not represented. The code carries them through unchanged.
- `Object.keys` puts integer-like keys first in numeric order. The model takes the pairs to be in `Object.keys` order already.
- Handlers registered and data objects shared by reference: the `accountSync` payload is `this.users` itself, so a handler that mutated it would change the client's state. The model passes values.
- `tokenOrPass.length` counts UTF-16 code units; the model counts the characters of a Dafny string.
- ChatApi.HackmudChatApi.Create: the code throws only if the rejection value is truthy (`if (derr)`), and the first sync's error is emitted on the same condition. The model treats every failure as an error; a reply body of `null` with a failing status is not distinguished.
- pass2token.js is not part of this model: a command-line script that makes one request and prints the result.
