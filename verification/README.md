# iirose-subscribe, modelled in Dafny

A model of the `iirose-subscribe` Koishi plugin. The plugin keeps one
boolean per user in the `iirose_subscribe` table. Two admin-only commands
set that flag: `iirose.sub.on` and `iirose.sub.off`. A message listener
relays chat between the public room and the private channels of the users
whose flag is true.

- `plugin.dfy` (module `Plugin`): the platform name, the admin-list
  configuration, and the session fields the handlers read.
- `table.dfy` (module `Table`): the table as `map<string, bool>` keyed by
  uid. It also holds the database calls the plugin makes (`get` by uid,
  `set`, `create`, `get` of all rows with `status: true`).
- `commands.dfy` (module `Commands`): both commands, as one `Toggle` whose
  `target` is the status asked for. It returns a reply kind and the new
  table.
- `router.dfy` (module `Router`): the `message` listener. `Route` returns
  the list of `sendMessage` calls instead of making them. `Receives` is the
  reference definition of who gets a message.
- `lifecycle.dfy` (module `Lifecycle`): how a toggle changes who receives
  later messages, and an example run.

The relay never leaves out the sender. A subscriber's public-room line
comes back to their own private channel. A subscriber's private line goes to
the room and also back to their own private channel.

The subscriber listing comes back from the database in an order the model
does not fix. `QuerySubscribers` picks table keys in an arbitrary order, so
every property of `Route` holds for every listing order.

## Model

| member | source | states |
|---|---|---|
| Table.Get | src/index.ts:74 | A lookup by uid returns at most one row; it returns a row exactly when the uid has a record, and that row is the stored record |
| Table.Update | src/index.ts:81-83 | An update keeps the set of uids, replaces only the caller's record when it exists, and changes nothing when it does not |
| Table.Create | src/index.ts:88-91 | An insert with a fresh uid adds exactly that one record |
| Table.PrimaryKey | src/index.ts:56-61 | No two records share a uid, and the records are exactly the stored entries |
| Table.QuerySubscribers | src/index.ts:142-143 | The subscriber listing holds each uid whose status is true exactly once, and no other uid |
| Commands.Toggle | src/index.ts:68-126 | A wrong platform, then a caller not in the admin list, get their rejection and leave the table unchanged. A record already at the target gets the "already" notice and no write. Otherwise the caller's record holds the target, whether it existed or was created, and the reply confirms with the caller's name. No other uid's record appears, disappears or changes, and no record is ever deleted |
| Commands.ToggleIdempotent | src/index.ts:76-78 | Repeating an admitted command (on, or off at lines 107-109) gives the "already" notice and leaves the table as the first run left it |
| Commands.ToggleSubscribers | src/index.ts:79-93 | An admitted command adds the caller to the subscriber set (on) or removes them (off), and changes nothing else in that set |
| Commands.FirstSubscribeCreatesRecord | src/index.ts:86-93 | `sub.on` by an admin with no record adds exactly one record, with status true, and confirms with the caller's name |
| Commands.UnsubscribeWithoutRecordCreates | src/index.ts:117-124 | A missing record is not treated as "off": `sub.off` creates a false record and confirms instead of giving the notice |
| Commands.OnThenOff | src/index.ts:110-116 | `sub.on` then `sub.off` leaves the caller with a false record and everyone else as before |
| Router.AddressInjective | src/index.ts:146 | Two destination strings are equal exactly when the destinations are; `public` is never a user's `private:<uid>` |
| Router.ChannelKindsExclusive | src/index.ts:140-148 | No channel id starts with both `public` and `private`, so the order of the two tests does not matter |
| Router.FanOut | src/index.ts:143-147 | The fan-out sends one line to each listed uid's private channel, in list order, and nothing else. Sends are distinct when the uids are |
| Router.LineCarriesSenderAndContent | src/index.ts:146 | When the sender's name does not contain `*]`, the relayed line ` [*name*] ： content` determines both the name and the message, so two such messages never produce the same line |
| Router.Route | src/index.ts:128-160 | The sends are exactly the destinations `Receives` names, each once, all with the ` [*name*] ： content` line. Another platform or another channel kind gets nothing. The public room's message goes to every subscriber and not back to the room. A private line from a non-subscriber goes nowhere. A private line from a subscriber goes first to the room, then to every subscriber, the sender included |
| Lifecycle.SubscribeThenReceive | src/index.ts:86-93 | After an admitted `sub.on`, the caller's private channel receives every public-room message |
| Lifecycle.SubscribeThenRelayOwnLines | src/index.ts:148-158 | After an admitted `sub.on`, the caller's private lines reach the room and also their own private channel |
| Lifecycle.UnsubscribeSilences | src/index.ts:110-124 | After an admitted `sub.off`, the caller receives nothing, and nothing they write outside the room is relayed |
| Lifecycle.ToggleLeavesOthersRelaying | src/index.ts:81 | A toggle by one user does not change whether another user's messages reach any other user or the room |
| Lifecycle.EndToEnd | src/index.ts:68-160 | An example run: admin `u1` subscribes and a record `{u1, true}` is created. `u2`'s "hello" in the room reaches `u1` privately and not `u2`. `u1`'s private "hi" reaches the room |

## Left out

- The Koishi framework is not modelled, because it is configuration plumbing: the `Config` schema, the table declaration, command registration, the `ready` hook and the usage text (src/index.ts:1-44, 54-66). The primary-key declaration is kept, as the map representation.
- The database engine is not modelled. `get`, `set` and `create` are pure functions on the map. The unawaited `create` at lines 88 and 119 is modelled as finished before the reply.
- `sendMessage` is not modelled. `Route` returns the intended sends. The `forEach(async …)` sends run fire-and-forget and may finish in any order or fail; neither is modelled. The list gives only the order in which sends are issued.
- Concurrency is not modelled; the model is sequential. Two concurrent toggles can race in their read-then-write, and the model cannot show that.
- The reply texts are not modelled. The Chinese reply texts are a `Reply` enum, and the confirmations carry the caller's username.
- The handlers' implicit `undefined` return is not modelled: after the first two branches, the third test (`userData.length == 0`) always holds.
