# Cardirector client user cache and server session agent, in Dafny

This project models two stateful components of Cardirector's networking
layer and proves what they promise.

- **The client facade** (`CClient`). The client keeps a cache of the users
  the server has announced: a map from user id to a `CClientUser` record,
  plus the client's own record, `self`. Server pushes run registered
  callbacks that change this cache: replace the user list, add a user,
  remove a user, log in, speak, and a few that only forward their payload.
  The game-level actions (sign up, log in, create/enter/exit a room, speak,
  add a robot, start the game, fetch the room list) each send one
  notification with a fixed command and argument list. The process-wide
  callback and interaction tables, and `Init`'s registrations, are modelled
  too.
- **The server session agent** (`CServerAgent`). Each connection has an
  agent. It refers to the room it sits in, stages the request being
  serviced (`prepareRequest`), has a ready flag, announces its identity
  (`briefIntroduction`) and broadcasts property changes
  (`broadcastProperty`).

Files:

- `protocol.dfy`: module `Protocol`. The payload (a QVariant limited to
  null, `uint`, string and list), the command codes, and the conversions
  `toList`, `toUInt` and `toString`.
- `user_cache.dfy`: module `UserCache`. The cache as a value (id to
  record). It defines what `addUser` does to the cache, and what a whole
  list of `addUser` calls does. Lemmas say which ids end up cached and with
  which record.
- `client.dfy`: module `ClientFacade`. Class `Client` holds the fields
  `users`, `self`, an event log for the Qt signals, and an outbox for what
  goes to the packet router. Class `Registry` holds the callback tables.
  The records are `ClientUser` objects, so object identity is modelled:
  the model can say whether `self` is still the object cached under its id.
- `server_agent.dfy`: module `Server`. Class `ServerAgent`, whose outbox
  tells a room-wide broadcast from a notification sent only to the agent's
  own connection.
- `handshake.dfy`: module `Handshake`. The client's `addUser` reads back
  exactly what an agent's `briefIntroduction` announces.
- `scenarios.dfy`: scenarios verified from the contracts alone. They
  cover logging in, a user list that names self's id, a user list that
  does not, removing self (which leaves `self` pointing to a deleted
  record), and an agent's lifecycle.

Where the intended behaviour and the code disagree, the model follows the
code:

- The intended behaviour is that replacing the user list keeps self's
  record identity. The code does this only when the list does not name self's id.
  If the list names it, `addUser` stores a new record under that id, and
  `self` no longer points to the cached record
  (`src/client/cclient.cpp:221-225`, see `Scenarios.UserListNamingSelf`).
- The intended behaviour is that self's id stays cached once the client is
  logged in. The remove-user callback removes self's entry like any other
  and deletes its record, but leaves `self` pointing to it. A later speak
  action, or a user-list replacement while the cache is non-empty, then
  uses a deleted object (`src/client/cclient.cpp:235-245`, see
  `Scenarios.RemoveSelf`).
- The intended behaviour of `broadcastProperty` outside a room is to send the triple
  `(name, value, id)`. The code sends the two-element list `[name, value]`
  (`src/server/cserveragent.cpp:102-106`).

## Model

| member | source | states |
|---|---|---|
| `UserCache.ParseUser` | src/client/cclient.cpp:159-176 | a payload that `addUser` accepts always yields a record with a non-zero id |
| `UserCache.ValidIds` | src/client/cclient.cpp:224-225 | every id that a user list adds is non-zero |
| `UserCache.ValidIdsWitness` | src/client/cclient.cpp:224-225 | an id is added by a list exactly when some element of the list is accepted with that id |
| `UserCache.LastEntry` | src/client/cclient.cpp:224-225 | the last element of the list that is accepted with a given id: it exists exactly when the list adds that id, and no later element is accepted with the same id |
| `UserCache.AddUserTo` | src/client/cclient.cpp:165-175 | one `addUser` on the cache as a value: a refused payload leaves the cache as it is; an accepted one adds its id to the keys and maps it to the parsed record. That other entries keep their records is stated, for any list of payloads, by `UserCache.ApplyUsersEntries` |
| `UserCache.ApplyUsers` | src/client/cclient.cpp:224-225 | the foreach over a user list as a value: `addUser` applied to each element, first to last; the keys become the old keys plus the list's valid ids. Which record each key holds is stated by `UserCache.ApplyUsersEntries` |
| `UserCache.ApplyUsersEntries` | src/client/cclient.cpp:165-172 | after `addUser` runs over a list, each id of the list maps to the record of its last valid entry (last writer wins); every other id keeps its old record |
| `UserCache.ReplaceUsers` | src/client/cclient.cpp:215-225 | the user-list callback on the cache as a value: a non-empty cache is cut down to self's record, then the list is applied; the keys become self's id (if the cache was non-empty) plus the list's valid ids, so every other earlier entry is gone. Which record each key holds is stated by `UserCache.ReplaceUsersEntries` |
| `UserCache.ReplaceUsersEntries` | src/client/cclient.cpp:215-225 | after the user-list replacement, self keeps its record unless the list names its id, and each id of the list maps to the record of its last valid entry |
| `UserCache.Least` | src/client/cclient.cpp:136-142 | a non-empty set of ids has a least element, the first key visited in ascending order |
| `ClientFacade.ClientUser.constructor` | src/client/cclient.cpp:167-169 | a new record carries the given id, screen name and avatar |
| `ClientFacade.Client.constructor` | src/client/cclient.cpp:39-51 | a new client has an empty cache, no self, no events and nothing sent |
| `ClientFacade.Client.FindUser` | src/client/cclient.cpp:144-147 | null exactly when the id is not cached; otherwise the record cached under that id, whose own id is that id |
| `ClientFacade.Client.Users` | src/client/cclient.cpp:136-142 | every cached record exactly once, in strictly ascending id order |
| `ClientFacade.Client.AddUser` | src/client/cclient.cpp:159-176 | with fewer than 3 elements or an id of 0: returns null and the cache is unchanged; otherwise: returns a new record with the list's id, screen name (element 1) and avatar (element 2), stored under that id, overwriting any earlier entry, with all other entries unchanged |
| `ClientFacade.Client.AddUsers` | src/client/cclient.cpp:224-225 | the foreach loop: the cache becomes `addUser` applied to each element in order; each id the list adds maps to a new record; every other entry is untouched |
| `ClientFacade.Client.SetUserListCommand` | src/client/cclient.cpp:210-226 | the new ids are exactly self's id (if the cache was non-empty) plus the list's valid ids; ids of the list map to new records, and the remaining id maps to the self object itself; every earlier record other than self is deleted |
| `ClientFacade.Client.AddUserCommand` | src/client/cclient.cpp:228-233 | `addUser`'s effect, then exactly one `userAdded`, which carries null when the payload was refused |
| `ClientFacade.Client.RemoveUserCommand` | src/client/cclient.cpp:235-245 | an unknown id changes nothing and emits nothing; a cached id emits exactly one `userRemoved` for its record, removes exactly that key and deletes that record |
| `ClientFacade.Client.LoginCommand` | src/client/cclient.cpp:247-252 | self becomes `addUser`'s result (null for a refused payload), and `loggedIn` is emitted exactly once either way |
| `ClientFacade.Client.SetRoomListCommand` | src/client/cclient.cpp:254-258 | one `roomListUpdated` carrying the payload; the cache is untouched |
| `ClientFacade.Client.SpeakCommand` | src/client/cclient.cpp:260-276 | fewer than 2 arguments: no event; null sender: one system message; cached sender: one message on that record; unknown sender: no event |
| `ClientFacade.Client.EnterRoomCommand` | src/client/cclient.cpp:278-282 | one `roomEntered` carrying the payload |
| `ClientFacade.Client.NetworkDelayCommand` | src/client/cclient.cpp:284-288 | the probe's payload is sent back unchanged as one network-delay notification |
| `ClientFacade.Client.StartGameCommand` | src/client/cclient.cpp:290-294 | one `gameStarted`; the payload is ignored |
| `ClientFacade.Client.Signup` | src/client/cclient.cpp:86-91 | one signup notification `[username, password, screenName, avatar]`; nothing else changes |
| `ClientFacade.Client.Login` | src/client/cclient.cpp:93-98 | one login notification `[username, password]`; nothing else changes |
| `ClientFacade.Client.CreateRoom` | src/client/cclient.cpp:100-103 | one create-room notification without data |
| `ClientFacade.Client.EnterRoom` | src/client/cclient.cpp:105-108 | one enter-room notification carrying the room id |
| `ClientFacade.Client.ExitRoom` | src/client/cclient.cpp:110-113 | one enter-room notification without data |
| `ClientFacade.Client.SpeakToServer` | src/client/cclient.cpp:115-119 | self's speak signal, then one speak notification carrying the message |
| `ClientFacade.Client.AddRobot` | src/client/cclient.cpp:121-124 | one add-robot notification without data |
| `ClientFacade.Client.StartGame` | src/client/cclient.cpp:126-129 | one start-game notification without data |
| `ClientFacade.Client.FetchRoomList` | src/client/cclient.cpp:154-157 | one set-room-list notification without data |
| `ClientFacade.Client.RequestServer` | src/client/cclient.cpp:178-181 | one request with the given command, data and timeout goes to the router |
| `ClientFacade.Client.ReplyToServer` | src/client/cclient.cpp:183-186 | one reply with the given command and data goes to the router |
| `ClientFacade.Client.NotifyServer` | src/client/cclient.cpp:188-191 | one notification with the given command and data goes to the router |
| `ClientFacade.Registry.constructor` | src/client/cclient.cpp:36-37 | both tables start empty |
| `ClientFacade.Registry.AddInteraction` | src/client/cclient.cpp:70-73 | binds the command to the handler in the interaction table, replacing any earlier binding |
| `ClientFacade.Registry.AddCallback` | src/client/cclient.cpp:75-78 | binds the command to the handler in the callback table, replacing any earlier binding |
| `ClientFacade.Registry.Init` | src/client/cclient.cpp:296-307 | the callback table becomes `Registered` of the old table, so each push command is bound to its handler |
| `ClientFacade.Registered` | src/client/cclient.cpp:298-306 | the callback table after `Init`'s nine registrations: each of the nine push commands is bound to its own handler, whatever the table held before; every other command is left as it was |
| `Server.ServerAgent.constructor` | src/server/cserveragent.cpp:39-47 | a new agent belongs to its server, is in no room, is not ready, has null staged data and has sent nothing |
| `Server.ServerAgent.SetRoom` | src/server/cserveragent.cpp:59-67 | afterwards the room is the one given; no other field changes |
| `Server.ServerAgent.PrepareRequest` | src/server/cserveragent.cpp:78-82 | afterwards the staged command and data are the ones given (a later call overwrites both); room and ready are unchanged |
| `Server.ServerAgent.BriefIntroduction` | src/server/cserveragent.cpp:69-76 | exactly the 3-element list `[id, screenName, avatar]`, in that order |
| `Server.ServerAgent.BroadcastProperty` | src/server/cserveragent.cpp:94-108 | inside a room: exactly one room broadcast of `UPDATE_USER_PROPERTY` with `[name, value, id]`; outside a room: exactly one notification to the agent's own connection with `[name, value]`; room, staged request and ready are unchanged |
| `Handshake.IntroductionRoundTrip` | src/server/cserveragent.cpp:69-76 | the client's `addUser` reads back exactly the record an agent announces, and refuses an agent whose id is 0 |
| `Handshake.IntroductionsAdd` | src/client/cclient.cpp:224-225 | a user list made of introductions adds exactly the non-zero ids it announces, each with the record of its last introduction |

## Left out

- The packet router (`cpacketrouter` is not part of this model). Request and reply correlation, timeouts, `requestTimeout` and `waitForReply` are left out. `requestServer`, `replyToServer` and `notifyServer` only append to the outbox. Dispatching a push through the callback table to its handler is left out too.
- `connectToHost`, the TCP socket and its `connected` signal: I/O.
- `setPacketParser`, `packetParser` and the destructors: these concern memory ownership, not behaviour. `deleteLater` is modelled as the ghost set `Client.deleted`, which the remove-user and user-list callbacks grow; the freeing of memory itself, and the event-loop delay before it, are not modelled.
- The `qobject_cast` of the receiver in every callback, and `toUser`/`toRobot` on the agent: runtime type casts. The client and the agent are used directly.
- Conversions of the payload. `toUInt` reads only a number, so a numeric string reads as 0 here, although Qt would parse it. Booleans, negative and floating-point numbers, and maps are not payload shapes here.
- `CClientUser`'s setters are folded into its constructor, because the core calls them only right after creating the record. Its per-user `speak` signal is logged among the client's events.
- `CAbstractUser` is not part of this model. The agent's id, screen name and avatar are given to its constructor, and its `notify` is the outbox's direct notification.
- `QObject::property(name)` is taken as a function argument to `BroadcastProperty`. `CRoom` is not part of this model: a room is an identity, and `broadcastNotification` is an outbox entry, without membership.
- The `ready` flag is only initialised, because no member of the agent's file changes it. The staged command is uninitialised in the constructor, so the model says nothing about it until the first `prepareRequest`.
- Command codes are an enumeration. Their integer values live in the protocol header, which is not part of this model.
- `ClientFacade.Client.SetUserListCommand`: requires `self` to be set and not deleted whenever the cache is non-empty. The source dereferences `self` in that case, so a user pushed before a successful login, or a removal of self's id, would make it use a null or deleted object; the model does not describe that crash.
- `ClientFacade.Client.SpeakToServer`: requires `self` to be set and not deleted, because the source dereferences it; after the remove-user callback removed self's id that would be a use after free.
- `src/ai/caiengine.cpp`: the scripting bridge for robots, which calls into a foreign runtime.
