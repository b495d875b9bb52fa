/** The client facade: a local cache of the users the server has announced,
    the client's own record (self), the callbacks the server's pushes run on
    that cache, and the game-level actions the client sends to the server.
    Signals are modelled as an event log and the packet router as an outbox
    of packets sent. */
module ClientFacade {
  import opened Protocol
  import opened UserCache

  /** A user record cached by the client. Its fields are set once, right
      after the record is created, so they are constants here. */
  class ClientUser {
    const id: uint32
    const screenName: string
    const avatar: string

    constructor (id: uint32, screenName: string, avatar: string)
      ensures Info() == UserInfo(id, screenName, avatar)
    {
      this.id := id;
      this.screenName := screenName;
      this.avatar := avatar;
    }

    function Info(): UserInfo
    {
      UserInfo(id, screenName, avatar)
    }
  }

  /** The record of a possibly null user. */
  function InfoOf(user: ClientUser?): Option<UserInfo>
  {
    if user == null then None else Some(user.Info())
  }

  /** The signals the client (or one of its users) emits. */
  datatype ClientEvent =
    | UserAdded(added: ClientUser?)
    | UserRemoved(removed: ClientUser)
    | LoggedIn
    | SystemMessage(message: string)
    | UserSpoke(speaker: ClientUser, message: string)
    | RoomListUpdated(data: Payload)
    | RoomEntered(data: Payload)
    | GameStarted

  /** What the client hands to its packet router. */
  datatype Outgoing =
    | Notify(command: Command, data: Payload)
    | Request(command: Command, data: Payload, timeout: int)
    | Reply(command: Command, data: Payload)

  class Client {
    var users: map<uint32, ClientUser>
    var self: ClientUser?
    var events: seq<ClientEvent>
    var outbox: seq<Outgoing>
    // The records handed to deleteLater: they must not be used again.
    ghost var deleted: set<ClientUser>

    /** Every cached record sits under its own id, and no id is 0 (addUser
        refuses it); no cached record has been deleted; self, when set, has a
        non-zero id too (but may have been deleted). */
    ghost predicate Valid()
      reads this
    {
      && (forall k :: k in users ==> k > 0 && users[k].id == k && users[k] !in deleted)
      && (self != null ==> self.id > 0)
    }

    /** The cache as a value: id to record. */
    ghost function View(): (cache: Cache)
      reads this
      ensures cache.Keys == users.Keys
    {
      map k | k in users :: users[k].Info()
    }

    constructor ()
      ensures Valid()
      ensures users == map[] && self == null && events == [] && outbox == []
      ensures deleted == {}
    {
      users := map[];
      self := null;
      events := [];
      outbox := [];
      deleted := {};
    }

    /** findUser: the record cached under `id`, or null. */
    function FindUser(id: uint32): (user: ClientUser?)
      requires Valid()
      reads this
      ensures user == null <==> id !in users
      ensures user != null ==> user == users[id] && user.id == id
    {
      if id in users then users[id] else null
    }

    /** users(): every cached record exactly once, in ascending id order
        (the order in which a QMap is iterated). */
    method Users() returns (list: seq<ClientUser>)
      requires Valid()
      ensures |list| == |users.Keys|
      ensures forall i :: 0 <= i < |list| ==> list[i].id in users && users[list[i].id] == list[i]
      ensures forall i, j :: 0 <= i < j < |list| ==> list[i].id < list[j].id
      ensures forall k :: k in users ==> users[k] in list
    {
      var rest := users.Keys;
      list := [];
      while rest != {}
        invariant rest <= users.Keys
        invariant |list| + |rest| == |users.Keys|
        invariant forall i :: 0 <= i < |list| ==>
          list[i].id in users && users[list[i].id] == list[i] && list[i].id !in rest
        invariant forall i, j :: 0 <= i < j < |list| ==> list[i].id < list[j].id
        invariant forall i, k :: 0 <= i < |list| && k in rest ==> list[i].id < k
        invariant forall k :: k in users && k !in rest ==> users[k] in list
        decreases rest
      {
        ghost var least := Least(rest);
        var k :| k in rest && forall j :: j in rest ==> k <= j;
        list := list + [users[k]];
        rest := rest - {k};
      }
    }

    /** addUser: a payload `[id, screenName, avatar, ...]` with a non-zero id
        stores a new record under that id, replacing any earlier one, and
        returns it; any other payload returns null and changes nothing. */
    method AddUser(data: Payload) returns (user: ClientUser?)
      requires Valid()
      modifies this`users
      ensures Valid()
      ensures user == null <==> ParseUser(data).None?
      ensures user == null ==> users == old(users)
      ensures user != null ==>
        && fresh(user)
        && ParseUser(data) == Some(user.Info())
        && users == old(users)[user.id := user]
      ensures View() == AddUserTo(old(View()), data)
    {
      var arguments := ToList(data);
      if |arguments| < 3 {
        return null;
      }
      var userId := ToUInt(arguments[0]);
      if userId > 0 {
        user := new ClientUser(userId, ToStr(arguments[1]), ToStr(arguments[2]));
        users := users[userId := user];
        return;
      }
      return null;
    }

    /** The foreach loop of the user-list callback: addUser on every element
        of `list`, first to last. Each id the list adds maps to a new record;
        every other entry keeps its record. */
    method AddUsers(list: seq<Payload>)
      requires Valid()
      modifies this`users
      ensures Valid()
      ensures View() == ApplyUsers(old(View()), list)
      ensures forall k :: k in users ==>
        if k in ValidIds(list) then fresh(users[k]) else k in old(users) && users[k] == old(users)[k]
    {
      var i := 0;
      while i < |list|
        invariant 0 <= i <= |list|
        invariant Valid()
        invariant View() == ApplyUsers(old(View()), list[..i])
        invariant forall k :: k in users ==>
          if k in ValidIds(list[..i]) then fresh(users[k]) else k in old(users) && users[k] == old(users)[k]
      {
        ghost var before := View();
        var _ := AddUser(list[i]);
        assert list[..i + 1][..i] == list[..i];
        assert ValidIds(list[..i + 1]) == ValidIds(list[..i]) + (if ParseUser(list[i]).Some? then {ParseUser(list[i]).value.id} else {});
        assert ApplyUsers(old(View()), list[..i + 1]) == AddUserTo(before, list[i]);
        i := i + 1;
      }
      assert list[..i] == list;
    }

    /** The user-list callback: a non-empty cache is cleared down to self,
        and every other cached record is deleted; then every element of the
        list goes through addUser. A list element with self's id replaces
        self's entry by a new record, so self is then no longer the record
        cached under its id. Self is dereferenced and cached again when the
        cache is non-empty, so it must be set and not deleted then. */
    method SetUserListCommand(data: Payload)
      requires Valid()
      requires users != map[] ==> self != null && self !in deleted
      modifies this`users, this`deleted
      ensures Valid()
      ensures deleted == old(deleted) + (set u | u in old(users).Values && u != self)
      ensures View() == ReplaceUsers(old(View()), InfoOf(self), ToList(data))
      ensures users.Keys == (if old(users) == map[] then {} else {self.id}) + ValidIds(ToList(data))
      ensures forall k :: k in users ==>
        if k in ValidIds(ToList(data)) then fresh(users[k]) else users[k] == self
    {
      var userList := ToList(data);
      ghost var base: Cache := map[];
      deleted := deleted + (set u | u in users.Values && u != self);
      if users != map[] {
        users := map[self.id := self];
        base := map[self.id := self.Info()];
      }
      assert View() == base;
      assert base == if old(View()) == map[] then old(View()) else map[self.id := self.Info()] by {
        assert old(View()).Keys == old(users.Keys);
      }
      AddUsers(userList);
      ReplaceUsersEntries(old(View()), InfoOf(self), userList);
    }

    /** The add-user callback: addUser, then a userAdded signal carrying its
        result, which is null when the payload was refused. */
    method AddUserCommand(data: Payload)
      requires Valid()
      modifies this`users, this`events
      ensures Valid()
      ensures View() == AddUserTo(old(View()), data)
      ensures match ParseUser(data)
        case None => users == old(users) && events == old(events) + [UserAdded(null)]
        case Some(info) =>
          && info.id in users
          && fresh(users[info.id])
          && users == old(users)[info.id := users[info.id]]
          && events == old(events) + [UserAdded(users[info.id])]
    {
      var user := AddUser(data);
      events := events + [UserAdded(user)];
    }

    /** The remove-user callback: an unknown id changes nothing and emits
        nothing; a cached id emits one userRemoved for its record, drops
        exactly that entry and deletes the record. Self is not reset, so
        removing self's id leaves self pointing to a deleted record. */
    method RemoveUserCommand(data: Payload)
      requires Valid()
      modifies this`users, this`events, this`deleted
      ensures Valid()
      ensures ToUInt(data) !in old(users) ==>
        users == old(users) && events == old(events) && deleted == old(deleted)
      ensures ToUInt(data) in old(users) ==>
        && users == old(users) - {ToUInt(data)}
        && events == old(events) + [UserRemoved(old(users)[ToUInt(data)])]
        && deleted == old(deleted) + {old(users)[ToUInt(data)]}
    {
      var userId := ToUInt(data);
      var user := FindUser(userId);
      if user != null {
        events := events + [UserRemoved(user)];
        users := users - {userId};
        deleted := deleted + {user};
      }
    }

    /** The login callback: self becomes addUser's result (null for a refused
        payload), and loggedIn is emitted exactly once either way. */
    method LoginCommand(data: Payload)
      requires Valid()
      modifies this`users, this`self, this`events
      ensures Valid()
      ensures View() == AddUserTo(old(View()), data)
      ensures self == null <==> ParseUser(data).None?
      ensures self == null ==> users == old(users)
      ensures self != null ==>
        && fresh(self)
        && ParseUser(data) == Some(self.Info())
        && users == old(users)[self.id := self]
      ensures events == old(events) + [LoggedIn]
    {
      self := AddUser(data);
      events := events + [LoggedIn];
    }

    /** The room-list callback: forwards the payload as a signal. */
    method SetRoomListCommand(data: Payload)
      modifies this`events
      ensures events == old(events) + [RoomListUpdated(data)]
    {
      events := events + [RoomListUpdated(data)];
    }

    /** The speak callback: `[who, message]`. Fewer than two elements emit
        nothing; a null sender is a system message; a cached sender's record
        emits the message; an unknown sender emits nothing. */
    method SpeakCommand(data: Payload)
      requires Valid()
      modifies this`events
      ensures var arguments := ToList(data);
        events == old(events) +
          if |arguments| < 2 then []
          else if arguments[0].Null? then [SystemMessage(ToStr(arguments[1]))]
          else if ToUInt(arguments[0]) in users then [UserSpoke(users[ToUInt(arguments[0])], ToStr(arguments[1]))]
          else []
    {
      var arguments := ToList(data);
      if |arguments| < 2 {
        return;
      }
      var who := arguments[0];
      var message := ToStr(arguments[1]);
      if who.Null? {
        events := events + [SystemMessage(message)];
      } else {
        var user := FindUser(ToUInt(who));
        if user != null {
          events := events + [UserSpoke(user, message)];
        }
      }
    }

    /** The enter-room callback: forwards the payload as a signal. */
    method EnterRoomCommand(data: Payload)
      modifies this`events
      ensures events == old(events) + [RoomEntered(data)]
    {
      events := events + [RoomEntered(data)];
    }

    /** The network-delay probe: echoed back to the server unchanged. */
    method NetworkDelayCommand(data: Payload)
      modifies this`outbox
      ensures outbox == old(outbox) + [Notify(Command.NetworkDelay, data)]
    {
      NotifyServer(Command.NetworkDelay, data);
    }

    /** The start-game callback: a gameStarted signal; the payload is ignored. */
    method StartGameCommand(data: Payload)
      modifies this`events
      ensures events == old(events) + [GameStarted]
    {
      events := events + [GameStarted];
    }

    method Signup(username: string, password: string, screenName: string, avatar: string)
      modifies this`outbox
      ensures outbox == old(outbox) +
        [Notify(Command.Signup, List([Str(username), Str(password), Str(screenName), Str(avatar)]))]
    {
      NotifyServer(Command.Signup, List([Str(username), Str(password), Str(screenName), Str(avatar)]));
    }

    method Login(username: string, password: string)
      modifies this`outbox
      ensures outbox == old(outbox) + [Notify(Command.Login, List([Str(username), Str(password)]))]
    {
      NotifyServer(Command.Login, List([Str(username), Str(password)]));
    }

    method CreateRoom()
      modifies this`outbox
      ensures outbox == old(outbox) + [Notify(Command.CreateRoom, Null)]
    {
      outbox := outbox + [Notify(Command.CreateRoom, Null)];
    }

    method EnterRoom(id: uint32)
      modifies this`outbox
      ensures outbox == old(outbox) + [Notify(Command.EnterRoom, UInt(id))]
    {
      outbox := outbox + [Notify(Command.EnterRoom, UInt(id))];
    }

    /** Leaving a room is an enter-room notification without a room id. */
    method ExitRoom()
      modifies this`outbox
      ensures outbox == old(outbox) + [Notify(Command.EnterRoom, Null)]
    {
      outbox := outbox + [Notify(Command.EnterRoom, Null)];
    }

    /** speakToServer: self's own speak signal first, then the notification.
        The source dereferences self, so self must be set and not deleted. */
    method SpeakToServer(message: string)
      requires self != null && self !in deleted
      modifies this`events, this`outbox
      ensures events == old(events) + [UserSpoke(self, message)]
      ensures outbox == old(outbox) + [Notify(Command.Speak, Str(message))]
    {
      events := events + [UserSpoke(self, message)];
      outbox := outbox + [Notify(Command.Speak, Str(message))];
    }

    method AddRobot()
      modifies this`outbox
      ensures outbox == old(outbox) + [Notify(Command.AddRobot, Null)]
    {
      outbox := outbox + [Notify(Command.AddRobot, Null)];
    }

    method StartGame()
      modifies this`outbox
      ensures outbox == old(outbox) + [Notify(Command.StartGame, Null)]
    {
      outbox := outbox + [Notify(Command.StartGame, Null)];
    }

    /** Asking for the room list is a set-room-list notification without data. */
    method FetchRoomList()
      modifies this`outbox
      ensures outbox == old(outbox) + [Notify(Command.SetRoomList, Null)]
    {
      NotifyServer(Command.SetRoomList, Null);
    }

    method RequestServer(command: Command, data: Payload, timeout: int)
      modifies this`outbox
      ensures outbox == old(outbox) + [Request(command, data, timeout)]
    {
      outbox := outbox + [Request(command, data, timeout)];
    }

    method ReplyToServer(command: Command, data: Payload)
      modifies this`outbox
      ensures outbox == old(outbox) + [Reply(command, data)]
    {
      outbox := outbox + [Reply(command, data)];
    }

    method NotifyServer(command: Command, data: Payload)
      modifies this`outbox
      ensures outbox == old(outbox) + [Notify(command, data)]
    {
      outbox := outbox + [Notify(command, data)];
    }
  }

  /** The client's static handlers, as the callback table refers to them. */
  datatype Handler =
    | OnSpeak
    | OnSetUserList
    | OnAddUser
    | OnRemoveUser
    | OnLogin
    | OnSetRoomList
    | OnEnterRoom
    | OnNetworkDelay
    | OnStartGame

  /** The handler Init registers for a command, if any: the server pushes
      the client reacts to. */
  function RegisteredHandler(command: Command): Option<Handler>
  {
    match command
    case Speak => Some(OnSpeak)
    case SetUserList => Some(OnSetUserList)
    case AddUser => Some(OnAddUser)
    case RemoveUser => Some(OnRemoveUser)
    case Login => Some(OnLogin)
    case SetRoomList => Some(OnSetRoomList)
    case EnterRoom => Some(OnEnterRoom)
    case NetworkDelay => Some(OnNetworkDelay)
    case StartGame => Some(OnStartGame)
    case _ => None
  }

  /** A callback table after Init's nine registrations, in Init's order:
      each push command is bound to its own handler, whatever the table held
      before, and every other command is left as it was. */
  function Registered(table: map<Command, Handler>): (r: map<Command, Handler>)
    ensures forall c :: RegisteredHandler(c).Some? ==> c in r && r[c] == RegisteredHandler(c).value
    ensures forall c :: RegisteredHandler(c).None? ==> (c in r <==> c in table) && (c in table ==> r[c] == table[c])
  {
    table[Command.Speak := OnSpeak][Command.SetUserList := OnSetUserList]
      [Command.AddUser := OnAddUser][Command.RemoveUser := OnRemoveUser]
      [Command.Login := OnLogin][Command.SetRoomList := OnSetRoomList]
      [Command.EnterRoom := OnEnterRoom][Command.NetworkDelay := OnNetworkDelay]
      [Command.StartGame := OnStartGame]
  }

  /** The process-wide interaction and callback tables every client's
      packet router consults. Registering a command again replaces its
      handler, as a hash insert does. */
  class Registry {
    var interactions: map<Command, Handler>
    var callbacks: map<Command, Handler>

    constructor ()
      ensures interactions == map[] && callbacks == map[]
    {
      interactions := map[];
      callbacks := map[];
    }

    method AddInteraction(command: Command, handler: Handler)
      modifies this`interactions
      ensures interactions == old(interactions)[command := handler]
    {
      interactions := interactions[command := handler];
    }

    method AddCallback(command: Command, handler: Handler)
      modifies this`callbacks
      ensures callbacks == old(callbacks)[command := handler]
    {
      callbacks := callbacks[command := handler];
    }

    /** Registers the client's nine push handlers, each under its command. */
    method Init()
      modifies this`callbacks
      ensures callbacks == Registered(old(callbacks))
    {
      AddCallback(Command.Speak, OnSpeak);
      AddCallback(Command.SetUserList, OnSetUserList);
      AddCallback(Command.AddUser, OnAddUser);
      AddCallback(Command.RemoveUser, OnRemoveUser);
      AddCallback(Command.Login, OnLogin);
      AddCallback(Command.SetRoomList, OnSetRoomList);
      AddCallback(Command.EnterRoom, OnEnterRoom);
      AddCallback(Command.NetworkDelay, OnNetworkDelay);
      AddCallback(Command.StartGame, OnStartGame);
    }
  }
}
