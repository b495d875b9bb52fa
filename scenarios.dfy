/** Concrete runs of the client and the agent, written as methods whose
    assertions follow from the contracts alone. */
module Scenarios {
  import opened Protocol
  import opened ClientFacade
  import opened Server

  /** login("alice", "pw") sends one login notification; the server's
      answer `[7, "alice", "avatar.png"]` makes user 7 self, cached under
      its id, and loggedIn fires once. */
  method LoginRoundTrip()
  {
    var client := new Client();
    client.Login("alice", "pw");
    assert client.outbox == [Notify(Command.Login, List([Str("alice"), Str("pw")]))];
    client.LoginCommand(List([UInt(7), Str("alice"), Str("avatar.png")]));
    assert client.self != null && client.self.Info() == UserCache.UserInfo(7, "alice", "avatar.png");
    assert client.FindUser(7) == client.self;
    assert client.events == [LoggedIn];
  }

  /** A user list that names self's id again leaves one entry under that id,
      but it is a new record: self is no longer the cached record. */
  method UserListNamingSelf()
  {
    var client := new Client();
    client.LoginCommand(List([UInt(7), Str("alice"), Str("a.png")]));
    var me := client.self;
    assert me != null;
    client.SetUserListCommand(List([List([UInt(7), Str("alice"), Str("a.png")])]));
    assert UserCache.Adds(List([UInt(7), Str("alice"), Str("a.png")]), 7);
    assert client.users.Keys == {7};
    assert client.users[7] != me;
    assert client.self == me;
  }

  /** A user list that does not name self keeps self's record under its id
      and drops every other earlier entry. */
  method UserListKeepingSelf()
  {
    var client := new Client();
    client.LoginCommand(List([UInt(7), Str("alice"), Str("a.png")]));
    client.AddUserCommand(List([UInt(8), Str("bob"), Str("b.png")]));
    var me := client.self;
    var carol := List([UInt(9), Str("carol"), Str("c.png")]);
    client.SetUserListCommand(List([carol]));
    assert UserCache.Adds(carol, 9);
    assert client.users.Keys == {7, 9};
    assert client.users[7] == me;
  }

  /** Removing an unknown id emits nothing. Removing self's id drops self
      from the cache and deletes its record, yet self stays set: it now
      points to a deleted record, which neither speaking nor a user-list
      replacement of a non-empty cache may use. */
  method RemoveSelf()
  {
    var client := new Client();
    client.LoginCommand(List([UInt(7), Str("alice"), Str("a.png")]));
    client.RemoveUserCommand(UInt(5));
    assert client.events == [LoggedIn];
    client.RemoveUserCommand(UInt(7));
    assert client.self != null && 7 !in client.users;
    assert client.self in client.deleted;
    assert |client.events| == 2 && client.events[1] == UserRemoved(client.self);
  }

  /** An agent starts outside any room and not ready; the last staged
      request wins; broadcasting inside a room reaches the room with the id,
      outside it only the agent's own connection without the id. */
  method AgentLifecycle()
  {
    var agent := new ServerAgent(1, 3, "bob", "b.png");
    assert agent.room == None && !agent.ready;
    agent.PrepareRequest(Command.Speak, Str("hi"));
    agent.PrepareRequest(Command.AddRobot, Null);
    assert agent.requestCommand == Command.AddRobot && agent.requestData == Null;
    var names := (name: string) => if name == "screenName" then Str("Bob") else Null;
    agent.BroadcastProperty("screenName", names);
    assert agent.sent == [DirectNotify(UpdateUserProperty, List([Str("screenName"), Str("Bob")]))];
    agent.SetRoom(Some(4));
    agent.BroadcastProperty("screenName", names);
    assert agent.sent[1] == RoomBroadcast(4, UpdateUserProperty, List([Str("screenName"), Str("Bob"), UInt(3)]));
    assert agent.requestCommand == Command.AddRobot && !agent.ready;
  }
}
