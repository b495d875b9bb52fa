/** The server-side session agent: the per-connection object standing for a
    user or a robot. It refers to (does not own) the room it sits in, holds
    the request currently being serviced, and announces its identity and
    property changes. What it sends is modelled as an outbox that tells a
    room-wide broadcast from a notification to its own connection. */
module Server {
  import opened Protocol

  /** The server and rooms an agent refers to, by identity only. */
  type ServerId = nat
  type RoomId = nat

  datatype Send =
    | RoomBroadcast(room: RoomId, command: Command, data: Payload)
    | DirectNotify(command: Command, data: Payload)

  /** What briefIntroduction returns for an agent. */
  function Introduction(id: uint32, screenName: string, avatar: string): Payload
  {
    List([UInt(id), Str(screenName), Str(avatar)])
  }

  class ServerAgent {
    const server: ServerId
    // Identity, kept by the abstract user base class.
    const id: uint32
    const screenName: string
    const avatar: string

    var room: Option<RoomId>
    var requestCommand: Command
    var requestData: Payload
    var ready: bool
    var sent: seq<Send>

    /** A new agent belongs to its server, is in no room and is not ready.
        No request has been staged yet: the staged data is null and the
        staged command is left uninitialised, so nothing is said about it. */
    constructor (server: ServerId, id: uint32, screenName: string, avatar: string)
      ensures this.server == server && this.id == id
      ensures this.screenName == screenName && this.avatar == avatar
      ensures room == None && !ready
      ensures requestData == Null
      ensures sent == []
    {
      this.server := server;
      this.id := id;
      this.screenName := screenName;
      this.avatar := avatar;
      room := None;
      ready := false;
      requestData := Null;
      sent := [];
    }

    method SetRoom(room: Option<RoomId>)
      modifies this`room
      ensures this.room == room
    {
      this.room := room;
    }

    /** Stages the request an interaction handler is about to service; a
        later call overwrites both parts. */
    method PrepareRequest(command: Command, data: Payload)
      modifies this`requestCommand, this`requestData
      ensures requestCommand == command && requestData == data
    {
      requestCommand := command;
      requestData := data;
    }

    /** The agent's identity as a three-element list `[id, screenName, avatar]`. */
    method BriefIntroduction() returns (intro: Payload)
      ensures intro == Introduction(id, screenName, avatar)
      ensures |ToList(intro)| == 3
      ensures ToUInt(ToList(intro)[0]) == id
    {
      var arguments: seq<Payload> := [];
      arguments := arguments + [UInt(id)];
      arguments := arguments + [Str(screenName)];
      arguments := arguments + [Str(avatar)];
      intro := List(arguments);
    }

    /** Announces the current value of property `name`, looked up with
        `property`: inside a room, one broadcast of `[name, value, id]` to the
        room; outside a room, one notification of `[name, value]` to the
        agent's own connection. Nothing but the outbox changes. */
    method BroadcastProperty(name: string, property: string -> Payload)
      modifies this`sent
      ensures room.Some? ==>
        sent == old(sent) + [RoomBroadcast(room.value, UpdateUserProperty, List([Str(name), property(name), UInt(id)]))]
      ensures room.None? ==>
        sent == old(sent) + [DirectNotify(UpdateUserProperty, List([Str(name), property(name)]))]
    {
      var data: seq<Payload> := [];
      data := data + [Str(name)];
      data := data + [property(name)];
      if room.Some? {
        data := data + [UInt(id)];
        assert data == [Str(name), property(name), UInt(id)];
        sent := sent + [RoomBroadcast(room.value, UpdateUserProperty, List(data))];
      } else {
        assert data == [Str(name), property(name)];
        sent := sent + [DirectNotify(UpdateUserProperty, List(data))];
      }
    }
  }
}
