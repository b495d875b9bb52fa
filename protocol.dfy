/** The values the client and the server exchange: the command codes both
    peers share and the structured payload (a QVariant) a packet carries. */
module Protocol {

  datatype Option<+T> = None | Some(value: T)

  /** Qt's `uint`: the type of every user id. */
  type uint32 = x: int | 0 <= x < 0x1_0000_0000

  /** The payload of a packet, restricted to the shapes the client cache and
      the server agent exchange: null, an unsigned number, a string and a list. */
  datatype Payload =
    | Null
    | UInt(n: uint32)
    | Str(s: string)
    | List(items: seq<Payload>)

  /** The command codes (S_COMMAND_*) used by the client facade and the server
      agent. Their integer values are defined outside this model. */
  datatype Command =
    | Signup
    | Login
    | CreateRoom
    | EnterRoom
    | Speak
    | AddRobot
    | StartGame
    | SetRoomList
    | SetUserList
    | AddUser
    | RemoveUser
    | NetworkDelay
    | UpdateUserProperty

  /** QVariant::toList: the items of a list, and the empty list for anything else. */
  function ToList(p: Payload): seq<Payload>
  {
    if p.List? then p.items else []
  }

  /** QVariant::toUInt: the value of a number; any other payload reads as 0. */
  function ToUInt(p: Payload): uint32
  {
    if p.UInt? then p.n else 0
  }

  /** QVariant::toString: a string as it is, a number in decimal, anything else empty. */
  function ToStr(p: Payload): string
  {
    match p
    case Str(s) => s
    case UInt(n) => Decimal(n)
    case _ => ""
  }

  /** The decimal digits of `n`, most significant first. */
  function Decimal(n: nat): string
    decreases n
  {
    (if n < 10 then "" else Decimal(n / 10)) + ["0123456789"[n % 10]]
  }
}
