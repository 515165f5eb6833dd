/** Identifiers and wire packets shared by the server, its tables and the browser client. */
module ChatTypes {

  datatype Option<+T> = None | Some(value: T)

  function Min(a: int, b: int): int { if a < b then a else b }

  // Users, chats and connections carry opaque, pairwise distinct identifiers.
  type UserId = nat
  type ChatId = nat
  type ClientId = nat

  // Row k of the messages table has id k. A negative id names no row, now or later:
  // identifiers are generated, so an acknowledgement can only name an existing row or none at all.
  type MsgId = int

  datatype Status = Sent | Delivered | Read

  function Rank(s: Status): nat {
    match s
    case Sent => 0
    case Delivered => 1
    case Read => 2
  }

  /** Everything a server tells a browser beyond direct messages and their receipts. */
  datatype Notice =
    | RateLimited
    | Pong
    | PresenceIs(user: UserId, online: bool)
    | TypingIs(from: UserId, chat: ChatId)
    | Relayed(from: UserId, payload: nat)  // call signalling, its content opaque
    | NotAMember
    | NameIsTaken
    | GroupCopy(group: nat, message: nat, from: UserId, body: string)
    | GroupSent(message: nat)
    | GroupCreated(group: nat, name: string)
    | MemberAdded(group: nat, user: UserId)
    | LeftGroup(group: nat)

  /** What the server puts on a connection's queue. Correlation ids of clients are naturals of their own. */
  datatype Packet =
    | Message(mid: MsgId, from: UserId, body: string, timestamp: int)
    | SentAck(mid: MsgId, clientId: nat)
    | ReadNotice(mid: MsgId)
    | Other(notice: Notice)
}
