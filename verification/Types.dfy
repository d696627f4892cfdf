/**
 Values shared by the gateway (sessions, router, rooms) and the chat store.

 A server message id is an integer: the rank of the UUID in the clustering order of the
 message tables.  The ids are 128-bit values, so whatever strict total order a table puts on
 them, the rank carries both identity and order.  Sessions and room actors are named by the
 order in which they were created; a session's name also stands for its two channels.
 */
module Types {
  datatype Option<+T> = None | Some(value: T)

  datatype UserId = UserId(project: string, user: string)

  type RoomId = string
  type MsgId = int
  type ClientId = int
  type SessionId = nat
  type ActorId = nat

  /** How often the persist handlers let a broken write call be made again. */
  const MAX_RETRIES := 3

  /** What the server pushes into a session's bounded channel. */
  datatype ChatMessage =
    | DirectMessage(from: UserId, content: string, id: MsgId)
    | RoomMessage(room: RoomId, from: UserId, content: string, id: MsgId)

  datatype Status = Persisted | Failed

  datatype Ack = Ack(client: ClientId, id: MsgId, status: Status)
}
