/** The WebSocket `readyState` values and frame shapes shared by every socket in the system. */
module Sockets {
  import opened Wrappers

  datatype ReadyState = Connecting | Open | Closing | Closed

  /** Close codes used on the client-facing socket. */
  const NormalClosure: int := 1000
  const ProtocolError: int := 1002
  const PolicyViolation: int := 1008
  const InternalError: int := 1011

  /**
   * The `message` field of a JSON frame as the client hooks read it: absent,
   * a string, or an object whose `content` may be absent.
   */
  datatype FrameMessage = NoMessage | Text(s: string) | Object(content: Option<string>)

  /** What `message.content` evaluates to; reading it on an absent message throws. */
  function ContentOf(m: FrameMessage): (c: Option<string>)
    requires !m.NoMessage?
    ensures m.Object? ==> c == m.content
    ensures m.Text? ==> c.None?
  {
    if m.Object? then m.content else None
  }
}
