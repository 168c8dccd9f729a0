/** The records and enumerations every part of the console shares. */
module Types {
  import opened Wrappers

  /** The session's connection status; exactly one holds at any time. */
  datatype ConnectionState = Disconnected | Connecting | Connected | Error

  /** The kind a logged frame is tagged with. */
  datatype MessageType =
    | Auth | HeartbeatPing | HeartbeatPong | System | Error
    | Json | Text | Xml | Binary

  /** The string each kind stands for; this, not the variant's name, is what is shown and searched. */
  function Tag(t: MessageType): string
  {
    match t
    case Auth => "AUTH"
    case HeartbeatPing => "PING"
    case HeartbeatPong => "PONG"
    case System => "SYSTEM"
    case Error => "ERROR"
    case Json => "JSON"
    case Text => "TEXT"
    case Xml => "XML"
    case Binary => "BINARY"
  }

  /** The kind whose tag is `s`, if any. */
  function KindOfTag(s: string): (r: Option<MessageType>)
    ensures r.Some? ==> Tag(r.value) == s
  {
    if s == "AUTH" then Some(Auth)
    else if s == "PING" then Some(HeartbeatPing)
    else if s == "PONG" then Some(HeartbeatPong)
    else if s == "SYSTEM" then Some(System)
    else if s == "ERROR" then Some(MessageType.Error)
    else if s == "JSON" then Some(Json)
    else if s == "TEXT" then Some(Text)
    else if s == "XML" then Some(Xml)
    else if s == "BINARY" then Some(Binary)
    else None
  }

  /** Every tag leads back to its kind, so no two kinds share a tag. */
  lemma {:induction false} TagsDistinct(a: MessageType, b: MessageType)
    ensures KindOfTag(Tag(a)) == Some(a)
    ensures Tag(a) == Tag(b) ==> a == b
  {
    match a
    case Auth =>
    case HeartbeatPing =>
    case HeartbeatPong =>
    case System =>
    case Error =>
    case Json =>
    case Text =>
    case Xml =>
    case Binary =>
  }

  /**
   * One logged frame. `id` is assigned when the frame is logged; `kind` is the
   * source's `type` field; `sender` is never set by the session.
   */
  datatype WSMessage = WSMessage(id: nat, kind: MessageType, content: string, sender: Option<string>, isOutgoing: bool)

  /** Connection settings; the heartbeat message is sent verbatim. */
  datatype ConnectionConfig = ConnectionConfig(
    url: string,
    token: string,
    enableHeartbeat: bool,
    heartbeatInterval: int,
    heartbeatMessage: string)

  /** The settings the console starts with. */
  const DefaultConfig := ConnectionConfig("ws://localhost:8080/ws", "", true, 30000, "{\"type\":\"PING\"}")

  /** One second of traffic: frames in, frames out and a synthetic latency. */
  datatype MetricPoint = MetricPoint(time: string, inbound: nat, outbound: nat, latency: int)

  /** One line of the editable protocol cheat-sheet (`labelText` is the source's `label`). */
  datatype ProtocolSpecItem = ProtocolSpecItem(id: string, labelText: string, color: string, format: string)
}
