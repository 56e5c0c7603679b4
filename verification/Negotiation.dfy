/** Stream negotiation: both sides exchange magic and version while reading the other's, the client sends a framed
    route address, the server answers with one byte. Two processes, two bounded byte channels, one byte a step. */
module Negotiation {
  import opened Prelude
  import opened Utf8
  import opened RouteAddress
  import opened Framing

  const MAGIC: seq<byte> := [0x4e, 0x59, 0x41, 0x4e]
  const MAX_ADDRESS: nat := 2048

  type ServiceId = nat

  datatype NegotiationError = ReadError | WriteError | ProtocolViolation | Refused | UnsupportedProtocolVersion

  /** One negotiation: the client's address, the service registry's answer to each address, each channel's capacity. */
  datatype Setup = Setup(address: Address, find: Address -> Option<ServiceId>, upRoom: nat, downRoom: nat) {
    function Text(): seq<byte> { Encode(Rendered(address)) }
  }

  datatype Client =
    | ClientHello(send: seq<byte>, got: seq<byte>)
    | ClientVersion
    | ClientFrame(send: seq<byte>)
    | ClientReply
    | ClientDone(outcome: Result<(), NegotiationError>)

  datatype Server =
    | ServerHello(send: seq<byte>, got: seq<byte>)
    | ServerVersion
    | ServerLength(got: seq<byte>)
    | ServerBody(length: nat, got: seq<byte>)
    | ServerReply(code: byte, outcome: Result<(Address, ServiceId), NegotiationError>)
    | ServerDone(outcome: Result<(Address, ServiceId), NegotiationError>)

  datatype State = State(client: Client, server: Server, up: seq<byte>, down: seq<byte>)

  // ---- the client ----

  /** The handshake is over when our hello is sent and theirs is read; the frame when its last byte is sent. */
  function ClientSettle(c: Client): Client {
    match c
    case ClientHello(send, got) =>
      if |got| == 4 && got != MAGIC then ClientDone(Err(ProtocolViolation))
      else if send == [] && |got| == 4 then ClientVersion else c
    case ClientFrame(send) => if send == [] then ClientReply else c
    case _ => c
  }

  function ClientPending(c: Client): seq<byte> {
    match c
    case ClientHello(send, _) => send
    case ClientFrame(send) => send
    case _ => []
  }

  predicate ClientReads(c: Client) {
    match c
    case ClientHello(_, got) => |got| < 4
    case ClientVersion => true
    case ClientReply => true
    case _ => false
  }

  function ClientSent(c: Client): Client
    requires ClientPending(c) != []
  {
    ClientSettle(c.(send := c.send[1..]))
  }

  function ClientGot(k: Setup, c: Client, b: byte): Client
    requires ClientReads(c)
  {
    match c
    case ClientHello(send, got) => ClientSettle(ClientHello(send, got + [b]))
    case ClientVersion => if b > 0 then ClientDone(Err(UnsupportedProtocolVersion)) else ClientFrame(Frame(k.Text()))
    case ClientReply => ClientDone(if b > 0 then Err(Refused) else Ok(()))
  }

  /** The other side is gone and everything it sent has been read. */
  function ClientEof(c: Client): Client {
    ClientDone(Err(if c.ClientHello? then ProtocolViolation else ReadError))
  }

  predicate ClientGone(c: Client) { c.ClientDone? && c.outcome.Err? }

  // ---- the server ----

  /** What the server makes of a complete address frame. */
  function Judge(find: Address -> Option<ServiceId>, text: seq<byte>): Server {
    match Decode(text)
    case None => ServerDone(Err(ProtocolViolation))
    case Some(s) =>
      match Parse(s)
      case Err(_) => ServerDone(Err(ProtocolViolation))
      case Ok(a) =>
        match find(a)
        case None => ServerReply(1, Err(Refused))
        case Some(service) => ServerReply(0, Ok((a, service)))
  }

  function ServerSettle(k: Setup, s: Server): Server {
    match s
    case ServerHello(send, got) =>
      if |got| == 4 && got != MAGIC then ServerDone(Err(ProtocolViolation))
      else if send == [] && |got| == 4 then ServerVersion else s
    case ServerLength(got) =>
      if |got| != 4 then s
      else if FromBigEndian(got) > MAX_ADDRESS then ServerDone(Err(ProtocolViolation))
      else if FromBigEndian(got) == 0 then Judge(k.find, [])
      else ServerBody(FromBigEndian(got), [])
    case ServerBody(length, got) => if |got| == length then Judge(k.find, got) else s
    case _ => s
  }

  function ServerPending(s: Server): seq<byte> {
    match s
    case ServerHello(send, _) => send
    case ServerReply(code, _) => [code]
    case _ => []
  }

  predicate ServerReads(s: Server) {
    match s
    case ServerHello(_, got) => |got| < 4
    case ServerVersion => true
    case ServerLength(_) => true
    case ServerBody(_, _) => true
    case _ => false
  }

  function ServerSent(k: Setup, s: Server): Server
    requires ServerPending(s) != []
  {
    match s
    case ServerHello(send, got) => ServerSettle(k, ServerHello(send[1..], got))
    case ServerReply(_, outcome) => ServerDone(outcome)
  }

  function ServerGot(k: Setup, s: Server, b: byte): Server
    requires ServerReads(s)
  {
    match s
    case ServerHello(send, got) => ServerSettle(k, ServerHello(send, got + [b]))
    case ServerVersion => if b > 0 then ServerDone(Err(UnsupportedProtocolVersion)) else ServerLength([])
    case ServerLength(got) => ServerSettle(k, ServerLength(got + [b]))
    case ServerBody(length, got) => ServerSettle(k, ServerBody(length, got + [b]))
  }

  function ServerEof(s: Server): Server {
    ServerDone(Err(if s.ServerVersion? then ReadError else ProtocolViolation))
  }

  predicate ServerGone(s: Server) { s.ServerDone? && s.outcome.Err? }

  // ---- both together ----

  datatype Action = ClientWrites | ClientWriteFails | ClientTakes | ClientEnds
                  | ServerWrites | ServerWriteFails | ServerTakes | ServerEnds

  /** Writes wait for room, reads for a byte; either fails once the other side has dropped the link. */
  predicate Enabled(k: Setup, s: State, a: Action) {
    match a
    case ClientWrites => ClientPending(s.client) != [] && |s.up| < k.upRoom
    case ClientWriteFails => ClientPending(s.client) != [] && ServerGone(s.server)
    case ClientTakes => ClientReads(s.client) && s.down != []
    case ClientEnds => ClientReads(s.client) && s.down == [] && ServerGone(s.server)
    case ServerWrites => ServerPending(s.server) != [] && |s.down| < k.downRoom
    case ServerWriteFails => ServerPending(s.server) != [] && ClientGone(s.client)
    case ServerTakes => ServerReads(s.server) && s.up != []
    case ServerEnds => ServerReads(s.server) && s.up == [] && ClientGone(s.client)
  }

  function Do(k: Setup, s: State, a: Action): State
    requires Enabled(k, s, a)
  {
    match a
    case ClientWrites => s.(client := ClientSent(s.client), up := s.up + [ClientPending(s.client)[0]])
    case ClientWriteFails => s.(client := ClientDone(Err(WriteError)))
    case ClientTakes => s.(client := ClientGot(k, s.client, s.down[0]), down := s.down[1..])
    case ClientEnds => s.(client := ClientEof(s.client))
    case ServerWrites => s.(server := ServerSent(k, s.server), down := s.down + [ServerPending(s.server)[0]])
    case ServerWriteFails => s.(server := ServerDone(Err(WriteError)))
    case ServerTakes => s.(server := ServerGot(k, s.server, s.up[0]), up := s.up[1..])
    case ServerEnds => s.(server := ServerEof(s.server))
  }

  predicate Init(s: State) {
    s == State(ClientHello(MAGIC + [0], []), ServerHello(MAGIC + [0], []), [], [])
  }

  ghost predicate Next(k: Setup, s: State, t: State) {
    exists a :: Enabled(k, s, a) && t == Do(k, s, a)
  }
}
