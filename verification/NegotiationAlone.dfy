/** Each side of negotiation against arbitrary input: whatever the other side sends, and however reads and writes are
    interleaved, the outcome is decided by the input alone. */
module NegotiationAlone {
  import opened Prelude
  import opened Utf8
  import opened RouteAddress
  import opened Framing
  import opened Negotiation
  import opened NegotiationSafety

  // ---- the client ----

  /** A client and all the bytes still to come from the other side. */
  datatype ClientState = ClientState(client: Client, rest: seq<byte>)

  /** It writes, fails to write, reads the next byte, or meets the end of the stream. */
  predicate ClientNext(k: Setup, s: ClientState, t: ClientState) {
    || (ClientPending(s.client) != [] && t == s.(client := ClientSent(s.client)))
    || (ClientPending(s.client) != [] && t == s.(client := ClientDone(Err(WriteError))))
    || (ClientReads(s.client) && s.rest != [] && t == ClientState(ClientGot(k, s.client, s.rest[0]), s.rest[1..]))
    || (ClientReads(s.client) && s.rest == [] && t == s.(client := ClientEof(s.client)))
  }

  predicate Starts(input: seq<byte>, n: nat, head: seq<byte>) { |input| >= n && input[..n] == head }

  /** What the client makes of all it is ever sent, unless its own writing fails. */
  predicate ClientVerdict(input: seq<byte>, r: Result<(), NegotiationError>) {
    && (r == Ok(()) <==> Starts(input, 6, MAGIC + [0, 0]))
    && (r == Err(Refused) <==> Starts(input, 5, MAGIC + [0]) && |input| > 5 && input[5] != 0)
    && (r == Err(UnsupportedProtocolVersion) <==> Starts(input, 4, MAGIC) && |input| > 4 && input[4] != 0)
    && (r == Err(ReadError) <==> input == MAGIC || input == MAGIC + [0])
    && (r == Err(ProtocolViolation) <==> !Starts(input, 4, MAGIC))
  }

  predicate ClientAlone(input: seq<byte>, s: ClientState) {
    match s.client
    case ClientHello(send, got) => got + s.rest == input && |got| <= 4 && (|got| == 4 ==> got == MAGIC && send != [])
    case ClientVersion => MAGIC + s.rest == input
    case ClientFrame(send) => MAGIC + [0] + s.rest == input && send != []
    case ClientReply => MAGIC + [0] + s.rest == input
    case ClientDone(r) => r == Err(WriteError) || (ClientVerdict(input, r) && (r.Ok? ==> s.rest == input[6..]))
  }

  lemma Head(head: seq<byte>, rest: seq<byte>, input: seq<byte>)
    requires head + rest == input
    ensures |input| == |head| + |rest| && input[..|head|] == head && input[|head|..] == rest
    ensures rest != [] ==>
              && head + [rest[0]] + rest[1..] == input && input[|head|] == rest[0]
              && input[..|head| + 1] == head + [rest[0]] && input[|head| + 1..] == rest[1..]
  {
  }

  lemma ClientReadKeeps(k: Setup, input: seq<byte>, s: ClientState)
    requires ClientAlone(input, s) && ClientReads(s.client) && s.rest != []
    ensures ClientAlone(input, ClientState(ClientGot(k, s.client, s.rest[0]), s.rest[1..]))
  {
    VerdictOf(input);
    match s.client
    case ClientHello(send, got) => Head(got, s.rest, input);
    case ClientVersion => Head(MAGIC, s.rest, input);
    case ClientReply => Head(MAGIC + [0], s.rest, input);
  }

  /** The verdict, byte by byte. */
  lemma VerdictOf(input: seq<byte>)
    ensures !Starts(input, 4, MAGIC) ==> ClientVerdict(input, Err(ProtocolViolation))
    ensures Starts(input, 4, MAGIC) && |input| > 4 && input[4] != 0 ==>
              ClientVerdict(input, Err(UnsupportedProtocolVersion))
    ensures Starts(input, 5, MAGIC + [0]) && |input| > 5 ==>
              ClientVerdict(input, if input[5] > 0 then Err(Refused) else Ok(()))
    ensures input == MAGIC || input == MAGIC + [0] ==> ClientVerdict(input, Err(ReadError))
  {
    FourOfFive(input);
    if |input| > 5 { assert input[..6] == input[..5] + [input[5]]; }
    assert MAGIC + [0] + [0] == MAGIC + [0, 0];
    assert Starts(input, 6, MAGIC + [0, 0]) <==> Starts(input, 5, MAGIC + [0]) && |input| > 5 && input[5] == 0 by {
      if Starts(input, 6, MAGIC + [0, 0]) { assert input[..5] == (MAGIC + [0, 0])[..5]; }
    }
    assert MAGIC[..4] == MAGIC && (MAGIC + [0])[..4] == MAGIC;
  }

  lemma ClientEndKeeps(input: seq<byte>, s: ClientState)
    requires ClientAlone(input, s) && ClientReads(s.client) && s.rest == []
    ensures ClientAlone(input, s.(client := ClientEof(s.client)))
  {
    VerdictOf(input);
    match s.client
    case ClientHello(send, got) => Head(got, s.rest, input);
    case ClientVersion => Head(MAGIC, s.rest, input);
    case ClientReply => Head(MAGIC + [0], s.rest, input);
  }

  lemma ClientStepKeeps(k: Setup, input: seq<byte>, s: ClientState, t: ClientState)
    requires ClientAlone(input, s) && ClientNext(k, s, t)
    ensures ClientAlone(input, t)
  {
    if ClientReads(s.client) && s.rest != [] { ClientReadKeeps(k, input, s); }
    if ClientReads(s.client) && s.rest == [] { ClientEndKeeps(input, s); }
    if s.client.ClientHello? && |s.client.got| == 4 { assert MAGIC + s.rest == input; }
  }

  /** In every run of a client against any input: when it is done, and writing did not fail, it has accepted exactly
      after the right magic, version zero and a zero byte, refused exactly after another byte there, and reported a
      newer version, an end of stream and anything else malformed exactly in these cases; accepting, it has read
      nothing beyond. */
  lemma ClientAgainstAnyInput(k: Setup, input: seq<byte>, run: seq<ClientState>, i: nat)
    requires IsRun((s, t) => ClientNext(k, s, t), run) && i < |run|
    requires run[0] == ClientState(ClientHello(MAGIC + [0], []), input)
    ensures run[i].client.ClientDone? && run[i].client.outcome != Err(WriteError) ==>
              ClientVerdict(input, run[i].client.outcome) && (run[i].client.outcome.Ok? ==> run[i].rest == input[6..])
  {
    var next := (s, t) => ClientNext(k, s, t);
    var inv := s => ClientAlone(input, s);
    assert [] + input == input;
    forall s, t | inv(s) && next(s, t) ensures inv(t) { ClientStepKeeps(k, input, s, t); }
    RunInvariant(next, inv, run, i);
  }

  // ---- the server ----

  datatype ServerState = ServerState(server: Server, rest: seq<byte>)

  predicate ServerNext(k: Setup, s: ServerState, t: ServerState) {
    || (ServerPending(s.server) != [] && t == s.(server := ServerSent(k, s.server)))
    || (ServerPending(s.server) != [] && t == s.(server := ServerDone(Err(WriteError))))
    || (ServerReads(s.server) && s.rest != [] && t == ServerState(ServerGot(k, s.server, s.rest[0]), s.rest[1..]))
    || (ServerReads(s.server) && s.rest == [] && t == s.(server := ServerEof(s.server)))
  }

  ghost predicate AsksNothing(input: seq<byte>) { forall a :: !Asks(input, a) }

  /** What the server makes of all it is ever sent, unless its own writing fails. */
  ghost predicate ServerVerdict(find: Address -> Option<ServiceId>, input: seq<byte>,
                                r: Result<(Address, ServiceId), NegotiationError>) {
    match r
    case Ok((a, service)) => Asks(input, a) && find(a) == Some(service)
    case Err(Refused) => exists a :: Asks(input, a) && find(a) == None
    case Err(UnsupportedProtocolVersion) => Starts(input, 4, MAGIC) && |input| > 4 && input[4] != 0
    case Err(ReadError) => input == MAGIC
    case Err(ProtocolViolation) =>
      AsksNothing(input) && input != MAGIC && !(Starts(input, 4, MAGIC) && |input| > 4 && input[4] != 0)
    case Err(WriteError) => false
  }

  ghost predicate ServerAlone(k: Setup, input: seq<byte>, s: ServerState) {
    match s.server
    case ServerHello(send, got) => got + s.rest == input && |got| <= 4 && (|got| == 4 ==> got == MAGIC && send != [])
    case ServerVersion => MAGIC + s.rest == input
    case ServerLength(got) => MAGIC + [0] + got + s.rest == input && |got| < 4
    case ServerBody(n, got) =>
      n <= MAX_ADDRESS && |got| < n && MAGIC + [0] + BigEndian(n) + got + s.rest == input
    case ServerReply(code, r) =>
      && ServerVerdict(k.find, input, r) && (r.Ok? || r == Err(Refused)) && code == (if r.Ok? then 0 else 1)
      && (r.Ok? ==> Hello(r.value.0) + s.rest == input)
    case ServerDone(r) =>
      r == Err(WriteError) || (ServerVerdict(k.find, input, r) && (r.Ok? ==> Hello(r.value.0) + s.rest == input))
  }

  /** No address is asked for unless magic, version and a whole frame are there. */
  lemma NoFrame(input: seq<byte>)
    requires Starts(input, 5, MAGIC + [0]) ==> ReadFrameSpec(input[5..], Some(MAX_ADDRESS)).result.Err?
    ensures AsksNothing(input)
  {
    forall a ensures !Asks(input, a) {
      if Asks(input, a) {
        AsksStarts(input, a);
      }
    }
  }

  lemma AsksStarts(input: seq<byte>, a: Address)
    requires Asks(input, a)
    ensures Starts(input, 5, MAGIC + [0]) && ReadFrameSpec(input[5..], Some(MAX_ADDRESS)).result.Ok?
  {
    AsksReads(input, a);
    assert input[..5] == input[..4] + [input[4]];
  }

  /** A whole frame within the limit is judged as the verdict demands. */
  lemma JudgedFrame(k: Setup, input: seq<byte>, text: seq<byte>, rest: seq<byte>)
    requires |text| <= MAX_ADDRESS && MAGIC + [0] + BigEndian(|text|) + text + rest == input
    ensures ServerAlone(k, input, ServerState(Judge(k.find, text), rest))
  {
    FrameAt(input, text, rest);
    if Decode(text).Some? && Parse(Decode(text).value).Ok? {
      ReadsAsks(input, text, rest, Parse(Decode(text).value).value);
    } else {
      assert AsksNothing(input) by {
        forall a ensures !Asks(input, a) {
          if Asks(input, a) { AsksReads(input, a); }
        }
      }
    }
  }

  lemma FrameAt(input: seq<byte>, text: seq<byte>, rest: seq<byte>)
    requires |text| <= MAX_ADDRESS && MAGIC + [0] + BigEndian(|text|) + text + rest == input
    ensures |input| >= 5 && input[..4] == MAGIC && input[4] == 0
    ensures ReadFrameSpec(input[5..], Some(MAX_ADDRESS)) == Read(Ok(text), rest)
  {
    var head, tail := MAGIC + [0], Frame(text) + rest;
    Regroup(head, BigEndian(|text|), text, rest);
    Regroup(head, [], Frame(text), rest);
    assert head + BigEndian(|text|) + (text + rest) == head + tail;
    Head(head, tail, input);
    assert input[..4] == input[..5][..4] == MAGIC;
    ReadFrameLimited(text, rest, MAX_ADDRESS);
  }

  /** Four length bytes announcing more than the limit. */
  lemma TooLong(input: seq<byte>, got: seq<byte>, rest: seq<byte>)
    requires |got| == 4 && FromBigEndian(got) > MAX_ADDRESS && MAGIC + [0] + got + rest == input
    ensures AsksNothing(input) && input != MAGIC && input[4] == 0
  {
    var head := MAGIC + [0];
    assert input == head + (got + rest);
    Head(head, got + rest, input);
    Head(got, rest, got + rest);
    NoFrame(input);
  }

  /** A stream that ends inside the frame. */
  lemma EndsShort(input: seq<byte>, tail: seq<byte>)
    requires MAGIC + [0] + tail == input && (|tail| < 4 || |tail| < 4 + FromBigEndian(tail[..4]))
    ensures AsksNothing(input) && input != MAGIC && |input| > 4 && input[4] == 0
  {
    Head(MAGIC + [0], tail, input);
    NoFrame(input);
  }

  lemma LengthRead(k: Setup, input: seq<byte>, s: ServerState)
    requires ServerAlone(k, input, s) && s.server.ServerLength? && s.rest != []
    ensures ServerAlone(k, input, ServerState(ServerGot(k, s.server, s.rest[0]), s.rest[1..]))
  {
    var got, rest := s.server.got + [s.rest[0]], s.rest[1..];
    assert s.rest == [s.rest[0]] + rest;
    assert MAGIC + [0] + got + rest == input;
    if |got| == 4 {
      BigEndianInverse(got);
      if FromBigEndian(got) > MAX_ADDRESS {
        TooLong(input, got, rest);
      } else if FromBigEndian(got) == 0 {
        assert MAGIC + [0] + BigEndian(0) + [] + rest == input;
        JudgedFrame(k, input, [], rest);
      } else {
        assert MAGIC + [0] + got + [] + rest == input;
      }
    }
  }

  lemma BodyRead(k: Setup, input: seq<byte>, s: ServerState)
    requires ServerAlone(k, input, s) && s.server.ServerBody? && s.rest != []
    ensures ServerAlone(k, input, ServerState(ServerGot(k, s.server, s.rest[0]), s.rest[1..]))
  {
    var got, rest := s.server.got + [s.rest[0]], s.rest[1..];
    assert s.rest == [s.rest[0]] + rest;
    assert MAGIC + [0] + BigEndian(s.server.length) + got + rest == input;
    if |got| == s.server.length { JudgedFrame(k, input, got, rest); }
  }

  lemma HelloRead(k: Setup, input: seq<byte>, s: ServerState)
    requires ServerAlone(k, input, s) && (s.server.ServerHello? || s.server.ServerVersion?) && ServerReads(s.server)
    requires s.rest != []
    ensures ServerAlone(k, input, ServerState(ServerGot(k, s.server, s.rest[0]), s.rest[1..]))
  {
    if s.server.ServerHello? {
      var got := s.server.got + [s.rest[0]];
      Head(s.server.got, s.rest, input);
      if |got| == 4 && got != MAGIC { NotMagic(input); }
    } else {
      Head(MAGIC, s.rest, input);
      assert MAGIC + [0] + [] + s.rest[1..] == MAGIC + [0] + s.rest[1..];
    }
  }

  lemma NotMagic(input: seq<byte>)
    requires !Starts(input, 4, MAGIC)
    ensures AsksNothing(input) && input != MAGIC
  {
    FourOfFive(input);
    NoFrame(input);
    assert MAGIC[..4] == MAGIC;
  }

  lemma FourOfFive(input: seq<byte>)
    ensures Starts(input, 5, MAGIC + [0]) <==> Starts(input, 4, MAGIC) && |input| > 4 && input[4] == 0
  {
    if |input| > 4 { assert input[..5] == input[..4] + [input[4]]; }
  }

  lemma ServerEndKeeps(k: Setup, input: seq<byte>, s: ServerState)
    requires ServerAlone(k, input, s) && ServerReads(s.server) && s.rest == []
    ensures ServerAlone(k, input, s.(server := ServerEof(s.server)))
  {
    match s.server
    case ServerHello(send, got) =>
      Head(got, [], input);
      NotMagic(input);
    case ServerVersion => Head(MAGIC, [], input);
    case ServerLength(got) =>
      assert MAGIC + [0] + got == input;
      EndsShort(input, got);
    case ServerBody(n, got) =>
      var tail := BigEndian(n) + got;
      assert MAGIC + [0] + tail == input && tail[..4] == BigEndian(n);
      FromBigEndianInverse(n);
      EndsShort(input, tail);
  }

  lemma ServerStepKeeps(k: Setup, input: seq<byte>, s: ServerState, t: ServerState)
    requires ServerAlone(k, input, s) && ServerNext(k, s, t)
    ensures ServerAlone(k, input, t)
  {
    if ServerReads(s.server) && s.rest != [] {
      if s.server.ServerLength? { LengthRead(k, input, s); }
      else if s.server.ServerBody? { BodyRead(k, input, s); }
      else { HelloRead(k, input, s); }
    }
    if ServerReads(s.server) && s.rest == [] { ServerEndKeeps(k, input, s); }
    if s.server.ServerHello? && |s.server.got| == 4 { assert MAGIC + s.rest == input; }
  }

  /** In every run of a server against any input: when it is done, and writing did not fail, it serves exactly the
      address asked for with the registry's service, refuses exactly what the registry has no service for, and reports
      a newer version, a missing version and anything malformed exactly in these cases; serving, it has read nothing
      beyond the request. */
  lemma ServerAgainstAnyInput(k: Setup, input: seq<byte>, run: seq<ServerState>, i: nat)
    requires IsRun((s, t) => ServerNext(k, s, t), run) && i < |run|
    requires run[0] == ServerState(ServerHello(MAGIC + [0], []), input)
    ensures run[i].server.ServerDone? && run[i].server.outcome != Err(WriteError) ==>
              && ServerVerdict(k.find, input, run[i].server.outcome)
              && (run[i].server.outcome.Ok? ==> Hello(run[i].server.outcome.value.0) + run[i].rest == input)
  {
    var next := (s, t) => ServerNext(k, s, t);
    var inv := s => ServerAlone(k, input, s);
    assert [] + input == input;
    forall s, t | inv(s) && next(s, t) ensures inv(t) { ServerStepKeeps(k, input, s, t); }
    RunInvariant(next, inv, run, i);
  }

  /** The verdict leaves no choice: no two outcomes fit the same input. */
  lemma ServerVerdictUnique(find: Address -> Option<ServiceId>, input: seq<byte>,
                            r: Result<(Address, ServiceId), NegotiationError>,
                            q: Result<(Address, ServiceId), NegotiationError>)
    requires ServerVerdict(find, input, r) && ServerVerdict(find, input, q)
    ensures r == q
  {
    forall a, b | Asks(input, a) && Asks(input, b) ensures a == b {
      AsksReads(input, a);
      AsksReads(input, b);
    }
    forall a | Asks(input, a) ensures |input| > 4 && input[4] == 0 { AsksReads(input, a); }
  }
}
