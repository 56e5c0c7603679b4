/** Agreement and progress of negotiation, on channels of any capacity. */
module NegotiationSafety {
  import opened Prelude
  import opened Utf8
  import opened RouteAddress
  import opened Framing
  import opened Negotiation

  /** The address text fits the server's frame limit. */
  predicate Fits(k: Setup) { |k.Text()| <= 2048 }

  /** Channels have room for a byte, and the text has a 32-bit length. */
  predicate Sensible(k: Setup) { k.upRoom >= 1 && k.downRoom >= 1 && |k.Text()| < U32_RANGE }

  /** All the client ever sends, and all the server ever sends. */
  function UpTotal(k: Setup): seq<byte> { MAGIC + [0] + Frame(k.Text()) }

  function Verdict(k: Setup): seq<byte> {
    if !Fits(k) then [] else if k.find(k.address).Some? then [0] else [1]
  }

  function DownTotal(k: Setup): seq<byte> { MAGIC + [0] + Verdict(k) }

  function ServerOutcome(k: Setup): Result<(Address, ServiceId), NegotiationError> {
    if !Fits(k) then Err(ProtocolViolation)
    else match k.find(k.address)
         case None => Err(Refused)
         case Some(service) => Ok((k.address, service))
  }

  // What each side has yet to send, and has already read.

  function ClientLeft(k: Setup, c: Client): seq<byte> {
    match c
    case ClientHello(send, _) => send + Frame(k.Text())
    case ClientVersion => Frame(k.Text())
    case ClientFrame(send) => send
    case _ => []
  }

  function ClientRead(k: Setup, c: Client): seq<byte> {
    match c
    case ClientHello(_, got) => got
    case ClientVersion => MAGIC
    case ClientFrame(_) => MAGIC + [0]
    case ClientReply => MAGIC + [0]
    case ClientDone(_) => DownTotal(k)
  }

  function ServerLeft(k: Setup, s: Server): seq<byte> {
    match s
    case ServerHello(send, _) => send + Verdict(k)
    case ServerDone(_) => []
    case _ => Verdict(k)
  }

  function ServerRead(k: Setup, s: Server): seq<byte> {
    match s
    case ServerHello(_, got) => got
    case ServerVersion => MAGIC
    case ServerLength(got) => MAGIC + [0] + got
    case ServerBody(_, got) => MAGIC + [0] + BigEndian(|k.Text()| % U32_RANGE) + got
    case _ => UpTotal(k)
  }

  ghost predicate ClientOk(k: Setup, c: Client) {
    match c
    case ClientHello(send, got) => |send| <= 5 && |got| <= 4 && (|got| == 4 ==> send != [])
    case ClientFrame(send) => send != []
    case ClientDone(outcome) =>
      if Fits(k) then outcome == (if k.find(k.address).Some? then Ok(()) else Err(Refused))
      else outcome == Err(WriteError) || outcome == Err(ReadError)
    case _ => true
  }

  ghost predicate ServerOk(k: Setup, s: Server) {
    match s
    case ServerHello(send, got) => |send| <= 5 && |got| <= 4 && (|got| == 4 ==> send != [])
    case ServerLength(got) => |got| < 4
    case ServerBody(length, got) => Fits(k) && length == |k.Text()| && |got| < length
    case ServerReply(code, outcome) => Fits(k) && [code] == Verdict(k) && outcome == ServerOutcome(k)
    case ServerDone(outcome) => outcome == ServerOutcome(k)
    case _ => true
  }

  /** Each direction: what was read, what is in the channel and what is left to send make up everything. Once the
      server has dropped an oversized address, the client is at most still writing or waiting for a reply. */
  ghost predicate Inv(k: Setup, s: State) {
    && ClientOk(k, s.client) && ServerOk(k, s.server)
    && (if s.server.ServerDone? && !Fits(k)
        then s.down == [] && (s.client.ClientFrame? || s.client.ClientReply? || s.client.ClientDone?)
        else ServerRead(k, s.server) + s.up + ClientLeft(k, s.client) == UpTotal(k)
             && ClientRead(k, s.client) + s.down + ServerLeft(k, s.server) == DownTotal(k)
             && (!Fits(k) ==> !s.client.ClientDone?))
  }

  /** The server understands exactly the address the client rendered. */
  lemma JudgeText(k: Setup)
    requires Fits(k)
    ensures Judge(k.find, k.Text()) ==
            match k.find(k.address)
            case None => ServerReply(1, Err(Refused))
            case Some(service) => ServerReply(0, Ok((k.address, service)))
  {
    DecodeEncode(Rendered(k.address));
    ParseRendered(k.address);
  }

  /** What was read is a prefix of the total, and the byte at the front of the channel is the next one. */
  lemma Front(read: seq<byte>, channel: seq<byte>, left: seq<byte>, total: seq<byte>)
    requires read + channel + left == total
    ensures |read| + |channel| + |left| == |total| && read == total[..|read|]
    ensures channel != [] ==> channel[0] == total[|read|] && read + [channel[0]] == total[..|read| + 1]
                              && read + [channel[0]] + channel[1..] + left == total
    ensures left != [] ==> read + (channel + [left[0]]) + left[1..] == total
  {
    var whole := read + channel + left;
    assert whole[..|read|] == read;
    if channel != [] {
      assert whole[..|read| + 1] == read + [channel[0]];
      assert read + [channel[0]] + channel[1..] + left == whole;
    }
    if left != [] {
      assert read + (channel + [left[0]]) + left[1..] == whole;
    }
  }

  /** Sending a byte moves it from what is left to the channel; nothing else about the client's account changes. */
  lemma ClientSentLeft(k: Setup, c: Client)
    requires ClientOk(k, c) && ClientPending(c) != [] && (c.ClientHello? && |c.got| == 4 ==> c.got == MAGIC)
    ensures ClientLeft(k, c) != [] && ClientPending(c)[0] == ClientLeft(k, c)[0]
    ensures ClientLeft(k, ClientSent(c)) == ClientLeft(k, c)[1..]
    ensures ClientRead(k, ClientSent(c)) == ClientRead(k, c) && ClientOk(k, ClientSent(c)) && !ClientSent(c).ClientDone?
    ensures c.ClientFrame? ==> ClientSent(c).ClientFrame? || ClientSent(c).ClientReply?
  {
    if c.ClientHello? {
      assert (c.send + Frame(k.Text()))[1..] == c.send[1..] + Frame(k.Text());
      assert c.send[1..] == [] ==> c.send[1..] + Frame(k.Text()) == Frame(k.Text());
    }
  }

  lemma ClientWritesKeeps(k: Setup, s: State)
    requires Sensible(k) && Inv(k, s) && Enabled(k, s, ClientWrites)
    ensures Inv(k, Do(k, s, ClientWrites))
  {
    if s.server.ServerDone? && !Fits(k) {
      ClientSentLeft(k, s.client);
    } else {
      Front(ClientRead(k, s.client), s.down, ServerLeft(k, s.server), DownTotal(k));
      assert DownTotal(k)[..4] == MAGIC;
      ClientSentLeft(k, s.client);
      Front(ServerRead(k, s.server), s.up, ClientLeft(k, s.client), UpTotal(k));
    }
  }

  lemma ClientTakesKeeps(k: Setup, s: State)
    requires Sensible(k) && Inv(k, s) && Enabled(k, s, ClientTakes)
    ensures Inv(k, Do(k, s, ClientTakes))
  {
    Front(ClientRead(k, s.client), s.down, ServerLeft(k, s.server), DownTotal(k));
    ClientGotKeeps(k, s.client, s.down[0]);
  }

  /** Reading the next byte of everything the server sends: the client's account grows by that byte. */
  lemma ClientGotKeeps(k: Setup, c: Client, b: byte)
    requires ClientOk(k, c) && ClientReads(c)
    requires |ClientRead(k, c)| < |DownTotal(k)| && ClientRead(k, c) + [b] == DownTotal(k)[..|ClientRead(k, c)| + 1]
    ensures ClientOk(k, ClientGot(k, c, b))
    ensures ClientRead(k, ClientGot(k, c, b)) == ClientRead(k, c) + [b]
              && ClientLeft(k, ClientGot(k, c, b)) == ClientLeft(k, c)
    ensures ClientGot(k, c, b).ClientDone? ==> Fits(k)
  {
    assert DownTotal(k)[..4] == MAGIC && DownTotal(k)[..5] == MAGIC + [0];
    if c.ClientHello? && c.send == [] {
      assert c.send + Frame(k.Text()) == Frame(k.Text());
    }
    if c.ClientVersion? { assert b == (MAGIC + [b])[4] == (MAGIC + [0])[4]; }
    if c.ClientReply? {
      assert DownTotal(k)[..6] == DownTotal(k);
      assert b == (MAGIC + [0] + [b])[5] == DownTotal(k)[5] == Verdict(k)[0];
    }
  }

  lemma ServerSentLeft(k: Setup, v: Server)
    requires ServerOk(k, v) && ServerPending(v) != [] && (v.ServerHello? && |v.got| == 4 ==> v.got == MAGIC)
    ensures ServerLeft(k, v) != [] && ServerPending(v)[0] == ServerLeft(k, v)[0]
    ensures ServerLeft(k, ServerSent(k, v)) == ServerLeft(k, v)[1..]
    ensures ServerRead(k, ServerSent(k, v)) == ServerRead(k, v) && ServerOk(k, ServerSent(k, v))
    ensures ServerSent(k, v).ServerDone? ==> Fits(k)
  {
    if v.ServerHello? {
      assert (v.send + Verdict(k))[1..] == v.send[1..] + Verdict(k);
      assert v.send[1..] == [] ==> v.send[1..] + Verdict(k) == Verdict(k);
    }
  }

  lemma ServerWritesKeeps(k: Setup, s: State)
    requires Sensible(k) && Inv(k, s) && Enabled(k, s, ServerWrites)
    ensures Inv(k, Do(k, s, ServerWrites))
  {
    Front(ServerRead(k, s.server), s.up, ClientLeft(k, s.client), UpTotal(k));
    assert UpTotal(k)[..4] == MAGIC;
    ServerSentLeft(k, s.server);
    Front(ClientRead(k, s.client), s.down, ServerLeft(k, s.server), DownTotal(k));
  }

  /** Reading the next byte of everything the client sends: the server's account grows by that byte, and it ends up
      judging exactly the client's address. */
  ghost predicate GoodRead(k: Setup, v: Server, b: byte)
    requires ServerReads(v)
  {
    var w := ServerGot(k, v, b);
    && ServerOk(k, w)
    && (!w.ServerDone? ==> ServerRead(k, w) == ServerRead(k, v) + [b] && ServerLeft(k, w) == ServerLeft(k, v))
    && (w.ServerDone? ==> !Fits(k) && v.ServerLength? && |v.got| == 3)
  }

  ghost predicate NextByte(k: Setup, v: Server, b: byte) {
    |ServerRead(k, v)| < |UpTotal(k)| && ServerRead(k, v) + [b] == UpTotal(k)[..|ServerRead(k, v)| + 1]
  }

  lemma UpPrefixes(k: Setup)
    requires Sensible(k)
    ensures var u, n := UpTotal(k), |k.Text()|;
            |u| == 9 + n && u[..4] == MAGIC && u[..5] == MAGIC + [0] && u[..9] == MAGIC + [0] + BigEndian(n)
                && u[9..] == k.Text()
  {
  }

  lemma GotHello(k: Setup, v: Server, b: byte)
    requires Sensible(k) && ServerOk(k, v) && ServerReads(v) && NextByte(k, v, b)
              && (v.ServerHello? || v.ServerVersion?)
    ensures GoodRead(k, v, b)
  {
    UpPrefixes(k);
    if v.ServerHello? {
      assert v.send == [] ==> v.send + Verdict(k) == Verdict(k);
    } else {
      assert b == (MAGIC + [b])[4] == (MAGIC + [0])[4] == 0;
      assert MAGIC + [0] + [] == MAGIC + [0];
    }
  }

  lemma GotLength(k: Setup, v: Server, b: byte)
    requires Sensible(k) && ServerOk(k, v) && v.ServerLength? && NextByte(k, v, b)
    ensures GoodRead(k, v, b)
  {
    var n := |k.Text()|;
    UpPrefixes(k);
    FromBigEndianInverse(n);
    assert MAGIC + [0] + (v.got + [b]) == MAGIC + [0] + v.got + [b];
    if |v.got| == 3 {
      assert v.got + [b] == (MAGIC + [0] + (v.got + [b]))[5..] == (MAGIC + [0] + BigEndian(n))[5..] == BigEndian(n);
      assert MAGIC + [0] + BigEndian(n) + [] == MAGIC + [0] + BigEndian(n);
      if n == 0 {
        JudgeText(k);
        assert k.Text() == [] && UpTotal(k) == UpTotal(k)[..9];
      }
    }
  }

  lemma WholeBody(head: seq<byte>, text: seq<byte>, x: seq<byte>)
    requires |x| <= |text| && head + x == (head + text)[..|head| + |x|]
    ensures x == text[..|x|]
  {
    assert (head + x)[|head|..] == x;
    assert (head + text)[..|head| + |x|][|head|..] == text[..|x|];
  }

  lemma GotBody(k: Setup, v: Server, b: byte)
    requires Sensible(k) && ServerOk(k, v) && v.ServerBody? && NextByte(k, v, b)
    ensures GoodRead(k, v, b)
  {
    var n := |k.Text()|;
    var head := MAGIC + [0] + BigEndian(n);
    var x := v.got + [b];
    assert UpTotal(k) == head + k.Text();
    assert head + x == ServerRead(k, v) + [b];
    WholeBody(head, k.Text(), x);
    if |x| == n {
      assert x == k.Text();
      JudgeText(k);
    }
  }

  lemma ServerTakesKeeps(k: Setup, s: State)
    requires Sensible(k) && Inv(k, s) && Enabled(k, s, ServerTakes)
    ensures Inv(k, Do(k, s, ServerTakes))
  {
    Front(ServerRead(k, s.server), s.up, ClientLeft(k, s.client), UpTotal(k));
    Front(ClientRead(k, s.client), s.down, ServerLeft(k, s.server), DownTotal(k));
    if s.server.ServerLength? {
      GotLength(k, s.server, s.up[0]);
    } else if s.server.ServerBody? {
      GotBody(k, s.server, s.up[0]);
    } else {
      GotHello(k, s.server, s.up[0]);
    }
    var t := Do(k, s, ServerTakes);
    if t.server.ServerDone? {
      assert |ServerRead(k, s.server)| == 8 && |UpTotal(k)| == 9 + |k.Text()|;
    }
  }

  /** An end of stream or a failed write can only reach the client, and only after an oversized address. */
  lemma FailureKeeps(k: Setup, s: State, a: Action)
    requires Sensible(k) && Inv(k, s) && Enabled(k, s, a)
    requires a.ClientWriteFails? || a.ClientEnds? || a.ServerWriteFails? || a.ServerEnds?
    ensures !Fits(k) && (a.ClientWriteFails? || a.ClientEnds?)
    ensures Inv(k, Do(k, s, a))
  {
    if !(s.server.ServerDone? && !Fits(k)) {
      Front(ServerRead(k, s.server), s.up, ClientLeft(k, s.client), UpTotal(k));
      Front(ClientRead(k, s.client), s.down, ServerLeft(k, s.server), DownTotal(k));
    }
  }

  lemma StepKeeps(k: Setup, s: State, a: Action)
    requires Sensible(k) && Inv(k, s) && Enabled(k, s, a)
    ensures Inv(k, Do(k, s, a))
  {
    match a
    case ClientWrites => ClientWritesKeeps(k, s);
    case ClientTakes => ClientTakesKeeps(k, s);
    case ServerWrites => ServerWritesKeeps(k, s);
    case ServerTakes => ServerTakesKeeps(k, s);
    case _ => FailureKeeps(k, s, a);
  }

  // ---- progress ----

  /** Bytes a side may still have to move. */
  function ClientWork(k: Setup, c: Client): nat {
    match c
    case ClientHello(send, got) => |Frame(k.Text())| + 3 + |send| + (if |got| <= 4 then 4 - |got| else 0)
    case ClientVersion => |Frame(k.Text())| + 2
    case ClientFrame(send) => |send| + 1
    case ClientReply => 1
    case ClientDone(_) => 0
  }

  function ServerWork(s: Server): nat {
    match s
    case ServerHello(send, got) => MAX_ADDRESS + 8 + |send| + (if |got| <= 4 then 4 - |got| else 0)
    case ServerVersion => MAX_ADDRESS + 7
    case ServerLength(got) => MAX_ADDRESS + 2 + (if |got| <= 4 then 4 - |got| else 0)
    case ServerBody(length, got) => 1 + (if |got| <= length then length - |got| else 0)
    case ServerReply(_, _) => 1
    case ServerDone(_) => 0
  }

  function Work(k: Setup, s: State): nat { ClientWork(k, s.client) + ServerWork(s.server) }

  /** Every step uses up work, whatever the interleaving. */
  lemma StepDecreases(k: Setup, s: State, a: Action)
    requires Sensible(k) && Inv(k, s) && Enabled(k, s, a)
    ensures Work(k, Do(k, s, a)) < Work(k, s)
  {
    match a
    case ServerWrites => ServerSends(k, s.server);
    case ServerTakes => ServerAdvances(k, s.server, s.up[0]);
    case ServerWriteFails =>
    case ServerEnds =>
    case _ => ClientAdvances(k, s, a);
  }

  lemma ClientAdvances(k: Setup, s: State, a: Action)
    requires ClientOk(k, s.client) && Enabled(k, s, a)
    requires a.ClientWrites? || a.ClientWriteFails? || a.ClientTakes? || a.ClientEnds?
    ensures ClientWork(k, Do(k, s, a).client) < ClientWork(k, s.client) && Do(k, s, a).server == s.server
  {
  }

  lemma ServerSends(k: Setup, v: Server)
    requires ServerOk(k, v) && ServerPending(v) != []
    ensures ServerWork(ServerSent(k, v)) < ServerWork(v)
  {
  }

  lemma ServerAdvances(k: Setup, v: Server, b: byte)
    requires ServerOk(k, v) && ServerReads(v)
    ensures ServerWork(ServerGot(k, v, b)) < ServerWork(v)
  {
    match v
    case ServerLength(got) => JudgeWork(k, []);
    case ServerBody(length, got) => JudgeWork(k, got + [b]);
    case _ =>
  }

  lemma JudgeWork(k: Setup, text: seq<byte>)
    ensures ServerWork(Judge(k.find, text)) <= 1
  {
  }

  /** The two accounts as lengths. */
  lemma Lengths(k: Setup, s: State)
    requires Sensible(k) && Inv(k, s) && !(s.server.ServerDone? && !Fits(k))
    ensures |ServerRead(k, s.server)| + |s.up| + |ClientLeft(k, s.client)| == 9 + |k.Text()|
    ensures |ClientRead(k, s.client)| + |s.down| + |ServerLeft(k, s.server)| == 5 + |Verdict(k)|
    ensures |Frame(k.Text())| == 4 + |k.Text()|
  {
    Front(ServerRead(k, s.server), s.up, ClientLeft(k, s.client), UpTotal(k));
    Front(ClientRead(k, s.client), s.down, ServerLeft(k, s.server), DownTotal(k));
  }

  /** A client blocked on a full channel leaves the server something to read. */
  lemma BlockedClient(k: Setup, s: State)
    requires Sensible(k) && Inv(k, s) && !(s.server.ServerDone? && !Fits(k))
    requires ClientPending(s.client) != [] && s.up != []
    ensures ServerReads(s.server)
  {
    Lengths(k, s);
  }

  lemma BlockedServer(k: Setup, s: State)
    requires Sensible(k) && Inv(k, s) && !(s.server.ServerDone? && !Fits(k))
    requires ServerPending(s.server) != [] && s.down != []
    ensures ClientReads(s.client)
  {
    Lengths(k, s);
  }

  /** If neither side has anything to write, one of them has something to read, or both are done. */
  lemma OneCanRead(k: Setup, s: State)
    requires Sensible(k) && Inv(k, s) && !(s.server.ServerDone? && !Fits(k))
    requires ClientPending(s.client) == [] && ServerPending(s.server) == []
    requires !(s.client.ClientDone? && s.server.ServerDone?)
    ensures (ClientReads(s.client) && s.down != []) || (ServerReads(s.server) && s.up != [])
  {
    Lengths(k, s);
  }

  /** While either side is unfinished, some step is possible: full channels never face each other. */
  lemma NeverStuck(k: Setup, s: State)
    requires Sensible(k) && Inv(k, s) && !(s.client.ClientDone? && s.server.ServerDone?)
    ensures exists a :: Enabled(k, s, a)
  {
    if s.server.ServerDone? && !Fits(k) {
      assert Enabled(k, s, ClientWriteFails) || Enabled(k, s, ClientEnds);
    } else if ClientPending(s.client) != [] {
      if s.up != [] { BlockedClient(k, s); }
      assert Enabled(k, s, ClientWrites) || Enabled(k, s, ServerTakes);
    } else if ServerPending(s.server) != [] {
      if s.down != [] { BlockedServer(k, s); }
      assert Enabled(k, s, ServerWrites) || Enabled(k, s, ClientTakes);
    } else {
      OneCanRead(k, s);
      assert Enabled(k, s, ClientTakes) || Enabled(k, s, ServerTakes);
    }
  }

  lemma RunKeeps(k: Setup, run: seq<State>, i: nat)
    requires Sensible(k) && IsRun((s, t) => Next(k, s, t), run) && Init(run[0]) && i < |run|
    ensures Inv(k, run[i])
  {
    var next := (s, t) => Next(k, s, t);
    var inv := s => Inv(k, s);
    assert inv(run[0]) by {
      assert [] + [] + (MAGIC + [0] + Frame(k.Text())) == UpTotal(k);
      assert [] + [] + (MAGIC + [0] + Verdict(k)) == DownTotal(k);
    }
    forall s, t | inv(s) && next(s, t) ensures inv(t) {
      var a :| Enabled(k, s, a) && t == Do(k, s, a);
      StepKeeps(k, s, a);
    }
    RunInvariant(next, inv, run, i);
  }

  /** Every run is finite: it has no more steps than bytes to move. */
  lemma {:induction false} RunsAreBounded(k: Setup, run: seq<State>, i: nat)
    requires Sensible(k) && IsRun((s, t) => Next(k, s, t), run) && Init(run[0]) && i < |run|
    ensures i + Work(k, run[i]) <= Work(k, run[0])
  {
    if i > 0 {
      RunsAreBounded(k, run, i - 1);
      RunKeeps(k, run, i - 1);
      var next := (s, t) => Next(k, s, t);
      assert StepAt(next, run, i - 1);
      NextDecreases(k, run[i - 1], run[i]);
    }
  }

  lemma NextDecreases(k: Setup, s: State, t: State)
    requires Sensible(k) && Inv(k, s) && Next(k, s, t)
    ensures Work(k, t) < Work(k, s)
  {
    var a :| Enabled(k, s, a) && t == Do(k, s, a);
    StepDecreases(k, s, a);
  }

  /** No step is possible: the run is maximal. */
  predicate Stuck(k: Setup, s: State) {
    forall a :: !Enabled(k, s, a)
  }

  /** Both accept, the server for exactly the client's address with the registry's service, or both refuse. */
  predicate Agreed(k: Setup, client: Result<(), NegotiationError>,
                   server: Result<(Address, ServiceId), NegotiationError>) {
    match k.find(k.address)
    case Some(service) => client == Ok(()) && server == Ok((k.address, service))
    case None => client == Err(Refused) && server == Err(Refused)
  }

  lemma StuckMeansAgreed(k: Setup, s: State)
    requires Sensible(k) && Inv(k, s) && Stuck(k, s)
    ensures s.client.ClientDone? && s.server.ServerDone?
    ensures if Fits(k) then s.up == [] && s.down == [] && Agreed(k, s.client.outcome, s.server.outcome)
            else s.server.outcome == Err(ProtocolViolation) && s.client.outcome in {Err(WriteError), Err(ReadError)}
  {
    assert s.client.ClientDone? && s.server.ServerDone? by {
      if !(s.client.ClientDone? && s.server.ServerDone?) { NeverStuck(k, s); }
    }
    if Fits(k) {
      Front(ServerRead(k, s.server), s.up, ClientLeft(k, s.client), UpTotal(k));
      Front(ClientRead(k, s.client), s.down, ServerLeft(k, s.server), DownTotal(k));
    }
  }

  /** Every maximal run ends with both sides done. If the address fits, both accept or both refuse, as the service
      registry decides for exactly the client's address, and no negotiation byte is left in either channel; if it
      does not fit, the server reports a violation and the client an input or output error. */
  lemma NegotiationAgrees(k: Setup, run: seq<State>)
    requires Sensible(k) && IsRun((s, t) => Next(k, s, t), run) && Init(run[0])
    requires Stuck(k, run[|run| - 1])
    ensures var s := run[|run| - 1];
            && s.client.ClientDone? && s.server.ServerDone?
            && (if Fits(k) then s.up == [] && s.down == [] && Agreed(k, s.client.outcome, s.server.outcome)
                else (&& s.server.outcome == Err(ProtocolViolation)
                      && s.client.outcome in {Err(WriteError), Err(ReadError)}))
  {
    RunKeeps(k, run, |run| - 1);
    StuckMeansAgreed(k, run[|run| - 1]);
  }

  /** At every moment of every run: a client that has been accepted faces a server already serving its address, with
      nothing of the negotiation left ahead of the payload in either direction. */
  lemma AcceptedMeansServing(k: Setup, run: seq<State>, i: nat)
    requires Sensible(k) && IsRun((s, t) => Next(k, s, t), run) && Init(run[0]) && i < |run|
    requires run[i].client == ClientDone(Ok(()))
    ensures exists service :: k.find(k.address) == Some(service)
              && run[i].server == ServerDone(Ok((k.address, service)))
    ensures run[i].up == [] && run[i].down == []
  {
    RunKeeps(k, run, i);
    AcceptedNow(k, run[i]);
  }

  lemma AcceptedNow(k: Setup, s: State)
    requires Sensible(k) && Inv(k, s) && s.client == ClientDone(Ok(()))
    ensures exists service :: k.find(k.address) == Some(service) && s.server == ServerDone(Ok((k.address, service)))
    ensures s.up == [] && s.down == []
  {
    Front(ServerRead(k, s.server), s.up, ClientLeft(k, s.client), UpTotal(k));
    Front(ClientRead(k, s.client), s.down, ServerLeft(k, s.server), DownTotal(k));
  }

  // ---- the server against arbitrary input ----

  /** What a client asking for an address sends. */
  function Hello(a: Address): seq<byte> { MAGIC + [0] + Frame(Encode(Rendered(a))) }

  predicate Short(a: Address) { |Encode(Rendered(a))| <= 2048 }

  ghost predicate Asks(input: seq<byte>, a: Address) {
    Short(a) && Hello(a) <= input
  }

  /** Input that asks for an address asks for no other, and continues with its frame after magic and version. */
  lemma AsksReads(input: seq<byte>, a: Address)
    requires Asks(input, a)
    ensures |input| >= 5 && input[..4] == MAGIC && input[4] == 0
    ensures var r := ReadFrameSpec(input[5..], Some(MAX_ADDRESS));
            r.result == Ok(Encode(Rendered(a))) && Decode(r.result.value) == Some(Rendered(a))
                && Parse(Rendered(a)) == Ok(a)
  {
    var text := Encode(Rendered(a));
    var rest := input[|Hello(a)|..];
    assert input == Hello(a) + rest;
    assert input[5..] == Frame(text) + rest;
    ReadFrameLimited(text, rest, MAX_ADDRESS);
    DecodeEncode(Rendered(a));
    ParseRendered(a);
  }

  /** The converse: a frame that decodes and parses is some address's request. */
  lemma ReadsAsks(input: seq<byte>, text: seq<byte>, rest: seq<byte>, a: Address)
    requires |input| >= 5 && input[..4] == MAGIC && input[4] == 0
    requires ReadFrameSpec(input[5..], Some(MAX_ADDRESS)) == Read(Ok(text), rest)
    requires Decode(text).Some? && Parse(Decode(text).value) == Ok(a)
    ensures Asks(input, a) && input == Hello(a) + rest
  {
    assert input[5..] == Frame(text) + rest
           && |text| <= MAX_ADDRESS by { ReadFrameInverse(input[5..], Some(MAX_ADDRESS)); }
    assert Encode(Rendered(a)) == text by {
      EncodeDecode(text);
      RenderedParse(Decode(text).value);
    }
    Regroup(input[..4], [input[4]], Frame(text), rest);
    assert input == input[..4] + [input[4]] + input[5..];
  }

  lemma Regroup(w: seq<byte>, x: seq<byte>, y: seq<byte>, z: seq<byte>)
    ensures w + x + (y + z) == w + x + y + z
  {
  }

  /** The reading half of the handshake polled once, with so many bytes at hand or the end of the stream in sight. */
  method PollRead(input: ByteStream, got: seq<byte>, readable: nat) returns (more: seq<byte>, ended: bool)
    requires |got| <= 4
    modifies input
    ensures |more| <= 4 && more + input.data == got + old(input.data)
    ensures ended ==> |more| < 4 && input.data == []
    ensures !ended ==> |more| == (if |got| + readable < 4 then |got| + readable else 4)
  {
    more, ended := got, false;
    var left := readable;
    while |more| < 4 && left > 0
      invariant |more| <= 4 && 0 <= left <= readable && more + input.data == got + old(input.data)
      invariant |more| == |got| + readable - left
    {
      if input.data == [] { return more, true; }
      assert input.data == [input.data[0]] + input.data[1..];
      more := more + [input.data[0]];
      input.data := input.data[1..];
      left := left - 1;
    }
  }

  /** Magic and version are sent while the other side's magic is read: each poll lets so many bytes through, the reading
      half first, and everything goes through once the given polls are used up. A wrong or missing magic ends it at
      once, with whatever part of the own hello has been written by then: none if the first poll has it all. */
  method ExchangeMagic(input: ByteStream, output: ByteStream, polls: seq<(nat, nat)>) returns (ok: bool)
    requires input != output
    modifies input, output
    ensures ok <==> MAGIC <= old(input.data)
    ensures ok ==> input.data == old(input.data)[4..] && output.data == old(output.data) + MAGIC + [0]
    ensures !ok ==> exists n: nat :: n <= 5 && output.data == old(output.data) + (MAGIC + [0])[..n]
    ensures !ok && (polls == [] || polls[0].0 >= 4) ==> output.data == old(output.data)
  {
    var hello, got, sent, i := MAGIC + [0], [], 0, 0;
    var ended;
    while |got| < 4 || sent < 5
      invariant |got| <= 4 && got + input.data == old(input.data) && (|got| == 4 ==> got == MAGIC)
      invariant sent <= 5 && output.data == old(output.data) + hello[..sent]
      invariant i == 0 ==> sent == 0
      invariant i > 0 && (polls == [] || polls[0].0 >= 4) ==> |got| == 4
      invariant i <= |polls| || (i == |polls| + 1 && |got| == 4 && sent == 5)
      decreases |polls| + 1 - i
    {
      var (readable, writable) := if i < |polls| then polls[i] else (4, 5);
      got, ended := PollRead(input, got, readable);
      if ended || (|got| == 4 && got != MAGIC) {
        assert |got| == 4 ==> old(input.data)[..4] == got;
        return false;
      }
      var n := if sent + writable < 5 then sent + writable else 5;
      assert hello[..n] == hello[..sent] + hello[sent..n];
      output.data := output.data + hello[sent..n];
      sent, i := n, i + 1;
    }
    assert old(input.data)[..4] == MAGIC && hello[..5] == hello;
    return true;
  }

  /** The server run against any input whatever, taken as all the other side ever sends, however the handshake's polls
      are scheduled. It succeeds exactly on the requests for addresses it serves, refuses exactly the requests for those
      it does not, and otherwise tells a newer version, a missing version byte and everything malformed apart; on
      success it has consumed the request and nothing more. Its own hello is written in full unless the magic fails. */
  method NegotiateService(input: ByteStream, output: ByteStream, find: Address -> Option<ServiceId>,
                          polls: seq<(nat, nat)>)
    returns (r: Result<(Address, ServiceId), NegotiationError>)
    requires input != output
    modifies input, output
    ensures r.Ok? <==> exists a :: Asks(old(input.data), a) && find(a).Some?
    ensures r.Ok? ==> find(r.value.0) == Some(r.value.1) && old(input.data) == Hello(r.value.0) + input.data
    ensures r == Err(Refused) <==> exists a :: Asks(old(input.data), a) && find(a).None?
    ensures r == Err(ReadError) <==> old(input.data) == MAGIC
    ensures r == Err(UnsupportedProtocolVersion) <==>
              |old(input.data)| > 4 && old(input.data)[..4] == MAGIC && old(input.data)[4] != 0
    ensures r != Err(WriteError)
    ensures MAGIC <= old(input.data) ==>
              output.data ==
                  old(output.data) + MAGIC + [0] + (if r.Ok? then [0] else if r == Err(Refused) then [1] else [])
    ensures !(MAGIC <= old(input.data)) ==>
              && r == Err(ProtocolViolation)
              && exists n: nat :: n <= 5 && output.data == old(output.data) + (MAGIC + [0])[..n]
  {
    ghost var start := input.data;
    forall a | Asks(start, a) { AsksReads(start, a); }
    var ok := ExchangeMagic(input, output, polls);
    if !ok { return Err(ProtocolViolation); }
    assert output.data + [] == output.data && start[..4] == MAGIC;
    var version := new byte[1];
    ok := input.ReadExact(version);
    if !ok { assert start[..4] == start; return Err(ReadError); }
    assert version[0] == version[..][0] == start[4];
    if version[0] > 0 { return Err(UnsupportedProtocolVersion); }
    assert input.data == start[5..];
    var frame := input.ReadFrame(Some(MAX_ADDRESS));
    if frame.Err? { return Err(ProtocolViolation); }
    var text := Decode(frame.value);
    if text.None? { return Err(ProtocolViolation); }
    var parsed := FromStr(text.value);
    if parsed.Err? { return Err(ProtocolViolation); }
    ReadsAsks(start, frame.value, input.data, parsed.value);
    match find(parsed.value)
    case None =>
      output.data := output.data + [1];
      return Err(Refused);
    case Some(service) =>
      output.data := output.data + [0];
      return Ok((parsed.value, service));
  }
}
