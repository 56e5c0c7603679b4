/** Decimal numbers and dotted IPv4 addresses as text. */
module NumberText {
  import opened Prelude

  type Octet = x: int | 0 <= x < 256

  type Ip4 = s: seq<Octet> | |s| == 4 witness [0, 0, 0, 0]

  predicate IsDigit(c: char) { '0' <= c <= '9' }

  predicate AllDigits(s: string) { forall i :: 0 <= i < |s| ==> IsDigit(s[i]) }

  function Digit(n: int): (c: char)
    requires 0 <= n < 10
    ensures IsDigit(c) && DigitValue(c) == n
  {
    '0' + n as char
  }

  function DigitValue(c: char): (n: int)
    requires IsDigit(c)
    ensures 0 <= n < 10 && (n == 0 ==> c == '0')
  {
    c as int - '0' as int
  }

  function Digits(n: nat): string {
    if n < 10 then [Digit(n)] else Digits(n / 10) + [Digit(n % 10)]
  }

  function Value(s: string): nat
    requires AllDigits(s)
  {
    if s == "" then 0 else Value(s[..|s| - 1]) * 10 + DigitValue(s[|s| - 1])
  }

  /** A number with no sign and no superfluous zero. */
  predicate Plain(s: string) { s != "" && s[0] != '+' && (|s| == 1 || s[0] != '0') }

  lemma {:induction false} ValueDigits(n: nat)
    ensures AllDigits(Digits(n)) && Value(Digits(n)) == n
    ensures Plain(Digits(n)) && (n > 0 ==> Digits(n)[0] != '0')
  {
    if n >= 10 {
      ValueDigits(n / 10);
      assert Digits(n)[..|Digits(n)| - 1] == Digits(n / 10);
    } else {
      assert Digits(n)[..0] == "";
    }
  }

  lemma {:induction false} DigitsValue(s: string)
    requires AllDigits(s) && Plain(s)
    ensures Digits(Value(s)) == s
    ensures s[0] != '0' ==> Value(s) > 0
  {
    var front, last := s[..|s| - 1], s[|s| - 1];
    if front == "" {
      assert s == [last] && Value(s) == DigitValue(last);
      assert Digit(DigitValue(last)) == last;
    } else {
      DigitsValue(front);
      assert Value(s) / 10 == Value(front) && Value(s) % 10 == DigitValue(last);
      assert Digit(DigitValue(last)) == last;
      assert s == front + [last];
    }
  }

  /** A 16-bit number: an optional plus sign, then digits. */
  function ParsePort(s: string): Option<nat> {
    var digits := if |s| > 1 && s[0] == '+' then s[1..] else s;
    if digits != "" && AllDigits(digits) && Value(digits) < 0x1_0000 then Some(Value(digits)) else None
  }

  lemma ParsePortDigits(n: nat)
    requires n < 0x1_0000
    ensures ParsePort(Digits(n)) == Some(n)
  {
    ValueDigits(n);
  }

  /** Reading a port and writing it gives the same text exactly for plain numbers. */
  lemma DigitsParsePort(s: string)
    requires ParsePort(s).Some?
    ensures Digits(ParsePort(s).value) == s <==> Plain(s)
  {
    ValueDigits(ParsePort(s).value);
    if Plain(s) { DigitsValue(s); }
  }

  function Zeros(k: nat): string { seq(k, _ => '0') }

  lemma {:induction false} ValueZeros(k: nat, s: string)
    requires AllDigits(s)
    ensures AllDigits(Zeros(k) + s) && Value(Zeros(k) + s) == Value(s)
    decreases |s|, k
  {
    var t := Zeros(k) + s;
    if s != "" {
      assert t[..|t| - 1] == Zeros(k) + s[..|s| - 1];
      ValueZeros(k, s[..|s| - 1]);
    } else if k > 0 {
      assert t == Zeros(k) && t[..|t| - 1] == Zeros(k - 1) + "";
      ValueZeros(k - 1, "");
    } else {
      assert t == "";
    }
  }

  /** Every number is its plain form behind some zeros. */
  lemma {:induction false} PlainBehindZeros(s: string) returns (k: nat)
    requires AllDigits(s) && s != ""
    ensures s == Zeros(k) + Digits(Value(s))
  {
    if Plain(s) {
      DigitsValue(s);
      k := 0;
      assert s == Zeros(0) + s;
    } else {
      var rest := s[1..];
      k := PlainBehindZeros(rest);
      assert s == Zeros(1) + rest;
      ValueZeros(1, rest);
      OneMoreZero(k, Digits(Value(rest)));
      k := k + 1;
    }
  }

  lemma OneMoreZero(k: nat, s: string)
    ensures Zeros(1) + (Zeros(k) + s) == Zeros(k + 1) + s
  {
  }

  /** A port is read from exactly these texts: its plain number behind any number of zeros, and perhaps a plus sign. */
  lemma ParsePortExact(s: string, n: nat)
    ensures ParsePort(s) == Some(n) <==>
              n < 0x1_0000 && exists k :: s == Zeros(k) + Digits(n) || s == "+" + Zeros(k) + Digits(n)
  {
    if ParsePort(s) == Some(n) {
      var signed := |s| > 1 && s[0] == '+';
      var k := PlainBehindZeros(if signed then s[1..] else s);
      assert signed ==> s == "+" + (Zeros(k) + Digits(n)) == "+" + Zeros(k) + Digits(n);
    }
    forall k | n < 0x1_0000 && (s == Zeros(k) + Digits(n) || s == "+" + Zeros(k) + Digits(n))
      ensures ParsePort(s) == Some(n)
    {
      SpeltPort(n, k);
    }
  }

  lemma SpeltPort(n: nat, k: nat)
    requires n < 0x1_0000
    ensures ParsePort(Zeros(k) + Digits(n)) == Some(n) && ParsePort("+" + Zeros(k) + Digits(n)) == Some(n)
  {
    ValueDigits(n);
    ValueZeros(k, Digits(n));
    var t := Zeros(k) + Digits(n);
    assert "+" + Zeros(k) + Digits(n) == "+" + t && ("+" + t)[1..] == t;
    assert t[0] != '+' by { assert IsDigit(t[0]); }
  }

  function LeadingDigits(s: string): (k: nat)
    ensures k <= |s| && AllDigits(s[..k]) && (k < |s| ==> !IsDigit(s[k]))
  {
    if s == "" || !IsDigit(s[0]) then 0
    else
      var k := LeadingDigits(s[1..]);
      assert s[..k + 1] == [s[0]] + s[1..][..k];
      k + 1
  }

  /** One to three digits without superfluous zeros, below 256, and what follows them. */
  function ReadOctet(s: string): Option<(Octet, string)> {
    var k := LeadingDigits(s);
    if 1 <= k <= 3 && (k == 1 || s[0] != '0') && Value(s[..k]) < 256 then Some((Value(s[..k]), s[k..])) else None
  }

  /** `n` octets with dots between them and nothing after. */
  function ReadOctets(s: string, n: nat): Option<seq<Octet>>
    requires n > 0
  {
    match ReadOctet(s)
    case None => None
    case Some((v, rest)) =>
      if n == 1 then if rest == "" then Some([v]) else None
      else if rest == "" || rest[0] != '.' then None
      else match ReadOctets(rest[1..], n - 1)
           case None => None
           case Some(more) => Some([v] + more)
  }

  function ParseIp4(s: string): (r: Option<Ip4>)
  {
    match ReadOctets(s, 4)
    case None => None
    case Some(octets) => if |octets| == 4 then Some(octets) else None
  }

  function JoinOctets(octets: seq<Octet>): string {
    if octets == [] then "" else Digits(octets[0]) + (if |octets| == 1 then "" else "." + JoinOctets(octets[1..]))
  }

  lemma OctetLength(v: Octet)
    ensures 1 <= |Digits(v)| <= 3
  {
    if v >= 10 {
      assert |Digits(v)| == |Digits(v / 10)| + 1;
      if v / 10 >= 10 { assert |Digits(v / 10)| == |Digits(v / 10 / 10)| + 1; }
    }
  }

  lemma {:induction false} LeadingDigitsOf(digits: string, rest: string)
    requires AllDigits(digits) && (rest == "" || !IsDigit(rest[0]))
    ensures LeadingDigits(digits + rest) == |digits|
  {
    if digits == "" {
      assert digits + rest == rest;
    } else {
      LeadingDigitsOf(digits[1..], rest);
      assert (digits + rest)[1..] == digits[1..] + rest;
    }
  }

  lemma ReadOctetDigits(v: Octet, rest: string)
    requires rest == "" || !IsDigit(rest[0])
    ensures ReadOctet(Digits(v) + rest) == Some((v, rest))
  {
    ValueDigits(v);
    var s := Digits(v) + rest;
    var k := LeadingDigits(s);
    OctetLength(v);
    LeadingDigitsOf(Digits(v), rest);
    assert s[..k] == Digits(v) && s[k..] == rest;
  }

  lemma ReadAfterDot(v: Octet, text: string, n: nat)
    requires n > 1 && ReadOctets(text, n - 1).Some?
    ensures ReadOctets(Digits(v) + ("." + text), n) == Some([v] + ReadOctets(text, n - 1).value)
  {
    var rest := "." + text;
    ReadOctetDigits(v, rest);
    assert rest[1..] == text;
  }

  lemma {:induction false} ReadJoined(octets: seq<Octet>)
    requires octets != []
    ensures ReadOctets(JoinOctets(octets), |octets|) == Some(octets)
  {
    var v := octets[0];
    if |octets| == 1 {
      ReadOctetDigits(v, "");
      assert octets == [v];
    } else {
      ReadJoined(octets[1..]);
      ReadAfterDot(v, JoinOctets(octets[1..]), |octets|);
      assert octets == [v] + octets[1..];
    }
  }

  lemma ReadOctetInverse(s: string)
    requires ReadOctet(s).Some?
    ensures s == Digits(ReadOctet(s).value.0) + ReadOctet(s).value.1
  {
    var k := LeadingDigits(s);
    assert Plain(s[..k]);
    DigitsValue(s[..k]);
  }

  lemma JoinMore(v: Octet, more: seq<Octet>)
    requires more != []
    ensures JoinOctets([v] + more) == Digits(v) + ("." + JoinOctets(more))
  {
    assert ([v] + more)[1..] == more;
  }

  lemma {:induction false} JoinRead(s: string, n: nat)
    requires n > 0 && ReadOctets(s, n).Some?
    ensures |ReadOctets(s, n).value| == n
    ensures JoinOctets(ReadOctets(s, n).value) == s
    decreases n
  {
    ReadOctetInverse(s);
    var (v, rest) := ReadOctet(s).value;
    if n > 1 {
      JoinRead(rest[1..], n - 1);
      var more := ReadOctets(rest[1..], n - 1).value;
      JoinMore(v, more);
      assert rest == "." + rest[1..];
    }
  }

  /** IPv4 text: reading and writing are inverse to each other. */
  lemma Ip4Text(ip: Ip4, s: string)
    ensures ParseIp4(JoinOctets(ip)) == Some(ip)
    ensures ParseIp4(s).Some? ==> JoinOctets(ParseIp4(s).value) == s
  {
    ReadJoined(ip);
    if ReadOctets(s, 4).Some? { JoinRead(s, 4); }
  }
}

/** TCP proxy targets as route addresses and as text. */
module ProxyTarget {
  import opened Prelude
  import opened NumberText
  import RouteAddress

  type Port = x: int | 0 <= x < 0x1_0000

  type Ip6 = x: int | 0 <= x < 0x1_0000_0000_0000_0000_0000_0000_0000_0000

  datatype DnsTarget =
    | PreferHigher(host: string, port: Port)
    | Dns4(host: string, port: Port)
    | Dns6(host: string, port: Port)

  /** An IPv6 socket address carries a flow label and a scope id, which its textual form here leaves out. */
  datatype Target =
    | PortOnly(port: Port)
    | SocketV4(ip4: Ip4, port: Port)
    | SocketV6(ip6: Ip6, port: Port, flow: nat, scope: nat)
    | Dns(dns: DnsTarget)

  datatype FormatError = TooFewSegments | NoMatchingFormat | InvalidPort | InvalidIP

  datatype ParseError = Route(route: RouteAddress.ParseError) | Format(format: FormatError)

  /** The text form of IPv6 addresses. */
  datatype Ip6Text = Ip6Text(render: Ip6 -> string, parse: string -> Option<Ip6>) {
    ghost predicate Inverse() { forall ip: Ip6 :: parse(render(ip)) == Some(ip) }
  }

  const PROTOCOL := "proxy-tcp"

  const LOCALHOST: Ip4 := [127, 0, 0, 1]

  function ToAddress(v6: Ip6Text, t: Target): RouteAddress.Address {
    match t
    case PortOnly(port) => [PROTOCOL, "tcp", Digits(port)]
    case SocketV4(ip, port) => [PROTOCOL, "ip4", JoinOctets(ip), "tcp", Digits(port)]
    case SocketV6(ip, port, _, _) => [PROTOCOL, "ip6", v6.render(ip), "tcp", Digits(port)]
    case Dns(PreferHigher(host, port)) => [PROTOCOL, "dns", host, "tcp", Digits(port)]
    case Dns(Dns4(host, port)) => [PROTOCOL, "dns4", host, "tcp", Digits(port)]
    case Dns(Dns6(host, port)) => [PROTOCOL, "dns6", host, "tcp", Digits(port)]
  }

  /** The target named by the segments before the port. */
  function ByScheme(v6: Ip6Text, parts: RouteAddress.Address, port: Port): Result<Target, FormatError> {
    if parts == ["tcp"] then Ok(SocketV4(LOCALHOST, port))
    else if |parts| != 3 || parts[2] != "tcp" then Err(NoMatchingFormat)
    else if parts[0] == "ip4" then
      (match ParseIp4(parts[1])
       case None => Err(InvalidIP)
       case Some(ip) => Ok(SocketV4(ip, port)))
    else if parts[0] == "ip6" then
      (match v6.parse(parts[1])
       case None => Err(InvalidIP)
       case Some(ip) => Ok(SocketV6(ip, port, 0, 0)))
    else if parts[0] == "dns" then Ok(Dns(PreferHigher(parts[1], port)))
    else if parts[0] == "dns6" then Ok(Dns(Dns6(parts[1], port)))
    else if parts[0] == "dns4" then Ok(Dns(Dns4(parts[1], port)))
    else Err(NoMatchingFormat)
  }

  function TryFrom(v6: Ip6Text, a: RouteAddress.Address): Result<Target, FormatError> {
    match RouteAddress.Stripped(a, [PROTOCOL])
    case None => Err(NoMatchingFormat)
    case Some(stripped) =>
      var parts := if |stripped| > 4 then stripped[..4] else stripped;
      if parts == [] then Err(TooFewSegments)
      else match ParsePort(parts[|parts| - 1])
           case None => Err(InvalidPort)
           case Some(port) => ByScheme(v6, parts[..|parts| - 1], port)
  }

  predicate KnownScheme(segment: string) {
    segment == "dns" || segment == "dns4" || segment == "dns6" || segment == "ip4" || segment == "ip6"
    || segment == "tcp"
  }

  function Display(v6: Ip6Text, t: Target): string { RouteAddress.Rendered(ToAddress(v6, t)) }

  /** Parsing, once more with the protocol prefix added if it could be what is missing. */
  function FromStr(v6: Ip6Text, s: string): Result<Target, ParseError> {
    match RouteAddress.Parse(s)
    case Err(e) => Err(Route(e))
    case Ok(a) =>
      match TryFrom(v6, a)
      case Ok(t) => Ok(t)
      case Err(e) =>
        if !e.TooFewSegments? && !e.NoMatchingFormat? then Err(Format(e))
        else if a == [] || !KnownScheme(a[0]) then Err(Format(NoMatchingFormat))
        else match RouteAddress.Parse("/" + PROTOCOL + s)
             case Err(route) => Err(Route(route))
             case Ok(prefixed) =>
               match TryFrom(v6, prefixed)
               case Ok(t) => Ok(t)
               case Err(format) => Err(Format(format))
  }

  /** What the textual form keeps: a bare port means the IPv4 loopback, and IPv6 flow label and scope are dropped. */
  function Normalised(t: Target): Target {
    match t
    case PortOnly(port) => SocketV4([127, 0, 0, 1], port)
    case SocketV6(ip, port, _, _) => SocketV6(ip, port, 0, 0)
    case _ => t
  }

  lemma StripOne(a: RouteAddress.Address)
    ensures RouteAddress.Stripped([PROTOCOL] + a, [PROTOCOL]) == Some(a)
  {
    assert ([PROTOCOL] + a)[1..] == a;
  }

  lemma TryFromFive(v6: Ip6Text, scheme: string, text: string, port: Port)
    ensures TryFrom(v6, [PROTOCOL, scheme, text, "tcp", Digits(port)]) == ByScheme(v6, [scheme, text, "tcp"], port)
  {
    var rest := [scheme, text, "tcp", Digits(port)];
    StripOne(rest);
    assert [PROTOCOL] + rest == [PROTOCOL, scheme, text, "tcp", Digits(port)];
    ParsePortDigits(port);
    assert rest[..3] == [scheme, text, "tcp"];
  }

  lemma TryFromThree(v6: Ip6Text, port: Port)
    ensures TryFrom(v6, [PROTOCOL, "tcp", Digits(port)]) == Ok(SocketV4(LOCALHOST, port))
  {
    var rest := ["tcp", Digits(port)];
    StripOne(rest);
    assert [PROTOCOL] + rest == [PROTOCOL, "tcp", Digits(port)];
    ParsePortDigits(port);
    assert rest[..1] == ["tcp"];
  }

  /** Every target survives the trip through its address, whatever characters its host holds, up to what the text
      form cannot say; and it comes back unchanged exactly when it says nothing of that kind. */
  lemma AddressRoundTrip(v6: Ip6Text, t: Target)
    requires v6.Inverse()
    ensures TryFrom(v6, ToAddress(v6, t)) == Ok(Normalised(t))
    ensures TryFrom(v6, ToAddress(v6, t)) == Ok(t) <==> !t.PortOnly? && (t.SocketV6? ==> t.flow == 0 && t.scope == 0)
  {
    match t
    case PortOnly(port) => TryFromThree(v6, port);
    case SocketV4(ip, port) =>
      TryFromFive(v6, "ip4", JoinOctets(ip), port);
      Ip4Text(ip, "");
    case SocketV6(ip, port, _, _) => TryFromFive(v6, "ip6", v6.render(ip), port);
    case Dns(PreferHigher(host, port)) => TryFromFive(v6, "dns", host, port);
    case Dns(Dns4(host, port)) => TryFromFive(v6, "dns4", host, port);
    case Dns(Dns6(host, port)) => TryFromFive(v6, "dns6", host, port);
  }

  /** Likewise through the text. */
  lemma TextRoundTrip(v6: Ip6Text, t: Target)
    requires v6.Inverse()
    ensures FromStr(v6, Display(v6, t)) == Ok(Normalised(t))
    ensures FromStr(v6, Display(v6, t)) == Ok(t) <==> !t.PortOnly? && (t.SocketV6? ==> t.flow == 0 && t.scope == 0)
  {
    RouteAddress.ParseRendered(ToAddress(v6, t));
    AddressRoundTrip(v6, t);
  }

  lemma ParsePrefixed(s: string)
    requires RouteAddress.Parse(s).Ok?
    ensures RouteAddress.Parse("/" + PROTOCOL + s) == Ok([PROTOCOL] + RouteAddress.Parse(s).value)
  {
    var a := RouteAddress.Parse(s).value;
    RouteAddress.RenderedParse(s);
    PrefixText();
    RouteAddress.RenderedConcat([PROTOCOL], a);
    RouteAddress.ParseRendered([PROTOCOL] + a);
  }

  lemma PrefixText()
    ensures RouteAddress.Rendered([PROTOCOL]) == "/" + PROTOCOL
  {
    Unescaped(PROTOCOL);
    RenderedOne(PROTOCOL);
  }

  lemma RenderedOne(segment: string)
    ensures RouteAddress.Rendered([segment]) == "/" + RouteAddress.Escape(segment)
  {
    assert [segment][1..] == [];
  }

  lemma {:induction false} Unescaped(s: string)
    requires forall c :: c in s ==> !RouteAddress.NeedsEscaped(c)
    ensures RouteAddress.Escape(s) == s
  {
    if s != "" { Unescaped(s[1..]); }
  }

  /** The protocol prefix is optional: an accepted text that starts with a scheme means, success or error, what it means
      with the prefix written out. */
  lemma PrefixOptional(v6: Ip6Text, s: string)
    requires RouteAddress.Parse(s).Ok? && RouteAddress.Parse(s).value != []
    requires RouteAddress.Parse(s).value[0] in {"dns", "dns4", "dns6", "ip4", "ip6", "tcp"}
    ensures FromStr(v6, s) == FromStr(v6, "/" + PROTOCOL + s)
    ensures FromStr(v6, s) == Outcome(TryFrom(v6, [PROTOCOL] + RouteAddress.Parse(s).value))
  {
    var a := RouteAddress.Parse(s).value;
    ParsePrefixed(s);
    StripOne(a);
    assert a[0] != PROTOCOL;
    assert TryFrom(v6, a) == Err(NoMatchingFormat);
    assert ([PROTOCOL] + a)[0] == PROTOCOL;
  }

  function Outcome(r: Result<Target, FormatError>): Result<Target, ParseError> {
    match r
    case Ok(t) => Ok(t)
    case Err(e) => Err(Format(e))
  }

  /** Every target is also understood from its text without the prefix. */
  lemma ShortTextRoundTrip(v6: Ip6Text, t: Target)
    requires v6.Inverse()
    ensures FromStr(v6, RouteAddress.Rendered(ToAddress(v6, t)[1..])) == Ok(Normalised(t))
  {
    var a := ToAddress(v6, t);
    var s := RouteAddress.Rendered(a[1..]);
    RouteAddress.ParseRendered(a[1..]);
    assert a == [PROTOCOL] + a[1..];
    PrefixOptional(v6, s);
    AddressRoundTrip(v6, t);
  }

  /** All other texts: unparsable ones say why, those with the prefix mean their address, and the rest match nothing. */
  lemma OtherTexts(v6: Ip6Text, s: string)
    ensures RouteAddress.Parse(s).Err? ==> FromStr(v6, s) == Err(Route(RouteAddress.Parse(s).error))
    ensures RouteAddress.Parse(s).Ok? && RouteAddress.Parse(s).value != []
              && RouteAddress.Parse(s).value[0] == PROTOCOL ==>
              FromStr(v6, s) == if RouteAddress.Parse(s).value == [PROTOCOL] then Err(Format(NoMatchingFormat))
                                else Outcome(TryFrom(v6, RouteAddress.Parse(s).value))
    ensures var r := RouteAddress.Parse(s);
            r.Ok? && (r.value == [] || r.value[0] !in {PROTOCOL, "dns", "dns4", "dns6", "ip4", "ip6", "tcp"}) ==>
              FromStr(v6, s) == Err(Format(NoMatchingFormat))
  {
    if RouteAddress.Parse(s).Ok? { TryFromExact(v6, RouteAddress.Parse(s).value); }
  }

  /** The segment that should hold the port: the last of those looked at. */
  function PortText(a: RouteAddress.Address): string
    requires |a| >= 2
  {
    if |a| > 5 then a[4] else a[|a| - 1]
  }

  predicate HostKnown(v6: Ip6Text, scheme: string, host: string) {
    scheme in {"dns", "dns4", "dns6"} || (scheme == "ip4" && ParseIp4(host).Some?)
        || (scheme == "ip6" && v6.parse(host).Some?)
  }

  predicate BadIp(v6: Ip6Text, scheme: string, host: string) {
    (scheme == "ip4" && ParseIp4(host).None?) || (scheme == "ip6" && v6.parse(host).None?)
  }

  /** Which addresses are targets, and which error the others get; a bad port is reported before anything else. */
  lemma TryFromExact(v6: Ip6Text, a: RouteAddress.Address)
    ensures TryFrom(v6, a) == Err(TooFewSegments) <==> a == [PROTOCOL]
    ensures TryFrom(v6, a) == Err(InvalidPort) <==> |a| >= 2 && a[0] == PROTOCOL && ParsePort(PortText(a)).None?
    ensures TryFrom(v6, a).Ok? <==>
              && |a| >= 3 && a[0] == PROTOCOL && ParsePort(PortText(a)).Some?
              && ((|a| == 3 && a[1] == "tcp") || (|a| >= 5 && a[3] == "tcp" && HostKnown(v6, a[1], a[2])))
    ensures TryFrom(v6, a) == Err(InvalidIP) <==>
              |a| >= 5 && a[0] == PROTOCOL && ParsePort(PortText(a)).Some? && a[3] == "tcp" && BadIp(v6, a[1], a[2])
  {
    if a != [] && a[0] == PROTOCOL {
      var rest := a[1..];
      assert a == [PROTOCOL] + rest;
      StripOne(rest);
      var parts := if |rest| > 4 then rest[..4] else rest;
      if |parts| > 1 {
        var front := parts[..|parts| - 1];
        assert front == ["tcp"] <==> |a| == 3 && a[1] == "tcp";
      }
    }
  }

  /** How the port is spelt does not matter: the target is that of the plain number. */
  lemma PortSpelling(v6: Ip6Text, a: RouteAddress.Address)
    requires 2 <= |a| <= 5 && a[0] == PROTOCOL && ParsePort(a[|a| - 1]).Some?
    ensures TryFrom(v6, a) == TryFrom(v6, a[..|a| - 1] + [Digits(ParsePort(a[|a| - 1]).value)])
  {
    var n := ParsePort(a[|a| - 1]).value;
    var b := a[..|a| - 1] + [Digits(n)];
    ParsePortDigits(n);
    assert a == [PROTOCOL] + a[1..] && b == [PROTOCOL] + b[1..];
    StripOne(a[1..]);
    StripOne(b[1..]);
    assert a[1..][..|a| - 2] == b[1..][..|b| - 2];
  }

  /** From address to target and back: the same address exactly when it has the full five segments, no more, and its
      number and IPv6 address are written the one way the writer would. */
  lemma AddressKeptExactly(v6: Ip6Text, a: RouteAddress.Address)
    requires TryFrom(v6, a).Ok?
    ensures ToAddress(v6, TryFrom(v6, a).value) == a <==>
              && |a| == 5
              && Plain(a[4])
              && (a[1] == "ip6" ==> v6.parse(a[2]).Some? && v6.render(v6.parse(a[2]).value) == a[2])
  {
    assert a[0] == PROTOCOL;
    var rest := a[1..];
    assert a == [PROTOCOL] + rest;
    StripOne(rest);
    if |a| == 5 {
      DigitsParsePort(a[4]);
      assert rest[..3] == [a[1], a[2], "tcp"];
      if a[1] == "ip4" { Ip4Text(LOCALHOST, a[2]); }
      assert a == [PROTOCOL, a[1], a[2], "tcp", a[4]];
    }
  }

  /** Segments past the fourth are ignored, so distinct addresses name the same target. */
  lemma TrailingSegmentsIgnored(v6: Ip6Text, a: RouteAddress.Address, more: RouteAddress.Address)
    requires |a| >= 5
    ensures TryFrom(v6, a + more) == TryFrom(v6, a)
  {
    if a[0] == PROTOCOL {
      assert a == [PROTOCOL] + a[1..];
      assert a + more == [PROTOCOL] + (a[1..] + more);
      StripOne(a[1..]);
      StripOne(a[1..] + more);
      assert (a[1..] + more)[..4] == a[1..][..4];
    }
  }
}
