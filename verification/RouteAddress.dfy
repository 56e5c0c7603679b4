/** Slash-separated route addresses: rendering with escapes, parsing, and segment prefixes. */
module RouteAddress {
  import opened Prelude
  import Utf8

  type Address = seq<string>

  datatype ParseError = InvalidPrefix | InvalidEscapeSequence

  predicate NeedsEscaped(c: char) { c == '/' || c == '\\' }

  function EscapeChar(c: char): string {
    if NeedsEscaped(c) then ['\\', c] else [c]
  }

  function Escape(segment: string): string {
    if segment == "" then "" else EscapeChar(segment[0]) + Escape(segment[1..])
  }

  /** The text of an address: every segment behind a slash, slashes and backslashes escaped. */
  function Rendered(a: Address): string {
    if a == [] then "" else "/" + Escape(a[0]) + Rendered(a[1..])
  }

  /** The segments of the text after a leading slash, given the part of the first one already read. */
  function ParseRest(s: string, current: string): Option<Address> {
    if s == "" then Some([current])
    else if s[0] == '/' then
      (match ParseRest(s[1..], "")
       case None => None
       case Some(rest) => Some([current] + rest))
    else if s[0] == '\\' then
      if |s| >= 2 && NeedsEscaped(s[1]) then ParseRest(s[2..], current + [s[1]]) else None
    else ParseRest(s[1..], current + [s[0]])
  }

  function Parse(s: string): Result<Address, ParseError> {
    if s == "" then Ok([])
    else if s[0] != '/' then Err(InvalidPrefix)
    else match ParseRest(s[1..], "")
         case None => Err(InvalidEscapeSequence)
         case Some(a) => Ok(a)
  }

  lemma {:induction false} ParseEscaped(segment: string, rest: string, current: string)
    ensures ParseRest(Escape(segment) + rest, current) == ParseRest(rest, current + segment)
  {
    if segment == "" {
      assert Escape(segment) + rest == rest && current + segment == current;
    } else {
      var c := segment[0];
      var tail := Escape(segment[1..]) + rest;
      assert Escape(segment) + rest == EscapeChar(c) + tail;
      assert (EscapeChar(c) + tail)[|EscapeChar(c)|..] == tail;
      ParseEscaped(segment[1..], rest, current + [c]);
      assert current + [c] + segment[1..] == current + segment;
    }
  }

  /** One whole segment behind a slash. */
  lemma ParseSegment(segment: string, rest: string, first: string)
    requires ParseRest(rest, segment).Some?
    ensures ParseRest("/" + Escape(segment) + rest, first) == Some([first] + ParseRest(rest, segment).value)
  {
    var tail := Escape(segment) + rest;
    ParseEscaped(segment, rest, "");
    assert "" + segment == segment;
    assert "/" + Escape(segment) + rest == "/" + tail && ("/" + tail)[1..] == tail;
  }

  lemma {:induction false} ParseRestRendered(first: string, a: Address)
    ensures ParseRest(Rendered(a), first) == Some([first] + a)
    decreases |a|
  {
    if a == [] {
      assert [first] + a == [first];
    } else {
      ParseRestRendered(a[0], a[1..]);
      ParseSegment(a[0], Rendered(a[1..]), first);
      assert [a[0]] + a[1..] == a;
    }
  }

  /** Parsing inverts rendering, for every segment list: empty segments, slashes and backslashes included. */
  lemma ParseRendered(a: Address)
    ensures Parse(Rendered(a)) == Ok(a)
  {
    if a != [] {
      ParseRestRendered("", a);
      var rest := ParseRest(Rendered(a)[1..], "").value;
      assert ([""] + rest)[1..] == rest && ([""] + a)[1..] == a;
    }
  }

  lemma {:induction false} EscapeConcat(s: string, t: string)
    ensures Escape(s + t) == Escape(s) + Escape(t)
  {
    if s == "" {
      assert s + t == t;
    } else {
      EscapeConcat(s[1..], t);
      assert (s + t)[1..] == s[1..] + t;
    }
  }

  lemma EscapeOneMore(current: string, c: char, rest: string)
    ensures "/" + Escape(current + [c]) + rest == "/" + Escape(current) + (EscapeChar(c) + rest)
  {
    EscapeConcat(current, [c]);
    assert Escape([c]) == EscapeChar(c) + Escape("");
  }

  lemma {:induction false} RenderedParseRest(s: string, current: string)
    ensures ParseRest(s, current).Some? ==> "/" + Escape(current) + s == Rendered(ParseRest(s, current).value)
    decreases |s|
  {
    if s == "" {
    } else if s[0] == '/' {
      RenderedParseRest(s[1..], "");
      if ParseRest(s, current).Some? {
        var rest := ParseRest(s[1..], "").value;
        assert ([current] + rest)[1..] == rest;
        assert "/" + Escape("") + s[1..] == s;
      }
    } else {
      var n := if s[0] == '\\' then 2 else 1;
      if s[0] != '\\' || (|s| >= 2 && NeedsEscaped(s[1])) {
        var c := s[n - 1];
        RenderedParseRest(s[n..], current + [c]);
        assert EscapeChar(c) == s[..n];
        EscapeOneMore(current, c, s[n..]);
        assert s == s[..n] + s[n..];
      }
    }
  }

  /** Rendering inverts parsing, for every accepted text: nothing is normalised away. */
  lemma RenderedParse(s: string)
    ensures Parse(s).Ok? ==> Rendered(Parse(s).value) == s
  {
    if s != "" && s[0] == '/' {
      RenderedParseRest(s[1..], "");
      assert "/" + Escape("") + s[1..] == s;
    }
  }

  /** A text is accepted exactly when it is some address's rendering; otherwise the error says whether the leading
      slash is missing. */
  lemma ParseExact(s: string)
    ensures Parse(s).Ok? <==> exists a :: Rendered(a) == s
    ensures Parse(s) == Err(InvalidPrefix) <==> s != "" && s[0] != '/'
  {
    RenderedParse(s);
    if a :| Rendered(a) == s { ParseRendered(a); }
  }

  lemma Associate(x: string, y: string, z: string)
    ensures x + (y + z) == x + y + z
  {
  }

  lemma {:induction false} RenderedConcat(a: Address, b: Address)
    ensures Rendered(a + b) == Rendered(a) + Rendered(b)
  {
    if a == [] {
      assert a + b == b;
    } else {
      RenderedConcat(a[1..], b);
      assert (a + b)[1..] == a[1..] + b;
      Associate("/" + Escape(a[0]), Rendered(a[1..]), Rendered(b));
    }
  }

  /** Concatenating accepted texts concatenates their segments. */
  lemma ParseConcat(s: string, t: string)
    requires Parse(s).Ok? && Parse(t).Ok?
    ensures Parse(s + t) == Ok(Parse(s).value + Parse(t).value)
  {
    RenderedParse(s);
    RenderedParse(t);
    RenderedConcat(Parse(s).value, Parse(t).value);
    ParseRendered(Parse(s).value + Parse(t).value);
  }

  // ---- rendering ----

  function Escapes(segment: string): nat {
    if segment == "" then 0 else (if NeedsEscaped(segment[0]) then 1 else 0) + Escapes(segment[1..])
  }

  /** The length bound reserved for one segment: its bytes, one slash, one byte an escape. */
  function SegmentBound(segment: string): nat {
    |Utf8.Encode(segment)| + 1 + Escapes(segment)
  }

  function Bound(a: Address): nat {
    if a == [] then 0 else SegmentBound(a[0]) + Bound(a[1..])
  }

  lemma {:induction false} EscapeLength(segment: string)
    ensures |Utf8.Encode(Escape(segment))| == |Utf8.Encode(segment)| + Escapes(segment)
  {
    if segment != "" {
      var c := segment[0];
      EscapeLength(segment[1..]);
      Utf8.EncodeConcat(EscapeChar(c), Escape(segment[1..]));
      assert Utf8.Encode([c]) == Utf8.EncodeChar(c) + Utf8.Encode("");
      if NeedsEscaped(c) {
        assert EscapeChar(c)[1..] == [c];
        assert Utf8.Encode(EscapeChar(c)) == Utf8.EncodeChar('\\') + Utf8.Encode([c]);
      }
    }
  }

  /** The reserved bound is the exact rendered byte length, so the debug assertion cannot fail and no reallocation
      occurs. */
  lemma {:induction false} BoundExact(a: Address)
    ensures |Utf8.Encode(Rendered(a))| == Bound(a)
  {
    if a != [] {
      BoundExact(a[1..]);
      EscapeLength(a[0]);
      Utf8.EncodeConcat("/" + Escape(a[0]), Rendered(a[1..]));
      Utf8.EncodeConcat("/", Escape(a[0]));
      assert Utf8.Encode("/") == Utf8.EncodeChar('/') + Utf8.Encode("");
    }
  }

  /** The inner rendering loop: pushes one segment's characters, each escape in front. */
  method PushEscaped(buffer: string, segment: string) returns (pushed: string)
    ensures pushed == buffer + Escape(segment)
  {
    pushed := buffer;
    for j := 0 to |segment|
      invariant pushed + Escape(segment[j..]) == buffer + Escape(segment)
    {
      assert segment[j..][1..] == segment[j + 1..];
      if NeedsEscaped(segment[j]) {
        pushed := pushed + ['\\'];
      }
      pushed := pushed + [segment[j]];
    }
  }

  /** The rendering loop, pushing characters into a buffer of the reserved size. */
  method Render(a: Address) returns (rendered: string)
    ensures rendered == Rendered(a)
    ensures |Utf8.Encode(rendered)| <= Bound(a)
  {
    rendered := "";
    for i := 0 to |a|
      invariant rendered + Rendered(a[i..]) == Rendered(a)
    {
      assert a[i..][1..] == a[i + 1..];
      rendered := PushEscaped(rendered + ['/'], a[i]);
    }
    BoundExact(a);
  }

  /** Finished segments in front of whatever the rest parses to. */
  function Behind(segments: Address, rest: Option<Address>): Option<Address> {
    match rest
    case None => None
    case Some(a) => Some(segments + a)
  }

  lemma BehindNothing(rest: Option<Address>)
    ensures Behind([], rest) == rest
  {
    if rest.Some? { assert [] + rest.value == rest.value; }
  }

  lemma BehindAssoc(segments: Address, current: string, rest: Option<Address>)
    ensures Behind(segments, Behind([current], rest)) == Behind(segments + [current], rest)
  {
    if rest.Some? { assert segments + ([current] + rest.value) == segments + [current] + rest.value; }
  }

  /** The parsing loop, consuming characters and pushing finished segments. */
  method FromStr(s: string) returns (r: Result<Address, ParseError>)
    ensures r == Parse(s)
    ensures r.Ok? ==> Rendered(r.value) == s
    ensures r.Err? ==> forall a :: Rendered(a) != s
  {
    ParseExact(s);
    RenderedParse(s);
    if s == "" { return Ok([]); }
    if s[0] != '/' { return Err(InvalidPrefix); }
    var segments: Address, current := [], "";
    var i := 1;
    BehindNothing(ParseRest(s[1..], ""));
    while i < |s|
      invariant 1 <= i <= |s|
      invariant ParseRest(s[1..], "") == Behind(segments, ParseRest(s[i..], current))
    {
      var c := s[i];
      i := i + 1;
      assert s[i - 1..][1..] == s[i..];
      if c == '/' {
        BehindAssoc(segments, current, ParseRest(s[i..], ""));
        segments := segments + [current];
        current := "";
      } else if c == '\\' {
        if i < |s| && NeedsEscaped(s[i]) {
          assert s[i - 1..][2..] == s[i + 1..];
          current := current + [s[i]];
          i := i + 1;
        } else {
          return Err(InvalidEscapeSequence);
        }
      } else {
        current := current + [c];
      }
    }
    segments := segments + [current];
    return Ok(segments);
  }

  // ---- prefixes ----

  function Stripped(a: Address, expected: Address): Option<Address> {
    if expected <= a then Some(a[|expected|..]) else None
  }

  /** Compares segment by segment and hands back what follows the prefix. */
  method StripSegmentPrefix(a: Address, expected: Address) returns (r: Option<Address>)
    ensures r == Stripped(a, expected)
    ensures r.Some? <==> expected <= a
    ensures r.Some? ==> a == expected + r.value
  {
    for i := 0 to |expected|
      invariant i <= |a| && expected[..i] == a[..i]
    {
      if i >= |a| || a[i] != expected[i] {
        return None;
      }
    }
    return Some(a[|expected|..]);
  }
}
