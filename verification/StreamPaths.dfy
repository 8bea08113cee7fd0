/**
 Stream paths on the wire: how a printed path (src/domain/session_stream.cpp)
 is read back by the websocket router, and percent decoding
 (src/api/http_server.cpp). Characters stand for bytes.
 */
module StreamPaths {
  import opened Wrappers
  import opened SessionStream
  import opened Text

  /** `std::stoi` throws when it meets no digit. */
  datatype DecodeError = InvalidHex

  predicate IsHex(c: char) {
    '0' <= c <= '9' || 'A' <= c <= 'F' || 'a' <= c <= 'f'
  }

  function HexValue(c: char): (value: int)
    requires IsHex(c)
    ensures 0 <= value < 16
  {
    if c <= '9' then c as int - '0' as int
    else if c <= 'F' then c as int - 'A' as int + 10
    else c as int - 'a' as int + 10
  }

  predicate IsSpace(c: char) {
    c == ' ' || 9 <= c as int <= 13
  }

  /** `std::stoi(text, nullptr, 16)` on two characters: leading space, a sign and trailing junk are all let through. */
  function ParseHexPair(a: char, b: char): Option<int> {
    if IsSpace(a) || a == '+' then if IsHex(b) then Some(HexValue(b)) else None
    else if a == '-' then if IsHex(b) then Some(-HexValue(b)) else None
    else if IsHex(a) then Some(if IsHex(b) then 16 * HexValue(a) + HexValue(b) else HexValue(a))
    else None
  }

  /** The byte a cast to `char` keeps. */
  function ByteOf(value: int): (c: char)
    ensures c as int == value % 256
  {
    (value % 256) as char
  }

  predicate StartsEscape(s: string) {
    2 < |s| && s[0] == '%'
  }

  function Prepend(c: char, rest: Result<string, DecodeError>): Result<string, DecodeError> {
    match rest
    case Ok(text) => Ok([c] + text)
    case Err(error) => Err(error)
  }

  function Decoded(s: string): Result<string, DecodeError> {
    if s == "" then Ok("")
    else if StartsEscape(s) then
      var value := ParseHexPair(s[1], s[2]);
      if value.None? then Err(InvalidHex) else Prepend(ByteOf(value.value), Decoded(s[3..]))
    else Prepend(if s[0] == '+' then ' ' else s[0], Decoded(s[1..]))
  }

  method DecodePercentEncoded(value: string) returns (result: Result<string, DecodeError>)
    ensures result == Decoded(value)
  {
    var decoded := "";
    var index := 0;
    assert value[0..] == value;
    assert Decoded(value).Ok? ==> "" + Decoded(value).value == Decoded(value).value;
    while index < |value|
      invariant 0 <= index <= |value|
      invariant Decoded(value) == match Decoded(value[index..])
                                  case Ok(rest) => Ok(decoded + rest)
                                  case Err(error) => Err(error)
    {
      ghost var here := value[index..];
      var ch := value[index];
      if ch == '%' && index + 2 < |value| {
        var parsed := ParseHexPair(value[index + 1], value[index + 2]);
        assert here[1] == value[index + 1] && here[2] == value[index + 2];
        if parsed.None? {
          return Err(InvalidHex);
        }
        assert here[3..] == value[index + 3..];
        AppendPrepend(decoded, ByteOf(parsed.value), Decoded(here[3..]));
        decoded := decoded + [ByteOf(parsed.value)];
        index := index + 2;
      } else if ch == '+' {
        assert here[1..] == value[index + 1..];
        AppendPrepend(decoded, ' ', Decoded(here[1..]));
        decoded := decoded + [' '];
      } else {
        assert here[1..] == value[index + 1..];
        AppendPrepend(decoded, ch, Decoded(here[1..]));
        decoded := decoded + [ch];
      }
      index := index + 1;
    }
    assert decoded + "" == decoded;
    return Ok(decoded);
  }

  lemma AppendPrepend(prefix: string, c: char, rest: Result<string, DecodeError>)
    ensures rest.Ok? ==> prefix + Prepend(c, rest).value == (prefix + [c]) + rest.value
  {
  }

  // -------------------------------------------------------------- encoding

  predicate IsByteString(s: string) {
    forall i :: 0 <= i < |s| ==> s[i] as int < 256
  }

  predicate Unreserved(c: char) {
    'A' <= c <= 'Z' || 'a' <= c <= 'z' || '0' <= c <= '9' || c == '-' || c == '_' || c == '.' || c == '~'
  }

  function UpperHex(digit: nat): (c: char)
    requires digit < 16
    ensures IsHex(c) && HexValue(c) == digit
  {
    if digit < 10 then ('0' as int + digit) as char else ('A' as int + digit - 10) as char
  }

  function EncodedByte(c: char): string
    requires c as int < 256
  {
    if Unreserved(c) then [c] else ['%', UpperHex(c as int / 16), UpperHex(c as int % 16)]
  }

  /** The encoder of section 2.1 of RFC 3986, as clients use it. */
  function UrlEncode(s: string): string
    requires IsByteString(s)
  {
    if s == "" then "" else EncodedByte(s[0]) + UrlEncode(s[1..])
  }

  lemma DecodeEncodedByte(c: char, rest: string)
    requires c as int < 256
    ensures Decoded(EncodedByte(c) + rest) == Prepend(c, Decoded(rest))
  {
    var text := EncodedByte(c) + rest;
    if Unreserved(c) {
      assert text[1..] == rest;
    } else {
      assert text[0] == '%' && text[1] == UpperHex(c as int / 16) && text[2] == UpperHex(c as int % 16);
      assert text[3..] == rest;
      assert !IsSpace(text[1]) && text[1] != '+' && text[1] != '-';
      assert ParseHexPair(text[1], text[2]) == Some(c as int);
      assert ByteOf(c as int) == c;
    }
  }

  /** Decoding inverts encoding on every byte string. */
  lemma {:induction false} DecodeInvertsEncode(s: string)
    requires IsByteString(s)
    ensures Decoded(UrlEncode(s)) == Ok(s)
  {
    if s != "" {
      DecodeInvertsEncode(s[1..]);
      DecodeEncodedByte(s[0], UrlEncode(s[1..]));
      assert [s[0]] + s[1..] == s;
    }
  }

  const UPPER_DIGITS := "0123456789ABCDEF"
  const LOWER_DIGITS := "0123456789abcdef"

  /** The character is this hexadecimal digit, in either case. */
  predicate ShowsHex(c: char, digit: nat) {
    digit < 16 && (c == UPPER_DIGITS[digit] || c == LOWER_DIGITS[digit])
  }

  lemma DigitCharacters(digit: nat)
    requires digit < 16
    ensures digit < 10 ==> UPPER_DIGITS[digit] as int == LOWER_DIGITS[digit] as int == '0' as int + digit
    ensures digit >= 10 ==> UPPER_DIGITS[digit] as int == 'A' as int + digit - 10
    ensures digit >= 10 ==> LOWER_DIGITS[digit] as int == 'a' as int + digit - 10
  {
  }

  lemma HexDigit(c: char, digit: nat)
    requires ShowsHex(c, digit)
    ensures IsHex(c) && HexValue(c) == digit
  {
    DigitCharacters(digit);
  }

  /** Every character the number parser takes for a digit is one of these. */
  lemma OnlyHexDigits(c: char)
    requires IsHex(c)
    ensures ShowsHex(c, HexValue(c))
  {
    DigitCharacters(HexValue(c));
  }

  lemma EscapeReads(a: char, b: char, rest: string)
    ensures Decoded(['%', a, b] + rest) ==
      if ParseHexPair(a, b).None? then Err(InvalidHex)
      else Prepend(ByteOf(ParseHexPair(a, b).value), Decoded(rest))
  {
    var text := ['%', a, b] + rest;
    assert text[0] == '%' && text[1] == a && text[2] == b && text[3..] == rest;
  }

  lemma ByteItself(value: nat)
    requires value < 256
    ensures ByteOf(value) == value as char
  {
  }

  lemma ByteOfNegative(digit: int)
    requires 0 <= digit < 16
    ensures ByteOf(-digit) == (if digit == 0 then 0 else 256 - digit) as char
  {
    assert -digit == -1 * 256 + (256 - digit);
  }

  /** The byte an escape of two digits stands for, whatever their case. */
  lemma EscapedByte(a: char, b: char, high: nat, low: nat, rest: string)
    requires ShowsHex(a, high) && ShowsHex(b, low)
    ensures Decoded(['%', a, b] + rest) == Prepend((16 * high + low) as char, Decoded(rest))
  {
    hide ShowsHex, Decoded, ByteOf;
    HexDigit(a, high);
    HexDigit(b, low);
    EscapeReads(a, b, rest);
    ByteItself(16 * high + low);
  }

  /** The escapes of one digit that the number parser lets through: with junk behind it, or a space or sign before. */
  lemma OneDigitByte(a: char, other: char, digit: nat, rest: string)
    requires ShowsHex(a, digit) && !IsHex(other)
    ensures Decoded(['%', a, other] + rest) == Prepend(digit as char, Decoded(rest))
    ensures other == ' ' || other == '+' || 9 <= other as int <= 13 ==>
      Decoded(['%', other, a] + rest) == Prepend(digit as char, Decoded(rest))
    ensures other == '-' ==>
      Decoded(['%', other, a] + rest) == Prepend((if digit == 0 then 0 else 256 - digit) as char, Decoded(rest))
  {
    hide ShowsHex, Decoded, ByteOf;
    HexDigit(a, digit);
    EscapeReads(a, other, rest);
    EscapeReads(other, a, rest);
    ByteItself(digit);
    ByteOfNegative(digit);
  }

  /** An escape that begins with neither a digit nor what may precede one stops the decoding. */
  lemma BadEscape(a: char, b: char, rest: string)
    requires !IsHex(a) && !IsHex(b)
    ensures Decoded(['%', a, b] + rest) == Err(InvalidHex)
  {
    EscapeReads(a, b, rest);
  }

  /** A plus is a space, and every other character that begins no escape is itself. */
  lemma PlainCharacter(c: char, rest: string)
    requires c == '%' ==> |rest| < 2
    ensures Decoded([c] + rest) == Prepend(if c == '+' then ' ' else c, Decoded(rest))
  {
    assert ([c] + rest)[1..] == rest;
  }

  /** No character that decoding would rewrite: no `+`, and no `%` with two characters after it. */
  predicate Untouched(s: string) {
    forall i :: 0 <= i < |s| ==> s[i] != '+' && (s[i] == '%' ==> i + 2 >= |s|)
  }

  lemma {:induction false} DecodedLength(s: string)
    ensures Decoded(s).Ok? ==> |Decoded(s).value| <= |s|
    decreases |s|
  {
    if StartsEscape(s) {
      DecodedLength(s[3..]);
    } else if s != "" {
      DecodedLength(s[1..]);
    }
  }

  /** Decoding is the identity exactly on the texts it has nothing to rewrite in. */
  lemma {:induction false} DecodeIsIdentityIff(s: string)
    ensures Decoded(s) == Ok(s) <==> Untouched(s)
    decreases |s|
  {
    if StartsEscape(s) {
      DecodedLength(s[3..]);
      assert s[0] == '%' && !Untouched(s);
    } else if s != "" {
      var rest := s[1..];
      DecodeIsIdentityIff(rest);
      assert [s[0]] + rest == s;
      if Untouched(s) {
        assert forall i :: 0 <= i < |rest| ==> rest[i] == s[i + 1];
      } else if s[0] != '+' {
        var i :| 0 <= i < |s| && (s[i] == '+' || (s[i] == '%' && i + 2 < |s|));
        assert i > 0 && rest[i - 1] == s[i];
      }
      if Decoded(s) == Ok(s) {
        assert Decoded(s).value[0] == s[0] && Decoded(s).value[1..] == rest;
      }
    }
  }

  // --------------------------------------------------------------- parsing

  /** Index of the first occurrence of a character, or the length. */
  function IndexOf(s: string, c: char): (k: nat)
    ensures k <= |s| && (k < |s| ==> s[k] == c)
    ensures forall i :: 0 <= i < k ==> s[i] != c
  {
    if s == "" || s[0] == c then 0 else 1 + IndexOf(s[1..], c)
  }

  predicate OccursAt(s: string, pattern: string, k: nat) {
    k + |pattern| <= |s| && s[k..k + |pattern|] == pattern
  }

  /** `std::string_view::find` from a position on. */
  function FindFrom(s: string, pattern: string, from: nat): (k: Option<nat>)
    ensures k.Some? ==> from <= k.value && OccursAt(s, pattern, k.value)
    ensures k.Some? ==> forall i :: from <= i < k.value ==> !OccursAt(s, pattern, i)
    ensures k.None? ==> forall i :: from <= i ==> !OccursAt(s, pattern, i)
    decreases |s| - from
  {
    if from + |pattern| > |s| then None
    else if OccursAt(s, pattern, from) then Some(from)
    else FindFrom(s, pattern, from + 1)
  }

  const PREFIX := "/sessions/"
  const INFIX := "/streams/"
  const SUFFIX := "/ws"

  predicate EndsWith(s: string, suffix: string) {
    |suffix| <= |s| && s[|s| - |suffix|..] == suffix
  }

  /** Session and stream named by an upgrade request, or nothing when the target is no stream path. */
  function ParseWebSocketStreamTarget(target: string): Result<Option<(string, string)>, DecodeError> {
    var route := target[..IndexOf(target, '?')];
    if !(PREFIX <= route) || !EndsWith(route, SUFFIX) then Ok(None)
    else
      var infix := FindFrom(route, INFIX, |PREFIX|);
      if infix.None? || infix.value <= |PREFIX| then Ok(None)
      else
        var sessionId := route[|PREFIX|..infix.value];
        var begin, end := infix.value + |INFIX|, |route| - |SUFFIX|;
        if begin >= end || '/' in sessionId then Ok(None)
        else match Decoded(route[begin..end])
             case Err(error) => Err(error)
             case Ok(streamId) => Ok(Some((sessionId, streamId)))
  }

  /** Session ids the service generates are `sess_` and sixteen hex digits; this is all that parsing needs of them. */
  predicate PlainSessionId(sessionId: string) {
    sessionId != "" && '/' !in sessionId && '?' !in sessionId
  }

  lemma OccurrenceStart(s: string, pattern: string, k: nat)
    requires pattern != "" && k < |s|
    ensures OccursAt(s, pattern, k) ==> s[k] == pattern[0]
  {
    if OccursAt(s, pattern, k) {
      assert s[k..k + |pattern|][0] == s[k];
    }
  }

  lemma InfixFollowsSession(route: string, sessionId: string, rest: string)
    requires PlainSessionId(sessionId) && route == PREFIX + sessionId + INFIX + rest
    ensures FindFrom(route, INFIX, |PREFIX|) == Some(|PREFIX| + |sessionId|)
    ensures route[|PREFIX|..|PREFIX| + |sessionId|] == sessionId
  {
    var at := |PREFIX| + |sessionId|;
    assert OccursAt(route, INFIX, at);
    forall i | |PREFIX| <= i < at ensures !OccursAt(route, INFIX, i) {
      assert route[i] == sessionId[i - |PREFIX|];
      OccurrenceStart(route, INFIX, i);
    }
  }

  lemma {:induction false} IndexPastHead(head: string, tail: string)
    requires '?' !in head
    ensures IndexOf(head + tail, '?') == |head| + IndexOf(tail, '?')
    decreases |head|
  {
    if head == "" {
      assert head + tail == tail;
    } else {
      assert (head + tail)[0] == head[0] && (head + tail)[1..] == head[1..] + tail;
      IndexPastHead(head[1..], tail);
    }
  }

  lemma CutAtQuery(head: string, tail: string)
    requires '?' !in head
    ensures IndexOf(head + tail, '?') == |head| + IndexOf(tail, '?')
    ensures (head + tail)[..IndexOf(head + tail, '?')] == head + tail[..IndexOf(tail, '?')]
  {
    IndexPastHead(head, tail);
  }

  /** What the router reads from a route that ends a stream text with the websocket suffix. */
  lemma ParseRoute(target: string, sessionId: string, rest: string)
    requires PlainSessionId(sessionId)
    requires target[..IndexOf(target, '?')] == PREFIX + sessionId + INFIX + rest
    ensures ParseWebSocketStreamTarget(target) ==
      if |rest| <= |SUFFIX| || !EndsWith(rest, SUFFIX) then Ok(None)
      else match Decoded(rest[..|rest| - |SUFFIX|])
           case Err(error) => Err(error)
           case Ok(streamId) => Ok(Some((sessionId, streamId)))
  {
    var route := target[..IndexOf(target, '?')];
    InfixFollowsSession(route, sessionId, rest);
    assert PREFIX <= route;
    RouteEnd(PREFIX + sessionId + INFIX, rest);
  }

  /** The route, which is the target up to its first `?`, has this shape. */
  ghost predicate IsStreamRoute(target: string, sessionId: string, encoded: string) {
    && sessionId != "" && '/' !in sessionId && encoded != ""
    && target[..IndexOf(target, '?')] == "/sessions/" + sessionId + "/streams/" + encoded + "/ws"
  }

  lemma InfixOf(route: string)
    requires PREFIX <= route && FindFrom(route, INFIX, |PREFIX|).Some?
    ensures var at := FindFrom(route, INFIX, |PREFIX|).value;
      route == PREFIX + route[|PREFIX|..at] + INFIX + route[at + |INFIX|..]
  {
  }

  lemma RouteWithSuffix(rest: string)
    requires EndsWith(rest, SUFFIX)
    ensures rest == rest[..|rest| - |SUFFIX|] + SUFFIX
  {
  }

  /** What is read from a target of that shape. */
  lemma StreamRouteReads(target: string, sessionId: string, encoded: string)
    requires IsStreamRoute(target, sessionId, encoded)
    ensures ParseWebSocketStreamTarget(target) == match Decoded(encoded)
      case Err(error) => Err(error)
      case Ok(streamId) => Ok(Some((sessionId, streamId)))
  {
    var route := target[..IndexOf(target, '?')];
    assert '?' !in route;
    assert forall i :: 0 <= i < |sessionId| ==> route[|PREFIX| + i] == sessionId[i];
    var rest := encoded + SUFFIX;
    assert route == PREFIX + sessionId + INFIX + rest;
    assert rest[|rest| - |SUFFIX|..] == SUFFIX && rest[..|rest| - |SUFFIX|] == encoded;
    ParseRoute(target, sessionId, rest);
  }

  lemma NamedHasShape(target: string)
    requires ParseWebSocketStreamTarget(target) != Ok(None)
    ensures exists sessionId, encoded :: IsStreamRoute(target, sessionId, encoded)
  {
    var route := target[..IndexOf(target, '?')];
    InfixOf(route);
    var at := FindFrom(route, INFIX, |PREFIX|).value;
    var sessionId, rest := route[|PREFIX|..at], route[at + |INFIX|..];
    SuffixOfRest(PREFIX + sessionId + INFIX, rest);
    RouteWithSuffix(rest);
    assert IsStreamRoute(target, sessionId, rest[..|rest| - |SUFFIX|]);
  }

  lemma SuffixOfRest(head: string, rest: string)
    requires |rest| >= |SUFFIX|
    ensures EndsWith(rest, SUFFIX) <==> EndsWith(head + rest, SUFFIX)
  {
    assert rest[|rest| - |SUFFIX|..] == (head + rest)[|head + rest| - |SUFFIX|..];
  }

  /** A target names a stream, or fails in doing so, exactly if it has that shape; every other is no stream path. */
  lemma NamedByShape(target: string)
    ensures ParseWebSocketStreamTarget(target) != Ok(None) <==>
      exists sessionId, encoded :: IsStreamRoute(target, sessionId, encoded)
  {
    hide ParseWebSocketStreamTarget;
    if ParseWebSocketStreamTarget(target) != Ok(None) {
      NamedHasShape(target);
    }
    if sessionId, encoded :| IsStreamRoute(target, sessionId, encoded) {
      StreamRouteReads(target, sessionId, encoded);
    }
  }

  lemma RouteEnd(head: string, rest: string)
    ensures |rest| > |SUFFIX| ==> (EndsWith(head + rest, SUFFIX) <==> EndsWith(rest, SUFFIX))
    ensures |rest| > |SUFFIX| ==> (head + rest)[|head|..|head + rest| - |SUFFIX|] == rest[..|rest| - |SUFFIX|]
  {
    var route := head + rest;
    if |rest| > |SUFFIX| {
      assert route[|route| - |SUFFIX|..] == rest[|rest| - |SUFFIX|..];
    }
  }

  /**
   A printed websocket path is read back as the session and stream it was
   printed from exactly when the stream id is non-empty, has no `?`, and
   holds nothing that decoding rewrites.
   */
  lemma WebSocketPathParsesBack(sessionId: string, streamId: string)
    requires PlainSessionId(sessionId)
    ensures ParseWebSocketStreamTarget(MakeStreamPath(sessionId, streamId, "websocket"))
              == Ok(Some((sessionId, streamId)))
            <==> streamId != "" && '?' !in streamId && Untouched(streamId)
  {
    hide ParseWebSocketStreamTarget;
    var target := MakeStreamPath(sessionId, streamId, "websocket");
    var head := PREFIX + sessionId + INFIX;
    var tail := streamId + SUFFIX;
    assert target == head + tail;
    assert '?' !in head;
    CutAtQuery(head, tail);
    var rest := tail[..IndexOf(tail, '?')];
    ParseRoute(target, sessionId, rest);
    if '?' in streamId {
      var q :| 0 <= q < |streamId| && streamId[q] == '?';
      assert tail[q] == '?';
      if |rest| > |SUFFIX| {
        DecodedLength(rest[..|rest| - |SUFFIX|]);
      }
    } else {
      assert forall i :: 0 <= i < |streamId| ==> tail[i] == streamId[i];
      assert IndexOf(tail, '?') == |tail| by {
        assert forall i :: 0 <= i < |tail| ==> tail[i] != '?';
      }
      assert rest == tail;
      assert rest[..|rest| - |SUFFIX|] == streamId;
      assert rest[|rest| - |SUFFIX|..] == SUFFIX;
      DecodeIsIdentityIff(streamId);
    }
  }

  /** The stream id up to its first `?`, which is all of it that the router sees. */
  function BeforeQuery(streamId: string): string {
    streamId[..IndexOf(streamId, '?')]
  }

  /** An id that looks like the end of a websocket path to a router that stops at the first `?`. */
  predicate PosesAsWebSocket(streamId: string) {
    '?' in streamId && |BeforeQuery(streamId)| > |SUFFIX| && EndsWith(BeforeQuery(streamId), SUFFIX)
  }

  lemma RouteOfHttpPath(streamId: string)
    ensures var tail := streamId + "/http";
      tail[..IndexOf(tail, '?')] == if '?' in streamId then BeforeQuery(streamId) else tail
  {
    var tail := streamId + "/http";
    var k := IndexOf(streamId, '?');
    if '?' in streamId {
      var q :| 0 <= q < |streamId| && streamId[q] == '?';
      assert k < |streamId| && tail[k] == '?' && IndexOf(tail, '?') <= k;
      assert tail[IndexOf(tail, '?')] == streamId[IndexOf(tail, '?')];
    } else {
      assert forall i :: 0 <= i < |tail| ==> tail[i] != '?';
      assert tail[..|tail|] == tail;
    }
  }

  /**
   The path of an HTTP stream is taken for a websocket path exactly when its
   stream id poses as one, and then for the stream named before the suffix.
   */
  lemma HttpPathIsNotWebSocketIff(sessionId: string, streamId: string, transport: string)
    requires PlainSessionId(sessionId) && transport != "websocket"
    ensures var read := ParseWebSocketStreamTarget(MakeStreamPath(sessionId, streamId, transport));
      && (read == Ok(None) <==> !PosesAsWebSocket(streamId))
      && (PosesAsWebSocket(streamId) ==>
            match Decoded(BeforeQuery(streamId)[..|BeforeQuery(streamId)| - |SUFFIX|])
            case Err(error) => read == Err(error)
            case Ok(other) => read == Ok(Some((sessionId, other))))
  {
    hide ParseWebSocketStreamTarget, Decoded;
    var target := MakeStreamPath(sessionId, streamId, transport);
    var head, tail := PREFIX + sessionId + INFIX, streamId + "/http";
    assert target == head + tail;
    CutAtQuery(head, tail);
    RouteOfHttpPath(streamId);
    ParseRoute(target, sessionId, tail[..IndexOf(tail, '?')]);
    if '?' !in streamId {
      assert tail[|tail| - |SUFFIX|..][2] == tail[|tail| - 1] == 'p';
    }
  }

  /** The HTTP path of stream `x/ws?` is read as the websocket path of stream `x`. */
  lemma PosingExample(sessionId: string, transport: string)
    requires PlainSessionId(sessionId) && transport != "websocket"
    ensures ParseWebSocketStreamTarget(MakeStreamPath(sessionId, "x/ws?", transport)) == Ok(Some((sessionId, "x")))
  {
    var id := "x/ws?";
    assert id[4] == '?' && IndexOf(id, '?') == 4 by {
      assert id[0] == 'x' && id[1] == '/' && id[2] == 'w' && id[3] == 's';
    }
    assert BeforeQuery(id) == "x/ws" && "x/ws"[1..] == SUFFIX && "x/ws"[..1] == "x";
    DecodeIsIdentityIff("x");
    HttpPathIsNotWebSocketIff(sessionId, id, transport);
  }

  function PathEnd(transport: string): string {
    if transport == "websocket" then "/ws" else "/http"
  }

  lemma PathShape(sessionId: string, streamId: string, transport: string)
    ensures MakeStreamPath(sessionId, streamId, transport)
      == PREFIX + (sessionId + (INFIX + (streamId + PathEnd(transport))))
  {
  }

  lemma SameEnd(t1: string, transport1: string, t2: string, transport2: string)
    requires t1 + PathEnd(transport1) == t2 + PathEnd(transport2)
    ensures t1 == t2 && PathEnd(transport1) == PathEnd(transport2)
  {
    var whole := t1 + PathEnd(transport1);
    assert whole[|whole| - 1] == if transport1 == "websocket" then 's' else 'p';
    assert whole[|whole| - 1] == if transport2 == "websocket" then 's' else 'p';
    SameBeforeSuffix(PathEnd(transport1), t1, t2);
  }

  /** Printing is injective in session, stream and whether the transport is a websocket. */
  lemma PathsAreInjective(s1: string, t1: string, transport1: string, s2: string, t2: string, transport2: string)
    requires '/' !in s1 && '/' !in s2
    requires MakeStreamPath(s1, t1, transport1) == MakeStreamPath(s2, t2, transport2)
    ensures s1 == s2 && t1 == t2 && (transport1 == "websocket" <==> transport2 == "websocket")
  {
    PathShape(s1, t1, transport1);
    PathShape(s2, t2, transport2);
    var x, y := t1 + PathEnd(transport1), t2 + PathEnd(transport2);
    SameAfterPrefix(PREFIX, s1 + (INFIX + x), s2 + (INFIX + y));
    SameBeforeSlash(s1, s2, INFIX + x, INFIX + y);
    SameAfterPrefix(INFIX, x, y);
    SameEnd(t1, transport1, t2, transport2);
  }
}
