/** UTF-8 and percent-encoding as ECMAScript's `encodeURIComponent` and the
    `URLSearchParams` serializer apply them. Characters are Unicode scalar
    values; a byte is an int in 0..255. */
module Uri {
  import opened Wrappers
  import opened Text

  predicate IsByte(b: int) {
    0 <= b < 256
  }

  predicate AllBytes(bs: seq<int>) {
    forall i :: 0 <= i < |bs| ==> IsByte(bs[i])
  }

  predicate IsContinuation(b: int) {
    0x80 <= b < 0xC0
  }

  predicate IsScalar(cp: int) {
    (0 <= cp < 0xD800) || (0xE000 <= cp < 0x11_0000)
  }

  /** The UTF-8 encoding of one character (section 3 of RFC 3629). */
  function Utf8(c: char): (bs: seq<int>)
    ensures 1 <= |bs| <= 4 && AllBytes(bs)
    ensures (c as int < 0x80) <==> bs == [c as int]
  {
    var cp := c as int;
    if cp < 0x80 then [cp]
    else if cp < 0x800 then [0xC0 + cp / 64, 0x80 + cp % 64]
    else if cp < 0x1_0000 then [0xE0 + cp / 64 / 64, 0x80 + cp / 64 % 64, 0x80 + cp % 64]
    else [0xF0 + cp / 64 / 64 / 64, 0x80 + cp / 64 / 64 % 64, 0x80 + cp / 64 % 64, 0x80 + cp % 64]
  }

  function Utf8Bytes(s: string): (bs: seq<int>)
    ensures AllBytes(bs)
  {
    if s == [] then [] else Utf8(s[0]) + Utf8Bytes(s[1..])
  }

  /** How many bytes a sequence that starts with lead byte `b` has; 0 when
      `b` cannot start one. */
  function SeqLength(b: int): nat {
    if 0 <= b < 0x80 then 1
    else if 0xC0 <= b < 0xE0 then 2
    else if 0xE0 <= b < 0xF0 then 3
    else if 0xF0 <= b < 0xF8 then 4
    else 0
  }

  /** The code point of a well-formed sequence of `|bs|` bytes. */
  function CodePoint(bs: seq<int>): int
    requires 1 <= |bs| <= 4
  {
    if |bs| == 1 then bs[0]
    else if |bs| == 2 then (bs[0] - 0xC0) * 64 + (bs[1] - 0x80)
    else if |bs| == 3 then ((bs[0] - 0xE0) * 64 + (bs[1] - 0x80)) * 64 + (bs[2] - 0x80)
    else (((bs[0] - 0xF0) * 64 + (bs[1] - 0x80)) * 64 + (bs[2] - 0x80)) * 64 + (bs[3] - 0x80)
  }

  /** Whether `n` is the fewest bytes that can carry `cp`: overlong
      sequences are not UTF-8 (section 3 of RFC 3629). */
  predicate ShortestForm(n: nat, cp: int) {
    n == 1 || (n == 2 && cp >= 0x80) || (n == 3 && cp >= 0x800) || (n == 4 && cp >= 0x1_0000)
  }

  /** Decodes UTF-8 bytes; `None` when they are not the shortest-form
      UTF-8 of scalar values. */
  function DecodeUtf8(bs: seq<int>): (r: Option<string>)
    decreases |bs|
  {
    if bs == [] then Some([])
    else
      var n := SeqLength(bs[0]);
      if n == 0 || |bs| < n || !(forall k :: 1 <= k < n ==> IsContinuation(bs[k])) then None
      else
        var cp := CodePoint(bs[..n]);
        if !IsScalar(cp) || !ShortestForm(n, cp) then None
        else match DecodeUtf8(bs[n..])
          case None => None
          case Some(t) => Some([cp as char] + t)
  }

  lemma Utf8Shape(c: char)
    ensures SeqLength(Utf8(c)[0]) == |Utf8(c)|
    ensures forall k :: 1 <= k < |Utf8(c)| ==> IsContinuation(Utf8(c)[k])
    ensures CodePoint(Utf8(c)) == c as int
  {
    var cp := c as int;
    assert cp == cp / 64 * 64 + cp % 64;
    assert cp / 64 == cp / 64 / 64 * 64 + cp / 64 % 64;
    assert cp / 64 / 64 == cp / 64 / 64 / 64 * 64 + cp / 64 / 64 % 64;
  }

  /** The overlong two-byte form of U+0000 is refused. */
  lemma OverlongRefused()
    ensures DecodeUtf8([0xC0, 0x80]) == None
    ensures DecodeUtf8([0x00]) == Some(['\0'])
  {
    DecodeOneChar('\0', []);
    assert Utf8('\0') + [] == [0x00];
    assert DecodeUtf8([]) == Some([]) && ['\0'] + [] == ['\0'];
  }

  lemma DecodeOneChar(c: char, rest: seq<int>)
    ensures DecodeUtf8(Utf8(c) + rest) == match DecodeUtf8(rest)
                                          case None => None
                                          case Some(t) => Some([c] + t)
  {
    var bs := Utf8(c) + rest;
    var n := |Utf8(c)|;
    Utf8Shape(c);
    assert bs[..n] == Utf8(c) && bs[n..] == rest;
    assert bs[0] == Utf8(c)[0];
    assert forall k :: 1 <= k < n ==> bs[k] == Utf8(c)[k];
  }

  /** UTF-8 decoding undoes UTF-8 encoding. */
  lemma {:induction false} Utf8RoundTrip(s: string)
    ensures DecodeUtf8(Utf8Bytes(s)) == Some(s)
  {
    if s != [] {
      Utf8RoundTrip(s[1..]);
      DecodeOneChar(s[0], Utf8Bytes(s[1..]));
      assert [s[0]] + s[1..] == s;
    }
  }

  // ---------------------------------------------------------------- percent escapes


  predicate IsHex(c: char) {
    ('0' <= c <= '9') || ('A' <= c <= 'F') || ('a' <= c <= 'f')
  }

  function HexValue(c: char): (v: nat)
    requires IsHex(c)
    ensures v < 16
  {
    if '0' <= c <= '9' then c as int - '0' as int
    else if 'A' <= c <= 'F' then c as int - 'A' as int + 10
    else c as int - 'a' as int + 10
  }

  /** The upper-case hexadecimal digit of `d`. */
  function HexDigit(d: nat): (c: char)
    requires d < 16
    ensures IsHex(c) && HexValue(c) == d
  {
    if d < 10 then ('0' as int + d) as char else ('A' as int + d - 10) as char
  }

  /** `%XX` with two upper-case hexadecimal digits. */
  function Escape(b: int): (s: string)
    requires IsByte(b)
    ensures |s| == 3 && s[0] == '%' && IsHex(s[1]) && IsHex(s[2])
    ensures HexValue(s[1]) * 16 + HexValue(s[2]) == b
  {
    ['%', HexDigit(b / 16), HexDigit(b % 16)]
  }

  function EscapeAll(bs: seq<int>): (s: string)
    requires AllBytes(bs)
    ensures |s| == 3 * |bs|
  {
    if bs == [] then [] else Escape(bs[0]) + EscapeAll(bs[1..])
  }

  /** The unreserved characters of section 2.3 of RFC 2396, which
      `encodeURIComponent` leaves as they are. */
  predicate Unreserved(c: char) {
    ('A' <= c <= 'Z') || ('a' <= c <= 'z') || ('0' <= c <= '9')
    || c == '-' || c == '_' || c == '.' || c == '!' || c == '~' || c == '*' || c == '\'' || c == '(' || c == ')'
  }

  /** Every character of `s` is unreserved or the escape mark `%`. */
  /** Every character is one `encodeURIComponent` leaves as it is. */
  predicate AllUnreserved(s: string) {
    forall i :: 0 <= i < |s| ==> Unreserved(s[i])
  }

  predicate UriSafe(s: string) {
    forall i :: 0 <= i < |s| ==> Unreserved(s[i]) || s[i] == '%'
  }

  lemma EscapeAllSafe(bs: seq<int>)
    requires AllBytes(bs)
    ensures UriSafe(EscapeAll(bs))
  {
    if bs != [] {
      EscapeAllSafe(bs[1..]);
      var s := EscapeAll(bs);
      assert s == Escape(bs[0]) + EscapeAll(bs[1..]);
      forall i | 0 <= i < |s| ensures Unreserved(s[i]) || s[i] == '%' {
        if i >= 3 { assert s[i] == EscapeAll(bs[1..])[i - 3]; }
      }
    }
  }

  function EncodeChar(c: char): (s: string)
    ensures UriSafe(s)
  {
    EscapeAllSafe(Utf8(c));
    if Unreserved(c) then [c] else EscapeAll(Utf8(c))
  }

  /** ECMAScript `encodeURIComponent` on a string of scalar values. */
  function EncodeUriComponent(s: string): (r: string)
    ensures UriSafe(r)
    ensures |r| >= |s|
    ensures AllUnreserved(s) ==> r == s
  {
    if s == [] then []
    else
      var r := EncodeChar(s[0]) + EncodeUriComponent(s[1..]);
      assert AllUnreserved(s) ==> r == s by {
        if AllUnreserved(s) {
          assert AllUnreserved(s[1..]) && EncodeChar(s[0]) == [s[0]];
          assert [s[0]] + s[1..] == s;
        }
      }
      assert UriSafe(r) by {
        forall i | 0 <= i < |r| ensures Unreserved(r[i]) || r[i] == '%' {
          if i >= |EncodeChar(s[0])| { assert r[i] == EncodeUriComponent(s[1..])[i - |EncodeChar(s[0])|]; }
        }
      }
      r
  }

  lemma {:induction false} EncodeConcat(a: string, b: string)
    ensures EncodeUriComponent(a + b) == EncodeUriComponent(a) + EncodeUriComponent(b)
  {
    if a == [] {
      assert a + b == b;
    } else {
      assert (a + b)[0] == a[0] && (a + b)[1..] == a[1..] + b;
      EncodeConcat(a[1..], b);
    }
  }

  /** Reads percent escapes back into bytes; any other character stands for
      its own UTF-8 bytes. `None` on a malformed escape. */
  function PercentBytes(s: string): (r: Option<seq<int>>)
    decreases |s|
  {
    if s == [] then Some([])
    else if s[0] == '%' then
      if |s| >= 3 && IsHex(s[1]) && IsHex(s[2]) then
        match PercentBytes(s[3..])
        case None => None
        case Some(t) => Some([HexValue(s[1]) * 16 + HexValue(s[2])] + t)
      else None
    else
      match PercentBytes(s[1..])
      case None => None
      case Some(t) => Some(Utf8(s[0]) + t)
  }

  /** ECMAScript `decodeURIComponent`: percent escapes, then UTF-8. */
  function DecodeUriComponent(s: string): (r: Option<string>)
  {
    match PercentBytes(s)
    case None => None
    case Some(bs) => DecodeUtf8(bs)
  }

  lemma PercentOneEscape(b: int, rest: string)
    requires IsByte(b)
    ensures PercentBytes(Escape(b) + rest) == match PercentBytes(rest)
                                              case None => None
                                              case Some(t) => Some([b] + t)
  {
    var s := Escape(b) + rest;
    assert s[0] == '%' && s[1] == Escape(b)[1] && s[2] == Escape(b)[2] && s[3..] == rest;
  }

  lemma {:induction false} PercentEscaped(bs: seq<int>, rest: string)
    requires AllBytes(bs)
    ensures PercentBytes(EscapeAll(bs) + rest) == match PercentBytes(rest)
                                                  case None => None
                                                  case Some(t) => Some(bs + t)
  {
    if bs == [] {
      assert EscapeAll(bs) + rest == rest;
      match PercentBytes(rest)
      case None =>
      case Some(t) => assert bs + t == t;
    } else {
      PercentEscaped(bs[1..], rest);
      assert EscapeAll(bs) + rest == Escape(bs[0]) + (EscapeAll(bs[1..]) + rest);
      PercentOneEscape(bs[0], EscapeAll(bs[1..]) + rest);
      match PercentBytes(rest)
      case None =>
      case Some(t) =>
        assert [bs[0]] + (bs[1..] + t) == bs + t;
    }
  }

  lemma {:induction false} PercentRoundTrip(s: string)
    ensures PercentBytes(EncodeUriComponent(s)) == Some(Utf8Bytes(s))
  {
    if s != [] {
      var e := EncodeUriComponent(s);
      PercentRoundTrip(s[1..]);
      if Unreserved(s[0]) {
        assert e[0] == s[0] && e[1..] == EncodeUriComponent(s[1..]);
      } else {
        PercentEscaped(Utf8(s[0]), EncodeUriComponent(s[1..]));
      }
    }
  }

  /** `decodeURIComponent(encodeURIComponent(s)) == s`. */
  lemma EncodeRoundTrip(s: string)
    ensures DecodeUriComponent(EncodeUriComponent(s)) == Some(s)
  {
    PercentRoundTrip(s);
    Utf8RoundTrip(s);
  }

  // ---------------------------------------------------------------- URLSearchParams

  /** Characters the application/x-www-form-urlencoded serializer leaves alone. */
  predicate FormSafe(c: char) {
    ('A' <= c <= 'Z') || ('a' <= c <= 'z') || ('0' <= c <= '9') || c == '*' || c == '-' || c == '.' || c == '_'
  }

  /** The form encoding of one character: a space becomes `+`, a safe
      character stays, anything else is its percent-escaped UTF-8 bytes. */
  function FormChar(c: char): (s: string)
    ensures |s| >= 1 && '&' !in s && '=' !in s
    ensures c == ' ' <==> s == "+"
  {
    EscapeAllSafe(Utf8(c));
    var s := if c == ' ' then "+" else if FormSafe(c) then [c] else EscapeAll(Utf8(c));
    assert s != "+" || c == ' ' by {
      if c != ' ' && !FormSafe(c) { assert UriSafe(s) && s[0] == '%'; }
    }
    s
  }

  /** The application/x-www-form-urlencoded serializer on one name or value. */
  function FormEncode(s: string): (r: string)
    ensures '&' !in r && '=' !in r
  {
    if s == [] then []
    else
      var r := FormChar(s[0]) + FormEncode(s[1..]);
      assert '&' !in r && '=' !in r by {
        forall i | 0 <= i < |r| ensures r[i] != '&' && r[i] != '=' {
          if i >= |FormChar(s[0])| { assert r[i] == FormEncode(s[1..])[i - |FormChar(s[0])|]; }
          else { assert r[i] in FormChar(s[0]); }
        }
      }
      r
  }

  /** The parser's first step: every `+` stands for a space. */
  function PlusToSpace(s: string): (r: string)
    ensures |r| == |s|
    ensures forall i :: 0 <= i < |s| ==> r[i] == (if s[i] == '+' then ' ' else s[i])
  {
    seq(|s|, i requires 0 <= i < |s| => if s[i] == '+' then ' ' else s[i])
  }

  /** The application/x-www-form-urlencoded parser on one name or value. */
  function FormDecode(s: string): (r: Option<string>)
  {
    match PercentBytes(PlusToSpace(s))
    case None => None
    case Some(bs) => DecodeUtf8(bs)
  }

  lemma {:induction false} FormBytes(s: string)
    ensures PercentBytes(PlusToSpace(FormEncode(s))) == Some(Utf8Bytes(s))
  {
    if s != [] {
      FormBytes(s[1..]);
      var h := FormChar(s[0]);
      var t := PlusToSpace(FormEncode(s[1..]));
      assert PlusToSpace(FormEncode(s)) == PlusToSpace(h) + t;
      if s[0] == ' ' || FormSafe(s[0]) {
        var p := PlusToSpace(h) + t;
        assert p[0] == s[0] && p[1..] == t;
      } else {
        EscapeAllSafe(Utf8(s[0]));
        forall i | 0 <= i < |h| ensures h[i] != '+' {
          assert Unreserved(h[i]) || h[i] == '%';
        }
        assert PlusToSpace(h) == h;
        PercentEscaped(Utf8(s[0]), t);
      }
    }
  }

  /** Parsing a serialized name or value gives it back. */
  lemma FormRoundTrip(s: string)
    ensures FormDecode(FormEncode(s)) == Some(s)
  {
    FormBytes(s);
    Utf8RoundTrip(s);
  }

  /** One `name=value` pair as the serializer writes it. */
  function EncodedPair(p: (string, string)): (r: string)
    ensures '&' !in r
    ensures Split(r, '=') == [FormEncode(p.0), FormEncode(p.1)]
  {
    var a := FormEncode(p.0);
    var b := FormEncode(p.1);
    SplitJoin([a, b], '=');
    a + "=" + b
  }

  /** `URLSearchParams.toString()`: the pairs, in insertion order, joined by `&`. */
  function SearchParams(params: seq<(string, string)>): string
  {
    Join(seq(|params|, k requires 0 <= k < |params| => EncodedPair(params[k])), '&')
  }

  /** Reads the `k`-th `name=value` pair of a serialized query back. */
  function ParamAt(query: string, k: nat): Option<(string, string)>
  {
    var pieces := Split(query, '&');
    if k >= |pieces| then None
    else
      var kv := Split(pieces[k], '=');
      if |kv| != 2 then None
      else
        match (FormDecode(kv[0]), FormDecode(kv[1]))
        case (Some(name), Some(value)) => Some((name, value))
        case _ => None
  }

  /** The serialized query holds exactly the pairs, in order, and each
      reads back as it was set. */
  lemma SearchParamsRoundTrip(params: seq<(string, string)>)
    requires |params| >= 1
    ensures |Split(SearchParams(params), '&')| == |params|
    ensures forall k :: 0 <= k < |params| ==> ParamAt(SearchParams(params), k) == Some(params[k])
  {
    var pairs := seq(|params|, k requires 0 <= k < |params| => EncodedPair(params[k]));
    SplitJoin(pairs, '&');
    forall k | 0 <= k < |params|
      ensures ParamAt(SearchParams(params), k) == Some(params[k])
    {
      FormRoundTrip(params[k].0);
      FormRoundTrip(params[k].1);
    }
  }
}
