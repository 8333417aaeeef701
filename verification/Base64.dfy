/**
 * Standard padded base64 (section 4 of RFC 4648), decoded strictly: no line breaks, and no
 * pad bits other than zero (section 3.5 of RFC 4648).
 */
module Base64 {
  import opened Prelude
  import opened Strings

  function Symbol(v: nat): char
    requires v < 64
  {
    if v < 26 then (v + 65) as char
    else if v < 52 then (v - 26 + 97) as char
    else if v < 62 then (v - 52 + 48) as char
    else if v == 62 then '+'
    else '/'
  }

  function Value(c: char): Option<nat> {
    if 'A' <= c <= 'Z' then Some(c as int - 65)
    else if 'a' <= c <= 'z' then Some(c as int - 97 + 26)
    else if '0' <= c <= '9' then Some(c as int - 48 + 52)
    else if c == '+' then Some(62)
    else if c == '/' then Some(63)
    else None
  }

  lemma {:induction false} SymbolValue(v: nat)
    requires v < 64
    ensures Value(Symbol(v)) == Some(v) && Symbol(v) != '='
  {
  }

  lemma {:induction false} ValueSymbol(c: char)
    requires Value(c).Some?
    ensures Value(c).value < 64 && Symbol(Value(c).value) == c
  {
  }

  function Byte(v: nat): char
    requires v < 256
  {
    v as char
  }

  function EncodeGroup(a: nat, b: nat, c: nat): (g: string)
    requires a < 256 && b < 256 && c < 256
    ensures |g| == 4
  {
    [Symbol(a / 4), Symbol(a % 4 * 16 + b / 16), Symbol(b % 16 * 4 + c / 64), Symbol(c % 64)]
  }

  function Encode(s: string): string
    requires IsBytes(s)
  {
    if |s| == 0 then ""
    else if |s| == 1 then
      var a := s[0] as int;
      [Symbol(a / 4), Symbol(a % 4 * 16), '=', '=']
    else if |s| == 2 then
      var a, b := s[0] as int, s[1] as int;
      [Symbol(a / 4), Symbol(a % 4 * 16 + b / 16), Symbol(b % 16 * 4), '=']
    else EncodeGroup(s[0] as int, s[1] as int, s[2] as int) + Encode(s[3..])
  }

  /** Four symbols, the last two of which may be padding in the final group. */
  function DecodeGroup(g: string, final: bool): Option<string>
    requires |g| == 4
  {
    var v0, v1, v2, v3 := Value(g[0]), Value(g[1]), Value(g[2]), Value(g[3]);
    if v0.None? || v1.None? then None
    else if final && g[2] == '=' && g[3] == '=' then
      if v1.value % 16 != 0 then None else Some([Byte(v0.value * 4 + v1.value / 16)])
    else if v2.None? then None
    else if final && g[3] == '=' then
      if v2.value % 4 != 0 then None
      else Some([Byte(v0.value * 4 + v1.value / 16), Byte(v1.value % 16 * 16 + v2.value / 4)])
    else if v3.None? then None
    else Some([Byte(v0.value * 4 + v1.value / 16), Byte(v1.value % 16 * 16 + v2.value / 4), Byte(v2.value % 4 * 64 + v3.value)])
  }

  function DecodeGroups(s: string): Option<string> {
    if |s| == 0 then Some("")
    else if |s| < 4 then None
    else
      var head := DecodeGroup(s[..4], |s| == 4);
      var tail := DecodeGroups(s[4..]);
      if head.None? || tail.None? then None else Some(head.value + tail.value)
  }

  /** DecodeBase64: Go's strict decoder skips line breaks, so they are rejected beforehand. */
  function Decode(s: string): Option<string> {
    if '\r' in s || '\n' in s then None else DecodeGroups(s)
  }

  function EncodedLength(n: nat): nat {
    (n + 2) / 3 * 4
  }

  lemma {:induction false} EncodeLength(s: string)
    requires IsBytes(s)
    ensures |Encode(s)| == EncodedLength(|s|)
  {
    if |s| >= 3 {
      EncodeLength(s[3..]);
      assert (|s| - 3 + 2) / 3 + 1 == (|s| + 2) / 3;
    }
  }

  /** Every encoded character is a symbol or padding, so none is a line break. */
  lemma {:induction false} EncodePlain(s: string, k: nat)
    requires IsBytes(s) && k < |Encode(s)|
    ensures Encode(s)[k] >= '+'
  {
    if |s| >= 3 && k >= 4 {
      EncodePlain(s[3..], k - 4);
    }
  }

  /** Decoding what was encoded gives the bytes back. */
  lemma {:induction false} DecodeEncode(s: string)
    requires IsBytes(s)
    ensures Decode(Encode(s)) == Some(s)
  {
    if '\r' in Encode(s) || '\n' in Encode(s) {
      var k :| 0 <= k < |Encode(s)| && (Encode(s)[k] == '\r' || Encode(s)[k] == '\n');
      EncodePlain(s, k);
    }
    DecodeGroupsEncode(s);
  }

  lemma {:induction false} GroupRoundTrip(a: nat, b: nat, c: nat, final: bool)
    requires a < 256 && b < 256 && c < 256
    ensures DecodeGroup(EncodeGroup(a, b, c), final) == Some([Byte(a), Byte(b), Byte(c)])
  {
    var v0, v1, v2, v3 := a / 4, a % 4 * 16 + b / 16, b % 16 * 4 + c / 64, c % 64;
    SymbolValue(v0);
    SymbolValue(v1);
    SymbolValue(v2);
    SymbolValue(v3);
    assert v0 * 4 + v1 / 16 == a && v1 % 16 * 16 + v2 / 4 == b && v2 % 4 * 64 + v3 == c;
    hide Value, Symbol;
  }

  lemma {:induction false} ShortRoundTrip(s: string)
    requires IsBytes(s) && 1 <= |s| <= 2
    ensures |Encode(s)| == 4 && DecodeGroup(Encode(s), true) == Some(s)
  {
    var a := s[0] as int;
    SymbolValue(a / 4);
    if |s| == 1 {
      SymbolValue(a % 4 * 16);
      assert s == [Byte(a)];
    } else {
      var b := s[1] as int;
      SymbolValue(a % 4 * 16 + b / 16);
      SymbolValue(b % 16 * 4);
      assert s == [Byte(a), Byte(b)];
    }
  }

  lemma {:induction false} DecodeGroupsStep(g: string, rest: string, d: string, t: string)
    requires |g| == 4 && DecodeGroup(g, rest == "") == Some(d) && DecodeGroups(rest) == Some(t)
    ensures DecodeGroups(g + rest) == Some(d + t)
  {
    hide DecodeGroup;
    assert (g + rest)[..4] == g && (g + rest)[4..] == rest;
  }

  lemma {:induction false} DecodeGroupsEncode(s: string)
    requires IsBytes(s)
    ensures DecodeGroups(Encode(s)) == Some(s)
  {
    if |s| == 0 {
    } else if |s| <= 2 {
      ShortRoundTrip(s);
      assert DecodeGroups("") == Some("");
      hide Encode, DecodeGroup;
      DecodeGroupsStep(Encode(s), "", s, "");
      assert Encode(s) + "" == Encode(s) && s + "" == s;
    } else {
      hide EncodeGroup;
      var g := EncodeGroup(s[0] as int, s[1] as int, s[2] as int);
      assert Encode(s) == g + Encode(s[3..]);
      assert |g| == 4 && [Byte(s[0] as int), Byte(s[1] as int), Byte(s[2] as int)] == [s[0], s[1], s[2]];
      DecodeGroupsEncode(s[3..]);
      GroupRoundTrip(s[0] as int, s[1] as int, s[2] as int, Encode(s[3..]) == "");
      hide Encode, DecodeGroup, DecodeGroups;
      assert s == [s[0], s[1], s[2]] + s[3..];
      DecodeGroupsStep(g, Encode(s[3..]), [s[0], s[1], s[2]], s[3..]);
    }
  }

  /** The bit regrouping behind the canonical form, for three bytes. */
  lemma {:induction false} RegroupAll(v0: nat, v1: nat, v2: nat, v3: nat)
    requires v0 < 64 && v1 < 64 && v2 < 64 && v3 < 64
    ensures var a, b, c := v0 * 4 + v1 / 16, v1 % 16 * 16 + v2 / 4, v2 % 4 * 64 + v3;
      && a < 256 && b < 256 && c < 256
      && a / 4 == v0 && a % 4 * 16 + b / 16 == v1 && b % 16 * 4 + c / 64 == v2 && c % 64 == v3
  {
    assert v1 / 16 < 4 && v2 / 4 < 16;
  }

  lemma {:induction false} GroupCanonical(g: string)
    requires |g| == 4 && DecodeGroup(g, false).Some?
    ensures var d := DecodeGroup(g, false).value;
      |d| == 3 && IsBytes(d) && EncodeGroup(d[0] as int, d[1] as int, d[2] as int) == g
  {
    ValueSymbol(g[0]);
    ValueSymbol(g[1]);
    ValueSymbol(g[2]);
    ValueSymbol(g[3]);
    RegroupAll(Value(g[0]).value, Value(g[1]).value, Value(g[2]).value, Value(g[3]).value);
    hide Value, Symbol;
    assert g == [g[0], g[1], g[2], g[3]];
  }

  lemma {:induction false} OnePadCanonical(g: string)
    requires |g| == 4 && DecodeGroup(g, true).Some? && |DecodeGroup(g, true).value| == 2
    ensures IsBytes(DecodeGroup(g, true).value) && Encode(DecodeGroup(g, true).value) == g
  {
    ValueSymbol(g[0]);
    ValueSymbol(g[1]);
    ValueSymbol(g[2]);
    RegroupAll(Value(g[0]).value, Value(g[1]).value, Value(g[2]).value, 0);
  }

  lemma {:induction false} TwoPadsCanonical(g: string)
    requires |g| == 4 && DecodeGroup(g, true).Some? && |DecodeGroup(g, true).value| == 1
    ensures IsBytes(DecodeGroup(g, true).value) && Encode(DecodeGroup(g, true).value) == g
  {
    ValueSymbol(g[0]);
    ValueSymbol(g[1]);
    assert Value(g[1]).value / 16 < 4;
  }

  lemma {:induction false} FinalCanonical(g: string)
    requires |g| == 4 && DecodeGroup(g, true).Some?
    ensures IsBytes(DecodeGroup(g, true).value) && Encode(DecodeGroup(g, true).value) == g
  {
    var d := DecodeGroup(g, true).value;
    if |d| == 1 {
      TwoPadsCanonical(g);
    } else if |d| == 2 {
      OnePadCanonical(g);
    } else {
      GroupCanonical(g);
      assert d[3..] == "" && EncodeGroup(d[0] as int, d[1] as int, d[2] as int) + "" == g;
    }
  }

  /** Only the canonical encoding decodes: every accepted string is the encoding of its bytes. */
  lemma {:induction false} DecodeCanonical(s: string)
    requires DecodeGroups(s).Some?
    ensures IsBytes(DecodeGroups(s).value) && Encode(DecodeGroups(s).value) == s
  {
    if |s| == 0 {
    } else if |s| == 4 {
      assert s[..4] == s && s[4..] == "";
      FinalCanonical(s);
      assert DecodeGroups(s).value == DecodeGroup(s, true).value;
    } else {
      GroupCanonical(s[..4]);
      DecodeCanonical(s[4..]);
      var d := DecodeGroups(s).value;
      var head := DecodeGroup(s[..4], false).value;
      assert d[0] == head[0] && d[1] == head[1] && d[2] == head[2];
      assert d[3..] == DecodeGroups(s[4..]).value;
      assert s == s[..4] + s[4..];
    }
  }

  /** Strict decoding accepts exactly one string for each byte sequence. */
  lemma {:induction false} DecodeIsInverse(s: string, data: string)
    ensures Decode(s) == Some(data) <==> IsBytes(data) && s == Encode(data)
  {
    if Decode(s) == Some(data) {
      DecodeCanonical(s);
    }
    if IsBytes(data) && s == Encode(data) {
      DecodeEncode(data);
    }
  }

  /** The length test that precedes decoding never rejects a payload within the byte cap. */
  lemma {:induction false} LengthTestIsSafe(s: string, cap: nat)
    requires Decode(s).Some? && |Decode(s).value| <= cap
    ensures |s| <= EncodedLength(cap)
  {
    DecodeIsInverse(s, Decode(s).value);
    EncodeLength(Decode(s).value);
  }

  /** The test vectors of section 10 of RFC 4648, and the last two symbols of its alphabet. */
  lemma {:induction false} Rfc4648Vectors()
    ensures Encode("f") == "Zg==" && Encode("fo") == "Zm8=" && Encode("foo") == "Zm9v" && Encode("foob") == "Zm9vYg=="
    ensures EncodeGroup(0xFB, 0xEF, 0xBE) == "++++" && EncodeGroup(0xFF, 0xFF, 0xFF) == "////"
  {
    assert "foob"[3..] == "b";
    assert Encode("b") == "Yg==";
    assert Encode("foo"[3..]) == "";
  }
}
