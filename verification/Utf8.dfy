/** Which byte strings are UTF-8, as Go's unicode/utf8 tells them, and which characters they hold. */
module Utf8 {

  predicate Continues(s: string, i: nat, low: char, high: char) {
    i < |s| && low <= s[i] <= high
  }

  /** The length of the UTF-8 character that s begins with, 0 if there is none. */
  function RuneLength(s: string): (n: nat)
    ensures n <= |s|
  {
    if s == "" then 0
    else if s[0] < '\U{80}' then 1
    else if '\U{C2}' <= s[0] <= '\U{DF}' then if Continues(s, 1, '\U{80}', '\U{BF}') then 2 else 0
    else if '\U{E0}' <= s[0] <= '\U{EF}' then
      var low := if s[0] == '\U{E0}' then '\U{A0}' else '\U{80}';
      var high := if s[0] == '\U{ED}' then '\U{9F}' else '\U{BF}';
      if Continues(s, 1, low, high) && Continues(s, 2, '\U{80}', '\U{BF}') then 3 else 0
    else if '\U{F0}' <= s[0] <= '\U{F4}' then
      var low := if s[0] == '\U{F0}' then '\U{90}' else '\U{80}';
      var high := if s[0] == '\U{F4}' then '\U{8F}' else '\U{BF}';
      if Continues(s, 1, low, high) && Continues(s, 2, '\U{80}', '\U{BF}') && Continues(s, 3, '\U{80}', '\U{BF}') then 4 else 0
    else 0
  }

  predicate ValidUtf8(s: string)
    decreases |s|
  {
    s == "" || (RuneLength(s) > 0 && ValidUtf8(s[RuneLength(s)..]))
  }

  // The encoding, by section 3 of RFC 3629.

  /** A Unicode scalar value: a code point that is no surrogate. */
  type Scalar = r: nat | r < 0xD800 || 0xE000 <= r < 0x11_0000

  function Byte(v: nat): char
    requires v < 256
  {
    v as char
  }

  function Tail(v: nat): char {
    Byte(0x80 + v % 64)
  }

  function Encoded(r: Scalar): string {
    if r < 0x80 then [Byte(r)]
    else if r < 0x800 then [Byte(0xC0 + r / 64), Tail(r)]
    else if r < 0x1_0000 then [Byte(0xE0 + r / 64 / 64), Tail(r / 64), Tail(r)]
    else
      assert r / 64 < 0x4400 && r / 64 / 64 < 0x110 && r / 64 / 64 / 64 < 5;
      [Byte(0xF0 + r / 64 / 64 / 64), Tail(r / 64 / 64), Tail(r / 64), Tail(r)]
  }

  function Text(runes: seq<Scalar>): string {
    if runes == [] then "" else Encoded(runes[0]) + Text(runes[1..])
  }

  /** The bytes spell a sequence of Unicode characters. */
  ghost predicate Spelled(s: string) {
    exists runes :: s == Text(runes)
  }

  lemma {:induction false} Digits(r: nat)
    ensures r == r / 64 * 64 + r % 64 && r / 64 == r / 64 / 64 * 64 + r / 64 % 64
    ensures r / 64 / 64 == r / 64 / 64 / 64 * 64 + r / 64 / 64 % 64
  {
  }

  lemma {:induction false} ShortIsRune(r: Scalar, rest: string)
    requires r < 0x800
    ensures RuneLength(Encoded(r) + rest) == |Encoded(r)|
  {
    var s := Encoded(r) + rest;
    if r >= 0x80 {
      assert 2 <= r / 64 < 32;
      assert s[0] == Byte(0xC0 + r / 64) && s[1] == Tail(r);
    }
  }

  lemma {:induction false} MiddleIsRune(r: Scalar, rest: string)
    requires 0x800 <= r < 0x1_0000
    ensures RuneLength(Encoded(r) + rest) == |Encoded(r)|
  {
    Digits(r);
    var a, b, c := r / 64 / 64, r / 64 % 64, r % 64;
    assert r == (a * 64 + b) * 64 + c && a < 16;
    assert a == 0 ==> b >= 32;
    assert a == 13 ==> b < 32;
    var s := Encoded(r) + rest;
    assert s[0] == Byte(0xE0 + a) && s[1] == Byte(0x80 + b) && s[2] == Byte(0x80 + c);
  }

  lemma {:induction false} LongIsRune(r: Scalar, rest: string)
    requires 0x1_0000 <= r
    ensures RuneLength(Encoded(r) + rest) == |Encoded(r)|
  {
    Digits(r);
    var a, b, c, d := r / 64 / 64 / 64, r / 64 / 64 % 64, r / 64 % 64, r % 64;
    assert r == ((a * 64 + b) * 64 + c) * 64 + d && a < 5;
    assert a == 0 ==> b >= 16;
    assert a == 4 ==> b < 16;
    var s := Encoded(r) + rest;
    assert s[0] == Byte(0xF0 + a) && s[1] == Byte(0x80 + b) && s[2] == Byte(0x80 + c) && s[3] == Byte(0x80 + d);
  }

  lemma {:induction false} EncodedIsRune(r: Scalar, rest: string)
    ensures RuneLength(Encoded(r) + rest) == |Encoded(r)|
  {
    hide RuneLength, Encoded;
    if r < 0x800 {
      ShortIsRune(r, rest);
    } else if r < 0x1_0000 {
      MiddleIsRune(r, rest);
    } else {
      LongIsRune(r, rest);
    }
  }

  function Low(c: char): nat
    requires '\U{80}' <= c <= '\U{BF}'
  {
    c as nat - 0x80
  }

  lemma {:induction false} TwoBytes(a: nat, b: nat)
    requires 2 <= a < 32 && b < 64
    ensures var r := a * 64 + b; (r < 0xD800 || 0xE000 <= r < 0x11_0000) && Encoded(r) == [Byte(0xC0 + a), Byte(0x80 + b)]
  {
  }

  lemma {:induction false} Divides(high: nat, low: nat)
    requires low < 64
    ensures (high * 64 + low) / 64 == high && (high * 64 + low) % 64 == low
  {
  }

  lemma {:induction false} ThreeBytes(a: nat, b: nat, c: nat)
    requires a < 16 && b < 64 && c < 64 && (a == 0 ==> b >= 32) && (a == 13 ==> b < 32)
    ensures var r := (a * 64 + b) * 64 + c; (r < 0xD800 || 0xE000 <= r < 0x11_0000) && Encoded(r) == [Byte(0xE0 + a), Byte(0x80 + b), Byte(0x80 + c)]
  {
    Divides(a * 64 + b, c);
    Divides(a, b);
  }

  lemma {:induction false} FourBytes(a: nat, b: nat, c: nat, d: nat)
    requires a < 5 && b < 64 && c < 64 && d < 64 && (a == 0 ==> b >= 16) && (a == 4 ==> b < 16)
    ensures var r := ((a * 64 + b) * 64 + c) * 64 + d;
      (r < 0xD800 || 0xE000 <= r < 0x11_0000) && Encoded(r) == [Byte(0xF0 + a), Byte(0x80 + b), Byte(0x80 + c), Byte(0x80 + d)]
  {
    Divides((a * 64 + b) * 64 + c, d);
    Divides(a * 64 + b, c);
    Divides(a, b);
  }

  /** Each accepted character is the encoding of a scalar value. */
  lemma {:induction false} RuneIsEncoded(s: string) returns (r: Scalar)
    requires RuneLength(s) > 0
    ensures Encoded(r) == s[..RuneLength(s)]
  {
    var n := RuneLength(s);
    hide Encoded;
    if n == 1 {
      r := s[0] as nat;
      OneByte(s[0]);
    } else if n == 2 {
      var a, b := s[0] as nat - 0xC0, Low(s[1]);
      TwoBytes(a, b);
      r := a * 64 + b;
      assert s[..2] == [s[0], s[1]];
    } else if n == 3 {
      var a, b, c := s[0] as nat - 0xE0, Low(s[1]), Low(s[2]);
      ThreeBytes(a, b, c);
      r := (a * 64 + b) * 64 + c;
      assert s[..3] == [s[0], s[1], s[2]];
    } else {
      var a, b, c, d := s[0] as nat - 0xF0, Low(s[1]), Low(s[2]), Low(s[3]);
      FourBytes(a, b, c, d);
      r := ((a * 64 + b) * 64 + c) * 64 + d;
      assert s[..4] == [s[0], s[1], s[2], s[3]];
    }
  }

  lemma {:induction false} OneByte(c: char)
    requires c < '\U{80}'
    ensures Encoded(c as nat) == [c]
  {
  }

  lemma {:induction false} TextIsValid(runes: seq<Scalar>)
    ensures ValidUtf8(Text(runes))
  {
    if runes != [] {
      var rest := Text(runes[1..]);
      EncodedIsRune(runes[0], rest);
      TextIsValid(runes[1..]);
      assert (Encoded(runes[0]) + rest)[|Encoded(runes[0])|..] == rest;
      hide RuneLength, Encoded;
    }
  }

  lemma {:induction false} ValidIsText(s: string) returns (runes: seq<Scalar>)
    requires ValidUtf8(s)
    ensures s == Text(runes)
    decreases |s|
  {
    hide RuneLength, Encoded;
    if s == "" {
      runes := [];
    } else {
      var n := RuneLength(s);
      var r := RuneIsEncoded(s);
      var rest := ValidIsText(s[n..]);
      runes := [r] + rest;
      assert runes[1..] == rest && s == s[..n] + s[n..];
    }
  }

  /** Exactly the encodings of sequences of scalar values are accepted: no surrogate, no overlong form, nothing cut off. */
  lemma {:induction false} ValidExactlyWhenSpelled(s: string)
    ensures ValidUtf8(s) <==> Spelled(s)
  {
    hide ValidUtf8, Text;
    if ValidUtf8(s) {
      var _ := ValidIsText(s);
    }
    if runes :| s == Text(runes) {
      TextIsValid(runes);
    }
  }
}
