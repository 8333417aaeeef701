/**
 * Byte strings. A Go string is a sequence of bytes, so a `string` here stands for
 * one: each character is one byte. Only the functions of Go's `strings` package that
 * the modelled code calls are defined.
 */
module Strings {
  import opened Prelude

  ghost predicate IsBytes(s: string) {
    forall i :: 0 <= i < |s| ==> s[i] as int < 256
  }

  type Bytes = s: string | IsBytes(s)

  ghost predicate OccursAt(s: string, sub: string, i: nat) {
    i + |sub| <= |s| && s[i..i + |sub|] == sub
  }

  ghost predicate Contains(s: string, sub: string) {
    exists i: nat :: OccursAt(s, sub, i)
  }

  lemma {:induction false} ContainsPart(s: string, from: nat, to: nat, sub: string)
    requires from <= to <= |s|
    requires Contains(s[from..to], sub)
    ensures Contains(s, sub)
  {
    var part := s[from..to];
    var i: nat :| OccursAt(part, sub, i);
    assert from + i + |sub| <= to;
    forall k | 0 <= k < |sub| ensures s[from + i + k] == sub[k] {
      assert part[i..i + |sub|][k] == part[i + k];
    }
    assert s[from + i..from + i + |sub|] == sub;
    assert OccursAt(s, sub, from + i);
  }

  /** The pieces between separators, as strings.Split with a one-byte separator. */
  function Split(s: string, sep: char): (parts: seq<string>)
    ensures |parts| >= 1
  {
    if s == "" then [""]
    else
      var rest := Split(s[1..], sep);
      if s[0] == sep then [""] + rest else [[s[0]] + rest[0]] + rest[1..]
  }

  function Join(parts: seq<string>, sep: char): string {
    if |parts| == 0 then ""
    else if |parts| == 1 then parts[0]
    else parts[0] + [sep] + Join(parts[1..], sep)
  }

  /** No piece holds the separator, and each piece is a slice of the split string. */
  lemma {:induction false} SplitParts(s: string, sep: char, k: nat)
    requires k < |Split(s, sep)|
    ensures sep !in Split(s, sep)[k]
    ensures exists from, to :: 0 <= from <= to <= |s| && Split(s, sep)[k] == s[from..to]
    ensures exists to :: 0 <= to <= |s| && Split(s, sep)[0] == s[..to]
  {
    var parts := Split(s, sep);
    if s == "" {
      assert parts[k] == s[0..0] && parts[0] == s[..0];
    } else {
      var rest := Split(s[1..], sep);
      if s[0] == sep {
        assert parts[0] == s[..0] && parts[0] == s[0..0];
        if k > 0 {
          SplitParts(s[1..], sep, k - 1);
          var from, to :| 0 <= from <= to <= |s[1..]| && rest[k - 1] == s[1..][from..to];
          assert parts[k] == rest[k - 1] == s[from + 1..to + 1];
        }
      } else {
        SplitParts(s[1..], sep, k);
        var end :| 0 <= end <= |s[1..]| && rest[0] == s[1..][..end];
        assert parts[0] == s[..end + 1] && parts[0] == s[0..end + 1];
        if k > 0 {
          var from, to :| 0 <= from <= to <= |s[1..]| && rest[k] == s[1..][from..to];
          assert parts[k] == rest[k] == s[from + 1..to + 1];
        }
      }
    }
  }

  lemma {:induction false} SplitOne(s: string, sep: char)
    requires sep !in s
    ensures Split(s, sep) == [s]
  {
    if s != "" {
      SplitOne(s[1..], sep);
      assert [s[0]] + s[1..] == s;
    }
  }

  lemma {:induction false} SplitConcat(a: string, sep: char, b: string)
    ensures Split(a + [sep] + b, sep) == Split(a, sep) + Split(b, sep)
  {
    var whole := a + [sep] + b;
    if a == "" {
      assert whole[1..] == b;
    } else {
      assert whole[1..] == a[1..] + [sep] + b;
      SplitConcat(a[1..], sep, b);
    }
  }

  lemma {:induction false} SplitJoin(parts: seq<string>, sep: char)
    requires |parts| >= 1
    requires forall k :: 0 <= k < |parts| ==> sep !in parts[k]
    ensures Split(Join(parts, sep), sep) == parts
  {
    SplitOne(parts[0], sep);
    if |parts| > 1 {
      SplitJoin(parts[1..], sep);
      SplitConcat(parts[0], sep, Join(parts[1..], sep));
      assert [parts[0]] + parts[1..] == parts;
    }
  }

  // White space, as unicode.IsSpace classifies it, seen as UTF-8 bytes.

  predicate IsAsciiSpace(c: char) {
    c in {'\t', '\n', '\U{0B}', '\U{0C}', '\r', ' '}
  }

  predicate IsWideSpace(s: string) {
    || s in {"\U{C2}\U{85}", "\U{C2}\U{A0}"}
    || s in {"\U{E1}\U{9A}\U{80}", "\U{E2}\U{80}\U{A8}", "\U{E2}\U{80}\U{A9}", "\U{E2}\U{80}\U{AF}",
             "\U{E2}\U{81}\U{9F}", "\U{E3}\U{80}\U{80}"}
    || (|s| == 3 && s[0] == '\U{E2}' && s[1] == '\U{80}' && '\U{80}' <= s[2] <= '\U{8A}')
  }

  lemma {:induction false} WideSpaceBytes(s: string, i: nat)
    requires IsWideSpace(s) && i < |s|
    ensures 2 <= |s| <= 3 && s[i] >= '\U{80}'
  {
  }

  /** The length of the white-space character that s begins with, 0 if there is none. */
  function LeadingSpace(s: string): (n: nat)
    ensures n <= |s|
  {
    if |s| >= 1 && IsAsciiSpace(s[0]) then 1
    else if |s| >= 2 && IsWideSpace(s[..2]) then 2
    else if |s| >= 3 && IsWideSpace(s[..3]) then 3
    else 0
  }

  function TrailingSpace(s: string): (n: nat)
    ensures n <= |s|
  {
    if |s| >= 1 && IsAsciiSpace(s[|s| - 1]) then 1
    else if |s| >= 2 && IsWideSpace(s[|s| - 2..]) then 2
    else if |s| >= 3 && IsWideSpace(s[|s| - 3..]) then 3
    else 0
  }

  function TrimLeft(s: string): string
    decreases |s|
  {
    var n := LeadingSpace(s);
    if n == 0 then s else TrimLeft(s[n..])
  }

  function TrimRight(s: string): string
    decreases |s|
  {
    var n := TrailingSpace(s);
    if n == 0 then s else TrimRight(s[..|s| - n])
  }

  function TrimSpace(s: string): string {
    TrimRight(TrimLeft(s))
  }

  lemma {:induction false} TrimLeftSlice(s: string) returns (from: nat)
    ensures from <= |s| && TrimLeft(s) == s[from..]
    ensures LeadingSpace(TrimLeft(s)) == 0
    decreases |s|
  {
    var n := LeadingSpace(s);
    if n == 0 {
      from := 0;
    } else {
      var rest := TrimLeftSlice(s[n..]);
      from := n + rest;
      assert s[n..][rest..] == s[from..];
    }
  }

  lemma {:induction false} TrimRightSlice(s: string) returns (to: nat)
    ensures to <= |s| && TrimRight(s) == s[..to]
    ensures TrailingSpace(TrimRight(s)) == 0
    decreases |s|
  {
    var n := TrailingSpace(s);
    if n == 0 {
      to := |s|;
    } else {
      to := TrimRightSlice(s[..|s| - n]);
      assert s[..|s| - n][..to] == s[..to];
    }
  }

  /** Cutting the end of a string gives it no leading white space. */
  lemma {:induction false} PrefixLeads(s: string, n: nat)
    requires n <= |s| && LeadingSpace(s) == 0
    ensures LeadingSpace(s[..n]) == 0
  {
    hide IsWideSpace;
    assert n >= 2 ==> s[..n][..2] == s[..2];
    assert n >= 3 ==> s[..n][..3] == s[..3];
  }

  /** Trimming keeps a slice that has no white space at either edge. */
  lemma {:induction false} TrimSlice(s: string) returns (from: nat, to: nat)
    ensures from <= to <= |s| && TrimSpace(s) == s[from..to]
    ensures TrailingSpace(TrimSpace(s)) == 0
    ensures LeadingSpace(TrimSpace(s)) == 0
  {
    hide LeadingSpace, TrailingSpace, TrimLeft, TrimRight;
    from := TrimLeftSlice(s);
    var left := s[from..];
    var len := TrimRightSlice(left);
    to := from + len;
    assert left[..len] == s[from..to];
    PrefixLeads(left, len);
  }

  lemma {:induction false} TrimFixed(s: string)
    ensures TrimSpace(s) == s <==> LeadingSpace(s) == 0 && TrailingSpace(s) == 0
  {
    if TrimSpace(s) == s {
      var _, _ := TrimSlice(s);
    }
  }
}
