/** The idempotency trailer that marks a commit message with the key of its request. */
module Trailer {
  import opened Strings

  const TRAILER := "Railgrid-RepositoryCommit:"

  ghost function WithKey(message: string, key: string): string {
    var k := TrimSpace(key);
    if k == "" || Contains(message, TRAILER) then message else message + ['\n'] + ['\n'] + TrailerLine(k)
  }

  function TrailerLine(k: string): string {
    TRAILER + " " + k
  }

  predicate HasKey(message: string, key: string) {
    var k := TrimSpace(key);
    k != "" && exists i :: 0 <= i < |Split(message, '\n')| && TrimSpace(Split(message, '\n')[i]) == TrailerLine(k)
  }

  /** The message that a commit request is stored under. */
  ghost function CommitMessage(raw: string, key: string): string {
    var trimmed := TrimSpace(raw);
    WithKey(if trimmed == "" then "Update generated application files" else trimmed, key)
  }

  lemma {:induction false} NoLeadingSpace(line: string)
    requires line != "" && '!' <= line[0] <= '~'
    ensures LeadingSpace(line) == 0
  {
    hide IsWideSpace;
    if |line| >= 2 && IsWideSpace(line[..2]) {
      WideSpaceBytes(line[..2], 0);
    }
    if |line| >= 3 && IsWideSpace(line[..3]) {
      WideSpaceBytes(line[..3], 0);
    }
  }

  lemma {:induction false} SuffixNotWide(head: string, tail: string, w: nat)
    requires 2 <= w <= |head| && head[|head| - 1] == ' '
    requires 1 <= |tail| && (|tail| >= w ==> !IsWideSpace(tail[|tail| - w..]))
    ensures !IsWideSpace((head + tail)[|head| + |tail| - w..])
  {
    hide IsWideSpace;
    var suffix := (head + tail)[|head| + |tail| - w..];
    if |tail| >= w {
      assert suffix == tail[|tail| - w..];
    } else if IsWideSpace(suffix) {
      WideSpaceBytes(suffix, w - 1 - |tail|);
    }
  }

  lemma {:induction false} NoTrailingSpace(head: string, tail: string)
    requires |head| >= 3 && head[|head| - 1] == ' ' && tail != "" && TrailingSpace(tail) == 0
    ensures TrailingSpace(head + tail) == 0
  {
    hide IsWideSpace;
    SuffixNotWide(head, tail, 2);
    SuffixNotWide(head, tail, 3);
    assert (head + tail)[|head| + |tail| - 1] == tail[|tail| - 1];
  }

  /** The line that a key is printed in is left alone by trimming. */
  lemma {:induction false} TrailerLineFixed(key: string)
    requires TrimSpace(key) != ""
    ensures TrimSpace(TrailerLine(TrimSpace(key))) == TrailerLine(TrimSpace(key))
  {
    hide TrimLeft, TrimRight, TrimSpace, LeadingSpace, TrailingSpace;
    var _, _ := TrimSlice(key);
    NoLeadingSpace(TrailerLine(TrimSpace(key)));
    NoTrailingSpace(TRAILER + " ", TrimSpace(key));
    TrimFixed(TrailerLine(TrimSpace(key)));
  }

  lemma {:induction false} PrefixOccurs(line: string, head: string, tail: string)
    requires line == head + " " + tail
    ensures Contains(line, head) && forall c | c in tail :: c in line
  {
    assert OccursAt(line, head, 0);
    forall c | c in tail ensures c in line {
      var j :| 0 <= j < |tail| && tail[j] == c;
      assert line[|head| + 1 + j] == c;
    }
  }

  /** A line that carries a key shows the key to be one line, and the message to hold the trailer. */
  lemma {:induction false} KeyedLine(message: string, key: string)
    requires HasKey(message, key)
    ensures '\n' !in TrimSpace(key) && Contains(message, TRAILER)
  {
    var k := TrimSpace(key);
    var lines := Split(message, '\n');
    var i :| 0 <= i < |lines| && TrimSpace(lines[i]) == TrailerLine(k);
    hide Split, TrimSpace;
    SplitParts(message, '\n', i);
    var from, to :| 0 <= from <= to <= |message| && lines[i] == message[from..to];
    var a, b := TrimSlice(lines[i]);
    PrefixOccurs(lines[i][a..b], TRAILER, k);
    assert '\n' !in lines[i][a..b];
    ContainsPart(lines[i], a, b, TRAILER);
    ContainsPart(message, from, to, TRAILER);
  }

  lemma {:induction false} AppendedKey(message: string, k: string)
    requires '\n' !in k
    ensures Split(message + ['\n'] + ['\n'] + TrailerLine(k), '\n') == Split(message, '\n') + [""] + [TrailerLine(k)]
  {
    assert '\n' !in TRAILER;
    AppendedLine(message, TrailerLine(k));
  }

  lemma {:induction false} AppendedLine(message: string, line: string)
    requires '\n' !in line
    ensures Split(message + ['\n'] + ['\n'] + line, '\n') == Split(message, '\n') + [""] + [line]
  {
    assert Split("", '\n') == [""];
    SplitOne(line, '\n');
    SplitConcat("", '\n', line);
    hide Split;
    assert [] + ['\n'] + line == ['\n'] + line;
    SplitConcat(message, '\n', ['\n'] + line);
    assert message + ['\n'] + (['\n'] + line) == message + ['\n'] + ['\n'] + line;
  }

  /** The parser accepts exactly the key the printer wrote, for a one-line key and a message free of the trailer. */
  lemma {:induction false} ParserAcceptsPrintedKey(message: string, key: string, other: string)
    requires TrimSpace(key) != "" && '\n' !in TrimSpace(key) && !Contains(message, TRAILER)
    ensures HasKey(WithKey(message, key), other) <==> TrimSpace(other) == TrimSpace(key)
  {
    var k := TrimSpace(key);
    var lines := Split(WithKey(message, key), '\n');
    var n := |Split(message, '\n')|;
    AppendedKey(message, k);
    TrailerLineFixed(key);
    assert lines[n + 1] == TrailerLine(k);
    if HasKey(WithKey(message, key), other) {
      var o := TrimSpace(other);
      var i :| 0 <= i < |lines| && TrimSpace(lines[i]) == TrailerLine(o);
      if i < n {
        assert HasKey(message, other);
        KeyedLine(message, other);
        assert false;
      } else if i > n {
        assert TrailerLine(o)[|TRAILER| + 1..] == o && TrailerLine(k)[|TRAILER| + 1..] == k;
      }
    }
  }

  /**
   * When a printed message can be found again: it already carried the key, or it was free of
   * the trailer text and the key is one line. A message that merely mentions the trailer loses its key.
   */
  lemma {:induction false} PrintedKeyIsFound(message: string, key: string)
    requires TrimSpace(key) != ""
    ensures HasKey(WithKey(message, key), key) <==>
      HasKey(message, key) || (!Contains(message, TRAILER) && '\n' !in TrimSpace(key))
  {
    if HasKey(WithKey(message, key), key) {
      KeyedLine(WithKey(message, key), key);
    }
    if HasKey(message, key) {
      KeyedLine(message, key);
    }
    if !Contains(message, TRAILER) && '\n' !in TrimSpace(key) {
      ParserAcceptsPrintedKey(message, key, key);
    }
  }

  lemma {:induction false} ShortHasNoKey(message: string, key: string)
    requires |message| <= |TRAILER|
    ensures !HasKey(message, key)
  {
    hide TrimSpace, Split;
    forall i | 0 <= i < |Split(message, '\n')| ensures TrimSpace(Split(message, '\n')[i]) != TrailerLine(TrimSpace(key)) {
      SplitParts(message, '\n', i);
      var _, _ := TrimSlice(Split(message, '\n')[i]);
    }
  }

  /** A concrete message that loses its key, because it mentions the trailer. */
  lemma {:induction false} MentionLosesKey() returns (message: string, key: string)
    ensures TrimSpace(key) == key != "" && '\n' !in key && !HasKey(WithKey(message, key), key)
  {
    message, key := TRAILER, "k";
    TrimFixed(key);
    hide TrimSpace, Split, HasKey, TRAILER;
    assert OccursAt(message, TRAILER, 0);
    ShortHasNoKey(message, key);
  }

  /** Whatever the key, the caller's text is in the message, first, with only the key's own line added. */
  lemma {:induction false} MessageKeepsText(raw: string, key: string)
    ensures var text, message := TrimSpace(raw), CommitMessage(raw, key);
      && (text != "" ==> text <= message)
      && (text == "" ==> "Update generated application files" <= message)
      && (TrimSpace(key) == "" ==> message == if text == "" then "Update generated application files" else text)
      && (text != "" && TrimSpace(key) != "" && !Contains(text, TRAILER) ==>
           message == text + "\n\n" + TRAILER + " " + TrimSpace(key))
  {
    hide TrimSpace;
    var text, k := TrimSpace(raw), TrimSpace(key);
    assert text + ['\n'] + ['\n'] + (TRAILER + " " + k) == text + "\n\n" + TRAILER + " " + k;
  }
}
