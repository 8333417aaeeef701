/** Reading a repository tree into a bounded set of files that fits one bundle. */
module Checkout {
  import opened Prelude
  import opened Strings
  import opened Ordering
  import opened Sequences
  import opened Utf8
  import Base64
  import Bundle
  import Paths
  import DigestFraming

  const MAX_SKIPPED: nat := 100
  const MORE_SKIPPED := "(more paths skipped)"
  const TRUNCATED := "(tree truncated by the host: repository has more entries than the tree API returns)"

  /** Why a blob is left out, as it is shown after the blob's path. */
  datatype Reason = OverCount | TooLarge | OverTotal | Binary

  function Suffix(reason: Reason): string {
    match reason
    case OverCount => " (file-count cap)"
    case TooLarge => " (file too large)"
    case OverTotal => " (total-size cap)"
    case Binary => " (binary)"
  }

  function SkipLine(path: string, reason: Reason): string {
    path + Suffix(reason)
  }

  function Notes(truncated: bool): seq<string> {
    if truncated then [TRUNCATED] else []
  }

  /** What the caller asks for; a bound of zero or less means the default. */
  datatype Input = Input(maxFiles: int, maxFileBytes: int, maxBinaryFileBytes: int, maxTotalBytes: int, includeBinary: bool)

  function OrDefault(bound: int, default: int): int {
    if bound <= 0 then default else bound
  }

  function Bounds(input: Input): Input {
    Input(OrDefault(input.maxFiles, 500), OrDefault(input.maxFileBytes, 256 * 1024),
          OrDefault(input.maxBinaryFileBytes, 25 * 1024 * 1024),
          OrDefault(input.maxTotalBytes, if input.includeBinary then 48 * 1024 * 1024 else 16 * 1024 * 1024),
          input.includeBinary)
  }

  /** checkoutInput: the bounds of the controller, by the annotation that asks for binaries. */
  function ControllerInput(annotation: Option<string>): Result<Input> {
    match annotation
    case None => Ok(Input(500, 256 * 1024, 0, 16 * 1024 * 1024, false))
    case Some(encoding) =>
      if encoding == "base64" then Ok(Input(500, 256 * 1024, Bundle.MAX_BINARY_FILE_BYTES, DigestFraming.MAX_TOTAL_BYTES, true))
      else Err("unsupported binary encoding")
  }

  /** One blob of the tree; the size is what the host reports, and may be wrong. */
  datatype TreeBlob = TreeBlob(path: string, sha: string, size: int)

  function BlobPath(e: TreeBlob): string { e.path }

  function FilePath(f: Bundle.File): string { f.path }

  // Text and binary.

  predicate IsBinary(raw: string) {
    raw != "" && ('\0' in raw || !ValidUtf8(raw))
  }

  // What becomes of each blob.

  datatype Fate = Taken(raw: Bytes) | Skipped(reason: Reason) | Unreadable

  function Count(fates: seq<Fate>): nat {
    if fates == [] then 0 else Count(fates[..|fates| - 1]) + if fates[|fates| - 1].Taken? then 1 else 0
  }

  function Total(fates: seq<Fate>): nat {
    if fates == [] then 0 else Total(fates[..|fates| - 1]) + if fates[|fates| - 1].Taken? then |fates[|fates| - 1].raw| else 0
  }

  function CapOf(raw: string, b: Input): int {
    if IsBinary(raw) then b.maxBinaryFileBytes else b.maxFileBytes
  }

  /** The fate of a blob, by the reported size first and by the bytes once they are read. */
  function FateOf(e: TreeBlob, blobs: map<string, Bytes>, b: Input, count: nat, total: nat): Fate {
    var largest := if b.includeBinary then Max(b.maxFileBytes, b.maxBinaryFileBytes) else b.maxFileBytes;
    if count >= b.maxFiles then Skipped(OverCount)
    else if e.size > largest then Skipped(TooLarge)
    else if total + e.size > b.maxTotalBytes then Skipped(OverTotal)
    else if e.sha !in blobs then Unreadable
    else
      var raw := blobs[e.sha];
      if IsBinary(raw) && !b.includeBinary then Skipped(Binary)
      else if |raw| > CapOf(raw, b) then Skipped(TooLarge)
      else if total + |raw| > b.maxTotalBytes then Skipped(OverTotal)
      else Taken(raw)
  }

  /** Every blob met its fate given what was taken before it. */
  ghost predicate Justified(entries: seq<TreeBlob>, blobs: map<string, Bytes>, b: Input, fates: seq<Fate>) {
    && |fates| == |entries|
    && forall i | 0 <= i < |fates| :: fates[i] == FateOf(entries[i], blobs, b, Count(fates[..i]), Total(fates[..i]))
  }

  lemma {:induction false} JustifiedPrefix(entries: seq<TreeBlob>, blobs: map<string, Bytes>, b: Input, fates: seq<Fate>, n: nat)
    requires Justified(entries, blobs, b, fates) && n <= |fates|
    ensures Justified(entries[..n], blobs, b, fates[..n])
  {
    hide FateOf, Count, Total;
    forall i | 0 <= i < n
      ensures fates[..n][i] == FateOf(entries[..n][i], blobs, b, Count(fates[..n][..i]), Total(fates[..n][..i]))
    {
      assert fates[..n][..i] == fates[..i];
    }
  }

  /** The fates of all blobs, in order; the first unreadable one ends the checkout. */
  ghost function Fates(entries: seq<TreeBlob>, blobs: map<string, Bytes>, b: Input): (fates: seq<Fate>)
    ensures |fates| == |entries|
    decreases |entries|
  {
    if entries == [] then []
    else
      var n := |entries| - 1;
      var before := Fates(entries[..n], blobs, b);
      before + [FateOf(entries[n], blobs, b, Count(before), Total(before))]
  }

  lemma {:induction false} FatesPrefix(entries: seq<TreeBlob>, blobs: map<string, Bytes>, b: Input, n: nat)
    requires n <= |entries|
    ensures Fates(entries, blobs, b)[..n] == Fates(entries[..n], blobs, b)
    decreases |entries|
  {
    hide FateOf;
    if n == |entries| {
      assert entries[..n] == entries;
    } else {
      var m := |entries| - 1;
      FatesPrefix(entries[..m], blobs, b, n);
      assert entries[..m][..n] == entries[..n];
    }
  }

  lemma {:induction false} FatesJustified(entries: seq<TreeBlob>, blobs: map<string, Bytes>, b: Input)
    ensures Justified(entries, blobs, b, Fates(entries, blobs, b))
  {
    hide FateOf, Count, Total;
    var fates := Fates(entries, blobs, b);
    forall i | 0 <= i < |fates| ensures fates[i] == FateOf(entries[i], blobs, b, Count(fates[..i]), Total(fates[..i])) {
      FatesPrefix(entries, blobs, b, i);
      FatesPrefix(entries, blobs, b, i + 1);
      assert fates[..i + 1][i] == fates[i];
      assert entries[..i + 1][..i] == entries[..i];
    }
  }

  /** Fates are determined by the blobs and the bounds. */
  lemma {:induction false} JustifiedUnique(entries: seq<TreeBlob>, blobs: map<string, Bytes>, b: Input, fates: seq<Fate>)
    requires Justified(entries, blobs, b, fates)
    ensures fates == Fates(entries, blobs, b)
    decreases |entries|
  {
    hide FateOf, Count, Total;
    if entries != [] {
      var n := |entries| - 1;
      JustifiedPrefix(entries, blobs, b, fates, n);
      JustifiedUnique(entries[..n], blobs, b, fates[..n]);
      assert fates == fates[..n] + [fates[n]];
    }
  }

  function FileFor(path: string, raw: Bytes): Bundle.File {
    if IsBinary(raw) then Bundle.File(path, Base64.Encode(raw), "base64", false) else Bundle.File(path, raw, "", false)
  }

  function FilesOf(entries: seq<TreeBlob>, fates: seq<Fate>): seq<Bundle.File>
    requires |entries| == |fates|
  {
    if fates == [] then []
    else
      var n := |fates| - 1;
      FilesOf(entries[..n], fates[..n]) + if fates[n].Taken? then [FileFor(entries[n].path, fates[n].raw)] else []
  }

  function SkipsOf(entries: seq<TreeBlob>, fates: seq<Fate>): seq<string>
    requires |entries| == |fates|
  {
    if fates == [] then []
    else
      var n := |fates| - 1;
      SkipsOf(entries[..n], fates[..n]) + if fates[n].Skipped? then [SkipLine(entries[n].path, fates[n].reason)] else []
  }

  // What a blob is due, by its bytes and by the files before it.

  /** The bytes that a file holds. */
  function ContentSize(f: Bundle.File): nat {
    if f.encoding != "base64" then |f.content|
    else
      var data := Base64.Decode(f.content);
      if data.Some? then |data.value| else 0
  }

  function Held(files: seq<Bundle.File>): nat {
    Sum(Map(ContentSize, files))
  }

  /** Text is what holds no zero byte and spells Unicode characters. */
  ghost predicate IsText(raw: string) {
    '\0' !in raw && Spelled(raw)
  }

  lemma {:induction false} BinaryIsNotText(raw: string)
    ensures IsBinary(raw) <==> !IsText(raw)
  {
    ValidExactlyWhenSpelled(raw);
    hide Spelled, RuneLength;
  }

  /** By what the host reports, there is room for the blob after the files before it. */
  predicate SeemsToFit(e: TreeBlob, b: Input, before: seq<Bundle.File>) {
    && |before| < b.maxFiles
    && (e.size <= b.maxFileBytes || (b.includeBinary && e.size <= b.maxBinaryFileBytes))
    && Held(before) + e.size <= b.maxTotalBytes
  }

  ghost predicate RefusedBinary(raw: string, b: Input) {
    !IsText(raw) && !b.includeBinary
  }

  /** The bytes themselves are within the cap of their class. */
  ghost predicate WithinCap(raw: string, b: Input) {
    |raw| <= if IsText(raw) then b.maxFileBytes else b.maxBinaryFileBytes
  }

  /** The one fate that the files before a blob, its reported size and its bytes leave it. */
  ghost predicate Due(e: TreeBlob, blobs: map<string, Bytes>, b: Input, before: seq<Bundle.File>, fate: Fate) {
    var raw: string := if e.sha in blobs then blobs[e.sha] else "";
    var looked := SeemsToFit(e, b, before) && e.sha in blobs;
    && (fate == Skipped(OverCount) <==> |before| >= b.maxFiles)
    && (fate == Skipped(Binary) <==> looked && RefusedBinary(raw, b))
    && (fate == Skipped(TooLarge) <==>
         || (|before| < b.maxFiles && e.size > b.maxFileBytes && (b.includeBinary ==> e.size > b.maxBinaryFileBytes))
         || (looked && !RefusedBinary(raw, b) && !WithinCap(raw, b)))
    && (fate == Skipped(OverTotal) <==>
         || (|before| < b.maxFiles && !SeemsToFit(e, b, before) && Held(before) + e.size > b.maxTotalBytes
             && (e.size <= b.maxFileBytes || (b.includeBinary && e.size <= b.maxBinaryFileBytes)))
         || (looked && !RefusedBinary(raw, b) && WithinCap(raw, b) && Held(before) + |raw| > b.maxTotalBytes))
    && (fate.Unreadable? <==> SeemsToFit(e, b, before) && e.sha !in blobs)
    && (fate.Taken? <==> looked && !RefusedBinary(raw, b) && WithinCap(raw, b) && Held(before) + |raw| <= b.maxTotalBytes)
    && (fate.Taken? ==> fate.raw == raw)
  }

  lemma {:induction false} FateIsDue(e: TreeBlob, blobs: map<string, Bytes>, b: Input, before: seq<Bundle.File>, fate: Fate)
    ensures Due(e, blobs, b, before, fate) <==> fate == FateOf(e, blobs, b, |before|, Held(before))
  {
    if e.sha in blobs {
      BinaryIsNotText(blobs[e.sha]);
    }
    hide IsBinary, IsText, Held;
  }

  lemma {:induction false} FileHolds(path: string, raw: Bytes)
    ensures ContentSize(FileFor(path, raw)) == |raw|
  {
    hide IsBinary;
    if IsBinary(raw) {
      Base64.DecodeEncode(raw);
    }
  }

  lemma {:induction false} HeldAppend(files: seq<Bundle.File>, f: Bundle.File)
    ensures Held(files + [f]) == Held(files) + ContentSize(f)
  {
    hide ContentSize, Map, Sum;
    MapAppend(ContentSize, files, f);
    SumAppend(Map(ContentSize, files), ContentSize(f));
  }

  /** The files hold what was counted. */
  lemma {:induction false} HeldIsTotal(entries: seq<TreeBlob>, fates: seq<Fate>)
    requires |entries| == |fates|
    ensures |FilesOf(entries, fates)| == Count(fates) && Held(FilesOf(entries, fates)) == Total(fates)
  {
    hide FileFor, ContentSize, Held;
    if fates == [] {
      NothingHeld();
    } else {
      var n := |fates| - 1;
      HeldIsTotal(entries[..n], fates[..n]);
      assert FilesOf(entries[..n], fates[..n]) + [] == FilesOf(entries[..n], fates[..n]);
      if fates[n].Taken? {
        HeldAppend(FilesOf(entries[..n], fates[..n]), FileFor(entries[n].path, fates[n].raw));
        FileHolds(entries[n].path, fates[n].raw);
      }
    }
  }

  lemma {:induction false} NothingHeld()
    ensures Held([]) == 0
  {
  }

  /** Every blob met the fate that it was due after the files before it. */
  ghost predicate AllDue(entries: seq<TreeBlob>, blobs: map<string, Bytes>, b: Input, fates: seq<Fate>) {
    && |fates| == |entries|
    && forall i | 0 <= i < |fates| :: Due(entries[i], blobs, b, FilesOf(entries[..i], fates[..i]), fates[i])
  }

  /** That relation and nothing else is what the loop computes: it has exactly one solution. */
  lemma {:induction false} FatesAreDue(entries: seq<TreeBlob>, blobs: map<string, Bytes>, b: Input, fates: seq<Fate>)
    ensures AllDue(entries, blobs, b, fates) <==> fates == Fates(entries, blobs, b)
  {
    hide FateOf, Due, FilesOf, Count, Total, Fates;
    if |fates| == |entries| {
      forall i | 0 <= i < |fates|
        ensures Due(entries[i], blobs, b, FilesOf(entries[..i], fates[..i]), fates[i]) <==>
          fates[i] == FateOf(entries[i], blobs, b, Count(fates[..i]), Total(fates[..i]))
      {
        HeldIsTotal(entries[..i], fates[..i]);
        FateIsDue(entries[i], blobs, b, FilesOf(entries[..i], fates[..i]), fates[i]);
      }
      if AllDue(entries, blobs, b, fates) {
        JustifiedUnique(entries, blobs, b, fates);
      }
    }
    if fates == Fates(entries, blobs, b) {
      FatesJustified(entries, blobs, b);
    }
  }

  // A tree that fits is taken whole.

  /** A text blob that can be read, within the cap for text by its reported and by its actual size. */
  ghost predicate PlainText(e: TreeBlob, blobs: map<string, Bytes>, b: Input) {
    && e.sha in blobs && IsText(blobs[e.sha]) && |blobs[e.sha]| <= b.maxFileBytes && e.size <= b.maxFileBytes
  }

  /** The room that a blob may need: the larger of its reported and its actual size. */
  function Weight(blobs: map<string, Bytes>, e: TreeBlob): nat {
    if e.sha in blobs then Max(e.size, |blobs[e.sha]|) else 0
  }

  function Weights(entries: seq<TreeBlob>, blobs: map<string, Bytes>): nat {
    Sum(Map((e: TreeBlob) => Weight(blobs, e), entries))
  }

  lemma {:induction false} WeightsStep(entries: seq<TreeBlob>, blobs: map<string, Bytes>, n: nat)
    requires n < |entries|
    ensures Weights(entries[..n + 1], blobs) == Weights(entries[..n], blobs) + Weight(blobs, entries[n])
    ensures Weights(entries[..n + 1], blobs) <= Weights(entries, blobs)
  {
    var w := (e: TreeBlob) => Weight(blobs, e);
    assert entries[..n + 1] == entries[..n] + [entries[n]];
    MapAppend(w, entries[..n], entries[n]);
    SumAppend(Map(w, entries[..n]), Weight(blobs, entries[n]));
    assert Map(w, entries[..n + 1]) == Map(w, entries)[..n + 1];
    SumPrefix(Map(w, entries), n + 1);
    hide Map, Sum;
  }

  lemma {:induction false} TakenStep(entries: seq<TreeBlob>, fates: seq<Fate>, m: nat)
    requires m < |entries| == |fates| && fates[m].Taken?
    ensures FilesOf(entries[..m + 1], fates[..m + 1])
      == FilesOf(entries[..m], fates[..m]) + [FileFor(entries[m].path, fates[m].raw)]
    ensures SkipsOf(entries[..m + 1], fates[..m + 1]) == SkipsOf(entries[..m], fates[..m])
  {
    hide FileFor, SkipLine;
    assert entries[..m + 1][..m] == entries[..m] && fates[..m + 1][..m] == fates[..m];
  }

  /** The first n blobs have all been taken. */
  ghost predicate TakenSoFar(entries: seq<TreeBlob>, blobs: map<string, Bytes>, fates: seq<Fate>, n: nat)
    requires n <= |entries| == |fates|
  {
    var files := FilesOf(entries[..n], fates[..n]);
    && |files| == n && Held(files) <= Weights(entries[..n], blobs) && SkipsOf(entries[..n], fates[..n]) == []
    && forall k | 0 <= k < n ::
         entries[k].sha in blobs && fates[k].Taken? && files[k] == Bundle.File(entries[k].path, blobs[entries[k].sha], "", false)
  }

  lemma {:induction false} OneMoreTaken(entries: seq<TreeBlob>, blobs: map<string, Bytes>, b: Input, fates: seq<Fate>, m: nat)
    requires m < |entries| == |fates| && TakenSoFar(entries, blobs, fates, m) && PlainText(entries[m], blobs, b)
    requires fates[m] == Taken(blobs[entries[m].sha])
    ensures TakenSoFar(entries, blobs, fates, m + 1)
  {
    hide IsText, Held, Weights, ContentSize, FilesOf, SkipsOf;
    var e, before := entries[m], FilesOf(entries[..m], fates[..m]);
    TakenStep(entries, fates, m);
    WeightsStep(entries, blobs, m);
    HeldAppend(before, FileFor(e.path, blobs[e.sha]));
    FileHolds(e.path, blobs[e.sha]);
    BinaryIsNotText(blobs[e.sha]);
    hide IsBinary;
  }

  lemma {:induction false} AllTakenSoFar(entries: seq<TreeBlob>, blobs: map<string, Bytes>, b: Input, fates: seq<Fate>, n: nat)
    requires AllDue(entries, blobs, b, fates) && n <= |entries| <= b.maxFiles && Weights(entries, blobs) <= b.maxTotalBytes
    requires forall k | 0 <= k < |entries| :: PlainText(entries[k], blobs, b)
    ensures TakenSoFar(entries, blobs, fates, n)
  {
    assert |entries| == |fates|;
    hide AllDue, PlainText, TakenSoFar;
    if n == 0 {
      NoneTaken(entries, blobs, fates);
    } else {
      var m := n - 1;
      AllTakenSoFar(entries, blobs, b, fates, m);
      NextIsTaken(entries, blobs, b, fates, m);
      OneMoreTaken(entries, blobs, b, fates, m);
    }
  }

  lemma {:induction false} NoneTaken(entries: seq<TreeBlob>, blobs: map<string, Bytes>, fates: seq<Fate>)
    requires |entries| == |fates|
    ensures TakenSoFar(entries, blobs, fates, 0)
  {
    NothingHeld();
  }

  lemma {:induction false} NextIsTaken(entries: seq<TreeBlob>, blobs: map<string, Bytes>, b: Input, fates: seq<Fate>, m: nat)
    requires AllDue(entries, blobs, b, fates) && m < |entries| <= b.maxFiles && Weights(entries, blobs) <= b.maxTotalBytes
    requires PlainText(entries[m], blobs, b) && TakenSoFar(entries, blobs, fates, m)
    ensures entries[m].sha in blobs && fates[m] == Taken(blobs[entries[m].sha])
  {
    hide Due, IsText, Held, Weights, FilesOf, SkipsOf;
    var before := FilesOf(entries[..m], fates[..m]);
    assert Due(entries[m], blobs, b, before, fates[m]);
    WeightsStep(entries, blobs, m);
    PlainTextIsTaken(entries[m], blobs, b, before, fates[m]);
  }

  lemma {:induction false} PlainTextIsTaken(e: TreeBlob, blobs: map<string, Bytes>, b: Input, before: seq<Bundle.File>, fate: Fate)
    requires PlainText(e, blobs, b) && Due(e, blobs, b, before, fate)
    requires |before| < b.maxFiles && Held(before) + Weight(blobs, e) <= b.maxTotalBytes
    ensures fate == Taken(blobs[e.sha])
  {
    hide IsText, Held;
  }

  /**
   * A tree of readable text blobs within all caps, by their reported and their actual sizes, is returned whole:
   * every blob is a file with its exact bytes, in path order, and nothing is skipped.
   */
  lemma {:induction false} FittingTreeIsTaken(tree: seq<TreeBlob>, blobs: map<string, Bytes>, input: Input)
    requires |tree| <= Bounds(input).maxFiles && Weights(tree, blobs) <= Bounds(input).maxTotalBytes
    requires forall k | 0 <= k < |tree| :: PlainText(tree[k], blobs, Bounds(input))
    ensures var entries := SortBy(BlobPath, tree);
      var fates := Fates(entries, blobs, Bounds(input));
      && Unreadable !in fates && SkipsOf(entries, fates) == [] && |FilesOf(entries, fates)| == |tree|
      && forall k | 0 <= k < |tree| ::
           entries[k].sha in blobs
           && FilesOf(entries, fates)[k] == Bundle.File(entries[k].path, blobs[entries[k].sha], "", false)
  {
    hide PlainText, FilesOf, SkipsOf, Fates, Bounds, SortBy, AllDue;
    var entries, b := SortBy(BlobPath, tree), Bounds(input);
    var fates := Fates(entries, blobs, b);
    SortByMultiset(BlobPath, tree);
    forall k | 0 <= k < |entries| ensures PlainText(entries[k], blobs, b) && entries[k].sha in blobs {
      assert entries[k] in multiset(tree);
      PlainTextIsThere(entries[k], blobs, b);
    }
    WeightsPermuted(entries, tree, blobs);
    FatesAreDue(entries, blobs, b, fates);
    AllTakenSoFar(entries, blobs, b, fates, |entries|);
    assert entries[..|entries|] == entries && fates[..|entries|] == fates;
  }

  lemma {:induction false} PlainTextIsThere(e: TreeBlob, blobs: map<string, Bytes>, b: Input)
    requires PlainText(e, blobs, b)
    ensures e.sha in blobs
  {
  }

  lemma {:induction false} WeightsPermuted(a: seq<TreeBlob>, c: seq<TreeBlob>, blobs: map<string, Bytes>)
    requires multiset(a) == multiset(c)
    ensures Weights(a, blobs) == Weights(c, blobs)
  {
    var w := (e: TreeBlob) => Weight(blobs, e);
    MapMultiset(w, a, c);
    SumPermuted(Map(w, a), Map(w, c));
    hide Map, Sum;
  }

  /** For the controller: up to 500 text files of up to 256 KiB each and 16 MiB in all, or 48 MiB with the annotation. */
  lemma {:induction false} ControllerTakesText(tree: seq<TreeBlob>, blobs: map<string, Bytes>, annotation: Option<string>)
    requires annotation in {None, Some("base64")} && |tree| <= 500
    requires Weights(tree, blobs) <= (if annotation.None? then 16 else 48) * 1024 * 1024
    requires forall k | 0 <= k < |tree| ::
      tree[k].sha in blobs && IsText(blobs[tree[k].sha]) && |blobs[tree[k].sha]| <= 256 * 1024 && tree[k].size <= 256 * 1024
    ensures ControllerInput(annotation).Ok?
    ensures var entries := SortBy(BlobPath, tree);
      var fates := Fates(entries, blobs, Bounds(ControllerInput(annotation).value));
      Unreadable !in fates && SkipsOf(entries, fates) == [] && |FilesOf(entries, fates)| == |tree|
  {
    hide IsText, Weights, Fates, FilesOf, SkipsOf, SortBy;
    FittingTreeIsTaken(tree, blobs, ControllerInput(annotation).value);
  }

  // The bounded skip list.

  function AppendSkip(skipped: seq<string>, entry: string): seq<string> {
    if |skipped| >= MAX_SKIPPED then skipped
    else if |skipped| == MAX_SKIPPED - 1 then skipped + [MORE_SKIPPED]
    else skipped + [entry]
  }

  /** What the caller sees of all the skips: the first 99, and then a marker if there were more. */
  function Shown(skips: seq<string>): (shown: seq<string>)
    ensures |shown| <= MAX_SKIPPED
    ensures |shown| == MAX_SKIPPED ==> shown[MAX_SKIPPED - 1] == MORE_SKIPPED
    ensures |skips| < MAX_SKIPPED <==> shown == skips && |shown| < MAX_SKIPPED
  {
    if |skips| < MAX_SKIPPED then skips else skips[..MAX_SKIPPED - 1] + [MORE_SKIPPED]
  }

  lemma {:induction false} AppendSkipShown(skips: seq<string>, entry: string)
    ensures AppendSkip(Shown(skips), entry) == Shown(skips + [entry])
  {
    if |skips| >= MAX_SKIPPED - 1 {
      assert (skips + [entry])[..MAX_SKIPPED - 1] == skips[..MAX_SKIPPED - 1];
    }
  }

  /** A tree that the host cut short is shown as such, before anything else. */
  lemma {:induction false} TruncationIsShown(skips: seq<string>)
    ensures TRUNCATED in Shown(Notes(true) + skips) && Shown(Notes(true) + skips)[0] == TRUNCATED
    ensures Shown(Notes(false) + skips) == Shown(skips)
  {
    hide TRUNCATED, MORE_SKIPPED;
    assert (Notes(true) + skips)[0] == TRUNCATED && Notes(false) + skips == skips;
    var shown := Shown(Notes(true) + skips);
    assert shown[0] == TRUNCATED;
  }

  datatype CheckoutResult = CheckoutResult(files: seq<Bundle.File>, skipped: seq<string>)

  /** One more blob: what the loop adds to each of its tallies. */
  lemma {:induction false} Extend(entries: seq<TreeBlob>, blobs: map<string, Bytes>, b: Input, fates: seq<Fate>, i: nat)
    requires i < |entries| && Justified(entries[..i], blobs, b, fates)
    ensures var fate := FateOf(entries[i], blobs, b, Count(fates), Total(fates));
      && Justified(entries[..i + 1], blobs, b, fates + [fate])
      && FilesOf(entries[..i + 1], fates + [fate])
         == (if fate.Taken? then FilesOf(entries[..i], fates) + [FileFor(entries[i].path, fate.raw)] else FilesOf(entries[..i], fates))
      && SkipsOf(entries[..i + 1], fates + [fate])
         == (if fate.Skipped? then SkipsOf(entries[..i], fates) + [SkipLine(entries[i].path, fate.reason)]
             else SkipsOf(entries[..i], fates))
      && Count(fates + [fate]) == Count(fates) + (if fate.Taken? then 1 else 0)
      && Total(fates + [fate]) == Total(fates) + (if fate.Taken? then |fate.raw| else 0)
  {
    hide FateOf;
    var fate := FateOf(entries[i], blobs, b, Count(fates), Total(fates));
    var longer := fates + [fate];
    assert longer[..i] == fates && entries[..i + 1][..i] == entries[..i];
    forall k | 0 <= k <= i ensures longer[k] == FateOf(entries[..i + 1][k], blobs, b, Count(longer[..k]), Total(longer[..k])) {
      if k < i {
        assert longer[..k] == fates[..k] && entries[..i][k] == entries[k];
      }
    }
  }

  lemma {:induction false} AddSkip(notes: seq<string>, skips: seq<string>, entry: string)
    ensures AppendSkip(Shown(notes + skips), entry) == Shown(notes + (skips + [entry]))
  {
    AppendSkipShown(notes + skips, entry);
    assert notes + skips + [entry] == notes + (skips + [entry]);
  }

  /** What the loop has gathered from the first blobs, and their fates. */
  ghost predicate Tally(entries: seq<TreeBlob>, blobs: map<string, Bytes>, b: Input, notes: seq<string>, fates: seq<Fate>,
                        files: seq<Bundle.File>, total: int, skipped: seq<string>) {
    && Justified(entries, blobs, b, fates) && Unreadable !in fates
    && files == FilesOf(entries, fates) && |files| == Count(fates) && total == Total(fates)
    && skipped == Shown(notes + SkipsOf(entries, fates))
  }

  lemma {:induction false} TallySkip(entries: seq<TreeBlob>, i: nat, blobs: map<string, Bytes>, b: Input, notes: seq<string>,
                                     fates: seq<Fate>, files: seq<Bundle.File>, total: nat, skipped: seq<string>, reason: Reason)
    requires i < |entries| && Tally(entries[..i], blobs, b, notes, fates, files, total, skipped)
    requires FateOf(entries[i], blobs, b, |files|, total) == Skipped(reason)
    ensures Tally(entries[..i + 1], blobs, b, notes, fates + [Skipped(reason)], files, total,
                  AppendSkip(skipped, SkipLine(entries[i].path, reason)))
  {
    hide FateOf, FilesOf, SkipsOf, Count, Total, Shown, AppendSkip, SkipLine;
    Extend(entries, blobs, b, fates, i);
    AddSkip(notes, SkipsOf(entries[..i], fates), SkipLine(entries[i].path, reason));
  }

  lemma {:induction false} TallyTake(entries: seq<TreeBlob>, i: nat, blobs: map<string, Bytes>, b: Input, notes: seq<string>,
                                     fates: seq<Fate>, files: seq<Bundle.File>, total: nat, skipped: seq<string>, raw: Bytes)
    requires i < |entries| && Tally(entries[..i], blobs, b, notes, fates, files, total, skipped)
    requires FateOf(entries[i], blobs, b, |files|, total) == Taken(raw)
    ensures Tally(entries[..i + 1], blobs, b, notes, fates + [Taken(raw)], files + [FileFor(entries[i].path, raw)],
                  total + |raw|, skipped)
  {
    hide FateOf, FilesOf, SkipsOf, Count, Total, Justified, Shown, FileFor;
    Extend(entries, blobs, b, fates, i);
  }

  lemma {:induction false} TallyFails(entries: seq<TreeBlob>, i: nat, blobs: map<string, Bytes>, b: Input, notes: seq<string>,
                                      fates: seq<Fate>, files: seq<Bundle.File>, total: nat, skipped: seq<string>)
    requires i < |entries| && Tally(entries[..i], blobs, b, notes, fates, files, total, skipped)
    requires FateOf(entries[i], blobs, b, |files|, total) == Unreadable
    ensures Unreadable in Fates(entries, blobs, b)
  {
    hide FateOf, FilesOf, SkipsOf, Count, Total, Shown, Fates;
    Extend(entries, blobs, b, fates, i);
    JustifiedUnique(entries[..i + 1], blobs, b, fates + [Unreadable]);
    FatesPrefix(entries, blobs, b, i + 1);
    assert Fates(entries, blobs, b)[..i + 1][i] == Unreadable;
    assert Fates(entries, blobs, b)[i] == Unreadable;
  }

  lemma {:induction false} TallyStart(blobs: map<string, Bytes>, b: Input, truncated: bool)
    ensures Tally([], blobs, b, Notes(truncated), [], [], 0, Notes(truncated))
  {
    hide TRUNCATED;
    assert Notes(truncated) + [] == Notes(truncated);
  }

  /** What is returned is what every blob was due, within the caps. */
  lemma {:induction false} ReturnedFiles(tree: seq<TreeBlob>, blobs: map<string, Bytes>, input: Input)
    ensures var entries := SortBy(BlobPath, tree);
      var fates := Fates(entries, blobs, Bounds(input));
      && AllDue(entries, blobs, Bounds(input), fates)
      && |FilesOf(entries, fates)| <= Bounds(input).maxFiles && Held(FilesOf(entries, fates)) <= Bounds(input).maxTotalBytes
  {
    hide *;
    var entries := SortBy(BlobPath, tree);
    var fates := Fates(entries, blobs, Bounds(input));
    CheckoutKeepsCaps(tree, blobs, input);
    HeldIsTotal(entries, fates);
    FatesAreDue(entries, blobs, Bounds(input), fates);
  }

  /**
   * CheckoutFiles, once the tree is known: sort its blobs, then take or skip each. It fails exactly if
   * a blob that it needs cannot be read.
   */
  method CheckoutFiles(tree: seq<TreeBlob>, truncated: bool, blobs: map<string, Bytes>, input: Input) returns (r: Result<CheckoutResult>)
    ensures r.Err? <==> Unreadable in Fates(SortBy(BlobPath, tree), blobs, Bounds(input))
    ensures r.Ok? ==>
      var entries, fates := SortBy(BlobPath, tree), Fates(SortBy(BlobPath, tree), blobs, Bounds(input));
      && r.value == CheckoutResult(FilesOf(entries, fates), Shown(Notes(truncated) + SkipsOf(entries, fates)))
      && AllDue(entries, blobs, Bounds(input), fates)
      && |r.value.files| <= Bounds(input).maxFiles && Held(r.value.files) <= Bounds(input).maxTotalBytes
  {
    var b := Bounds(input);
    hide SortBy, Bounds, AllDue, Held, Tally, Justified, FilesOf, SkipsOf, SkipLine, AppendSkip, Shown, IsBinary;
    var entries := SortBy(BlobPath, tree);
    SortByMultiset(BlobPath, tree);
    var files: seq<Bundle.File> := [];
    var skipped: seq<string> := [];
    if truncated {
      skipped := skipped + [TRUNCATED];
    }
    ghost var notes := Notes(truncated);
    assert skipped == notes;
    TallyStart(blobs, b, truncated);
    hide Notes, Fates;
    ghost var fates: seq<Fate> := [];
    var total := 0;
    var largest := b.maxFileBytes;
    if b.includeBinary {
      largest := Max(b.maxFileBytes, b.maxBinaryFileBytes);
    }
    for i := 0 to |entries|
      invariant |fates| == i && total >= 0
      invariant Tally(entries[..i], blobs, b, notes, fates, files, total, skipped)
    {
      var entry := entries[i];
      ghost var fate := FateOf(entry, blobs, b, |files|, total);
      ghost var before := fates;
      fates := fates + [fate];
      if |files| >= b.maxFiles {
        TallySkip(entries, i, blobs, b, notes, before, files, total, skipped, OverCount);
        skipped := AppendSkip(skipped, SkipLine(entry.path, OverCount));
        continue;
      }
      if entry.size > largest {
        TallySkip(entries, i, blobs, b, notes, before, files, total, skipped, TooLarge);
        skipped := AppendSkip(skipped, SkipLine(entry.path, TooLarge));
        continue;
      }
      if total + entry.size > b.maxTotalBytes {
        TallySkip(entries, i, blobs, b, notes, before, files, total, skipped, OverTotal);
        skipped := AppendSkip(skipped, SkipLine(entry.path, OverTotal));
        continue;
      }
      if entry.sha !in blobs {
        TallyFails(entries, i, blobs, b, notes, before, files, total, skipped);
        return Err("read blob");
      }
      var raw := blobs[entry.sha];
      var binary := IsBinary(raw);
      if binary && !b.includeBinary {
        TallySkip(entries, i, blobs, b, notes, before, files, total, skipped, Binary);
        skipped := AppendSkip(skipped, SkipLine(entry.path, Binary));
        continue;
      }
      if (binary && |raw| > b.maxBinaryFileBytes) || (!binary && |raw| > b.maxFileBytes) {
        TallySkip(entries, i, blobs, b, notes, before, files, total, skipped, TooLarge);
        skipped := AppendSkip(skipped, SkipLine(entry.path, TooLarge));
        continue;
      }
      if total + |raw| > b.maxTotalBytes {
        TallySkip(entries, i, blobs, b, notes, before, files, total, skipped, OverTotal);
        skipped := AppendSkip(skipped, SkipLine(entry.path, OverTotal));
        continue;
      }
      TallyTake(entries, i, blobs, b, notes, before, files, total, skipped, raw);
      total := total + |raw|;
      var file := Bundle.File(entry.path, raw, "", false);
      if binary {
        file := file.(content := Base64.Encode(raw), encoding := "base64");
      }
      files := files + [file];
    }
    TallyEnd(entries, blobs, b, notes, fates, files, total, skipped);
    ReturnedFiles(tree, blobs, input);
    r := Ok(CheckoutResult(files, skipped));
  }

  lemma {:induction false} TallyEnd(entries: seq<TreeBlob>, blobs: map<string, Bytes>, b: Input, notes: seq<string>, fates: seq<Fate>,
                                    files: seq<Bundle.File>, total: int, skipped: seq<string>)
    requires Tally(entries[..|entries|], blobs, b, notes, fates, files, total, skipped)
    ensures fates == Fates(entries, blobs, b) && Unreadable !in fates
    ensures files == FilesOf(entries, fates) && skipped == Shown(notes + SkipsOf(entries, fates))
  {
    assert entries[..|entries|] == entries;
    JustifiedUnique(entries, blobs, b, fates);
  }

  // What every checkout keeps, whatever sizes the host reports.

  /** The byte total, the file count and the per-class caps hold for what was taken, by its actual bytes. */
  lemma {:induction false} CapsHold(entries: seq<TreeBlob>, blobs: map<string, Bytes>, b: Input, fates: seq<Fate>)
    requires Justified(entries, blobs, b, fates) && b.maxFiles >= 0 && b.maxTotalBytes >= 0
    ensures Count(fates) <= b.maxFiles && Total(fates) <= b.maxTotalBytes
    ensures forall i | 0 <= i < |fates| && fates[i].Taken? ::
      && entries[i].sha in blobs && fates[i].raw == blobs[entries[i].sha]
      && |fates[i].raw| <= CapOf(fates[i].raw, b) && (IsBinary(fates[i].raw) ==> b.includeBinary)
  {
    hide IsBinary;
    if fates != [] {
      var n := |fates| - 1;
      JustifiedPrefix(entries, blobs, b, fates, n);
      CapsHold(entries[..n], blobs, b, fates[..n]);
      assert fates[..n] == fates[..|fates| - 1];
    }
  }

  /** Each blob is taken or skipped, once: the files and all the skips together are as many as the blobs. */
  lemma {:induction false} EachBlobOnce(entries: seq<TreeBlob>, fates: seq<Fate>)
    requires |entries| == |fates| && Unreadable !in fates
    ensures |FilesOf(entries, fates)| == Count(fates)
    ensures |FilesOf(entries, fates)| + |SkipsOf(entries, fates)| == |entries|
  {
    hide FileFor, SkipLine;
    if fates != [] {
      EachBlobOnce(entries[..|fates| - 1], fates[..|fates| - 1]);
      assert fates[|fates| - 1] in fates;
    }
  }

  /** File k of a result is the k-th blob taken. */
  function TakenAt(fates: seq<Fate>, k: nat): (i: nat)
    requires k < Count(fates)
    ensures i < |fates| && fates[i].Taken?
  {
    var n := |fates| - 1;
    if fates[n].Taken? && k == Count(fates[..n]) then n else TakenAt(fates[..n], k)
  }

  lemma {:induction false} FileIsTaken(entries: seq<TreeBlob>, fates: seq<Fate>, k: nat)
    requires |entries| == |fates| && k < Count(fates)
    ensures |FilesOf(entries, fates)| == Count(fates)
    ensures var i := TakenAt(fates, k); FilesOf(entries, fates)[k] == FileFor(entries[i].path, fates[i].raw)
  {
    hide FileFor;
    var n := |fates| - 1;
    if Count(fates[..n]) > 0 {
      FileIsTaken(entries[..n], fates[..n], 0);
    }
    FilesCounted(entries[..n], fates[..n]);
    if k < Count(fates[..n]) {
      FileIsTaken(entries[..n], fates[..n], k);
    }
  }

  lemma {:induction false} FilesCounted(entries: seq<TreeBlob>, fates: seq<Fate>)
    requires |entries| == |fates|
    ensures |FilesOf(entries, fates)| == Count(fates)
  {
    hide FileFor;
    if fates != [] {
      FilesCounted(entries[..|fates| - 1], fates[..|fates| - 1]);
    }
  }

  /**
   * The caps on what CheckoutFiles returns, file by file: no more files and bytes than asked for, and every
   * file holds exactly the bytes of a blob of the tree, within the cap of its class.
   */
  lemma {:induction false} CheckoutKeepsCaps(tree: seq<TreeBlob>, blobs: map<string, Bytes>, input: Input)
    ensures var entries, b := SortBy(BlobPath, tree), Bounds(input);
      var fates := Fates(entries, blobs, b);
      var files := FilesOf(entries, fates);
      && |files| == Count(fates) <= b.maxFiles && Total(fates) <= b.maxTotalBytes
      && forall k | 0 <= k < |files| ::
           var e := entries[TakenAt(fates, k)];
           && e.sha in blobs && files[k] == FileFor(e.path, blobs[e.sha])
           && |blobs[e.sha]| <= CapOf(blobs[e.sha], b) && (IsBinary(blobs[e.sha]) ==> b.includeBinary)
  {
    var entries, b := SortBy(BlobPath, tree), Bounds(input);
    assert b.maxFiles >= 0 && b.maxTotalBytes >= 0;
    hide Fates, FilesOf, FileFor, IsBinary, Count, Total, CapOf, Justified, TakenAt, SortBy, Bounds;
    var fates := Fates(entries, blobs, b);
    FatesJustified(entries, blobs, b);
    CapsHold(entries, blobs, b, fates);
    FilesCounted(entries, fates);
    forall k | 0 <= k < |FilesOf(entries, fates)|
      ensures var e := entries[TakenAt(fates, k)];
        && e.sha in blobs && FilesOf(entries, fates)[k] == FileFor(e.path, blobs[e.sha])
        && |blobs[e.sha]| <= CapOf(blobs[e.sha], b) && (IsBinary(blobs[e.sha]) ==> b.includeBinary)
    {
      FileIsTaken(entries, fates, k);
    }
  }

  lemma {:induction false} TakenInOrder(fates: seq<Fate>, j: nat, k: nat)
    requires j < k < Count(fates)
    ensures TakenAt(fates, j) < TakenAt(fates, k)
  {
    var n := |fates| - 1;
    if k < Count(fates[..n]) {
      TakenInOrder(fates[..n], j, k);
    }
  }

  /** Files come out in the order of the blobs; with distinct blob paths no path comes out twice. */
  lemma {:induction false} FilesInPathOrder(tree: seq<TreeBlob>, fates: seq<Fate>)
    requires |fates| == |tree| && DistinctBy(BlobPath, tree)
    ensures IncreasingBy(FilePath, FilesOf(SortBy(BlobPath, tree), fates))
  {
    hide FilesOf, Count, TakenAt, Less, SortBy;
    var entries := SortBy(BlobPath, tree);
    SortByCanonical(BlobPath, tree, tree);
    FilesCounted(entries, fates);
    var files := FilesOf(entries, fates);
    forall j, k | 0 <= j < k < |files| ensures Less(FilePath(files[j]), FilePath(files[k])) {
      FileIsTaken(entries, fates, j);
      FileIsTaken(entries, fates, k);
      TakenInOrder(fates, j, k);
      assert Less(BlobPath(entries[TakenAt(fates, j)]), BlobPath(entries[TakenAt(fates, k)]));
    }
  }

  // A checkout fits its bundle.

  /** The bytes of a taken blob survive the file's encoding and the bundle's decoding. */
  lemma {:induction false} FileRoundTrips(path: string, raw: Bytes)
    requires |raw| <= (if IsBinary(raw) then Bundle.MAX_BINARY_FILE_BYTES else Bundle.MAX_FILE_BYTES)
    ensures var f := FileFor(path, raw);
      && (Bundle.Canonical(f).Ok? <==> Paths.CleanPath(path).Ok?)
      && Bundle.DecodedContent(Bundle.Entry(f)) == Ok(raw)
  {
    hide IsBinary, Paths.CleanPath;
    Bundle.DecodedContentIsExact(Bundle.Entry(FileFor(path, raw)), raw);
  }

  ghost predicate TakenFits(fates: seq<Fate>) {
    forall i | 0 <= i < |fates| && fates[i].Taken? ::
      |fates[i].raw| <= (if IsBinary(fates[i].raw) then Bundle.MAX_BINARY_FILE_BYTES else Bundle.MAX_FILE_BYTES)
  }

  lemma {:induction false} SumOfNone()
    ensures Sum(Map(Bundle.SizeOf, Map(Bundle.Entry, []))) == 0
  {
  }

  lemma {:induction false} TakenSize(path: string, raw: Bytes)
    requires |raw| <= (if IsBinary(raw) then Bundle.MAX_BINARY_FILE_BYTES else Bundle.MAX_FILE_BYTES)
    requires Paths.CleanPath(path).Ok?
    ensures Bundle.SizeOf(Bundle.Entry(FileFor(path, raw))) == |raw|
    ensures Bundle.DataOf(Bundle.Entry(FileFor(path, raw))) == raw
  {
    hide IsBinary, Bundle.DecodedContent, Paths.CleanPath;
    FileRoundTrips(path, raw);
  }

  /** Bounds under which a checkout fits the store. */
  predicate WithinStore(b: Input) {
    && 0 <= b.maxFiles <= Bundle.MAX_FILES && 0 <= b.maxTotalBytes <= DigestFraming.MAX_TOTAL_BYTES
    && b.maxFileBytes <= Bundle.MAX_FILE_BYTES && b.maxBinaryFileBytes <= Bundle.MAX_BINARY_FILE_BYTES
  }

  /** The controller's bounds are such, and so are the defaults that stand in for bounds not given. */
  lemma {:induction false} BoundsAreWithinStore(annotation: Option<string>, given: Input)
    ensures ControllerInput(annotation).Ok? ==> WithinStore(Bounds(ControllerInput(annotation).value))
    ensures given.maxFiles <= 0 && given.maxTotalBytes <= 0 && given.maxFileBytes <= 0 && given.maxBinaryFileBytes <= 0 ==>
              WithinStore(Bounds(given))
  {
  }

  lemma {:induction false} CapsFitStore(entries: seq<TreeBlob>, blobs: map<string, Bytes>, b: Input, fates: seq<Fate>)
    requires Justified(entries, blobs, b, fates) && WithinStore(b)
    ensures TakenFits(fates) && Count(fates) <= Bundle.MAX_FILES && Total(fates) <= DigestFraming.MAX_TOTAL_BYTES
  {
    hide Justified, Count, Total, IsBinary;
    CapsHold(entries, blobs, b, fates);
  }

  ghost predicate PathsStorable(files: seq<Bundle.File>) {
    && (forall k | 0 <= k < |files| :: Paths.CleanPath(files[k].path).Ok?)
    && forall j, k | 0 <= j < k < |files| :: Paths.CleanPath(files[j].path) != Paths.CleanPath(files[k].path)
  }

  lemma {:induction false} StorableIsStored(entries: seq<TreeBlob>, fates: seq<Fate>)
    requires |entries| == |fates| && TakenFits(fates)
    ensures Bundle.Stored(FilesOf(entries, fates)) <==> PathsStorable(FilesOf(entries, fates))
    ensures PathsStorable(FilesOf(entries, fates)) ==> Bundle.Decodable(Map(Bundle.Entry, FilesOf(entries, fates)))
  {
    hide FilesOf, FileFor, IsBinary, Paths.CleanPath, Bundle.DecodedContent, Bundle.Canonical, Bundle.Entry, Count, TakenAt, Map;
    var files := FilesOf(entries, fates);
    FilesCounted(entries, fates);
    var stored := Map(Bundle.Entry, files);
    forall k | 0 <= k < |files|
      ensures Bundle.Canonical(files[k]).Ok? <==> Paths.CleanPath(files[k].path).Ok?
      ensures Paths.CleanPath(files[k].path).Ok? ==> Paths.CleanPath(files[k].path) == Ok(Bundle.PathOf(stored[k]))
      ensures Bundle.DecodedContent(stored[k]).Ok?
    {
      FileIsTaken(entries, fates, k);
      var i := TakenAt(fates, k);
      FileRoundTrips(entries[i].path, fates[i].raw);
      FileKeepsPath(entries[i].path, fates[i].raw);
      assert stored[k] == Bundle.Entry(files[k]);
    }
  }

  lemma {:induction false} FileKeepsPath(path: string, raw: Bytes)
    ensures FileFor(path, raw).path == path
    ensures Paths.CleanPath(path).Ok? ==> Paths.CleanPath(path) == Ok(Bundle.PathOf(Bundle.Entry(FileFor(path, raw))))
  {
    hide IsBinary, Paths.CleanPath;
  }

  lemma {:induction false} JustifiedFitsBundle(tree: seq<TreeBlob>, blobs: map<string, Bytes>, b: Input, fates: seq<Fate>)
    requires WithinStore(b) && |fates| == |tree|
    requires Justified(SortBy(BlobPath, tree), blobs, b, fates)
    ensures var files := FilesOf(SortBy(BlobPath, tree), fates);
      && |files| == Count(fates)
      && (Bundle.Acceptable(files) <==> files != [] && PathsStorable(files))
      && (PathsStorable(files) ==> Bundle.BundleOf(files).size == Total(fates))
      && forall k | 0 <= k < |files| && Paths.CleanPath(files[k].path).Ok? ::
           Bundle.DataOf(Bundle.Entry(files[k])) == fates[TakenAt(fates, k)].raw
  {
    hide FilesOf, FileFor, IsBinary, Paths.CleanPath, Bundle.DecodedContent, Bundle.Canonical, Bundle.Entry, Bundle.DataOf,
      Bundle.SizeOf, Bundle.Stored, Bundle.Decodable, Justified, Count, Total, TakenAt, Map, Sum, SortBy, PathsStorable;
    var entries := SortBy(BlobPath, tree);
    var files := FilesOf(entries, fates);
    CapsFitStore(entries, blobs, b, fates);
    FilesCounted(entries, fates);
    StorableIsStored(entries, fates);
    if PathsStorable(files) {
      StorableTotal(entries, fates);
      Bundle.SortedParts(files);
    }
    forall k | 0 <= k < |files| && Paths.CleanPath(files[k].path).Ok?
      ensures Bundle.DataOf(Bundle.Entry(files[k])) == fates[TakenAt(fates, k)].raw
    {
      FileIsTaken(entries, fates, k);
      var i := TakenAt(fates, k);
      FileKeepsPath(entries[i].path, fates[i].raw);
      TakenSize(entries[i].path, fates[i].raw);
    }
  }

  /**
   * Under bounds within the store's own, as the controller's are, the bundle store refuses a checkout only for
   * being empty or for its paths: never for a size, a count or a content. What it stores has the size
   * that the checkout counted, and each stored file decodes to the exact bytes of its blob.
   */
  lemma {:induction false} CheckoutFitsBundle(tree: seq<TreeBlob>, blobs: map<string, Bytes>, input: Input)
    requires WithinStore(Bounds(input))
    ensures var entries := SortBy(BlobPath, tree);
      var fates := Fates(entries, blobs, Bounds(input));
      var files := FilesOf(entries, fates);
      && |files| == Count(fates)
      && (Bundle.Acceptable(files) <==> files != [] && PathsStorable(files))
      && (PathsStorable(files) ==> Bundle.BundleOf(files).size == Total(fates))
      && forall k | 0 <= k < |files| && Paths.CleanPath(files[k].path).Ok? ::
           Bundle.DataOf(Bundle.Entry(files[k])) == fates[TakenAt(fates, k)].raw
  {
    hide *;
    var entries := SortBy(BlobPath, tree);
    FatesJustified(entries, blobs, Bounds(input));
    JustifiedFitsBundle(tree, blobs, Bounds(input), Fates(entries, blobs, Bounds(input)));
  }

  /** The bundle counts what the checkout counted. */
  lemma {:induction false} StorableTotal(entries: seq<TreeBlob>, fates: seq<Fate>)
    requires |entries| == |fates| && TakenFits(fates) && PathsStorable(FilesOf(entries, fates))
    ensures Sum(Map(Bundle.SizeOf, Map(Bundle.Entry, FilesOf(entries, fates)))) == Total(fates)
  {
    hide FileFor, IsBinary, Paths.CleanPath, Bundle.Entry, Bundle.SizeOf, Map, Sum;
    if fates == [] {
      SumOfNone();
    } else {
      var n := |fates| - 1;
      var before := FilesOf(entries[..n], fates[..n]);
      var files := FilesOf(entries, fates);
      assert forall k | 0 <= k < |before| :: files[k] == before[k];
      StorableTotal(entries[..n], fates[..n]);
      if fates[n].Taken? {
        var f := FileFor(entries[n].path, fates[n].raw);
        assert files == before + [f] && files[|before|] == f;
        FileKeepsPath(entries[n].path, fates[n].raw);
        TakenSize(entries[n].path, fates[n].raw);
        MapAppend(Bundle.Entry, before, f);
        MapAppend(Bundle.SizeOf, Map(Bundle.Entry, before), Bundle.Entry(f));
        SumAppend(Map(Bundle.SizeOf, Map(Bundle.Entry, before)), Bundle.SizeOf(Bundle.Entry(f)));
      } else {
        assert files == before;
      }
    }
  }
}
