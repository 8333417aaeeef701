/** How a list of files becomes one canonical, content-addressed bundle. */
module Bundle {
  import opened Prelude
  import opened Strings
  import opened Ordering
  import opened Sequences
  import opened Paths
  import opened DigestFraming
  import Base64

  const MAX_FILES: nat := 500
  const MAX_FILE_BYTES: nat := 2 * 1024 * 1024
  const MAX_BINARY_FILE_BYTES: nat := 25 * 1024 * 1024

  /** One file of a request; `encoding` is as the caller wrote it. */
  datatype File = File(path: string, content: string, encoding: string, delete: bool)

  datatype BundleFile = BundleFile(path: string, content: string, encoding: string, size: nat,
                                   digest: Option<Digest>, delete: bool)

  /** The name of a bundle is cut from its digest; names are taken to differ when digests do. */
  datatype BundleName = BundleName(of: Digest)

  datatype Bundle = Bundle(name: BundleName, digest: Digest, size: nat, files: seq<BundleFile>)

  function PathOf(f: BundleFile): string { f.path }

  function FramedPath(f: Framed): string { f.path }

  function NormalizeEncoding(encoding: string): Result<string> {
    if encoding == "" || encoding == "utf-8" then Ok("")
    else if encoding == "base64" then Ok("base64")
    else Err("unsupported encoding")
  }

  /** The bytes of a file, within the cap of its class. */
  function DecodedContent(f: BundleFile): Result<string> {
    if f.encoding != "base64" then
      if |f.content| > MAX_FILE_BYTES then Err("file is too large") else Ok(f.content)
    else if |f.content| > Base64.EncodedLength(MAX_BINARY_FILE_BYTES) then Err("file is too large")
    else
      var data := Base64.Decode(f.content);
      if data.None? then Err("file has invalid base64 content")
      else if |data.value| > MAX_BINARY_FILE_BYTES then Err("file is too large")
      else Ok(data.value)
  }

  /** The length test before decoding costs no valid payload, and one string only decodes to given bytes. */
  lemma {:induction false} DecodedContentIsExact(f: BundleFile, data: string)
    ensures DecodedContent(f) == Ok(data) <==>
      if f.encoding == "base64" then IsBytes(data) && f.content == Base64.Encode(data) && |data| <= MAX_BINARY_FILE_BYTES
      else f.content == data && |data| <= MAX_FILE_BYTES
  {
    if f.encoding == "base64" {
      Base64.DecodeIsInverse(f.content, data);
      if Base64.Decode(f.content) == Some(data) && |data| <= MAX_BINARY_FILE_BYTES {
        Base64.LengthTestIsSafe(f.content, MAX_BINARY_FILE_BYTES);
      }
    }
  }

  // What a bundle is, without regard to the order of the request.

  /** A file under its cleaned path, before its content is looked at. */
  function Canonical(f: File): Result<BundleFile> {
    var path := CleanPath(f.path);
    var encoding := NormalizeEncoding(f.encoding);
    if path.Err? then Err(path.error)
    else if encoding.Err? then Err(encoding.error)
    else if f.delete && f.content != "" then Err("deleted file cannot include content")
    else Ok(BundleFile(path.value, f.content, if f.delete then "" else encoding.value, 0, None, f.delete))
  }

  /** Which files a bundle takes, before their content is decoded, and what is kept of them. */
  lemma {:induction false} CanonicalExactly(f: File)
    ensures Canonical(f).Ok? <==>
      CleanPath(f.path).Ok? && f.encoding in {"", "utf-8", "base64"} && (f.delete ==> f.content == "")
    ensures Canonical(f).Ok? ==>
      var e := Canonical(f).value;
      && Ok(e.path) == CleanPath(f.path) && e.content == f.content && e.delete == f.delete
      && (e.encoding == "base64" <==> f.encoding == "base64" && !f.delete) && e.encoding in {"", "base64"}
  {
    hide CleanPath;
  }

  /** The canonical form of a readable file, with any other file mapped to itself. */
  function Entry(f: File): BundleFile {
    if Canonical(f).Ok? then Canonical(f).value else BundleFile(f.path, f.content, f.encoding, 0, None, f.delete)
  }

  function DataOf(f: BundleFile): string {
    if DecodedContent(f).Ok? then DecodedContent(f).value else ""
  }

  function SizeOf(f: BundleFile): nat {
    |DataOf(f)|
  }

  function FramedOf(f: BundleFile): Framed {
    Framed(f.path, f.delete, DataOf(f))
  }

  function Finish(f: BundleFile): BundleFile {
    f.(size := SizeOf(f), digest := if f.delete then None else Some(Sha256(DataOf(f))))
  }

  /** Every file has a clean path of its own, a known encoding, and no content if it is a deletion. */
  ghost predicate Stored(files: seq<File>) {
    && (forall k | 0 <= k < |files| :: Canonical(files[k]).Ok?)
    && DistinctBy(PathOf, Map(Entry, files))
  }

  ghost predicate Decodable(entries: seq<BundleFile>) {
    forall k | 0 <= k < |entries| :: DecodedContent(entries[k]).Ok?
  }

  ghost predicate Acceptable(files: seq<File>) {
    && 0 < |files| <= MAX_FILES
    && Stored(files)
    && Decodable(Map(Entry, files))
    && Sum(Map(SizeOf, Map(Entry, files))) <= MAX_TOTAL_BYTES
  }

  predicate HasDelete(files: seq<BundleFile>) {
    exists k | 0 <= k < |files| :: files[k].delete
  }

  function BundleOf(files: seq<File>): Bundle {
    var entries := SortBy(PathOf, Map(Entry, files));
    var digest := Sha256(Frame(Map(FramedOf, entries), HasDelete(entries)));
    Bundle(BundleName(digest), digest, Sum(Map(SizeOf, entries)), Map(Finish, entries))
  }

  // How it is built.

  ghost function PathSet(files: seq<BundleFile>): set<string> {
    set k | 0 <= k < |files| :: files[k].path
  }

  lemma {:induction false} DistinctBase()
    ensures DistinctBy(PathOf, []) && !HasDelete([]) && PathSet([]) == {}
  {
  }

  lemma {:induction false} DistinctAppend(files: seq<BundleFile>, next: BundleFile)
    ensures DistinctBy(PathOf, files + [next]) <==>
      DistinctBy(PathOf, files) && next.path !in PathSet(files)
    ensures PathSet(files + [next]) == PathSet(files) + {next.path}
    ensures HasDelete(files + [next]) <==> HasDelete(files) || next.delete
  {
    var longer := files + [next];
    assert longer[|files|] == next;
    assert forall k | 0 <= k < |files| :: longer[k] == files[k] && PathOf(files[k]) == files[k].path;
    forall p | p in PathSet(files) + {next.path} ensures p in PathSet(longer) {
      if p in PathSet(files) {
        var k :| 0 <= k < |files| && files[k].path == p;
        assert longer[k].path == p;
      } else {
        assert longer[|files|].path == p;
      }
    }
  }

  lemma {:induction false} EntryPathOf(f: File)
    requires CleanPath(f.path).Ok?
    ensures Canonical(f).Ok? ==> Entry(f) == Canonical(f).value && Entry(f).path == CleanPath(f.path).value
  {
  }

  lemma {:induction false} NotStored(files: seq<File>, i: nat)
    requires i < |files| && Canonical(files[i]).Err?
    ensures !Stored(files)
  {
  }

  lemma {:induction false} AllStored(files: seq<File>)
    requires forall k | 0 <= k < |files| :: Canonical(files[k]).Ok?
    requires DistinctBy(PathOf, Map(Entry, files))
    ensures Stored(files)
  {
  }

  lemma {:induction false} TwiceStored(files: seq<File>, i: nat)
    requires i < |files| && CleanPath(files[i].path).Ok? && CleanPath(files[i].path).value in PathSet(Map(Entry, files)[..i])
    ensures !Stored(files)
  {
    hide Canonical, CleanPath;
    var all := Map(Entry, files);
    var j :| 0 <= j < i && all[..i][j].path == CleanPath(files[i].path).value;
    assert PathOf(all[j]) == all[j].path && PathOf(all[i]) == all[i].path;
    if Stored(files) {
      EntryPathOf(files[i]);
    }
  }

  /** First pass: clean paths, refuse duplicates, normalise encodings. */
  method CanonicalFiles(files: seq<File>) returns (r: Result<seq<BundleFile>>, hasDelete: bool)
    ensures r.Ok? <==> Stored(files)
    ensures r.Ok? ==> r.value == Map(Entry, files) && hasDelete == HasDelete(r.value)
  {
    hide CleanPath, HasDelete, DistinctBy, Entry, PathSet, Stored, Map;
    DistinctBase();
    var seen: set<string> := {};
    var bundleFiles: seq<BundleFile> := [];
    hasDelete := false;
    ghost var all := Map(Entry, files);
    for i := 0 to |files|
      invariant forall k | 0 <= k < i :: Canonical(files[k]).Ok?
      invariant bundleFiles == all[..i]
      invariant seen == PathSet(bundleFiles)
      invariant DistinctBy(PathOf, bundleFiles)
      invariant hasDelete == HasDelete(bundleFiles)
    {
      var f := files[i];
      var path := CleanPath(f.path);
      if path.Err? {
        NotStored(files, i);
        return Err(path.error), hasDelete;
      }
      if path.value in seen {
        TwiceStored(files, i);
        return Err("conflicting commit operation"), hasDelete;
      }
      seen := seen + {path.value};
      var encoding := NormalizeEncoding(f.encoding);
      if encoding.Err? {
        NotStored(files, i);
        return Err(encoding.error), hasDelete;
      }
      var kept := encoding.value;
      if f.delete {
        if f.content != "" {
          NotStored(files, i);
          return Err("deleted file cannot include content"), hasDelete;
        }
        kept := "";
        hasDelete := true;
      }
      var next := BundleFile(path.value, f.content, kept, 0, None, f.delete);
      EntryPathOf(f);
      assert next == all[i];
      DistinctAppend(bundleFiles, next);
      bundleFiles := bundleFiles + [next];
      assert bundleFiles == all[..i + 1];
    }
    assert bundleFiles == all;
    AllStored(files);
    r := Ok(bundleFiles);
  }

  ghost function TotalTo(entries: seq<BundleFile>, i: nat): nat
    requires i <= |entries|
  {
    Sum(Map(SizeOf, entries)[..i])
  }

  ghost function FrameTo(entries: seq<BundleFile>, i: nat, hasDelete: bool): string
    requires i <= |entries|
  {
    Frame(Map(FramedOf, entries)[..i], hasDelete)
  }

  lemma {:induction false} Ends(entries: seq<BundleFile>, hasDelete: bool)
    ensures TotalTo(entries, 0) == 0 && FrameTo(entries, 0, hasDelete) == ""
    ensures TotalTo(entries, |entries|) == Sum(Map(SizeOf, entries))
    ensures FrameTo(entries, |entries|, hasDelete) == Frame(Map(FramedOf, entries), hasDelete)
  {
    hide DataOf, FrameFile;
    var sizes, framed := Map(SizeOf, entries), Map(FramedOf, entries);
    assert sizes[..|entries|] == sizes && framed[..|entries|] == framed;
  }

  lemma {:induction false} StepTotal(entries: seq<BundleFile>, i: nat)
    requires i < |entries|
    ensures TotalTo(entries, i + 1) == TotalTo(entries, i) + SizeOf(entries[i]) <= Sum(Map(SizeOf, entries))
  {
    hide SizeOf, Map, Sum;
    var sizes := Map(SizeOf, entries);
    SumAppend(sizes[..i], sizes[i]);
    SumPrefix(sizes, i + 1);
    assert sizes[..i + 1] == sizes[..i] + [sizes[i]];
  }

  lemma {:induction false} StepFrame(entries: seq<BundleFile>, i: nat, hasDelete: bool)
    requires i < |entries|
    ensures FrameTo(entries, i + 1, hasDelete) == FrameTo(entries, i, hasDelete) + FrameFile(FramedOf(entries[i]), hasDelete)
  {
    hide FramedOf, Map, Frame, FrameFile;
    var framed := Map(FramedOf, entries);
    FrameAppend(framed[..i], framed[i], hasDelete);
    assert framed[..i + 1] == framed[..i] + [framed[i]];
  }

  lemma {:induction false} Step(entries: seq<BundleFile>, i: nat, hasDelete: bool)
    requires i < |entries| && DecodedContent(entries[i]).Ok?
    ensures var data := DecodedContent(entries[i]).value;
      && TotalTo(entries, i + 1) == TotalTo(entries, i) + |data| <= Sum(Map(SizeOf, entries))
      && FrameTo(entries, i + 1, hasDelete)
         == FrameTo(entries, i, hasDelete) + FrameFile(Framed(entries[i].path, entries[i].delete, data), hasDelete)
      && Finish(entries[i]) == entries[i].(size := |data|, digest := if entries[i].delete then None else Some(Sha256(data)))
  {
    hide DecodedContent, TotalTo, FrameTo, FrameFile, Map, Sum;
    StepTotal(entries, i);
    StepFrame(entries, i, hasDelete);
  }

  /** Second pass, in path order: decode, count, hash. */
  method FinishFiles(entries: seq<BundleFile>, hasDelete: bool) returns (r: Result<Bundle>)
    ensures r.Ok? <==> Decodable(entries) && Sum(Map(SizeOf, entries)) <= MAX_TOTAL_BYTES
    ensures r.Ok? ==>
      var digest := Sha256(Frame(Map(FramedOf, entries), hasDelete));
      r.value == Bundle(BundleName(digest), digest, Sum(Map(SizeOf, entries)), Map(Finish, entries))
  {
    hide DecodedContent, FrameFile, TotalTo, FrameTo, Finish, Frame, Sum, Map, SizeOf, FramedOf;
    var digester := new BundleDigester(hasDelete);
    var files := entries;
    var total := 0;
    Ends(entries, hasDelete);
    for i := 0 to |files|
      invariant |files| == |entries|
      invariant forall k | 0 <= k < i :: files[k] == Finish(entries[k])
      invariant forall k | i <= k < |files| :: files[k] == entries[k]
      invariant forall k | 0 <= k < i :: DecodedContent(entries[k]).Ok?
      invariant total == TotalTo(entries, i) <= MAX_TOTAL_BYTES
      invariant digester.written == FrameTo(entries, i, hasDelete)
    {
      var f := files[i];
      var data := DecodedContent(f);
      if data.Err? {
        return Err(data.error);
      }
      Step(entries, i, hasDelete);
      total := total + |data.value|;
      if total > MAX_TOTAL_BYTES {
        return Err("bundle is too large");
      }
      files := files[i := f.(size := |data.value|, digest := if f.delete then None else Some(Sha256(data.value)))];
      digester.Add(f.path, f.delete, data.value);
    }
    assert files == Map(Finish, entries);
    var digest := digester.Sum();
    r := Ok(Bundle(BundleName(digest), digest, total, files));
  }

  /** buildBundle: it accepts exactly the acceptable lists, and gives their bundle. */
  method BuildBundle(files: seq<File>) returns (r: Result<Bundle>)
    ensures r.Ok? <==> Acceptable(files)
    ensures r.Ok? ==> r.value == BundleOf(files)
  {
    if |files| == 0 {
      return Err("at least one file is required");
    }
    if |files| > MAX_FILES {
      return Err("too many files");
    }
    var canonical, hasDelete := CanonicalFiles(files);
    if canonical.Err? {
      return Err(canonical.error);
    }
    var entries := SortBy(PathOf, canonical.value);
    SortedParts(files);
    r := FinishFiles(entries, hasDelete);
  }

  /** Reordering entries changes neither the deletions, nor the total, nor what can be decoded. */
  lemma {:induction false} SameParts(a: seq<BundleFile>, b: seq<BundleFile>)
    requires multiset(a) == multiset(b)
    ensures HasDelete(a) ==> HasDelete(b)
    ensures Sum(Map(SizeOf, a)) == Sum(Map(SizeOf, b))
    ensures Decodable(a) ==> Decodable(b)
  {
    hide DecodedContent, SizeOf, Sum;
    MapMultiset(SizeOf, a, b);
    SumPermuted(Map(SizeOf, a), Map(SizeOf, b));
    if HasDelete(a) {
      var k :| 0 <= k < |a| && a[k].delete;
      assert a[k] in multiset(b);
    }
    if Decodable(a) {
      forall k | 0 <= k < |b| ensures DecodedContent(b[k]).Ok? {
        assert b[k] in multiset(a);
      }
    }
  }

  lemma {:induction false} SortedParts(files: seq<File>)
    ensures var all, entries := Map(Entry, files), SortBy(PathOf, Map(Entry, files));
      && multiset(entries) == multiset(all)
      && HasDelete(entries) == HasDelete(all)
      && Sum(Map(SizeOf, entries)) == Sum(Map(SizeOf, all))
      && (Decodable(entries) <==> Decodable(all))
  {
    hide HasDelete, Sum, Decodable, Entry;
    var all, entries := Map(Entry, files), SortBy(PathOf, Map(Entry, files));
    SortByMultiset(PathOf, all);
    SameParts(entries, all);
    SameParts(all, entries);
  }

  // What the canonical form is for.

  lemma {:induction false} AcceptablePermuted(a: seq<File>, b: seq<File>)
    requires multiset(a) == multiset(b) && Acceptable(a)
    ensures Acceptable(b)
  {
    assert |multiset(a)| == |a| && |multiset(b)| == |b|;
    hide Canonical, DecodedContent;
    forall k | 0 <= k < |b| ensures Canonical(b[k]).Ok? {
      assert b[k] in multiset(a);
    }
    MapMultiset(Entry, a, b);
    var ea, eb := Map(Entry, a), Map(Entry, b);
    forall k | 0 <= k < |eb| ensures DecodedContent(eb[k]).Ok? {
      assert eb[k] in multiset(ea);
    }
    DistinctPermuted(PathOf, Map(Entry, a), Map(Entry, b));
    MapMultiset(SizeOf, Map(Entry, a), Map(Entry, b));
    SumPermuted(Map(SizeOf, Map(Entry, a)), Map(SizeOf, Map(Entry, b)));
  }

  /** The order of the request does not matter: same verdict, same bundle. */
  lemma {:induction false} BundlePermuted(a: seq<File>, b: seq<File>)
    requires multiset(a) == multiset(b)
    ensures Acceptable(a) <==> Acceptable(b)
    ensures Acceptable(a) ==> BundleOf(a) == BundleOf(b)
  {
    if Acceptable(b) {
      AcceptablePermuted(b, a);
    }
    if Acceptable(a) {
      AcceptablePermuted(a, b);
      MapMultiset(Entry, a, b);
      SortByCanonical(PathOf, Map(Entry, a), Map(Entry, b));
    }
  }

  ghost predicate PlainPath(path: string) {
    && path != "" && path[0] != '/' && '\0' !in path && |path| <= MAX_PATH_LENGTH
    && forall k | 0 <= k < |Split(path, '/')| :: Plain(Split(path, '/')[k])
  }

  lemma {:induction false} EntryPath(f: File)
    requires Canonical(f).Ok?
    ensures PlainPath(Entry(f).path)
  {
    StoredPathIsPlain(f.path, Entry(f).path);
  }

  lemma {:induction false} EntryPaths(files: seq<File>, entries: seq<BundleFile>)
    requires Stored(files) && multiset(entries) == multiset(Map(Entry, files))
    ensures forall k | 0 <= k < |entries| :: PlainPath(entries[k].path)
  {
    hide Canonical, PlainPath;
    var all := Map(Entry, files);
    forall k | 0 <= k < |entries| ensures PlainPath(entries[k].path) {
      assert entries[k] in multiset(all);
      var j :| 0 <= j < |files| && all[j] == entries[k];
      EntryPath(files[j]);
    }
  }

  /** Stored paths increase strictly, are relative and hold plain components only. */
  lemma {:induction false} BundlePaths(files: seq<File>)
    requires Acceptable(files)
    ensures IncreasingBy(PathOf, BundleOf(files).files)
    ensures forall k | 0 <= k < |BundleOf(files).files| :: PlainPath(BundleOf(files).files[k].path)
  {
    hide Canonical, DecodedContent, PlainPath, Frame, Sum, SortBy;
    var all := Map(Entry, files);
    SortByCanonical(PathOf, all, all);
    SortByMultiset(PathOf, all);
    EntryPaths(files, SortBy(PathOf, all));
  }

  /** What a request asks for, whatever the spelling: the files framed in path order. */
  function Contents(files: seq<File>): seq<Framed> {
    SortBy(FramedPath, Map(FramedOf, Map(Entry, files)))
  }

  lemma {:induction false} DigestOfContents(files: seq<File>)
    ensures BundleOf(files).digest == Sha256(Frame(Contents(files), exists k | 0 <= k < |Contents(files)| :: Contents(files)[k].deleted))
    ensures Map(FramedOf, SortBy(PathOf, Map(Entry, files))) == Contents(files)
  {
    hide Frame, Sum, DataOf, Entry;
    var entries := SortBy(PathOf, Map(Entry, files));
    SortByMap(PathOf, FramedOf, FramedPath, Map(Entry, files));
    var framed := Map(FramedOf, entries);
    assert forall k | 0 <= k < |framed| :: framed[k].deleted == entries[k].delete;
  }

  lemma {:induction false} SameFramed(f: File, g: File)
    requires Canonical(f).Ok? && Canonical(g).Ok?
    requires CleanPath(f.path) == CleanPath(g.path) && f.delete == g.delete && DataOf(Entry(f)) == DataOf(Entry(g))
    ensures FramedOf(Entry(f)) == FramedOf(Entry(g)) && SizeOf(Entry(f)) == SizeOf(Entry(g))
  {
    hide CleanPath, DataOf;
  }

  /** Sending the same bytes as text or as base64 gives the same digest, name and size. */
  lemma {:induction false} EncodingDoesNotMatter(a: seq<File>, b: seq<File>)
    requires Acceptable(a) && Acceptable(b) && |a| == |b|
    requires forall k | 0 <= k < |a| ::
      CleanPath(a[k].path) == CleanPath(b[k].path) && a[k].delete == b[k].delete && DataOf(Entry(a[k])) == DataOf(Entry(b[k]))
    ensures BundleOf(a).digest == BundleOf(b).digest && BundleOf(a).name == BundleOf(b).name
    ensures BundleOf(a).size == BundleOf(b).size
  {
    hide CleanPath, Canonical, Entry, DataOf, FramedOf, Frame, SortBy, Sum, Decodable, DistinctBy;
    var ea, eb := Map(Entry, a), Map(Entry, b);
    forall k | 0 <= k < |a| ensures FramedOf(ea[k]) == FramedOf(eb[k]) && SizeOf(ea[k]) == SizeOf(eb[k]) {
      SameFramed(a[k], b[k]);
    }
    assert Map(FramedOf, ea) == Map(FramedOf, eb) && Map(SizeOf, ea) == Map(SizeOf, eb);
    DigestOfContents(a);
    DigestOfContents(b);
    SortedParts(a);
    SortedParts(b);
  }

  lemma {:induction false} SumBounds(sizes: seq<nat>, k: nat)
    requires k < |sizes|
    ensures sizes[k] <= Sum(sizes)
  {
    if k > 0 {
      SumBounds(sizes[1..], k - 1);
    }
  }

  /** The contents of an acceptable request meet what the framing theorems ask for. */
  lemma {:induction false} ContentsFit(files: seq<File>)
    requires Acceptable(files)
    ensures NulFreePaths(Contents(files)) && Sized(Contents(files)) && Contents(files) != []
  {
    DigestOfContents(files);
    SortedParts(files);
    BundlePaths(files);
    var entries := SortBy(PathOf, Map(Entry, files));
    var stored := BundleOf(files).files;
    SortByMultiset(PathOf, Map(Entry, files));
    forall k | 0 <= k < |entries|
      ensures '\0' !in Contents(files)[k].path && Contents(files)[k].path != "" && |Contents(files)[k].data| <= MAX_TOTAL_BYTES
    {
      assert PlainPath(stored[k].path) && stored[k].path == entries[k].path;
      SumBounds(Map(SizeOf, entries), k);
    }
  }

  /** The digest of such contents is a faithful name for them. */
  ghost predicate Faithful(contents: seq<Framed>) {
    (exists k | 0 <= k < |contents| :: contents[k].deleted) || NulFreeData(contents)
  }

  /** Equal digests mean equal paths, operations and bytes, for faithful contents. */
  lemma {:induction false} DigestDeterminesContents(a: seq<File>, b: seq<File>)
    requires Acceptable(a) && Acceptable(b) && BundleOf(a).digest == BundleOf(b).digest
    requires Faithful(Contents(a)) && Faithful(Contents(b))
    ensures Contents(a) == Contents(b)
  {
    ContentsFit(a);
    ContentsFit(b);
    DigestOfContents(a);
    DigestOfContents(b);
    var ca, cb := Contents(a), Contents(b);
    var da, db := exists k | 0 <= k < |ca| :: ca[k].deleted, exists k | 0 <= k < |cb| :: cb[k].deleted;
    if da && db {
      DeletionFrameInjective(ca, cb);
    } else if !da && !db {
      UpsertFrameInjective(ca, cb);
    } else if db {
      FramingsNeverMeet(ca, cb);
    } else {
      FramingsNeverMeet(cb, ca);
    }
  }
}
