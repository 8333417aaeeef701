/**
 * Which acceptable upsert-only bundles share their digest with another one. The hashed bytes are the
 * paths and contents, each ended by a zero byte; another bundle reads the same bytes by cutting them
 * at other places, and has to keep the store's caps.
 */
module DigestSharing {
  import opened Prelude
  import opened Strings
  import opened Ordering
  import opened Sequences
  import opened Paths
  import opened DigestFraming
  import opened Bundle
  import Base64

  // Bytes as pieces between zero bytes.

  /** Every piece with a zero byte after it. */
  function Ended(pieces: seq<string>): string {
    if pieces == [] then "" else pieces[0] + ['\0'] + Ended(pieces[1..])
  }

  ghost predicate NulFree(pieces: seq<string>) {
    forall k | 0 <= k < |pieces| :: '\0' !in pieces[k]
  }

  lemma {:induction false} EndedInjective(a: seq<string>, b: seq<string>)
    requires NulFree(a) && NulFree(b) && Ended(a) == Ended(b)
    ensures a == b
  {
    if a != [] && b != [] {
      FirstNul(a[0], b[0], Ended(a[1..]), Ended(b[1..]));
      EndedInjective(a[1..], b[1..]);
      assert a == [a[0]] + a[1..] && b == [b[0]] + b[1..];
    }
  }

  lemma {:induction false} EndedConcat(a: seq<string>, b: seq<string>)
    ensures Ended(a + b) == Ended(a) + Ended(b)
  {
    if a == [] {
      assert a + b == b;
    } else {
      EndedConcat(a[1..], b);
      assert (a + b)[1..] == a[1..] + b;
      Assoc(a[0] + ['\0'], Ended(a[1..]), Ended(b));
    }
  }

  lemma {:induction false} EndedJoin(pieces: seq<string>)
    requires pieces != []
    ensures Ended(pieces) == Join(pieces, '\0') + ['\0']
  {
    if |pieces| > 1 {
      EndedJoin(pieces[1..]);
      Assoc(pieces[0] + ['\0'], Join(pieces[1..], '\0'), ['\0']);
    } else {
      assert Ended(pieces[1..]) == "";
      assert pieces[0] + ['\0'] + "" == pieces[0] + ['\0'];
    }
  }

  // Files as groups of pieces: the path, then the content cut at its zero bytes.

  function GroupOf(f: Framed): seq<string> {
    [f.path] + Split(f.data, '\0')
  }

  function FileOf(group: seq<string>): Framed
    requires |group| >= 2
  {
    Framed(group[0], false, Join(group[1..], '\0'))
  }

  function Flat(groups: seq<seq<string>>): seq<string> {
    if groups == [] then [] else groups[0] + Flat(groups[1..])
  }

  ghost predicate Grouped(groups: seq<seq<string>>) {
    forall k | 0 <= k < |groups| :: |groups[k]| >= 2
  }

  function FilesOf(groups: seq<seq<string>>): seq<Framed>
    requires Grouped(groups)
  {
    if groups == [] then [] else [FileOf(groups[0])] + FilesOf(groups[1..])
  }

  function GroupsOf(files: seq<Framed>): seq<seq<string>> {
    if files == [] then [] else [GroupOf(files[0])] + GroupsOf(files[1..])
  }

  /** The hashed bytes of upserts are their pieces. */
  lemma {:induction false} FrameOfFile(group: seq<string>)
    requires |group| >= 2
    ensures FrameFile(FileOf(group), false) == Ended(group)
  {
    PlainFile(FileOf(group));
    EndedJoin(group[1..]);
  }

  lemma {:induction false} FrameOfGroups(groups: seq<seq<string>>)
    requires Grouped(groups)
    ensures Frame(FilesOf(groups), false) == Ended(Flat(groups))
  {
    hide FileOf, FrameFile;
    if groups != [] {
      FrameOfFile(groups[0]);
      FrameOfGroups(groups[1..]);
      EndedConcat(groups[0], Flat(groups[1..]));
      assert FilesOf(groups)[1..] == FilesOf(groups[1..]);
    }
  }

  lemma {:induction false} FileOfGroup(f: Framed)
    requires !f.deleted
    ensures |GroupOf(f)| >= 2 && FileOf(GroupOf(f)) == f
  {
    SplitThenJoin(f.data, '\0');
    assert GroupOf(f)[1..] == Split(f.data, '\0');
  }

  lemma {:induction false} GroupsStep(files: seq<Framed>)
    requires files != [] && Upserts(files)
    ensures GroupsOf(files) == [GroupOf(files[0])] + GroupsOf(files[1..])
    ensures !files[0].deleted && Upserts(files[1..]) && files == [files[0]] + files[1..]
  {
  }

  lemma {:induction false} FilesStep(group: seq<string>, groups: seq<seq<string>>)
    requires |group| >= 2 && Grouped(groups)
    ensures Grouped([group] + groups) && FilesOf([group] + groups) == [FileOf(group)] + FilesOf(groups)
  {
    hide FileOf;
    assert ([group] + groups)[1..] == groups;
  }

  lemma {:induction false} FilesOfGroups(files: seq<Framed>)
    requires Upserts(files)
    ensures Grouped(GroupsOf(files)) && FilesOf(GroupsOf(files)) == files
  {
    if files != [] {
      GroupsStep(files);
      hide GroupOf, FileOf, GroupsOf, FilesOf;
      FileOfGroup(files[0]);
      FilesOfGroups(files[1..]);
      FilesStep(GroupOf(files[0]), GroupsOf(files[1..]));
    }
  }

  lemma {:induction false} GroupNulFree(f: Framed, k: nat)
    requires '\0' !in f.path && k < |GroupOf(f)|
    ensures '\0' !in GroupOf(f)[k]
  {
    if k > 0 {
      SplitParts(f.data, '\0', k - 1);
    }
  }

  lemma {:induction false} FlatNulFree(files: seq<Framed>)
    requires NulFreePaths(files)
    ensures NulFree(Flat(GroupsOf(files)))
  {
    if files != [] {
      FlatNulFree(files[1..]);
      forall k | 0 <= k < |GroupOf(files[0])| ensures '\0' !in GroupOf(files[0])[k] {
        GroupNulFree(files[0], k);
      }
    }
  }

  /** The pieces of a list of upserts: path and content in turn, when no content has a zero byte. */
  function Pieces(files: seq<Framed>): seq<string> {
    Flat(GroupsOf(files))
  }

  /** Two lists of upserts have the same hashed bytes exactly when they have the same pieces. */
  lemma {:induction false} SamePieces(a: seq<Framed>, b: seq<Framed>)
    requires Upserts(a) && Upserts(b) && NulFreePaths(a) && NulFreePaths(b)
    ensures Frame(a, false) == Frame(b, false) <==> Pieces(a) == Pieces(b)
  {
    FilesOfGroups(a);
    FilesOfGroups(b);
    FrameOfGroups(GroupsOf(a));
    FrameOfGroups(GroupsOf(b));
    if Frame(a, false) == Frame(b, false) {
      FlatNulFree(a);
      FlatNulFree(b);
      EndedInjective(Pieces(a), Pieces(b));
    }
  }

  // What a list of upserts needs to be the contents of an acceptable request.

  ghost predicate StoredPath(path: string) {
    exists raw :: CleanPath(raw) == Ok(path)
  }

  function DataSize(f: Framed): nat { |f.data| }

  function Total(files: seq<Framed>): nat {
    Sum(Map(DataSize, files))
  }

  ghost predicate Storable(files: seq<Framed>) {
    && 0 < |files| <= MAX_FILES
    && Upserts(files)
    && IncreasingBy(FramedPath, files)
    && (forall k | 0 <= k < |files| :: StoredPath(files[k].path) && |files[k].data| <= MAX_BINARY_FILE_BYTES)
    && Total(files) <= MAX_TOTAL_BYTES
  }

  /** Paths and contents are made of bytes, as every Go string is. */
  ghost predicate Written(files: seq<Framed>) {
    forall k | 0 <= k < |files| :: IsBytes(files[k].path) && IsBytes(files[k].data)
  }

  lemma {:induction false} BytesConcat(a: string, b: string)
    ensures IsBytes(a + b) <==> IsBytes(a) && IsBytes(b)
  {
    assert forall i | 0 <= i < |a| :: (a + b)[i] == a[i];
    assert forall i | 0 <= i < |b| :: (a + b)[|a| + i] == b[i];
  }

  lemma {:induction false} BytesEmpty()
    ensures IsBytes("")
  {
  }

  lemma {:induction false} FileBytes(f: Framed)
    ensures IsBytes(FrameFile(f, false)) <==> IsBytes(f.path) && IsBytes(f.data)
  {
    PlainFile(f);
    hide FrameFile;
    BytesConcat(f.path + ['\0'], f.data + ['\0']);
    BytesConcat(f.path, ['\0']);
    BytesConcat(f.data, ['\0']);
  }

  lemma {:induction false} FrameBytes(files: seq<Framed>)
    ensures IsBytes(Frame(files, false)) <==> Written(files)
  {
    hide FrameFile, IsBytes;
    if files == [] {
      BytesEmpty();
    } else {
      FileBytes(files[0]);
      FrameBytes(files[1..]);
      BytesConcat(FrameFile(files[0], false), Frame(files[1..], false));
      assert files == [files[0]] + files[1..];
    }
  }

  /** A file of given path and content, sent as base64. */
  lemma {:induction false} SendFile(f: Framed) returns (file: File)
    requires !f.deleted && StoredPath(f.path) && IsBytes(f.data) && |f.data| <= MAX_BINARY_FILE_BYTES
    ensures Canonical(file).Ok? && DecodedContent(Entry(file)).Ok? && FramedOf(Entry(file)) == f
  {
    var raw :| CleanPath(raw) == Ok(f.path);
    file := File(raw, Base64.Encode(f.data), "base64", false);
    hide CleanPath;
    DecodedContentIsExact(Entry(file), f.data);
  }

  /** A request that asks for given files, in their order. */
  lemma {:induction false} Send(files: seq<Framed>) returns (b: seq<File>)
    requires Upserts(files) && Written(files)
    requires forall k | 0 <= k < |files| :: StoredPath(files[k].path) && |files[k].data| <= MAX_BINARY_FILE_BYTES
    ensures |b| == |files|
    ensures forall k | 0 <= k < |b| ::
      Canonical(b[k]).Ok? && DecodedContent(Entry(b[k])).Ok? && FramedOf(Entry(b[k])) == files[k]
  {
    hide StoredPath, IsBytes, Canonical, DecodedContent, Entry, FramedOf;
    b := [];
    for n := 0 to |files|
      invariant |b| == n
      invariant forall k | 0 <= k < |b| ::
        Canonical(b[k]).Ok? && DecodedContent(Entry(b[k])).Ok? && FramedOf(Entry(b[k])) == files[k]
    {
      var file := SendFile(files[n]);
      b := b + [file];
    }
  }

  lemma {:induction false} IncreasingDistinct(files: seq<Framed>, entries: seq<BundleFile>)
    requires IncreasingBy(FramedPath, files) && Map(FramedOf, entries) == files
    ensures DistinctBy(FramedPath, files) && DistinctBy(PathOf, entries)
  {
    hide Less, DataOf, Map;
    forall i, j | 0 <= i < j < |files| ensures files[i].path != files[j].path {
      LessIsStrict(files[i].path, files[j].path);
    }
    forall i, j | 0 <= i < j < |entries| ensures PathOf(entries[i]) != PathOf(entries[j]) {
      assert files[i] == FramedOf(entries[i]) && files[j] == FramedOf(entries[j]);
    }
  }

  lemma {:induction false} SizesOfFramed(entries: seq<BundleFile>)
    ensures Map(SizeOf, entries) == Map(DataSize, Map(FramedOf, entries))
  {
    hide DataOf, Map;
  }

  lemma {:induction false} SortedStays(files: seq<Framed>)
    requires IncreasingBy(FramedPath, files) && DistinctBy(FramedPath, files)
    ensures SortBy(FramedPath, files) == files
  {
    hide Less;
    SortByMultiset(FramedPath, files);
    SortByCanonical(FramedPath, files, files);
    IncreasingUnique(FramedPath, SortBy(FramedPath, files), files);
  }

  /** Every storable list of files is the contents of an acceptable request. */
  lemma {:induction false} StorableIsSent(files: seq<Framed>) returns (b: seq<File>)
    requires Storable(files) && Written(files)
    ensures Acceptable(b) && Contents(b) == files
  {
    b := Send(files);
    hide Canonical, DecodedContent, FramedOf, Less, Sum, IsBytes, StoredPath, SortBy;
    var entries := Map(Entry, b);
    assert Map(FramedOf, entries) == files;
    IncreasingDistinct(files, entries);
    SizesOfFramed(entries);
    SortedStays(files);
  }

  lemma {:induction false} EntryFits(f: File)
    requires Canonical(f).Ok? && DecodedContent(Entry(f)).Ok?
    ensures StoredPath(FramedOf(Entry(f)).path) && |FramedOf(Entry(f)).data| <= MAX_BINARY_FILE_BYTES
  {
    EntryPathOf(f);
    DecodedContentIsExact(Entry(f), DataOf(Entry(f)));
    assert CleanPath(f.path) == Ok(Entry(f).path);
  }

  lemma {:induction false} FitsPermuted(files: seq<Framed>, sorted: seq<Framed>)
    requires multiset(sorted) == multiset(files)
    requires forall k | 0 <= k < |files| :: StoredPath(files[k].path) && |files[k].data| <= MAX_BINARY_FILE_BYTES
    ensures forall k | 0 <= k < |sorted| :: StoredPath(sorted[k].path) && |sorted[k].data| <= MAX_BINARY_FILE_BYTES
    ensures Total(sorted) == Total(files)
  {
    hide StoredPath, Sum;
    MapMultiset(DataSize, sorted, files);
    SumPermuted(Map(DataSize, sorted), Map(DataSize, files));
    forall k | 0 <= k < |sorted| ensures StoredPath(sorted[k].path) && |sorted[k].data| <= MAX_BINARY_FILE_BYTES {
      assert sorted[k] in multiset(files);
    }
  }

  lemma {:induction false} ContentsIncrease(b: seq<File>)
    requires Acceptable(b)
    ensures IncreasingBy(FramedPath, Contents(b))
  {
    DigestOfContents(b);
    BundlePaths(b);
    hide Canonical, DecodedContent, Less, Frame, Sum, SortBy, DataOf;
    var stored, entries := BundleOf(b).files, SortBy(PathOf, Map(Entry, b));
    forall i, j | 0 <= i < j < |Contents(b)| ensures Less(Contents(b)[i].path, Contents(b)[j].path) {
      assert stored[i].path == entries[i].path && stored[j].path == entries[j].path;
      assert Less(PathOf(stored[i]), PathOf(stored[j]));
    }
  }

  /** The contents of an acceptable request without deletions are storable. */
  lemma {:induction false} SentIsStorable(b: seq<File>)
    requires Acceptable(b) && Upserts(Contents(b))
    ensures Storable(Contents(b))
  {
    hide Canonical, DecodedContent, FramedOf, Less, Sum, StoredPath, Frame;
    var framed := Map(FramedOf, Map(Entry, b));
    forall k | 0 <= k < |framed| ensures StoredPath(framed[k].path) && |framed[k].data| <= MAX_BINARY_FILE_BYTES {
      EntryFits(b[k]);
    }
    SizesOfFramed(Map(Entry, b));
    SortByMultiset(FramedPath, framed);
    FitsPermuted(framed, Contents(b));
    ContentsIncrease(b);
  }

  // When a digest is shared.

  /** Another acceptable request for other contents under the same digest. */
  ghost predicate Shares(a: seq<File>, b: seq<File>) {
    Acceptable(b) && Contents(b) != Contents(a) && BundleOf(b).digest == BundleOf(a).digest
  }

  ghost predicate Twin(files: seq<Framed>, other: seq<Framed>) {
    Storable(other) && other != files && Frame(other, false) == Frame(files, false)
  }

  lemma {:induction false} UpsertDigest(b: seq<File>)
    requires Upserts(Contents(b))
    ensures BundleOf(b).digest == Sha256(Frame(Contents(b), false))
  {
    hide Frame, Contents, BundleOf;
    DigestOfContents(b);
  }

  lemma {:induction false} SharedIsTwin(a: seq<File>, b: seq<File>)
    requires Upserts(Contents(a)) && Shares(a, b) && Upserts(Contents(b))
    ensures Twin(Contents(a), Contents(b))
  {
    hide Frame, Contents, BundleOf, Acceptable, Storable;
    UpsertDigest(a);
    UpsertDigest(b);
    SentIsStorable(b);
  }

  lemma {:induction false} TwinIsShared(a: seq<File>, other: seq<Framed>) returns (b: seq<File>)
    requires Upserts(Contents(a)) && Written(Contents(a)) && Twin(Contents(a), other)
    ensures Shares(a, b) && Upserts(Contents(b))
  {
    FrameBytes(Contents(a));
    FrameBytes(other);
    assert Upserts(other);
    hide Frame, Contents, BundleOf, Acceptable, Storable, IsBytes;
    b := StorableIsSent(other);
    UpsertDigest(a);
    UpsertDigest(b);
  }

  /** A cut of the pieces into files that is not the given one. */
  ghost predicate Recut(files: seq<Framed>, groups: seq<seq<string>>) {
    && Grouped(groups) && groups != GroupsOf(files)
    && Flat(groups) == Pieces(files)
    && Storable(FilesOf(groups))
  }

  lemma {:induction false} GroupsOfFiles(groups: seq<seq<string>>)
    requires Grouped(groups) && NulFree(Flat(groups))
    ensures GroupsOf(FilesOf(groups)) == groups
  {
    if groups != [] {
      var group, rest := groups[0], Flat(groups[1..]);
      assert Flat(groups) == group + rest;
      assert forall k | 0 <= k < |group| :: (group + rest)[k] == group[k];
      assert forall k | 0 <= k < |rest| :: (group + rest)[|group| + k] == rest[k];
      GroupsOfFiles(groups[1..]);
      SplitJoin(group[1..], '\0');
      assert group == [group[0]] + group[1..];
      assert FilesOf(groups)[1..] == FilesOf(groups[1..]);
      assert groups == [group] + groups[1..];
    }
  }

  lemma {:induction false} TwinIsRecut(files: seq<Framed>, other: seq<Framed>)
    requires Upserts(files) && NulFreePaths(files) && NulFreePaths(other) && Twin(files, other)
    ensures Recut(files, GroupsOf(other))
  {
    hide Frame, FilesOf, GroupsOf, Flat;
    SamePieces(files, other);
    FilesOfGroups(files);
    FilesOfGroups(other);
  }

  lemma {:induction false} RecutIsTwin(files: seq<Framed>, groups: seq<seq<string>>)
    requires Upserts(files) && NulFreePaths(files) && Recut(files, groups)
    ensures Twin(files, FilesOf(groups))
  {
    hide Frame, FilesOf, GroupsOf, Flat;
    FlatNulFree(files);
    GroupsOfFiles(groups);
    FrameOfGroups(groups);
    FilesOfGroups(files);
    FrameOfGroups(GroupsOf(files));
  }

  lemma {:induction false} RecutIsShared(a: seq<File>, groups: seq<seq<string>>)
    requires Acceptable(a) && Upserts(Contents(a)) && Written(Contents(a)) && Recut(Contents(a), groups)
    ensures exists b :: Shares(a, b) && Upserts(Contents(b))
  {
    hide Acceptable, Contents, Shares, Twin, FilesOf, Upserts, Written, NulFreePaths;
    ContentsFit(a);
    RecutIsTwin(Contents(a), groups);
    var _ := TwinIsShared(a, FilesOf(groups));
  }

  /**
   * An upsert-only bundle shares its digest with another one exactly when its pieces can be cut
   * into other files that the store accepts.
   */
  lemma {:induction false} SharedExactlyWhenRecut(a: seq<File>)
    requires Acceptable(a) && Upserts(Contents(a)) && Written(Contents(a))
    ensures (exists b :: Shares(a, b) && Upserts(Contents(b))) <==> (exists groups :: Recut(Contents(a), groups))
  {
    hide Acceptable, Contents, Shares, Twin, Recut, Upserts, Written;
    ContentsFit(a);
    if b :| Shares(a, b) && Upserts(Contents(b)) {
      SharedIsTwin(a, b);
      SharedIsFit(a, b);
      TwinIsRecut(Contents(a), Contents(b));
    }
    if groups :| Recut(Contents(a), groups) {
      RecutIsShared(a, groups);
    }
  }

  lemma {:induction false} SharedIsFit(a: seq<File>, b: seq<File>)
    requires Shares(a, b)
    ensures NulFreePaths(Contents(b)) && Sized(Contents(b)) && Contents(b) != []
  {
    ContentsFit(b);
  }

  // Two neighbours read as one file.

  ghost predicate PairFits(files: seq<Framed>, k: nat) {
    && k + 1 < |files|
    && |files[k].data| + |files[k + 1].path| + |files[k + 1].data| + 2 <= MAX_BINARY_FILE_BYTES
    && Total(files) + |files[k + 1].path| + 2 <= MAX_TOTAL_BYTES
  }

  function MergedAt(files: seq<Framed>, k: nat): seq<Framed>
    requires k + 1 < |files|
  {
    files[..k] + [Merged(files[k], files[k + 1])] + files[k + 2..]
  }

  lemma {:induction false} FrameConcat(a: seq<Framed>, b: seq<Framed>)
    ensures Frame(a + b, false) == Frame(a, false) + Frame(b, false)
  {
    if a == [] {
      assert a + b == b;
    } else {
      hide FrameFile;
      FrameConcat(a[1..], b);
      assert (a + b)[1..] == a[1..] + b;
      Assoc(FrameFile(a[0], false), Frame(a[1..], false), Frame(b, false));
    }
  }

  lemma {:induction false} TotalConcat(a: seq<Framed>, b: seq<Framed>)
    ensures Total(a + b) == Total(a) + Total(b)
  {
    if a == [] {
      assert a + b == b;
    } else {
      TotalConcat(a[1..], b);
      assert (a + b)[1..] == a[1..] + b;
    }
  }

  lemma {:induction false} TotalStep(files: seq<Framed>)
    requires files != []
    ensures Total(files) == |files[0].data| + Total(files[1..])
  {
  }

  lemma {:induction false} MergedHead(rest: seq<Framed>)
    requires |rest| >= 2
    ensures var merged := [Merged(rest[0], rest[1])] + rest[2..];
      && Frame(merged, false) == Frame(rest, false)
      && Total(merged) == Total(rest) + |rest[1].path| + 2
  {
    MergedCollides(rest);
    hide Frame, Total;
    var merged := [Merged(rest[0], rest[1])] + rest[2..];
    TotalStep(rest);
    TotalStep(rest[1..]);
    TotalStep(merged);
    assert merged[1..] == rest[1..][1..] == rest[2..];
  }

  lemma {:induction false} MergedAtFrame(files: seq<Framed>, k: nat)
    requires k + 1 < |files|
    ensures Frame(MergedAt(files, k), false) == Frame(files, false)
    ensures Total(MergedAt(files, k)) == Total(files) + |files[k + 1].path| + 2
  {
    hide Frame, Total, Merged;
    var lead, rest := files[..k], files[k..];
    var merged := [Merged(rest[0], rest[1])] + rest[2..];
    assert files == lead + rest && MergedAt(files, k) == lead + merged;
    MergedHead(rest);
    FrameConcat(lead, rest);
    FrameConcat(lead, merged);
    TotalConcat(lead, rest);
    TotalConcat(lead, merged);
  }

  lemma {:induction false} MergedAtItem(files: seq<Framed>, k: nat, i: nat)
    requires k + 1 < |files| && i < |files| - 1
    ensures |MergedAt(files, k)| == |files| - 1
    ensures MergedAt(files, k)[i] ==
      if i < k then files[i] else if i == k then Merged(files[k], files[k + 1]) else files[i + 1]
  {
  }

  lemma {:induction false} MergedAtIncreases(files: seq<Framed>, k: nat)
    requires k + 1 < |files| && IncreasingBy(FramedPath, files)
    ensures IncreasingBy(FramedPath, MergedAt(files, k))
  {
    hide Less, MergedAt;
    var merged := MergedAt(files, k);
    MergedAtItem(files, k, 0);
    forall i, j | 0 <= i < j < |merged| ensures Less(FramedPath(merged[i]), FramedPath(merged[j])) {
      MergedAtItem(files, k, i);
      MergedAtItem(files, k, j);
      var i', j' := if i <= k then i else i + 1, if j <= k then j else j + 1;
      assert Less(FramedPath(files[i']), FramedPath(files[j']));
    }
  }

  lemma {:induction false} MergedAtStorable(files: seq<Framed>, k: nat)
    requires Storable(files) && PairFits(files, k)
    ensures Storable(MergedAt(files, k))
  {
    MergedAtFrame(files, k);
    MergedAtIncreases(files, k);
    hide Total, StoredPath, IncreasingBy, Frame, MergedAt;
    var merged := MergedAt(files, k);
    MergedAtItem(files, k, 0);
    assert |Merged(files[k], files[k + 1]).data| == |files[k].data| + |files[k + 1].path| + |files[k + 1].data| + 2;
    forall i | 0 <= i < |merged|
      ensures !merged[i].deleted && StoredPath(merged[i].path) && |merged[i].data| <= MAX_BINARY_FILE_BYTES
    {
      MergedAtItem(files, k, i);
    }
  }

  /** A pair that fits always gives a second bundle. */
  lemma {:induction false} FittingPairIsShared(a: seq<File>, k: nat) returns (b: seq<File>)
    requires Acceptable(a) && Upserts(Contents(a)) && Written(Contents(a)) && PairFits(Contents(a), k)
    ensures Shares(a, b) && Upserts(Contents(b))
  {
    assert k + 1 < |Contents(a)|;
    hide Acceptable, Contents, Shares, Upserts, Written, Frame, Storable, PairFits;
    SentIsStorable(a);
    MergedAtStorable(Contents(a), k);
    MergedAtFrame(Contents(a), k);
    assert |MergedAt(Contents(a), k)| == |Contents(a)| - 1;
    b := TwinIsShared(a, MergedAt(Contents(a), k));
  }

  /** Where a string without zero bytes can end, read from another cut of the same bytes. */
  lemma {:induction false} NextNul(d: string, e: string, r: string, t: string) returns (x: string)
    requires '\0' !in d && d + ['\0'] + r == e + ['\0'] + t
    ensures (e == d && r == t) || (e == d + ['\0'] + x && r == x + ['\0'] + t)
  {
    var s := d + ['\0'] + r;
    assert s[0] == (if d == "" then '\0' else d[0]) == (if e == "" then '\0' else e[0]);
    x := "";
    if d == "" && e == "" {
      assert r == s[1..] == t;
    } else if d == "" {
      x := e[1..];
      assert e == "" + ['\0'] + x;
      assert r == s[1..] == x + ['\0'] + t;
    } else {
      assert d[1..] + ['\0'] + r == s[1..] == e[1..] + ['\0'] + t;
      x := NextNul(d[1..], e[1..], r, t);
      assert d == [d[0]] + d[1..] && e == [e[0]] + e[1..];
    }
  }

  ghost predicate NoContentIsPath(files: seq<Framed>) {
    forall k | 0 <= k < |files| :: !StoredPath(files[k].data)
  }

  ghost predicate Readings(files: seq<Framed>, other: seq<Framed>) {
    && Upserts(files) && NulFreePaths(files) && NulFreeData(files)
    && Upserts(other) && NulFreePaths(other) && (forall k | 0 <= k < |other| :: StoredPath(other[k].path))
    && (forall k | 0 <= k < |other| :: |other[k].data| <= MAX_BINARY_FILE_BYTES)
    && Frame(files, false) == Frame(other, false)
  }

  lemma {:induction false} SameFirstPath(files: seq<Framed>, other: seq<Framed>)
    requires Readings(files, other) && files != []
    ensures other != [] && files[0].path == other[0].path
    ensures files[0].data + ['\0'] + Frame(files[1..], false) == other[0].data + ['\0'] + Frame(other[1..], false)
  {
    FrameSplit(files, false);
    assert |Frame(files, false)| > 0;
    SamePath(files, other, false, false);
    UpsertAfterPath(files);
    UpsertAfterPath(other);
  }

  /**
   * A longer first content swallows the second path whole. Either it goes on into the second content, or
   * that content is taken for the next path, and a third file follows.
   */
  lemma {:induction false} HeadDiffers(files: seq<Framed>, other: seq<Framed>) returns (y: string, taken: bool)
    requires Readings(files, other) && files != [] && other != [] && files[0].data != other[0].data
    ensures |files| >= 2
    ensures taken ==> |files| >= 3 && StoredPath(files[1].data)
    ensures !taken ==>
      && other[0].data == files[0].data + ['\0'] + (files[1].path + ['\0'] + y)
      && files[1].data + ['\0'] + Frame(files[2..], false) == y + ['\0'] + Frame(other[1..], false)
  {
    SameFirstPath(files, other);
    assert '\0' !in files[0].data && Upserts(files[1..]) && Upserts(other[1..]);
    assert NulFreePaths(files[1..]) && NulFreePaths(other[1..]);
    var next, more := files[1..], Frame(other[1..], false);
    var x := NextNul(files[0].data, other[0].data, Frame(next, false), more);
    assert Frame(next, false) == x + ['\0'] + more;
    assert next != [];
    FrameSplit(next, false);
    UpsertAfterPath(next);
    var tail := next[0].data + ['\0'] + Frame(next[1..], false);
    y := NextNul(next[0].path, x, tail, more);
    assert next[1..] == files[2..] && next[0] == files[1];
    taken := x == next[0].path && tail == more;
    if taken {
      TakenForPath(files, other);
    }
  }

  lemma {:induction false} TakenForPath(files: seq<Framed>, other: seq<Framed>)
    requires Readings(files, other) && |files| >= 2 && other != []
    requires files[1].data + ['\0'] + Frame(files[2..], false) == Frame(other[1..], false)
    ensures |files| >= 3 && StoredPath(files[1].data)
  {
    hide StoredPath;
    assert '\0' !in files[1].data && other[1..] != [];
    FrameSplit(other[1..], false);
    FirstNul(files[1].data, other[1].path, Frame(files[2..], false), AfterPath(other[1..], false));
    assert |AfterPath(other[1..], false)| > 0;
  }

  /** The same bytes with the first file of both readings taken off, the swallowed content kept. */
  lemma {:induction false} ReadOn(files: seq<Framed>, other: seq<Framed>, y: string) returns (rest: seq<Framed>)
    requires Readings(files, other) && |files| >= 2 && other != [] && files[0].data != other[0].data
    requires other[0].data == files[0].data + ['\0'] + (files[1].path + ['\0'] + y)
    requires files[1].data + ['\0'] + Frame(files[2..], false) == y + ['\0'] + Frame(other[1..], false)
    requires StoredPath(files[1].path)
    ensures rest == [Framed(files[1].path, false, y)] + other[1..] && Readings(files[1..], rest)
    ensures |other[0].data| == |files[0].data| + |files[1].path| + |y| + 2
  {
    hide StoredPath;
    var f := Framed(files[1].path, false, y);
    rest := [f] + other[1..];
    assert rest[0] == f && rest[1..] == other[1..] && files[1..][1..] == files[2..];
    FrameSplit(rest, false);
    FrameSplit(files[1..], false);
    UpsertAfterPath(rest);
    UpsertAfterPath(files[1..]);
    hide Frame, AfterPath;
    assert |y| <= MAX_BINARY_FILE_BYTES;
    assert forall k | 0 < k < |rest| :: rest[k] == other[k];
  }

  ghost predicate AllPathsStored(files: seq<Framed>) {
    forall k | 0 <= k < |files| :: StoredPath(files[k].path)
  }

  lemma {:induction false} Peel(files: seq<Framed>, other: seq<Framed>) returns (rest: seq<Framed>)
    requires Readings(files, other) && NoContentIsPath(files) && AllPathsStored(files)
    requires files != [] && other != [] && files[0].data != other[0].data
    ensures |files| >= 2 && Readings(files[1..], rest) && AllPathsStored(files[1..])
    ensures |files[0].data| + |files[1].path| + |files[1].data| + 2 <= MAX_BINARY_FILE_BYTES
    ensures Total(other) == |files[0].data| + |files[1].path| + 2 + Total(rest)
  {
    hide StoredPath, Total;
    var y, _ := HeadDiffers(files, other);
    LongerContent(files, other, y);
    rest := ReadOn(files, other, y);
    TotalStep(other);
    TotalStep(rest);
    assert rest[1..] == other[1..];
  }

  /** Another reading of the same bytes needs room for a merged pair, and never less room than the files. */
  lemma {:induction false} OtherReading(files: seq<Framed>, other: seq<Framed>) returns (k: nat)
    requires Readings(files, other) && NoContentIsPath(files) && AllPathsStored(files)
    ensures Total(other) >= Total(files)
    ensures other != files ==>
      && k + 1 < |files|
      && |files[k].data| + |files[k + 1].path| + |files[k + 1].data| + 2 <= MAX_BINARY_FILE_BYTES
      && Total(files) + |files[k + 1].path| + 2 <= Total(other)
    decreases |files|
  {
    hide Frame, Total, StoredPath;
    k := 0;
    if files == [] {
      assert Frame([], false) == "" by { EmptyFrame(); }
      NoOtherReading(other);
    } else {
      SameFirstPath(files, other);
      TotalStep(files);
      if files[0].data == other[0].data {
        TotalStep(other);
        TailReadings(files, other);
        TailConditions(files);
        hide Readings;
        k := OtherReading(files[1..], other[1..]);
        assert other == [other[0]] + other[1..] && files == [files[0]] + files[1..];
        k := k + 1;
      } else {
        var rest := Peel(files, other);
        TailConditions(files);
        hide Readings;
        var _ := OtherReading(files[1..], rest);
      }
    }
  }

  lemma {:induction false} EmptyFrame()
    ensures Frame([], false) == ""
  {
  }

  lemma {:induction false} NoOtherReading(other: seq<Framed>)
    requires Frame(other, false) == ""
    ensures other == []
  {
    if other != [] {
      FrameSplit(other, false);
    }
  }

  lemma {:induction false} LongerContent(files: seq<Framed>, other: seq<Framed>, y: string)
    requires Readings(files, other) && |files| >= 2 && other != []
    requires files[1].data + ['\0'] + Frame(files[2..], false) == y + ['\0'] + Frame(other[1..], false)
    ensures |files[1].data| <= |y|
  {
    assert '\0' !in files[1].data;
    var _ := NextNul(files[1].data, y, Frame(files[2..], false), Frame(other[1..], false));
  }

  /** Conditions on every file hold of the files after the first. */
  lemma {:induction false} TailConditions(files: seq<Framed>)
    requires files != []
    ensures Upserts(files) ==> Upserts(files[1..])
    ensures NulFreePaths(files) ==> NulFreePaths(files[1..])
    ensures NulFreeData(files) ==> NulFreeData(files[1..])
    ensures NoContentIsPath(files) ==> NoContentIsPath(files[1..])
  {
    hide StoredPath;
    assert forall k | 0 <= k < |files| - 1 :: files[1..][k] == files[k + 1];
  }

  lemma {:induction false} TailCaps(other: seq<Framed>)
    requires other != []
    requires forall k | 0 <= k < |other| :: StoredPath(other[k].path) && |other[k].data| <= MAX_BINARY_FILE_BYTES
    ensures forall k | 0 <= k < |other[1..]| :: StoredPath(other[1..][k].path) && |other[1..][k].data| <= MAX_BINARY_FILE_BYTES
  {
    hide StoredPath;
    assert forall k | 0 <= k < |other| - 1 :: other[1..][k] == other[k + 1];
  }

  lemma {:induction false} TailReadings(files: seq<Framed>, other: seq<Framed>)
    requires Readings(files, other) && files != [] && other != [] && files[0].data == other[0].data
    requires files[0].data + ['\0'] + Frame(files[1..], false) == other[0].data + ['\0'] + Frame(other[1..], false)
    ensures Readings(files[1..], other[1..])
    ensures files[0].path == other[0].path ==> files[0] == other[0]
  {
    assert !files[0].deleted && !other[0].deleted && '\0' !in files[0].data;
    hide Frame, StoredPath, Upserts, NulFreePaths, NulFreeData, NoContentIsPath;
    FirstNul(files[0].data, other[0].data, Frame(files[1..], false), Frame(other[1..], false));
    TailConditions(files);
    TailConditions(other);
    TailCaps(other);
  }

  /** Whichever later path a merge takes in, the total cap has room for it. */
  ghost predicate TotalHasRoom(files: seq<Framed>) {
    forall k | 0 < k < |files| :: Total(files) + |files[k].path| + 2 <= MAX_TOTAL_BYTES
  }

  lemma {:induction false} StoredPathIsShort(path: string)
    requires StoredPath(path)
    ensures |path| <= MAX_PATH_LENGTH
  {
    var raw :| CleanPath(raw) == Ok(path);
    StoredPathIsPlain(raw, path);
  }

  lemma {:induction false} ThreeSizes(files: seq<Framed>)
    requires |files| >= 3
    ensures |files[0].data| + |files[1].data| + |files[2].data| <= Total(files)
  {
    TotalStep(files);
    TotalStep(files[1..]);
    TotalStep(files[1..][1..]);
  }

  /** Of the two neighbours of a content that is short enough for a path, one can be merged with it. */
  lemma {:induction false} ShortContentMerges(files: seq<Framed>) returns (k: nat)
    requires |files| >= 3 && Total(files) <= MAX_TOTAL_BYTES && AllPathsStored(files) && StoredPath(files[1].data)
    ensures k <= 1 && |files[k].data| + |files[k + 1].path| + |files[k + 1].data| + 2 <= MAX_BINARY_FILE_BYTES
  {
    StoredPathIsShort(files[1].data);
    StoredPathIsShort(files[1].path);
    StoredPathIsShort(files[2].path);
    ThreeSizes(files);
    k := if |files[0].data| <= |files[2].data| then 0 else 1;
  }

  /** Another reading of the same bytes shows two neighbours that can be merged within the file cap. */
  lemma {:induction false} OtherReadingMerges(files: seq<Framed>, other: seq<Framed>) returns (k: nat)
    requires Readings(files, other) && AllPathsStored(files) && Total(files) <= MAX_TOTAL_BYTES && other != files
    ensures k + 1 < |files| && |files[k].data| + |files[k + 1].path| + |files[k + 1].data| + 2 <= MAX_BINARY_FILE_BYTES
    decreases |files|
  {
    hide Frame, Total, StoredPath;
    k := 0;
    if files == [] {
      assert Frame([], false) == "" by { EmptyFrame(); }
      NoOtherReading(other);
    } else {
      SameFirstPath(files, other);
      if files[0].data == other[0].data {
        TailReadings(files, other);
        TotalStep(files);
        hide Readings;
        assert other == [other[0]] + other[1..] && files == [files[0]] + files[1..];
        k := OtherReadingMerges(files[1..], other[1..]);
        k := k + 1;
      } else {
        var y, taken := HeadDiffers(files, other);
        if taken {
          k := ShortContentMerges(files);
        } else {
          LongerContent(files, other, y);
          assert |other[0].data| == |files[0].data| + |files[1].path| + |y| + 2;
        }
      }
    }
  }

  lemma {:induction false} TwinReads(files: seq<Framed>, other: seq<Framed>)
    requires Storable(files) && NulFreePaths(files) && NulFreePaths(other) && NulFreeData(files) && Twin(files, other)
    ensures Readings(files, other) && AllPathsStored(files) && Total(files) <= MAX_TOTAL_BYTES && Total(other) <= MAX_TOTAL_BYTES
    ensures files != other
  {
    hide Frame, Total, StoredPath, Less;
  }

  lemma {:induction false} TwinNeedsPair(files: seq<Framed>, other: seq<Framed>) returns (k: nat)
    requires Storable(files) && NulFreePaths(files) && NulFreePaths(other) && NulFreeData(files) && Twin(files, other)
    requires NoContentIsPath(files) || TotalHasRoom(files)
    ensures PairFits(files, k)
  {
    TwinReads(files, other);
    hide Readings, AllPathsStored, Total, Storable, Twin, NoContentIsPath;
    if NoContentIsPath(files) {
      k := OtherReading(files, other);
    } else {
      k := OtherReadingMerges(files, other);
    }
  }

  lemma {:induction false} SharedNeedsPair(a: seq<File>, b: seq<File>) returns (k: nat)
    requires Acceptable(a) && Upserts(Contents(a)) && Shares(a, b)
    requires NulFreeData(Contents(a)) && (NoContentIsPath(Contents(a)) || TotalHasRoom(Contents(a)))
    ensures PairFits(Contents(a), k)
  {
    ContentsFit(a);
    ContentsFit(b);
    SharedHasNoDeletion(a, b);
    SharedIsTwin(a, b);
    hide Acceptable, Contents, Storable, BundleOf, NulFreeData, NulFreePaths, Upserts, Frame, NoContentIsPath, TotalHasRoom;
    SentIsStorable(a);
    k := TwinNeedsPair(Contents(a), Contents(b));
  }

  lemma {:induction false} SharedHasNoDeletion(a: seq<File>, b: seq<File>)
    requires Acceptable(a) && Upserts(Contents(a)) && NulFreeData(Contents(a)) && Shares(a, b)
    ensures Upserts(Contents(b))
  {
    ContentsFit(a);
    ContentsFit(b);
    UpsertDigest(a);
    DigestOfContents(b);
    hide Contents, BundleOf, Frame, Acceptable;
    if !Upserts(Contents(b)) {
      FramingsNeverMeet(Contents(a), Contents(b));
    }
  }

  /**
   * Unless the total is within a path of its cap and a content is itself a stored path, the other bundle
   * exists exactly when two neighbours in path order can be merged within both caps.
   */
  lemma {:induction false} SharedExactlyWhenPairFits(a: seq<File>)
    requires Acceptable(a) && Upserts(Contents(a)) && Written(Contents(a)) && NulFreeData(Contents(a))
    requires NoContentIsPath(Contents(a)) || TotalHasRoom(Contents(a))
    ensures (exists b :: Shares(a, b)) <==> (exists k :: PairFits(Contents(a), k))
  {
    hide Acceptable, Contents, Shares, Upserts, Written, NulFreeData, NoContentIsPath, TotalHasRoom, PairFits;
    if b :| Shares(a, b) {
      var _ := SharedNeedsPair(a, b);
    }
    if k: nat :| PairFits(Contents(a), k) {
      var _ := FittingPairIsShared(a, k);
    }
  }

  // A content that is a stored path.

  ghost predicate Letters(name: string) {
    0 < |name| <= MAX_PATH_LENGTH && forall i | 0 <= i < |name| :: 'a' <= name[i] <= 'z'
  }

  lemma {:induction false} LettersAreDark(s: string, from: nat, to: nat)
    requires from < to <= |s| && Letters(s)
    ensures !IsAsciiSpace(s[from]) && !IsWideSpace(s[from..to])
  {
    hide IsWideSpace;
    var part := s[from..to];
    assert part[0] == s[from] && 'a' <= s[from] <= 'z';
    if IsWideSpace(part) {
      WideSpaceBytes(part, 0);
    }
  }

  lemma {:induction false} LettersAtEdges(s: string, n: nat)
    requires 0 < n <= |s| && Letters(s)
    ensures !IsWideSpace(s[..n]) && !IsWideSpace(s[|s| - n..])
    ensures !IsAsciiSpace(s[0]) && !IsAsciiSpace(s[|s| - 1])
  {
    hide IsWideSpace, IsAsciiSpace;
    LettersAreDark(s, 0, n);
    LettersAreDark(s, |s| - n, |s|);
    LettersAreDark(s, |s| - 1, |s|);
    assert s[0..n] == s[..n] && s[|s| - n..|s|] == s[|s| - n..];
  }

  lemma {:induction false} NoSpaceAtEdges(s: string)
    requires s != "" && !IsAsciiSpace(s[0]) && !IsAsciiSpace(s[|s| - 1])
    requires |s| >= 2 ==> !IsWideSpace(s[..2]) && !IsWideSpace(s[|s| - 2..])
    requires |s| >= 3 ==> !IsWideSpace(s[..3]) && !IsWideSpace(s[|s| - 3..])
    ensures LeadingSpace(s) == 0 && TrailingSpace(s) == 0
  {
    hide IsWideSpace, IsAsciiSpace;
  }

  lemma {:induction false} LettersHaveNoSpace(name: string)
    requires Letters(name)
    ensures LeadingSpace(name) == 0 && TrailingSpace(name) == 0
  {
    hide IsWideSpace, IsAsciiSpace, LeadingSpace, TrailingSpace;
    LettersAtEdges(name, 1);
    if |name| >= 2 {
      LettersAtEdges(name, 2);
    }
    if |name| >= 3 {
      LettersAtEdges(name, 3);
    }
    NoSpaceAtEdges(name);
  }

  lemma {:induction false} LettersAreStored(name: string)
    requires Letters(name)
    ensures StoredPath(name)
  {
    LettersHaveNoSpace(name);
    TrimFixed(name);
    SplitOne(name, '/');
    assert 'a' <= name[0] <= 'z';
    hide TrimSpace, Split, CleanPath, CleanRepositoryPath;
    PlainIsFixed(name);
  }

  function Filler(n: nat): (s: string)
    ensures |s| == n && IsBytes(s) && '\0' !in s
  {
    seq(n, _ => 'c')
  }

  /** Three files of 48 MiB in all; the content of the second is a file name. */
  function NamedContent(): seq<Framed> {
    [Framed("a", false, Filler(25165824)), Framed("b", false, "xxxxx"), Framed("c", false, Filler(25165819))]
  }

  /** The same bytes cut elsewhere: two files, the second of which takes that name. */
  function NameTaken(): seq<Framed> {
    [Framed("a", false, Filler(25165824) + ['\0'] + "b"), Framed("xxxxx", false, "c" + ['\0'] + Filler(25165819))]
  }

  lemma {:induction false} NamedContentFacts()
    ensures Storable(NamedContent()) && Written(NamedContent()) && NulFreeData(NamedContent())
    ensures Total(NamedContent()) == MAX_TOTAL_BYTES
  {
    hide Filler, StoredPath;
    LettersAreStored("a");
    LettersAreStored("b");
    LettersAreStored("c");
    var files := NamedContent();
    TotalThree(files);
    assert Less("a", "b") && Less("b", "c") && Less("a", "c");
  }

  lemma {:induction false} TotalThree(files: seq<Framed>)
    requires 2 <= |files| <= 3
    ensures Total(files) == |files[0].data| + |files[1].data| + (if |files| == 3 then |files[2].data| else 0)
  {
    TotalStep(files);
    TotalStep(files[1..]);
    if |files| == 3 {
      TotalStep(files[1..][1..]);
    }
  }

  lemma {:induction false} NameTakenFacts()
    ensures Storable(NameTaken()) && Frame(NameTaken(), false) == Frame(NamedContent(), false)
  {
    hide Filler, StoredPath;
    LettersAreStored("a");
    LettersAreStored("xxxxx");
    TotalThree(NameTaken());
    assert Less("a", "xxxxx");
    FrameBoth();
  }

  lemma {:induction false} FrameOne(f: Framed)
    ensures Frame([f], false) == f.path + ['\0'] + (f.data + ['\0'])
  {
    PlainFile(f);
    assert [f][1..] == [];
    assert FrameFile(f, false) + Frame([], false) == FrameFile(f, false);
  }

  lemma {:induction false} FrameTwo(f: Framed, g: Framed)
    ensures Frame([f, g], false) == f.path + ['\0'] + (f.data + ['\0']) + (g.path + ['\0'] + (g.data + ['\0']))
  {
    hide Frame;
    FrameOne(f);
    FrameOne(g);
    FrameConcat([f], [g]);
    assert [f] + [g] == [f, g];
  }

  lemma {:induction false} FrameBoth()
    ensures Frame(NameTaken(), false) == Frame(NamedContent(), false)
  {
    hide Filler, Frame;
    var a, c := Filler(25165824), Filler(25165819);
    FrameTwo(NameTaken()[0], NameTaken()[1]);
    FrameTwo(NamedContent()[1], NamedContent()[2]);
    FrameConcat([NamedContent()[0]], NamedContent()[1..]);
    assert [NamedContent()[0]] + NamedContent()[1..] == NamedContent();
    FrameOne(NamedContent()[0]);
    assert NameTaken() == [NameTaken()[0], NameTaken()[1]];
    assert NamedContent()[1..] == [NamedContent()[1], NamedContent()[2]];
  }

  /**
   * Why contents that are stored paths are set apart when the total cap is reached: here no two
   * neighbours can be merged, and yet another acceptable bundle has the same digest.
   */
  lemma {:induction false} ContentTakenForPath() returns (a: seq<File>, b: seq<File>)
    ensures Acceptable(a) && Upserts(Contents(a)) && Written(Contents(a)) && NulFreeData(Contents(a))
    ensures Shares(a, b)
    ensures forall k :: !PairFits(Contents(a), k)
  {
    NamedContentFacts();
    NameTakenFacts();
    assert Upserts(NamedContent()) && |NamedContent()| != |NameTaken()|;
    hide Storable, NamedContent, NameTaken, Acceptable, Contents, Upserts, Written, NulFreeData, Frame, Total, Shares;
    a := StorableIsSent(NamedContent());
    b := TwinIsShared(a, NameTaken());
  }
}
