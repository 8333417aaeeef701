/**
 * The tree entries of a commit request. Entries are objects that several lists share, so the
 * blob ids that are filled in late reach the entries kept for a retry as well.
 */
module TreeEntries {
  import opened Prelude
  import opened Strings
  import opened Ordering
  import opened Sequences
  import opened Paths
  import opened GitTree
  import Base64

  /** A file of the request; content is as it was sent. */
  datatype CommitFile = CommitFile(path: string, content: string, encoding: string, delete: bool)

  /** The host names a blob by its bytes; the hash is taken to be injective. */
  datatype Sha = Sha(bytes: string)

  class TreeEntry {
    const path: string
    var sha: Option<Sha>
    var content: Option<string>

    constructor (path: string)
      ensures this.path == path && sha == None && content == None
    {
      this.path, sha, content := path, None, None;
    }

    /** What the host makes of the entry: neither id nor content means a deletion. */
    function Value(): Entry
      reads this
    {
      Entry(path, if sha.Some? then Some(sha.value.bytes) else content)
    }
  }

  datatype PendingBlob = PendingBlob(entry: TreeEntry, content: string)

  ghost function Values(entries: seq<TreeEntry>): (values: seq<Entry>)
    reads entries
    ensures |values| == |entries|
    ensures forall k | 0 <= k < |entries| :: values[k] == entries[k].Value()
  {
    if entries == [] then [] else [entries[0].Value()] + Values(entries[1..])
  }

  // What a request means.

  predicate ValidFile(f: CommitFile) {
    && CleanRepositoryPath(f.path).Ok?
    && (f.delete ==> f.content == "")
    && (f.encoding == "" || (f.encoding == "base64" && (f.delete || Base64.Decode(f.content).Some?)))
  }

  /** The file under its clean path. */
  function Cleaned(f: CommitFile): CommitFile {
    var path := CleanRepositoryPath(f.path);
    if path.Ok? then f.(path := path.value) else f
  }

  function FilePath(f: CommitFile): string { f.path }

  function Identity(p: string): string { p }

  predicate IsPending(f: CommitFile) {
    !f.delete && f.encoding == "base64"
  }

  function BytesOf(f: CommitFile): string {
    if f.encoding == "base64" && Base64.Decode(f.content).Some? then Base64.Decode(f.content).value else f.content
  }

  function EntryOf(f: CommitFile): Entry {
    Entry(f.path, if f.delete then None else Some(BytesOf(f)))
  }

  ghost predicate ValidRequest(files: seq<CommitFile>) {
    && (forall k | 0 <= k < |files| :: ValidFile(files[k]))
    && DistinctBy(FilePath, Map(Cleaned, files))
  }

  function Sorted(files: seq<CommitFile>): (sorted: seq<CommitFile>)
    ensures |sorted| == |files|
  {
    SortBy(FilePath, Map(Cleaned, files))
  }

  /** The changes that the caller asked for, in path order. */
  function RequestOf(files: seq<CommitFile>): seq<Entry> {
    Map(EntryOf, Sorted(files))
  }

  /** The entry of a file before any blob exists: a pending one looks like a deletion. */
  ghost predicate Fresh(e: TreeEntry, f: CommitFile)
    reads e
  {
    e.path == f.path && e.sha == None && e.content == if f.delete || IsPending(f) then None else Some(f.content)
  }

  ghost predicate Mirrors(entries: seq<TreeEntry>, files: seq<CommitFile>)
    reads entries
  {
    && |entries| == |files|
    && (forall k | 0 <= k < |files| :: Fresh(entries[k], files[k]))
    && forall j, k | 0 <= j < k < |entries| :: entries[j] != entries[k]
  }

  /** The blobs to upload are exactly those of the base64 files, with their entries. */
  ghost predicate Pends(blobs: seq<PendingBlob>, entries: seq<TreeEntry>, files: seq<CommitFile>)
    requires |entries| == |files|
  {
    && (forall k | 0 <= k < |files| && IsPending(files[k]) :: PendingBlob(entries[k], files[k].content) in blobs)
    && (forall b | b in blobs :: exists k :: 0 <= k < |files| && IsPending(files[k]) && b == PendingBlob(entries[k], files[k].content))
    && forall i, j | 0 <= i < j < |blobs| :: blobs[i].entry != blobs[j].entry
  }

  // Building the entries.

  /** First loop of gitTreeEntries: clean, refuse duplicates and bad content, index by path. */
  method IndexFiles(files: seq<CommitFile>) returns (r: Result<map<string, CommitFile>>)
    ensures r.Ok? <==> ValidRequest(files)
    ensures r.Ok? ==>
      && (forall p | p in r.value :: r.value[p] in Map(Cleaned, files) && r.value[p].path == p)
      && (forall k | 0 <= k < |files| :: Map(Cleaned, files)[k].path in r.value)
  {
    hide CleanRepositoryPath, Base64.Decode, Map, ValidRequest, DistinctBy;
    NoneDistinct();
    var byPath: map<string, CommitFile> := map[];
    ghost var all := Map(Cleaned, files);
    for i := 0 to |files|
      invariant forall k | 0 <= k < i :: ValidFile(files[k])
      invariant forall p | p in byPath :: byPath[p].path == p && exists j :: 0 <= j < i && all[j] == byPath[p]
      invariant forall j | 0 <= j < i :: all[j].path in byPath
      invariant DistinctBy(FilePath, all[..i])
    {
      var f := files[i];
      var clean := CleanRepositoryPath(f.path);
      if clean.Err? {
        NotValid(files, i);
        return Err(clean.error);
      }
      assert all[i] == f.(path := clean.value);
      if clean.value in byPath {
        ghost var j :| 0 <= j < i && all[j] == byPath[clean.value];
        NotDistinct(files, j, i);
        return Err("duplicate file path");
      }
      if f.delete && f.content != "" {
        NotValid(files, i);
        return Err("deleted file cannot include content");
      }
      if f.encoding == "base64" {
        if !f.delete && Base64.Decode(f.content).None? {
          NotValid(files, i);
          return Err("file has invalid base64 content");
        }
      } else if f.encoding != "" {
        NotValid(files, i);
        return Err("file has unsupported encoding");
      }
      byPath := byPath[clean.value := f.(path := clean.value)];
      DistinctMore(all, i);
    }
    assert all[..|files|] == all;
    IsValid(files);
    r := Ok(byPath);
  }

  lemma {:induction false} NotValid(files: seq<CommitFile>, i: nat)
    requires i < |files| && !ValidFile(files[i])
    ensures !ValidRequest(files)
  {
  }

  lemma {:induction false} NotDistinct(files: seq<CommitFile>, j: nat, i: nat)
    requires j < i < |files| && Map(Cleaned, files)[j].path == Map(Cleaned, files)[i].path
    ensures !ValidRequest(files)
  {
    var all := Map(Cleaned, files);
    assert FilePath(all[j]) == FilePath(all[i]);
  }

  lemma {:induction false} IsValid(files: seq<CommitFile>)
    requires forall k | 0 <= k < |files| :: ValidFile(files[k])
    requires DistinctBy(FilePath, Map(Cleaned, files))
    ensures ValidRequest(files)
  {
  }

  lemma {:induction false} NoneDistinct()
    ensures DistinctBy(FilePath, [])
  {
  }

  lemma {:induction false} DistinctMore(all: seq<CommitFile>, i: nat)
    requires i < |all| && DistinctBy(FilePath, all[..i])
    requires forall j | 0 <= j < i :: all[j].path != all[i].path
    ensures DistinctBy(FilePath, all[..i + 1])
  {
    var s := all[..i + 1];
    forall j, k | 0 <= j < k < |s| ensures FilePath(s[j]) != FilePath(s[k]) {
      if k < i {
        assert s[j] == all[..i][j] && s[k] == all[..i][k];
      }
    }
  }

  /** The keys of a map, in whatever order the runtime visits them, then sorted. */
  method SortedKeys(byPath: map<string, CommitFile>) returns (paths: seq<string>)
    ensures IncreasingBy(Identity, paths)
    ensures forall p :: p in paths <==> p in byPath
  {
    var keys: seq<string> := [];
    var todo := byPath.Keys;
    while todo != {}
      invariant todo <= byPath.Keys
      invariant forall p :: p in keys <==> p in byPath.Keys - todo
      invariant DistinctBy(Identity, keys)
      decreases todo
    {
      var p :| p in todo;
      todo := todo - {p};
      keys := keys + [p];
    }
    hide SortBy, Less;
    SortByCanonical(Identity, keys, keys);
    SortByMultiset(Identity, keys);
    paths := SortBy(Identity, keys);
    assert forall p :: p in paths <==> p in multiset(paths);
    assert forall p :: p in keys <==> p in multiset(keys);
  }

  lemma {:induction false} CountedOnce(a: seq<string>, p: string)
    requires IncreasingBy(Identity, a)
    ensures multiset(a)[p] == if p in a then 1 else 0
  {
    if multiset(a)[p] >= 2 {
      CountedTwice(a, p);
      var i, j :| 0 <= i < j < |a| && a[i] == p && a[j] == p;
      LessIsStrict(Identity(a[i]), Identity(a[j]));
    }
    assert p in a <==> p in multiset(a);
  }

  lemma {:induction false} IncreasingSameElements(a: seq<string>, b: seq<string>)
    requires IncreasingBy(Identity, a) && IncreasingBy(Identity, b)
    requires forall p :: p in a <==> p in b
    ensures a == b
  {
    hide Less;
    forall p ensures multiset(a)[p] == multiset(b)[p] {
      CountedOnce(a, p);
      CountedOnce(b, p);
    }
    assert multiset(a) == multiset(b);
    IncreasingUnique(Identity, a, b);
  }

  lemma {:induction false} InAll(files: seq<CommitFile>, f: CommitFile)
    ensures f in Sorted(files) <==> f in Map(Cleaned, files)
  {
    hide SortBy;
    SortByMultiset(FilePath, Map(Cleaned, files));
    assert f in Sorted(files) <==> f in multiset(Sorted(files));
    assert f in Map(Cleaned, files) <==> f in multiset(Map(Cleaned, files));
  }

  /** Looking the sorted paths up in the index gives the files in path order. */
  lemma {:induction false} IndexIsSorted(files: seq<CommitFile>, byPath: map<string, CommitFile>, paths: seq<string>)
    requires ValidRequest(files) && IncreasingBy(Identity, paths) && forall p :: p in paths <==> p in byPath
    requires forall p | p in byPath :: byPath[p] in Map(Cleaned, files) && byPath[p].path == p
    requires forall k | 0 <= k < |files| :: Map(Cleaned, files)[k].path in byPath
    ensures |paths| == |files| && forall k | 0 <= k < |files| :: byPath[paths[k]] == Sorted(files)[k] && Sorted(files)[k].path == paths[k]
  {
    hide SortBy, Less, CleanRepositoryPath, ValidFile, Cleaned;
    var all, sorted := Map(Cleaned, files), Sorted(files);
    SortByCanonical(FilePath, all, all);
    var names := Map(FilePath, sorted);
    assert IncreasingBy(Identity, names);
    NamesArePaths(files, byPath, paths);
    IncreasingSameElements(names, paths);
    forall k | 0 <= k < |files| ensures byPath[paths[k]] == sorted[k] {
      assert paths[k] in paths && names[k] == sorted[k].path;
      InAll(files, sorted[k]);
      SamePathSame(all, byPath[paths[k]], sorted[k]);
    }
  }

  lemma {:induction false} NamesArePaths(files: seq<CommitFile>, byPath: map<string, CommitFile>, paths: seq<string>)
    requires forall p :: p in paths <==> p in byPath
    requires forall p | p in byPath :: byPath[p] in Map(Cleaned, files) && byPath[p].path == p
    requires forall k | 0 <= k < |files| :: Map(Cleaned, files)[k].path in byPath
    ensures forall p :: p in Map(FilePath, Sorted(files)) <==> p in paths
  {
    hide SortBy, Cleaned;
    var all, sorted := Map(Cleaned, files), Sorted(files);
    var names := Map(FilePath, sorted);
    forall p ensures p in names <==> p in paths {
      if p in names {
        var k :| 0 <= k < |names| && names[k] == p;
        InAll(files, sorted[k]);
        var j :| 0 <= j < |all| && all[j] == sorted[k];
      }
      if p in paths {
        InAll(files, byPath[p]);
        var k :| 0 <= k < |sorted| && sorted[k] == byPath[p];
        assert names[k] == p;
      }
    }
  }

  lemma {:induction false} SamePathSame(all: seq<CommitFile>, f: CommitFile, g: CommitFile)
    requires DistinctBy(FilePath, all) && f in all && g in all && f.path == g.path
    ensures f == g
  {
    var i :| 0 <= i < |all| && all[i] == f;
    var j :| 0 <= j < |all| && all[j] == g;
    assert FilePath(all[i]) == FilePath(all[j]);
  }

  method NewEntry(path: string, file: CommitFile) returns (entry: TreeEntry)
    requires path == file.path
    ensures fresh(entry) && Fresh(entry, file)
  {
    entry := new TreeEntry(path);
    if file.delete {
    } else if file.encoding == "base64" {
    } else {
      entry.content := Some(file.content);
    }
  }

  /** Second loop of gitTreeEntries: one entry for each file, in path order. */
  method BuildEntries(byPath: map<string, CommitFile>, paths: seq<string>, ghost sorted: seq<CommitFile>)
    returns (entries: seq<TreeEntry>, blobs: seq<PendingBlob>)
    requires |sorted| == |paths|
    requires forall k | 0 <= k < |paths| :: paths[k] in byPath && byPath[paths[k]] == sorted[k] && sorted[k].path == paths[k]
    ensures fresh(entries) && Mirrors(entries, sorted) && Pends(blobs, entries, sorted)
  {
    entries, blobs := [], [];
    for i := 0 to |paths|
      invariant fresh(entries)
      invariant Mirrors(entries, sorted[..i])
      invariant Pends(blobs, entries, sorted[..i])
    {
      var file := byPath[paths[i]];
      var entry := NewEntry(paths[i], file);
      assert entry !in entries;
      hide Fresh, Pends;
      MirrorsMore(entries, sorted, i, entry);
      ghost var before, pended := entries, blobs;
      if IsPending(file) {
        blobs := blobs + [PendingBlob(entry, file.content)];
      }
      entries := entries + [entry];
      PendsMore(pended, blobs, before, sorted, i, entry);
    }
    assert sorted[..|paths|] == sorted;
  }

  /** gitTreeEntries. */
  method GitTreeEntries(files: seq<CommitFile>)
    returns (ok: bool, entries: seq<TreeEntry>, paths: seq<string>, blobs: seq<PendingBlob>)
    ensures ok <==> ValidRequest(files)
    ensures fresh(entries)
    ensures ok ==> Mirrors(entries, Sorted(files)) && Pends(blobs, entries, Sorted(files))
    ensures ok ==> IncreasingBy(Identity, paths) && |paths| == |entries| && forall k | 0 <= k < |paths| :: paths[k] == entries[k].path
  {
    var index := IndexFiles(files);
    if index.Err? {
      return false, [], [], [];
    }
    paths := SortedKeys(index.value);
    IndexIsSorted(files, index.value, paths);
    hide Sorted, ValidRequest, IncreasingBy, Pends;
    entries, blobs := BuildEntries(index.value, paths, Sorted(files));
    ok := true;
  }

  lemma {:induction false} MirrorsMore(entries: seq<TreeEntry>, files: seq<CommitFile>, i: nat, entry: TreeEntry)
    requires i < |files| && Mirrors(entries, files[..i]) && Fresh(entry, files[i]) && entry !in entries
    ensures Mirrors(entries + [entry], files[..i + 1])
  {
    var es, fs := entries + [entry], files[..i + 1];
    forall k | 0 <= k < |fs| ensures Fresh(es[k], fs[k]) {
      if k < i {
        assert Fresh(entries[k], files[..i][k]);
      }
    }
  }

  lemma {:induction false} PendsMore(pended: seq<PendingBlob>, blobs: seq<PendingBlob>, entries: seq<TreeEntry>,
                                     files: seq<CommitFile>, i: nat, entry: TreeEntry)
    requires i < |files| && |entries| == i && Pends(pended, entries, files[..i]) && entry !in entries
    requires blobs == if IsPending(files[i]) then pended + [PendingBlob(entry, files[i].content)] else pended
    ensures Pends(blobs, entries + [entry], files[..i + 1])
  {
    var es, fs := entries + [entry], files[..i + 1];
    forall k | 0 <= k < |pended| ensures pended[k].entry in entries {
      assert pended[k] in pended;
      var j :| 0 <= j < i && IsPending(files[..i][j]) && pended[k] == PendingBlob(entries[j], files[..i][j].content);
    }
    forall k | 0 <= k < |fs| && IsPending(fs[k]) ensures PendingBlob(es[k], fs[k].content) in blobs {
      if k < i {
        assert IsPending(files[..i][k]) && PendingBlob(entries[k], files[..i][k].content) in pended;
      } else {
        assert blobs[|pended|] == PendingBlob(es[k], fs[k].content);
      }
    }
    forall b | b in blobs ensures exists k :: 0 <= k < |fs| && IsPending(fs[k]) && b == PendingBlob(es[k], fs[k].content) {
      if b in pended {
        var k :| 0 <= k < i && IsPending(files[..i][k]) && b == PendingBlob(entries[k], files[..i][k].content);
        assert fs[k] == files[..i][k] && es[k] == entries[k];
      } else {
        assert fs[i] == files[i] && es[i] == entry;
      }
    }
  }

  // Uploading the blobs.

  /** The id of the blob that a base64 payload becomes. */
  function ShaOf(content: string): Sha {
    var data := Base64.Decode(content);
    Sha(if data.Some? then data.value else content)
  }

  /** The host's blobs. `budget` is how many uploads succeed before one fails. */
  class BlobHost {
    var stored: set<Sha>
    var uploads: nat
    var budget: nat

    method CreateBlob(content: string) returns (r: Option<Sha>)
      requires Base64.Decode(content).Some?
      modifies this
      ensures r == if old(budget) > 0 then Some(ShaOf(content)) else None
      ensures stored == if r.Some? then old(stored) + {r.value} else old(stored)
      ensures uploads == old(uploads) + (if r.Some? then 1 else 0)
    {
      if budget == 0 {
        return None;
      }
      budget := budget - 1;
      uploads := uploads + 1;
      var sha := Sha(Base64.Decode(content).value);
      stored := stored + {sha};
      return Some(sha);
    }
  }

  ghost function Payloads(blobs: seq<PendingBlob>): set<string> {
    set k | 0 <= k < |blobs| :: blobs[k].content
  }

  ghost function EntriesOf(blobs: seq<PendingBlob>): set<TreeEntry> {
    set k | 0 <= k < |blobs| :: blobs[k].entry
  }

  lemma {:induction false} OneMoreBlob(blobs: seq<PendingBlob>, i: nat)
    requires i < |blobs|
    ensures Payloads(blobs[..i + 1]) == Payloads(blobs[..i]) + {blobs[i].content}
    ensures blobs[i].entry in EntriesOf(blobs)
  {
    var some, more := blobs[..i], blobs[..i + 1];
    assert more == some + [blobs[i]];
    forall p | p in Payloads(some) ensures p in Payloads(more) {
      var k :| 0 <= k < |some| && some[k].content == p;
      assert more[k].content == p;
    }
    assert more[i].content == blobs[i].content;
  }

  ghost predicate Filled(entry: TreeEntry, content: string)
    reads entry
  {
    entry.sha == Some(ShaOf(content)) && entry.content == None
  }

  /** createPendingBlobs: each payload is uploaded once, and every entry gets the id of its bytes. */
  method CreatePendingBlobs(host: BlobHost, blobs: seq<PendingBlob>) returns (ok: bool)
    requires forall b | b in blobs :: Base64.Decode(b.content).Some?
    requires forall i, j | 0 <= i < j < |blobs| :: blobs[i].entry != blobs[j].entry
    modifies host, EntriesOf(blobs)
    ensures ok ==> forall k | 0 <= k < |blobs| :: Filled(blobs[k].entry, blobs[k].content)
    ensures ok ==> host.stored == old(host.stored) + set p | p in Payloads(blobs) :: ShaOf(p)
    ensures ok ==> host.uploads == old(host.uploads) + |Payloads(blobs)|
  {
    hide Base64.Decode, Payloads, EntriesOf, ShaOf;
    var uploaded: map<string, Sha> := map[];
    ghost var before := host.stored;
    assert Payloads([]) == {} by {
      NoPayloads();
    }
    for i := 0 to |blobs|
      invariant forall k | 0 <= k < i :: Filled(blobs[k].entry, blobs[k].content)
      invariant forall p | p in uploaded :: uploaded[p] == ShaOf(p)
      invariant uploaded.Keys == Payloads(blobs[..i])
      invariant host.uploads == old(host.uploads) + |uploaded|
      invariant host.stored == before + set p | p in uploaded.Keys :: ShaOf(p)
    {
      var blob := blobs[i];
      OneMoreBlob(blobs, i);
      var sha: Sha;
      if blob.content in uploaded {
        sha := uploaded[blob.content];
      } else {
        var created := host.CreateBlob(blob.content);
        if created.None? {
          return false;
        }
        sha := created.value;
        ShasMore(uploaded.Keys, blob.content);
        assert uploaded[blob.content := sha].Keys == uploaded.Keys + {blob.content};
        uploaded := uploaded[blob.content := sha];
      }
      assert sha == ShaOf(blob.content);
      blob.entry.sha := Some(sha);
      blob.entry.content := None;
    }
    assert blobs[..|blobs|] == blobs;
    ok := true;
  }

  lemma {:induction false} NoPayloads()
    ensures Payloads([]) == {}
  {
  }

  lemma {:induction false} ShasMore(payloads: set<string>, p: string)
    ensures (set q | q in payloads + {p} :: ShaOf(q)) == (set q | q in payloads :: ShaOf(q)) + {ShaOf(p)}
  {
  }

  // Filtering the deletions.

  lemma {:induction false} ValuesAppend(entries: seq<TreeEntry>, e: TreeEntry)
    ensures Values(entries + [e]) == Values(entries) + [e.Value()]
  {
  }

  ghost predicate Aligned(entries: seq<TreeEntry>, files: seq<string>) {
    |files| == |entries| && forall k | 0 <= k < |files| :: files[k] == entries[k].path
  }

  function ListingOf(listing: Option<Listing>): Listing {
    if listing.Some? then listing.value else Listing({}, false)
  }

  lemma {:induction false} KeptNext(l: Listing, values: seq<Entry>, i: nat)
    requires i < |values|
    ensures Kept(l, values[..i + 1]) == if Keeps(l, values[i]) then Kept(l, values[..i]) + [values[i]] else Kept(l, values[..i])
  {
    assert values[..i + 1] == values[..i] + [values[i]];
    KeptAppend(l, values[..i], values[i]);
  }

  lemma {:induction false} NothingListed(l: Listing)
    ensures Values([]) == [] && Kept(l, []) == []
  {
  }

  /** filterNoopGitTreeDeletions; without a base tree there is no listing and nothing is present. */
  method FilterNoop(entries: seq<TreeEntry>, files: seq<string>, listing: Option<Listing>)
    returns (kept: seq<TreeEntry>, keptFiles: seq<string>)
    requires Aligned(entries, files)
    ensures Values(kept) == Kept(ListingOf(listing), Values(entries))
    ensures Aligned(kept, keptFiles)
  {
    hide Values, Kept;
    NothingListed(ListingOf(listing));
    ghost var l, values := ListingOf(listing), Values(entries);
    var hasDeletion := false;
    for i := 0 to |entries|
      invariant !hasDeletion && forall k | 0 <= k < i :: !IsDeletion(values[k])
    {
      if entries[i].sha == None && entries[i].content == None {
        hasDeletion := true;
        break;
      }
    }
    if !hasDeletion || (listing.Some? && listing.value.truncated) {
      KeptAll(l, values);
      return entries, files;
    }
    var present := if listing.Some? then listing.value.paths else {};
    kept, keptFiles := [], [];
    for i := 0 to |entries|
      invariant Values(kept) == Kept(l, values[..i])
      invariant Aligned(kept, keptFiles)
    {
      var entry := entries[i];
      KeptNext(l, values, i);
      ValuesAppend(kept, entry);
      var isDeletion := entry.sha == None && entry.content == None;
      if isDeletion && entry.path !in present {
        continue;
      }
      kept := kept + [entry];
      keptFiles := keptFiles + [files[i]];
    }
    assert values[..|entries|] == values;
  }

  // The entries kept for a retry.

  ghost predicate Settled(entry: TreeEntry, file: CommitFile)
    reads entry
  {
    && entry.path == file.path
    && (if IsPending(file) then Filled(entry, file.content) else Fresh(entry, file))
    && (file.encoding == "" || IsPending(file) || file.delete)
  }

  lemma {:induction false} SortedIsValid(files: seq<CommitFile>, k: nat)
    requires ValidRequest(files) && k < |files|
    ensures var f := Sorted(files)[k];
      && (f.encoding == "" || IsPending(f) || f.delete)
      && (IsPending(f) ==> Base64.Decode(f.content).Some?)
  {
    hide Base64.Decode, CleanRepositoryPath, SortBy;
    var f := Sorted(files)[k];
    InAll(files, f);
    var j :| 0 <= j < |files| && Map(Cleaned, files)[j] == f;
    assert ValidFile(files[j]);
  }

  lemma {:induction false} PendingDecodes(files: seq<CommitFile>, entries: seq<TreeEntry>, blobs: seq<PendingBlob>)
    requires ValidRequest(files) && |entries| == |files| && Pends(blobs, entries, Sorted(files))
    ensures forall b | b in blobs :: Base64.Decode(b.content).Some? && b.entry in entries
  {
    hide Base64.Decode, ValidRequest, Sorted;
    forall b | b in blobs ensures Base64.Decode(b.content).Some? && b.entry in entries {
      var k :| 0 <= k < |files| && IsPending(Sorted(files)[k]) && b == PendingBlob(entries[k], Sorted(files)[k].content);
      SortedIsValid(files, k);
    }
  }

  /** An upload fills the entries of base64 files and no other. */
  lemma {:induction false} Unpended(entries: seq<TreeEntry>, files: seq<CommitFile>, blobs: seq<PendingBlob>)
    requires |entries| == |files| && Pends(blobs, entries, files)
    requires forall j, k | 0 <= j < k < |entries| :: entries[j] != entries[k]
    ensures forall k | 0 <= k < |files| && !IsPending(files[k]) :: entries[k] !in EntriesOf(blobs)
  {
    forall k | 0 <= k < |files| && entries[k] in EntriesOf(blobs) ensures IsPending(files[k]) {
      var i :| 0 <= i < |blobs| && blobs[i].entry == entries[k];
      assert blobs[i] in blobs;
      var j :| 0 <= j < |files| && IsPending(files[j]) && blobs[i] == PendingBlob(entries[j], files[j].content);
    }
  }

  lemma {:induction false} AllSettled(files: seq<CommitFile>, entries: seq<TreeEntry>, blobs: seq<PendingBlob>)
    requires ValidRequest(files) && |entries| == |files| && Pends(blobs, entries, Sorted(files))
    requires forall k | 0 <= k < |blobs| :: Filled(blobs[k].entry, blobs[k].content)
    requires forall k | 0 <= k < |files| && !IsPending(Sorted(files)[k]) :: Fresh(entries[k], Sorted(files)[k])
    requires forall k | 0 <= k < |files| :: entries[k].path == Sorted(files)[k].path
    ensures forall k | 0 <= k < |files| :: Settled(entries[k], Sorted(files)[k])
  {
    hide Base64.Decode, ValidRequest, Sorted;
    var sorted := Sorted(files);
    forall k | 0 <= k < |files| ensures Settled(entries[k], sorted[k]) {
      SortedIsValid(files, k);
      if IsPending(sorted[k]) {
        assert PendingBlob(entries[k], sorted[k].content) in blobs;
      }
    }
  }

  /** What the entries stand for once the blobs exist: the request, and nothing but the request. */
  lemma {:induction false} FilledIsRequest(entries: seq<TreeEntry>, files: seq<CommitFile>)
    requires |entries| == |files|
    requires forall k | 0 <= k < |files| :: Settled(entries[k], files[k])
    ensures Values(entries) == Map(EntryOf, files)
    ensures forall k | 0 <= k < |files| :: entries[k].sha == None && entries[k].content == None <==> files[k].delete
  {
    hide Base64.Decode;
  }

  lemma {:induction false} PendedEntries(entries: seq<TreeEntry>, blobs: seq<PendingBlob>)
    requires forall b | b in blobs :: b.entry in entries
    ensures EntriesOf(blobs) <= set e | e in entries
  {
  }

  /** The upload, seen from the entries: afterwards they stand for the request. */
  method FillEntries(host: BlobHost, files: seq<CommitFile>, entries: seq<TreeEntry>, blobs: seq<PendingBlob>) returns (ok: bool)
    requires ValidRequest(files) && Mirrors(entries, Sorted(files)) && Pends(blobs, entries, Sorted(files))
    modifies host, entries
    ensures ok ==> Values(entries) == RequestOf(files)
    ensures ok ==> forall k | 0 <= k < |files| :: entries[k].sha == None && entries[k].content == None <==> Sorted(files)[k].delete
  {
    PendingDecodes(files, entries, blobs);
    ghost var sorted := Sorted(files);
    Unpended(entries, sorted, blobs);
    hide ValidRequest, Sorted, Pends, Filled, EntriesOf, Settled, Values;
    assert forall k | 0 <= k < |sorted| :: Fresh(entries[k], sorted[k]);
    assert EntriesOf(blobs) <= set e | e in entries by {
      PendedEntries(entries, blobs);
    }
    ok := CreatePendingBlobs(host, blobs);
    if ok {
      AllSettled(files, entries, blobs);
      FilledIsRequest(entries, Sorted(files));
    }
  }

  /**
   * The entries of CommitFiles up to the filter: after the blobs are created, the complete list
   * that is kept for a retry and the filtered list share their objects, so both carry the ids.
   * The complete list stands for the request as it was made; an entry has neither id nor
   * content exactly when its file is a deletion; the filtered list has the same effect on the base.
   */
  method PrepareEntries(host: BlobHost, files: seq<CommitFile>, listing: Option<Listing>)
    returns (ok: bool, requested: seq<TreeEntry>, requestedFiles: seq<string>, kept: seq<TreeEntry>, keptFiles: seq<string>)
    modifies host
    ensures ok ==> ValidRequest(files) && |requested| == |files|
    ensures ok ==> Values(requested) == RequestOf(files) && Aligned(requested, requestedFiles)
    ensures ok ==> forall k | 0 <= k < |files| :: requested[k].sha == None && requested[k].content == None <==> Sorted(files)[k].delete
    ensures ok ==> Values(kept) == Kept(ListingOf(listing), RequestOf(files)) && Aligned(kept, keptFiles)
  {
    requested, requestedFiles, kept, keptFiles := [], [], [], [];
    var blobs: seq<PendingBlob>;
    ok, requested, requestedFiles, blobs := GitTreeEntries(files);
    if !ok {
      return;
    }
    ok := FillEntries(host, files, requested, blobs);
    if !ok {
      return;
    }
    kept, keptFiles := FilterNoop(requested, requestedFiles, listing);
  }

  lemma {:induction false} RequestDistinct(files: seq<CommitFile>)
    requires ValidRequest(files)
    ensures DistinctPaths(RequestOf(files))
  {
    hide SortBy, BytesOf;
    var all := Map(Cleaned, files);
    SortByMultiset(FilePath, all);
    DistinctPermuted(FilePath, all, Sorted(files));
    var sorted, request := Sorted(files), RequestOf(files);
    forall i, j | 0 <= i < j < |request| ensures request[i].path != request[j].path {
      assert FilePath(sorted[i]) != FilePath(sorted[j]);
    }
  }

  /** Filtering the entries of a valid request changes its effect on no base tree. */
  lemma {:induction false} FilteredRequest(files: seq<CommitFile>, base: Tree, listing: Option<Listing>)
    requires ValidRequest(files) && Lists(ListingOf(listing), base)
    ensures Apply(base, Kept(ListingOf(listing), RequestOf(files))) == Apply(base, RequestOf(files))
  {
    RequestDistinct(files);
    FilterKeepsMeaning(base, ListingOf(listing), RequestOf(files));
  }

  // What the entries of a request say, in the terms of its files.

  /** A file that a commit takes: a path inside, no content if it is deleted, and text or the encoding of some bytes. */
  lemma {:induction false} ValidExactly(f: CommitFile)
    ensures ValidFile(f) <==>
      && CleanRepositoryPath(f.path).Ok? && (f.delete ==> f.content == "")
      && (f.encoding == "" || f.encoding == "base64")
      && (f.encoding == "base64" && !f.delete ==> exists data :: IsBytes(data) && f.content == Base64.Encode(data))
  {
    hide CleanRepositoryPath, Base64.Decode, Base64.Encode;
    if Base64.Decode(f.content).Some? {
      Base64.DecodeIsInverse(f.content, Base64.Decode(f.content).value);
    }
    if data :| IsBytes(data) && f.content == Base64.Encode(data) {
      Base64.DecodeIsInverse(f.content, data);
    }
  }

  /** The entry says what its file asks for: its clean path, and no content, the text, or the bytes that were encoded. */
  ghost predicate Says(e: Entry, f: CommitFile) {
    && CleanRepositoryPath(f.path) == Ok(e.path)
    && (e.content.None? <==> f.delete)
    && (e.content.Some? && f.encoding == "" ==> e.content.value == f.content)
    && (e.content.Some? && f.encoding == "base64" ==> IsBytes(e.content.value) && f.content == Base64.Encode(e.content.value))
  }

  lemma {:induction false} EntrySays(f: CommitFile)
    requires ValidFile(f)
    ensures Says(EntryOf(Cleaned(f)), f)
  {
    hide CleanRepositoryPath, Base64.Decode, Base64.Encode;
    if Base64.Decode(f.content).Some? {
      Base64.DecodeIsInverse(f.content, Base64.Decode(f.content).value);
    }
  }

  lemma {:induction false} FileHasEntry(files: seq<CommitFile>, k: nat)
    requires ValidRequest(files) && k < |files|
    ensures EntryOf(Cleaned(files[k])) in RequestOf(files) && Says(EntryOf(Cleaned(files[k])), files[k])
  {
    hide Says, EntryOf, Cleaned, SortBy, Sorted, CleanRepositoryPath, Base64.Decode;
    EntrySays(files[k]);
    var all, sorted := Map(Cleaned, files), Sorted(files);
    InAll(files, all[k]);
    var j :| 0 <= j < |sorted| && sorted[j] == all[k];
    assert RequestOf(files)[j] == EntryOf(all[k]);
  }

  lemma {:induction false} EntryHasFile(files: seq<CommitFile>, e: Entry) returns (k: nat)
    requires ValidRequest(files) && e in RequestOf(files)
    ensures k < |files| && Says(e, files[k])
  {
    hide Says, EntryOf, Cleaned, SortBy, Sorted, CleanRepositoryPath, Base64.Decode;
    var all, sorted := Map(Cleaned, files), Sorted(files);
    var j :| 0 <= j < |sorted| && RequestOf(files)[j] == e;
    InAll(files, sorted[j]);
    k :| 0 <= k < |all| && all[k] == sorted[j];
    EntrySays(files[k]);
  }

  /** Every file of a valid request has its entry, and every entry its file; paths increase. */
  lemma {:induction false} RequestSays(files: seq<CommitFile>)
    requires ValidRequest(files)
    ensures |RequestOf(files)| == |files|
    ensures forall k | 0 <= k < |files| :: exists e :: e in RequestOf(files) && Says(e, files[k])
    ensures forall e | e in RequestOf(files) :: exists k :: 0 <= k < |files| && Says(e, files[k])
    ensures forall i, j | 0 <= i < j < |files| :: Less(RequestOf(files)[i].path, RequestOf(files)[j].path)
  {
    RequestOrder(files);
    hide *;
    forall k | 0 <= k < |files| ensures exists e :: e in RequestOf(files) && Says(e, files[k]) {
      FileHasEntry(files, k);
    }
    forall e | e in RequestOf(files) ensures exists k :: 0 <= k < |files| && Says(e, files[k]) {
      var _ := EntryHasFile(files, e);
    }
  }

  lemma {:induction false} RequestOrder(files: seq<CommitFile>)
    requires ValidRequest(files)
    ensures |RequestOf(files)| == |files|
    ensures forall i, j | 0 <= i < j < |files| :: Less(RequestOf(files)[i].path, RequestOf(files)[j].path)
  {
    hide Cleaned, ValidFile, Less, EntryOf, SortBy;
    SortByCanonical(FilePath, Map(Cleaned, files), Map(Cleaned, files));
    RequestIncreases(files);
  }

  lemma {:induction false} RequestIncreases(files: seq<CommitFile>)
    requires IncreasingBy(FilePath, Sorted(files))
    ensures forall i, j | 0 <= i < j < |files| :: Less(RequestOf(files)[i].path, RequestOf(files)[j].path)
  {
    hide Less, Sorted, BytesOf;
    var sorted := Sorted(files);
    assert forall k | 0 <= k < |files| :: RequestOf(files)[k].path == FilePath(sorted[k]);
  }
}
