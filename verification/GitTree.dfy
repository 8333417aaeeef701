/** What a commit request does to a tree, and why dropping its no-op deletions does not change that. */
module GitTree {
  import opened Prelude
  import opened Sequences

  type Path = string

  /** A tree as a flat map from full path to file content; the host addresses trees by content. */
  type Tree = map<Path, string>

  /** One change of a request: new content, or none for a deletion. */
  datatype Entry = Entry(path: Path, content: Option<string>)

  predicate IsDeletion(e: Entry) {
    e.content.None?
  }

  function PathsOf(entries: seq<Entry>): seq<Path> {
    seq(|entries|, i requires 0 <= i < |entries| => entries[i].path)
  }

  ghost predicate DistinctPaths(entries: seq<Entry>) {
    forall i, j | 0 <= i < j < |entries| :: entries[i].path != entries[j].path
  }

  /** The host applies one change after another. */
  function Apply(base: Tree, entries: seq<Entry>): Tree
    decreases |entries|
  {
    if entries == [] then base
    else
      var e := entries[0];
      Apply(if e.content.Some? then base[e.path := e.content.value] else base - {e.path}, entries[1..])
  }

  /** The request holds of a tree: each write is there, and each deleted path is gone. */
  ghost predicate Satisfies(tree: Tree, entries: seq<Entry>) {
    forall i | 0 <= i < |entries| ::
      if entries[i].content.Some? then entries[i].path in tree && tree[entries[i].path] == entries[i].content.value
      else entries[i].path !in tree
  }

  /** The paths that a request does not name. */
  ghost predicate Untouched(base: Tree, tree: Tree, entries: seq<Entry>) {
    forall p | p !in PathsOf(entries) :: (p in tree <==> p in base) && (p in base && p in tree ==> tree[p] == base[p])
  }

  lemma {:induction false} ApplyOutside(base: Tree, entries: seq<Entry>, p: Path)
    requires p !in PathsOf(entries)
    ensures p in Apply(base, entries) <==> p in base
    ensures p in base ==> Apply(base, entries)[p] == base[p]
    decreases |entries|
  {
    if entries != [] {
      var e := entries[0];
      assert PathsOf(entries)[0] == e.path;
      forall q | q in PathsOf(entries[1..]) ensures q in PathsOf(entries) {
        var i :| 0 <= i < |entries[1..]| && entries[1..][i].path == q;
        assert PathsOf(entries)[i + 1] == q;
      }
      ApplyOutside(if e.content.Some? then base[e.path := e.content.value] else base - {e.path}, entries[1..], p);
    }
  }

  lemma {:induction false} ApplyInside(base: Tree, entries: seq<Entry>, i: nat)
    requires DistinctPaths(entries) && i < |entries|
    ensures var e, tree := entries[i], Apply(base, entries);
      if e.content.Some? then e.path in tree && tree[e.path] == e.content.value else e.path !in tree
    decreases |entries|
  {
    var e := entries[0];
    var next := if e.content.Some? then base[e.path := e.content.value] else base - {e.path};
    if i == 0 {
      ApplyOutside(next, entries[1..], e.path);
    } else {
      ApplyInside(next, entries[1..], i - 1);
    }
  }

  /** Applying a request gives the one tree that satisfies it and keeps every other path. */
  lemma {:induction false} ApplyMeans(base: Tree, entries: seq<Entry>, tree: Tree)
    requires DistinctPaths(entries)
    ensures tree == Apply(base, entries) <==> Satisfies(tree, entries) && Untouched(base, tree, entries)
  {
    var applied := Apply(base, entries);
    forall i | 0 <= i < |entries|
      ensures if entries[i].content.Some? then entries[i].path in applied && applied[entries[i].path] == entries[i].content.value
              else entries[i].path !in applied
    {
      ApplyInside(base, entries, i);
    }
    forall p | p !in PathsOf(entries) ensures (p in applied <==> p in base) && (p in base ==> applied[p] == base[p]) {
      ApplyOutside(base, entries, p);
    }
    if Satisfies(tree, entries) && Untouched(base, tree, entries) {
      hide Apply;
      forall p ensures p in tree <==> p in applied
               ensures p in tree && p in applied ==> tree[p] == applied[p] {
        if p in PathsOf(entries) {
          var i :| 0 <= i < |entries| && entries[i].path == p;
        }
      }
    }
  }

  // The deletion filter.

  /** What the host lists of the base tree; a truncated listing may miss paths. */
  datatype Listing = Listing(paths: set<Path>, truncated: bool)

  ghost predicate Lists(l: Listing, base: Tree) {
    l.truncated || l.paths == base.Keys
  }

  /** The deletions that stay: of present paths, or all if the listing cannot prove absence. */
  predicate Keeps(l: Listing, e: Entry) {
    !IsDeletion(e) || l.truncated || e.path in l.paths
  }

  function Kept(l: Listing, entries: seq<Entry>): seq<Entry> {
    if entries == [] then []
    else if Keeps(l, entries[0]) then [entries[0]] + Kept(l, entries[1..])
    else Kept(l, entries[1..])
  }

  lemma {:induction false} KeptAppend(l: Listing, entries: seq<Entry>, e: Entry)
    ensures Kept(l, entries + [e]) == Kept(l, entries) + (if Keeps(l, e) then [e] else [])
  {
    if entries == [] {
      assert entries + [e] == [e] && (entries + [e])[1..] == [];
    } else {
      KeptAppend(l, entries[1..], e);
      assert (entries + [e])[1..] == entries[1..] + [e];
    }
  }

  lemma {:induction false} KeptMember(l: Listing, entries: seq<Entry>, e: Entry)
    ensures e in Kept(l, entries) <==> e in entries && Keeps(l, e)
  {
    if entries != [] {
      KeptMember(l, entries[1..], e);
    }
  }

  lemma {:induction false} KeptAll(l: Listing, entries: seq<Entry>)
    requires forall e | e in entries :: Keeps(l, e)
    ensures Kept(l, entries) == entries
  {
    if entries != [] {
      KeptAll(l, entries[1..]);
      assert entries == [entries[0]] + entries[1..];
    }
  }

  lemma {:induction false} KeptDistinct(l: Listing, entries: seq<Entry>)
    requires DistinctPaths(entries)
    ensures DistinctPaths(Kept(l, entries))
  {
    if entries != [] {
      KeptDistinct(l, entries[1..]);
      var rest := Kept(l, entries[1..]);
      forall k | 0 <= k < |rest| ensures rest[k].path != entries[0].path {
        KeptMember(l, entries[1..], rest[k]);
      }
    }
  }

  /**
   * Filtering keeps the meaning of a request for every base tree, with a complete or a truncated
   * listing; it drops no write; and what it leaves of a complete listing never deletes an absent path.
   */
  lemma {:induction false} FilterKeepsMeaning(base: Tree, l: Listing, entries: seq<Entry>)
    requires Lists(l, base)
    ensures DistinctPaths(entries) ==> Apply(base, Kept(l, entries)) == Apply(base, entries)
    ensures forall e | e in entries && e.content.Some? :: e in Kept(l, entries)
    ensures !l.truncated ==> forall e | e in Kept(l, entries) && IsDeletion(e) :: e.path in base
  {
    forall e | e in entries && e.content.Some? ensures e in Kept(l, entries) {
      KeptMember(l, entries, e);
    }
    forall e | e in Kept(l, entries) && IsDeletion(e) && !l.truncated ensures e.path in base {
      KeptMember(l, entries, e);
    }
    if DistinctPaths(entries) {
      FilteredApply(base, l, entries);
    }
  }

  lemma {:induction false} FilteredApply(base: Tree, l: Listing, entries: seq<Entry>)
    requires Lists(l, base) && DistinctPaths(entries)
    ensures Apply(base, Kept(l, entries)) == Apply(base, entries)
  {
    var kept, tree := Kept(l, entries), Apply(base, entries);
    KeptDistinct(l, entries);
    ApplyMeans(base, entries, tree);
    ApplyMeans(base, kept, tree);
    hide Apply;
    forall k | 0 <= k < |kept|
      ensures if kept[k].content.Some? then kept[k].path in tree && tree[kept[k].path] == kept[k].content.value
              else kept[k].path !in tree
    {
      KeptMember(l, entries, kept[k]);
      var i :| 0 <= i < |entries| && entries[i] == kept[k];
    }
    forall p | p !in PathsOf(kept) ensures (p in tree <==> p in base) && (p in base && p in tree ==> tree[p] == base[p]) {
      if p in PathsOf(entries) {
        var i :| 0 <= i < |entries| && entries[i].path == p;
        KeptMember(l, entries, entries[i]);
        assert forall k | 0 <= k < |kept| :: PathsOf(kept)[k] == kept[k].path;
      }
    }
  }

  /** Nothing is left exactly when the request asks for nothing that the base does not have already. */
  lemma {:induction false} NothingLeft(base: Tree, l: Listing, entries: seq<Entry>)
    requires Lists(l, base) && !l.truncated
    ensures Kept(l, entries) == [] <==> forall e | e in entries :: IsDeletion(e) && e.path !in base
    ensures Kept(l, entries) == [] ==> Satisfies(base, entries)
  {
    forall e | e in entries ensures e in Kept(l, entries) <==> !(IsDeletion(e) && e.path !in base) {
      KeptMember(l, entries, e);
    }
    if Kept(l, entries) != [] {
      KeptMember(l, entries, Kept(l, entries)[0]);
    }
  }
}
