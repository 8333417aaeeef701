/** How file paths are cleaned when a bundle is stored, and again when it is committed. */
module Paths {
  import opened Prelude
  import opened Strings

  const MAX_PATH_LENGTH: nat := 1024

  function Slashes(raw: string): string {
    seq(|raw|, i requires 0 <= i < |raw| => if raw[i] == '\\' then '/' else raw[i])
  }

  /** Lexical cleaning of path components, appended to those already kept (path.Clean). */
  function CleanParts(kept: seq<string>, parts: seq<string>, rooted: bool): seq<string>
    decreases |parts|
  {
    if parts == [] then kept
    else
      var part, rest := parts[0], parts[1..];
      if part == "" || part == "." then CleanParts(kept, rest, rooted)
      else if part != ".." then CleanParts(kept + [part], rest, rooted)
      else if kept != [] && kept[|kept| - 1] != ".." then CleanParts(kept[..|kept| - 1], rest, rooted)
      else if rooted then CleanParts(kept, rest, rooted)
      else CleanParts(kept + [part], rest, rooted)
  }

  function Parts(path: string): seq<string> {
    CleanParts([], Split(path, '/'), false)
  }

  /** filepath.Clean of a relative path. */
  function Clean(path: string): string {
    var parts := Parts(path);
    if parts == [] then "." else Join(parts, '/')
  }

  /** cleanPath: the path under which a bundle stores a file. */
  function CleanPath(raw: string): Result<string> {
    var path := TrimSpace(Slashes(raw));
    if path == "" then Err("file path is required")
    else if |path| > MAX_PATH_LENGTH then Err("file path is too long")
    else if '\0' in path then Err("file path contains a null byte")
    else if path[0] == '/' then Err("file path must be relative")
    else
      var cleaned := Clean(path);
      if cleaned == "." || cleaned == ".." || "../" <= cleaned then Err("file path escapes the repository")
      else Ok(cleaned)
  }

  /** cleanRepositoryPath: the path under which a commit writes a file. */
  function CleanRepositoryPath(raw: string): Result<string> {
    var path := TrimSpace(Slashes(raw));
    if path == "" then Err("file path cannot be empty")
    else if path[0] == '/' then Err("file path must be relative")
    else if ".." in Split(path, '/') then Err("file path cannot contain parent traversal")
    else if exists k :: 0 <= k < |Split(path, '/')| && '\0' in Split(path, '/')[k] then Err("file path cannot contain NUL")
    else
      var parts := CleanParts([], Split(path, '/'), true);
      if parts == [] then Err("file path cannot be empty") else Ok(Join(parts, '/'))
  }

  // Shape of cleaned components.

  predicate Plain(part: string) {
    part != "" && part != "." && part != ".." && '/' !in part
  }

  /** Parent components occur only at the front. */
  predicate Tidy(parts: seq<string>) {
    forall k | 0 <= k < |parts| ::
      (Plain(parts[k]) || parts[k] == "..") && (k > 0 && parts[k] == ".." ==> parts[k - 1] == "..")
  }

  lemma {:induction false} CleanPartsTidy(kept: seq<string>, parts: seq<string>, rooted: bool)
    requires Tidy(kept)
    requires forall k | 0 <= k < |parts| :: '/' !in parts[k]
    ensures Tidy(CleanParts(kept, parts, rooted))
    decreases |parts|
  {
    if parts != [] {
      var part, rest := parts[0], parts[1..];
      if part == "" || part == "." {
        CleanPartsTidy(kept, rest, rooted);
      } else if part != ".." {
        CleanPartsTidy(kept + [part], rest, rooted);
      } else if kept != [] && kept[|kept| - 1] != ".." {
        CleanPartsTidy(kept[..|kept| - 1], rest, rooted);
      } else if rooted {
        CleanPartsTidy(kept, rest, rooted);
      } else {
        CleanPartsTidy(kept + [part], rest, rooted);
      }
    }
  }

  /** Cleaning keeps only given components. */
  lemma {:induction false} CleanPartsFrom(kept: seq<string>, parts: seq<string>, rooted: bool, k: nat)
    requires k < |CleanParts(kept, parts, rooted)|
    ensures CleanParts(kept, parts, rooted)[k] in kept || CleanParts(kept, parts, rooted)[k] in parts
    decreases |parts|
  {
    if parts != [] {
      var part, rest := parts[0], parts[1..];
      if part == "" || part == "." {
        CleanPartsFrom(kept, rest, rooted, k);
      } else if part != ".." {
        CleanPartsFrom(kept + [part], rest, rooted, k);
      } else if kept != [] && kept[|kept| - 1] != ".." {
        CleanPartsFrom(kept[..|kept| - 1], rest, rooted, k);
      } else if rooted {
        CleanPartsFrom(kept, rest, rooted, k);
      } else {
        CleanPartsFrom(kept + [part], rest, rooted, k);
      }
    }
  }

  /** Plain components are kept as they are. */
  lemma {:induction false} CleanPartsPlain(kept: seq<string>, parts: seq<string>, rooted: bool)
    requires forall k | 0 <= k < |parts| :: Plain(parts[k])
    ensures CleanParts(kept, parts, rooted) == kept + parts
    decreases |parts|
  {
    if parts != [] {
      CleanPartsPlain(kept + [parts[0]], parts[1..], rooted);
      assert kept + [parts[0]] + parts[1..] == kept + parts;
    }
  }

  /** The length of components joined with a separator after each. */
  function Extent(parts: seq<string>): nat {
    if parts == [] then 0 else |parts[0]| + 1 + Extent(parts[1..])
  }

  lemma {:induction false} ExtentAppend(parts: seq<string>, last: string)
    ensures Extent(parts + [last]) == Extent(parts) + |last| + 1
  {
    if parts == [] {
      assert parts + [last] == [last];
    } else {
      ExtentAppend(parts[1..], last);
      assert (parts + [last])[1..] == parts[1..] + [last];
    }
  }

  lemma {:induction false} CleanPartsShrink(kept: seq<string>, parts: seq<string>, rooted: bool)
    ensures Extent(CleanParts(kept, parts, rooted)) <= Extent(kept) + Extent(parts)
    decreases |parts|
  {
    if parts != [] {
      var part, rest := parts[0], parts[1..];
      if part == "" || part == "." {
        CleanPartsShrink(kept, rest, rooted);
      } else if part != ".." {
        ExtentAppend(kept, part);
        CleanPartsShrink(kept + [part], rest, rooted);
      } else if kept != [] && kept[|kept| - 1] != ".." {
        ExtentAppend(kept[..|kept| - 1], kept[|kept| - 1]);
        assert kept[..|kept| - 1] + [kept[|kept| - 1]] == kept;
        CleanPartsShrink(kept[..|kept| - 1], rest, rooted);
      } else if rooted {
        CleanPartsShrink(kept, rest, rooted);
      } else {
        ExtentAppend(kept, part);
        CleanPartsShrink(kept + [part], rest, rooted);
      }
    }
  }

  lemma {:induction false} JoinExtent(parts: seq<string>, sep: char)
    requires parts != []
    ensures |Join(parts, sep)| == Extent(parts) - 1
  {
    if |parts| > 1 {
      JoinExtent(parts[1..], sep);
    }
  }

  lemma {:induction false} SplitExtent(s: string, sep: char)
    ensures Extent(Split(s, sep)) == |s| + 1
  {
    if s != "" {
      SplitExtent(s[1..], sep);
    }
  }

  /** Cleaning never makes a path longer. */
  lemma {:induction false} CleanShrinks(path: string, rooted: bool)
    ensures var parts := CleanParts([], Split(path, '/'), rooted); parts != [] ==> |Join(parts, '/')| <= |path|
  {
    var parts := CleanParts([], Split(path, '/'), rooted);
    CleanPartsShrink([], Split(path, '/'), rooted);
    SplitExtent(path, '/');
    if parts != [] {
      JoinExtent(parts, '/');
    }
  }

  lemma {:induction false} TidyIsPlain(parts: seq<string>, k: nat)
    requires Tidy(parts) && k < |parts| && parts[0] != ".."
    ensures Plain(parts[k])
  {
    if k > 0 {
      TidyIsPlain(parts, k - 1);
    }
  }

  lemma {:induction false} JoinChars(parts: seq<string>, sep: char, c: char)
    requires c != sep && forall k | 0 <= k < |parts| :: c !in parts[k]
    ensures c !in Join(parts, sep)
  {
    if |parts| > 1 {
      JoinChars(parts[1..], sep, c);
    }
  }

  lemma {:induction false} TrimmedChars(s: string, c: char)
    requires c !in s
    ensures c !in TrimSpace(s)
  {
    var _, _ := TrimSlice(s);
  }

  lemma {:induction false} SplitChars(path: string, c: char, k: nat)
    requires c !in path && k < |Split(path, '/')|
    ensures c !in Split(path, '/')[k] && '/' !in Split(path, '/')[k]
  {
    SplitParts(path, '/', k);
  }

  /** The components of a path that does not lead out of the repository. */
  lemma {:induction false} InnerParts(path: string, parts: seq<string>)
    requires parts == Parts(path) && parts != [] && parts[0] != ".."
    ensures forall k | 0 <= k < |parts| :: Plain(parts[k])
  {
    forall k | 0 <= k < |Split(path, '/')| ensures '/' !in Split(path, '/')[k] {
      SplitParts(path, '/', k);
    }
    CleanPartsTidy([], Split(path, '/'), false);
    forall k | 0 <= k < |parts| ensures Plain(parts[k]) {
      TidyIsPlain(parts, k);
    }
  }

  lemma {:induction false} CleanChars(path: string, parts: seq<string>, c: char)
    requires parts == Parts(path) && c !in path && c != '/'
    ensures c !in Join(parts, '/')
  {
    forall k | 0 <= k < |parts| ensures c !in parts[k] {
      CleanPartsFrom([], Split(path, '/'), false, k);
      forall j | 0 <= j < |Split(path, '/')| ensures c !in Split(path, '/')[j] {
        SplitChars(path, c, j);
      }
    }
    JoinChars(parts, '/', c);
  }

  lemma {:induction false} CleanPathParts(raw: string, q: string) returns (path: string, parts: seq<string>)
    requires CleanPath(raw) == Ok(q)
    ensures path == TrimSpace(Slashes(raw)) && |path| <= MAX_PATH_LENGTH && '\0' !in path
    ensures parts == Parts(path) && parts != [] && parts[0] != ".." && q == Join(parts, '/')
  {
    path := TrimSpace(Slashes(raw));
    parts := Parts(path);
    if parts != [] {
      FirstPart(parts);
    }
  }

  /** What a stored path looks like: relative, with plain components only, and no NUL. */
  lemma {:induction false} StoredPathIsPlain(raw: string, q: string)
    requires CleanPath(raw) == Ok(q)
    ensures q != "" && q[0] != '/' && '\0' !in q && '\\' !in q && |q| <= MAX_PATH_LENGTH
    ensures forall k | 0 <= k < |Split(q, '/')| :: Plain(Split(q, '/')[k])
  {
    var path, parts := CleanPathParts(raw, q);
    InnerParts(path, parts);
    SplitJoin(parts, '/');
    TrimmedChars(Slashes(raw), '\\');
    CleanChars(path, parts, '\0');
    CleanChars(path, parts, '\\');
    CleanShrinks(path, false);
    assert q[0] == parts[0][0];
  }

  /** A joined path that starts with a parent component is exactly what the last test rejects. */
  lemma {:induction false} FirstPart(parts: seq<string>)
    requires parts != []
    ensures parts[0] == ".." ==> Join(parts, '/') == ".." || "../" <= Join(parts, '/')
  {
    if parts[0] == ".." && |parts| > 1 {
      var tail := Join(parts[1..], '/');
      assert Join(parts, '/') == ".." + ['/'] + tail;
      assert (".." + ['/'] + tail)[..3] == "../";
    }
  }

  lemma {:induction false} SlashesFixed(s: string)
    requires '\\' !in s
    ensures Slashes(s) == s
  {
  }

  /** What a path of plain components needs, so that cleaning it gives it back. */
  lemma {:induction false} PlainIsFixed(q: string)
    requires '\0' !in q && '\\' !in q && 0 < |q| <= MAX_PATH_LENGTH && TrimSpace(q) == q
    requires forall k | 0 <= k < |Split(q, '/')| :: Plain(Split(q, '/')[k])
    ensures CleanPath(q) == Ok(q) && CleanRepositoryPath(q) == Ok(q)
  {
    var parts := Split(q, '/');
    SlashesFixed(q);
    CleanPartsPlain([], parts, false);
    CleanPartsPlain([], parts, true);
    assert [] + parts == parts;
    SplitThenJoin(q, '/');
    assert Plain(parts[0]);
    if q == ".." || "../" <= q {
      FirstOfSplit(q);
    }
    assert q != "." && q[0] != '/' by {
      SplitOne(".", '/');
    }
    forall k | 0 <= k < |parts| ensures '\0' !in parts[k] {
      SplitChars(q, '\0', k);
    }
  }

  lemma {:induction false} RepositoryPathShrinks(q: string, p: string)
    requires CleanRepositoryPath(q) == Ok(p)
    ensures |p| <= |TrimSpace(Slashes(q))|
  {
    hide TrimSpace, Split, CleanParts, Slashes;
    CleanShrinks(TrimSpace(Slashes(q)), true);
  }

  lemma {:induction false} CleanPathShrinks(q: string, p: string)
    requires CleanPath(q) == Ok(p)
    ensures |p| <= |TrimSpace(Slashes(q))|
  {
    var path, _ := CleanPathParts(q, p);
    CleanShrinks(path, false);
  }

  /** Cleaning a stored path again, for a bundle or for a commit, changes it exactly when trimming does. */
  lemma {:induction false} StoredPathIsStable(raw: string, q: string)
    requires CleanPath(raw) == Ok(q)
    ensures CleanPath(q) == Ok(q) <==> TrimSpace(q) == q
    ensures CleanRepositoryPath(q) == Ok(q) <==> TrimSpace(q) == q
  {
    StoredPathIsPlain(raw, q);
    SlashesFixed(q);
    if TrimSpace(q) == q {
      PlainIsFixed(q);
    } else {
      var _, _ := TrimSlice(q);
      assert |TrimSpace(q)| < |q|;
      if CleanPath(q) == Ok(q) {
        CleanPathShrinks(q, q);
      }
      if CleanRepositoryPath(q) == Ok(q) {
        RepositoryPathShrinks(q, q);
      }
    }
  }

  lemma {:induction false} SplitThenJoin(s: string, sep: char)
    ensures Join(Split(s, sep), sep) == s
  {
    if s != "" {
      SplitThenJoin(s[1..], sep);
      var rest := Split(s[1..], sep);
      if s[0] == sep {
        assert Split(s, sep)[1..] == rest;
      } else {
        assert Split(s, sep)[1..] == rest[1..];
      }
      assert s == [s[0]] + s[1..];
    }
  }

  lemma {:induction false} FirstOfSplit(s: string)
    requires s == ".." || "../" <= s
    ensures Split(s, '/')[0] == ".."
  {
    if s == ".." {
      SplitOne(s, '/');
    } else {
      SplitConcat("..", '/', s[3..]);
      SplitOne("..", '/');
      assert ".." + ['/'] + s[3..] == s;
    }
  }

  /** A concrete path that is stored with white space at its edge, and would be committed without. */
  lemma {:induction false} EdgeSpaceIsUnstable() returns (raw: string, q: string)
    ensures CleanPath(raw) == Ok(q) && CleanPath(q) != Ok(q) && CleanRepositoryPath(q) != Ok(q)
  {
    raw, q := "./ a", " a";
    DotSpaceIsStored(raw, q);
    EdgeSpaceGoes(q);
    hide CleanPath, CleanRepositoryPath, TrimSpace;
    StoredPathIsStable(raw, q);
  }

  lemma {:induction false} DotSpaceIsStored(raw: string, q: string)
    requires raw == "./ a" && q == " a"
    ensures CleanPath(raw) == Ok(q)
  {
    hide TrimSpace, Parts;
    DotSpaceParts(raw);
    TrimmedDotSpace(raw);
    SlashesFixed(raw);
    assert Clean(raw) == q;
  }

  lemma {:induction false} EdgeSpaceGoes(q: string)
    requires q == " a"
    ensures TrimSpace(q) != q
  {
    hide TrimSpace;
    TrimFixed(q);
  }

  lemma {:induction false} TrimmedDotSpace(raw: string)
    requires raw == "./ a"
    ensures TrimSpace(raw) == raw
  {
    hide TrimSpace;
    TrimFixed(raw);
  }

  lemma {:induction false} DotSpaceParts(raw: string)
    requires raw == "./ a"
    ensures Parts(raw) == [" a"]
  {
    assert Split(raw, '/') == [".", " a"] by {
      SplitOne(".", '/');
      SplitOne(" a", '/');
      hide Split;
      SplitConcat(".", '/', " a");
      assert "." + ['/'] + " a" == raw;
    }
    hide Split;
    assert [".", " a"][1..] == [" a"] && [" a"][1..] == [];
    assert CleanParts([" a"], [], false) == [" a"];
    assert CleanParts([], [" a"], false) == [" a"];
  }

  // What cleaning means.

  lemma {:induction false} CleanInTurn(kept: seq<string>, a: seq<string>, b: seq<string>, rooted: bool)
    ensures CleanParts(kept, a + b, rooted) == CleanParts(CleanParts(kept, a, rooted), b, rooted)
    decreases |a|
  {
    if a == [] {
      assert a + b == b;
    } else {
      var part, rest := a[0], a[1..];
      assert (a + b)[0] == part && (a + b)[1..] == rest + b;
      if part == "" || part == "." {
        CleanInTurn(kept, rest, b, rooted);
      } else if part != ".." {
        CleanInTurn(kept + [part], rest, b, rooted);
      } else if kept != [] && kept[|kept| - 1] != ".." {
        CleanInTurn(kept[..|kept| - 1], rest, b, rooted);
      } else if rooted {
        CleanInTurn(kept, rest, b, rooted);
      } else {
        CleanInTurn(kept + [part], rest, b, rooted);
      }
    }
  }

  lemma {:induction false} CleanOne(kept: seq<string>, part: string, rooted: bool)
    ensures CleanParts(kept, [part], rooted) ==
      if part == "" || part == "." then kept
      else if part != ".." then kept + [part]
      else if kept != [] && kept[|kept| - 1] != ".." then kept[..|kept| - 1]
      else if rooted then kept
      else kept + [part]
  {
    assert [part][1..] == [];
  }

  /** A dot or an empty component can be left out anywhere. */
  lemma {:induction false} DotsDropOut(a: seq<string>, part: string, b: seq<string>, rooted: bool)
    requires part == "" || part == "."
    ensures CleanParts([], a + [part] + b, rooted) == CleanParts([], a + b, rooted)
  {
    hide CleanParts;
    var kept := CleanParts([], a, rooted);
    CleanInTurn([], a + [part], b, rooted);
    CleanInTurn([], a, [part], rooted);
    CleanOne(kept, part, rooted);
    CleanInTurn([], a, b, rooted);
  }

  /** A name and the parent component after it cancel anywhere. */
  lemma {:induction false} ParentCancelsName(a: seq<string>, name: string, b: seq<string>, rooted: bool)
    requires Plain(name)
    ensures CleanParts([], a + [name] + [".."] + b, rooted) == CleanParts([], a + b, rooted)
  {
    hide CleanParts;
    var kept := CleanParts([], a, rooted);
    CleanInTurn([], a + [name] + [".."], b, rooted);
    CleanInTurn([], a + [name], [".."], rooted);
    CleanInTurn([], a, [name], rooted);
    CleanOne(kept, name, rooted);
    CleanOne(kept + [name], "..", rooted);
    assert (kept + [name])[..|kept|] == kept;
    CleanInTurn([], a, b, rooted);
  }

  /** How deep the components lead, counted from where they start. */
  function Depth(parts: seq<string>): int {
    if parts == [] then 0
    else
      var n := |parts| - 1;
      Depth(parts[..n]) + if parts[n] == ".." then -1 else if parts[n] == "" || parts[n] == "." then 0 else 1
  }

  /** On their way the components lead above where they start. */
  predicate Climbs(parts: seq<string>) {
    exists n :: 0 <= n <= |parts| && Depth(parts[..n]) < 0
  }

  lemma {:induction false} ClimbsOneMore(parts: seq<string>)
    requires parts != []
    ensures Climbs(parts) <==> Climbs(parts[..|parts| - 1]) || Depth(parts) < 0
  {
    hide Depth;
    var m := |parts| - 1;
    if n :| 0 <= n <= |parts| && Depth(parts[..n]) < 0 {
      if n <= m {
        assert parts[..m][..n] == parts[..n];
      } else {
        assert parts[..n] == parts;
      }
    }
    if n :| 0 <= n <= m && Depth(parts[..m][..n]) < 0 {
      assert parts[..m][..n] == parts[..n];
    }
    if Depth(parts) < 0 {
      assert parts[..|parts|] == parts;
    }
  }

  /** Cleaning keeps a parent component in front exactly if the path climbs out, and otherwise one name for each level. */
  lemma {:induction false} CleanedDepth(parts: seq<string>)
    requires forall k | 0 <= k < |parts| :: '/' !in parts[k]
    ensures var r := CleanParts([], parts, false);
      if Climbs(parts) then r != [] && r[0] == ".." else |r| == Depth(parts) && (r != [] ==> r[0] != "..")
  {
    if parts == [] {
      assert Depth(parts[..0]) == 0;
    } else {
      var m := |parts| - 1;
      CleanedDepth(parts[..m]);
      ClimbsOneMore(parts);
      CleanInTurn([], parts[..m], [parts[m]], false);
      assert parts == parts[..m] + [parts[m]];
      var before := CleanParts([], parts[..m], false);
      CleanPartsTidy([], parts[..m], false);
      CleanOne(before, parts[m], false);
      hide CleanParts, Climbs;
      if !Climbs(parts[..m]) && before != [] {
        TidyIsPlain(before, |before| - 1);
      }
    }
  }

  /** The paths that a bundle stores: given, short, without NUL, relative, and leading to a place inside. */
  lemma {:induction false} StoredExactlyWhenInside(raw: string)
    ensures var path := TrimSpace(Slashes(raw));
      CleanPath(raw).Ok? <==>
        && path != "" && |path| <= MAX_PATH_LENGTH && '\0' !in path && path[0] != '/'
        && !Climbs(Split(path, '/')) && Depth(Split(path, '/')) > 0
  {
    var path := TrimSpace(Slashes(raw));
    var steps, parts := Split(path, '/'), Parts(path);
    forall k | 0 <= k < |steps| ensures '/' !in steps[k] {
      SplitParts(path, '/', k);
    }
    CleanedDepth(steps);
    hide Split, TrimSpace, Slashes, Climbs, Depth;
    if parts != [] {
      CleanedEscapes(path, parts);
    }
  }

  /** The last test rejects exactly the joined paths with a parent component in front. */
  lemma {:induction false} CleanedEscapes(path: string, parts: seq<string>)
    requires parts == Parts(path) && parts != []
    ensures var q := Join(parts, '/');
      q == "." || q == ".." || "../" <= q <==> parts[0] == ".."
  {
    FirstPart(parts);
    var q := Join(parts, '/');
    forall k | 0 <= k < |Split(path, '/')| ensures '/' !in Split(path, '/')[k] {
      SplitParts(path, '/', k);
    }
    CleanPartsTidy([], Split(path, '/'), false);
    forall k | 0 <= k < |parts| ensures '/' !in parts[k] {
      assert Plain(parts[k]) || parts[k] == "..";
    }
    SplitJoin(parts, '/');
    if q == ".." || "../" <= q {
      FirstOfSplit(q);
    } else if q == "." {
      SplitOne(q, '/');
    }
  }

  /** The components that name something. */
  function Names(parts: seq<string>): seq<string> {
    if parts == [] then []
    else (if parts[0] == "" || parts[0] == "." then [] else [parts[0]]) + Names(parts[1..])
  }

  lemma {:induction false} CleanedNames(kept: seq<string>, parts: seq<string>, rooted: bool)
    requires ".." !in parts
    ensures CleanParts(kept, parts, rooted) == kept + Names(parts)
    decreases |parts|
  {
    if parts == [] {
      assert kept + [] == kept;
    } else if parts[0] == "" || parts[0] == "." {
      CleanedNames(kept, parts[1..], rooted);
      assert [] + Names(parts[1..]) == Names(parts[1..]);
    } else {
      CleanedNames(kept + [parts[0]], parts[1..], rooted);
      assert kept + [parts[0]] + Names(parts[1..]) == kept + ([parts[0]] + Names(parts[1..]));
    }
  }

  /** The paths that a commit takes: relative, without parent components and NUL, and naming something; the names stay as they are. */
  lemma {:induction false} CommittedExactlyWhenNamed(raw: string)
    ensures var path := TrimSpace(Slashes(raw));
      var parts := Split(path, '/');
      && (CleanRepositoryPath(raw).Ok? <==>
           path != "" && path[0] != '/' && ".." !in parts && '\0' !in path && Names(parts) != [])
      && (CleanRepositoryPath(raw).Ok? ==> CleanRepositoryPath(raw).value == Join(Names(parts), '/'))
  {
    var path := TrimSpace(Slashes(raw));
    var parts := Split(path, '/');
    hide TrimSpace, Slashes, CleanParts;
    if ".." !in parts {
      CleanedNames([], parts, true);
      assert [] + Names(parts) == Names(parts);
    }
    NulInParts(path, parts);
    hide Split, Names;
  }

  lemma {:induction false} NulInParts(path: string, parts: seq<string>)
    requires parts == Split(path, '/')
    ensures (exists k :: 0 <= k < |parts| && '\0' in parts[k]) <==> '\0' in path
  {
    if k: nat :| k < |parts| && '\0' in parts[k] {
      if '\0' !in path {
        SplitChars(path, '\0', k);
      }
    } else {
      JoinChars(parts, '/', '\0');
      SplitThenJoin(path, '/');
    }
  }
}
