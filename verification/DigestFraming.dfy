/** The bytes that are hashed into a bundle's digest, and what they determine. */
module DigestFraming {
  import opened Ordering

  const MAX_TOTAL_BYTES: nat := 0x300_0000

  /** One file as the digester sees it: its decoded bytes, none for a deletion. */
  datatype Framed = Framed(path: string, deleted: bool, data: string)

  /** A number in `width` bytes, most significant byte first. */
  function BigEndian(n: nat, width: nat): (s: string)
    ensures |s| == width
  {
    if width == 0 then "" else BigEndian(n / 256, width - 1) + [(n % 256) as char]
  }

  function Header(f: Framed, hasDelete: bool): string {
    if hasDelete then [if f.deleted then '\0' else '\U{1}'] + BigEndian(|f.data|, 8) else ""
  }

  function FrameFile(f: Framed, hasDelete: bool): string {
    f.path + ['\0'] + Header(f, hasDelete) + f.data + ['\0']
  }

  function Frame(files: seq<Framed>, hasDelete: bool): string {
    if files == [] then "" else FrameFile(files[0], hasDelete) + Frame(files[1..], hasDelete)
  }

  lemma {:induction false} FrameAppend(files: seq<Framed>, f: Framed, hasDelete: bool)
    ensures Frame(files + [f], hasDelete) == Frame(files, hasDelete) + FrameFile(f, hasDelete)
  {
    if files == [] {
      assert files + [f] == [f] && FrameFile(f, hasDelete) + Frame([], hasDelete) == FrameFile(f, hasDelete);
    } else {
      FrameAppend(files[1..], f, hasDelete);
      assert (files + [f])[1..] == files[1..] + [f];
      assert FrameFile(files[0], hasDelete) + (Frame(files[1..], hasDelete) + FrameFile(f, hasDelete))
          == FrameFile(files[0], hasDelete) + Frame(files[1..], hasDelete) + FrameFile(f, hasDelete);
    }
  }

  /** SHA-256 is taken to be injective: a digest stands for the bytes that were hashed. */
  datatype Digest = Sha256(hashed: string)

  /** The running hash of a bundle. */
  class BundleDigester {
    const hasDelete: bool
    var written: string

    constructor (hasDelete: bool)
      ensures this.hasDelete == hasDelete && written == ""
    {
      this.hasDelete := hasDelete;
      written := "";
    }

    method Add(path: string, deleted: bool, data: string)
      modifies this
      ensures written == old(written) + FrameFile(Framed(path, deleted, data), hasDelete)
    {
      ghost var before := written;
      written := written + path + ['\0'];
      if hasDelete {
        if deleted {
          written := written + ['\0'];
        } else {
          written := written + ['\U{1}'];
        }
        written := written + BigEndian(|data|, 8);
      }
      assert written == before + (path + ['\0'] + Header(Framed(path, deleted, data), hasDelete));
      written := written + data + ['\0'];
    }

    method Sum() returns (digest: Digest)
      ensures digest == Sha256(written)
    {
      digest := Sha256(written);
    }
  }

  // What the bytes determine.

  lemma {:induction false} BigEndianInjective(m: nat, n: nat, width: nat)
    requires BigEndian(m, width) == BigEndian(n, width)
    requires m < Power256(width) && n < Power256(width)
    ensures m == n
  {
    if width > 0 {
      var a, b := BigEndian(m, width), BigEndian(n, width);
      assert a[..width - 1] == BigEndian(m / 256, width - 1) && b[..width - 1] == BigEndian(n / 256, width - 1);
      assert a[width - 1] == b[width - 1];
      BigEndianInjective(m / 256, n / 256, width - 1);
    }
  }

  function Power256(width: nat): nat {
    if width == 0 then 1 else 256 * Power256(width - 1)
  }

  /** A number below 256 to the power `low` leaves the bytes above those zero. */
  lemma {:induction false} LeadingZeros(n: nat, width: nat, low: nat, i: nat)
    requires low <= width && n < Power256(low) && i < width - low
    ensures BigEndian(n, width)[i] == '\0'
  {
    if low == 0 {
      assert n == 0;
      if i < width - 1 {
        LeadingZeros(0, width - 1, 0, i);
      }
    } else {
      LeadingZeros(n / 256, width - 1, low - 1, i);
    }
  }

  lemma {:induction false} PowersOf256()
    ensures Power256(4) == 0x1_0000_0000 && Power256(8) == 0x1_0000_0000_0000_0000
  {
    assert Power256(2) == 0x1_0000;
    assert Power256(4) == 256 * 256 * Power256(2);
    assert Power256(6) == 256 * 256 * Power256(4);
    assert Power256(8) == 256 * 256 * Power256(6);
  }

  /** The first NUL byte separates a NUL-free prefix from the rest. */
  lemma {:induction false} FirstNul(p: string, q: string, r: string, t: string)
    requires '\0' !in p && '\0' !in q && p + ['\0'] + r == q + ['\0'] + t
    ensures p == q && r == t
  {
    var s := p + ['\0'] + r;
    assert s[0] == (if p == "" then '\0' else p[0]) == (if q == "" then '\0' else q[0]);
    if p == "" {
      assert r == s[1..] == t;
    } else {
      assert p[1..] + ['\0'] + r == s[1..] == q[1..] + ['\0'] + t;
      FirstNul(p[1..], q[1..], r, t);
      assert p == [p[0]] + p[1..] && q == [q[0]] + q[1..];
    }
  }

  ghost predicate NulFreePaths(files: seq<Framed>) {
    forall k | 0 <= k < |files| :: '\0' !in files[k].path && files[k].path != ""
  }

  ghost predicate NulFreeData(files: seq<Framed>) {
    forall k | 0 <= k < |files| :: '\0' !in files[k].data
  }

  ghost predicate Upserts(files: seq<Framed>) {
    forall k | 0 <= k < |files| :: !files[k].deleted
  }

  ghost predicate Sized(files: seq<Framed>) {
    forall k | 0 <= k < |files| :: |files[k].data| <= MAX_TOTAL_BYTES
  }

  /** What follows the path of the first file in a frame. */
  function AfterPath(files: seq<Framed>, hasDelete: bool): string
    requires files != []
  {
    Header(files[0], hasDelete) + files[0].data + ['\0'] + Frame(files[1..], hasDelete)
  }

  lemma {:induction false} FrameSplit(files: seq<Framed>, hasDelete: bool)
    requires files != []
    ensures Frame(files, hasDelete) == files[0].path + ['\0'] + AfterPath(files, hasDelete)
  {
  }

  lemma {:induction false} SamePath(a: seq<Framed>, b: seq<Framed>, da: bool, db: bool)
    requires NulFreePaths(a) && NulFreePaths(b) && a != [] && b != [] && Frame(a, da) == Frame(b, db)
    ensures a[0].path == b[0].path && AfterPath(a, da) == AfterPath(b, db)
  {
    FrameSplit(a, da);
    FrameSplit(b, db);
    FirstNul(a[0].path, b[0].path, AfterPath(a, da), AfterPath(b, db));
  }

  /** The header fixes the operation and the size. */
  lemma {:induction false} SameHeader(f: Framed, g: Framed)
    requires |f.data| <= MAX_TOTAL_BYTES && |g.data| <= MAX_TOTAL_BYTES && Header(f, true) == Header(g, true)
    ensures f.deleted == g.deleted && |f.data| == |g.data|
  {
    assert Header(f, true)[0] == Header(g, true)[0];
    assert Header(f, true)[1..] == BigEndian(|f.data|, 8) && Header(g, true)[1..] == BigEndian(|g.data|, 8);
    PowersOf256();
    BigEndianInjective(|f.data|, |g.data|, 8);
  }

  lemma {:induction false} SameCut(h: string, d: string, e: string, r: string, t: string)
    requires |d| == |e| && h + d + ['\0'] + r == h + e + ['\0'] + t
    ensures d == e && r == t
  {
    var s := h + d + ['\0'] + r;
    assert d == s[|h|..|h| + |d|] == e;
    assert r == s[|h| + |d| + 1..] == t;
  }

  /** So it fixes, by the size, where the content ends. */
  lemma {:induction false} SameHead(f: Framed, g: Framed, r: string, t: string)
    requires |f.data| <= MAX_TOTAL_BYTES && |g.data| <= MAX_TOTAL_BYTES
    requires Header(f, true) + f.data + ['\0'] + r == Header(g, true) + g.data + ['\0'] + t
    ensures f.deleted == g.deleted && f.data == g.data && r == t
  {
    var s := Header(f, true) + f.data + ['\0'] + r;
    assert |Header(f, true)| == 9 && |Header(g, true)| == 9;
    hide Header;
    assert Header(f, true) == s[..9] == Header(g, true);
    SameHeader(f, g);
    SameCut(Header(f, true), f.data, g.data, r, t);
  }

  /** With a deletion in the bundle, the hashed bytes determine every path, operation and content. */
  lemma {:induction false} DeletionFrameInjective(a: seq<Framed>, b: seq<Framed>)
    requires NulFreePaths(a) && NulFreePaths(b) && Sized(a) && Sized(b)
    requires Frame(a, true) == Frame(b, true)
    ensures a == b
  {
    if a != [] && b != [] {
      SamePath(a, b, true, true);
      SameHead(a[0], b[0], Frame(a[1..], true), Frame(b[1..], true));
      DeletionFrameInjective(a[1..], b[1..]);
      assert a == [a[0]] + a[1..] && b == [b[0]] + b[1..];
    }
  }

  lemma {:induction false} UpsertAfterPath(a: seq<Framed>)
    requires a != []
    ensures AfterPath(a, false) == a[0].data + ['\0'] + Frame(a[1..], false)
  {
    assert "" + a[0].data == a[0].data;
  }

  /** Without deletions they do as well, if no content has a zero byte. */
  lemma {:induction false} UpsertFrameInjective(a: seq<Framed>, b: seq<Framed>)
    requires NulFreePaths(a) && NulFreePaths(b) && Upserts(a) && Upserts(b)
    requires NulFreeData(a) && NulFreeData(b)
    requires Frame(a, false) == Frame(b, false)
    ensures a == b
  {
    if a != [] && b != [] {
      SamePath(a, b, false, false);
      UpsertAfterPath(a);
      UpsertAfterPath(b);
      FirstNul(a[0].data, b[0].data, Frame(a[1..], false), Frame(b[1..], false));
      UpsertFrameInjective(a[1..], b[1..]);
      assert a == [a[0]] + a[1..] && b == [b[0]] + b[1..];
    }
  }

  /** After the operation byte of a framed deletion bundle come the zeros of a short size. */
  lemma {:induction false} DeletionTail(b: seq<Framed>)
    requires b != [] && Sized(b)
    ensures |AfterPath(b, true)| >= 3 && AfterPath(b, true)[1] == AfterPath(b, true)[2] == '\0'
  {
    PowersOf256();
    LeadingZeros(|b[0].data|, 8, 4, 0);
    LeadingZeros(|b[0].data|, 8, 4, 1);
    var head := Header(b[0], true);
    assert head[1..][0] == head[1] && head[1..][1] == head[2];
  }

  /** Two zeros in that place cannot come from contents and paths without zero bytes. */
  lemma {:induction false} UpsertTail(a: seq<Framed>)
    requires NulFreePaths(a) && NulFreeData(a) && a != []
    ensures |AfterPath(a, false)| >= 3 ==> AfterPath(a, false)[1] != '\0' || AfterPath(a, false)[2] != '\0'
  {
    var s, n := AfterPath(a, false), |a[0].data|;
    assert s == a[0].data + ['\0'] + Frame(a[1..], false);
    if n >= 2 {
      assert s[1] == a[0].data[1];
    } else if |s| >= 3 {
      FrameSplit(a[1..], false);
      assert s[n + 1] == Frame(a[1..], false)[0] == a[1].path[0];
    }
  }

  /** No such upsert-only bundle has the bytes of a bundle with deletions: the size field starts with zeros. */
  lemma {:induction false} FramingsNeverMeet(a: seq<Framed>, b: seq<Framed>)
    requires NulFreePaths(a) && NulFreePaths(b) && a != [] && b != []
    requires Upserts(a) && NulFreeData(a) && Sized(b)
    ensures Frame(a, false) != Frame(b, true)
  {
    if Frame(a, false) == Frame(b, true) {
      SamePath(a, b, false, true);
      DeletionTail(b);
      UpsertTail(a);
    }
  }

  // The limit of the upsert-only framing.

  /** Two files whose bytes read as one file: the first path with both contents and the second path inside. */
  function Merged(f: Framed, g: Framed): Framed {
    Framed(f.path, false, f.data + ['\0'] + g.path + ['\0'] + g.data)
  }

  lemma {:induction false} PlainFile(f: Framed)
    ensures FrameFile(f, false) == f.path + ['\0'] + (f.data + ['\0'])
  {
    assert f.path + ['\0'] + "" == f.path + ['\0'];
    assert f.path + ['\0'] + (f.data + ['\0']) == f.path + ['\0'] + f.data + ['\0'];
  }

  lemma {:induction false} MergedFile(f: Framed, g: Framed)
    ensures FrameFile(Merged(f, g), false) == FrameFile(f, false) + FrameFile(g, false)
  {
    PlainFile(f);
    PlainFile(g);
    PlainFile(Merged(f, g));
    var head, mid, tail := f.path + ['\0'], f.data + ['\0'], g.path + ['\0'] + (g.data + ['\0']);
    assert Merged(f, g).data + ['\0'] == mid + tail;
    assert head + (mid + tail) == (head + mid) + tail;
  }

  lemma {:induction false} MergedCollides(a: seq<Framed>)
    requires |a| >= 2
    ensures Frame([Merged(a[0], a[1])] + a[2..], false) == Frame(a, false)
  {
    var m := Merged(a[0], a[1]);
    var b := [m] + a[2..];
    MergedFile(a[0], a[1]);
    assert b[0] == m && b[1..] == a[2..] && a[1..][1..] == a[2..] && a[1..][0] == a[1];
    assert Frame(a[1..], false) == FrameFile(a[1], false) + Frame(a[2..], false);
    Assoc(FrameFile(a[0], false), FrameFile(a[1], false), Frame(a[2..], false));
  }

  lemma {:induction false} Assoc(a: string, b: string, c: string)
    ensures a + b + c == a + (b + c)
  {
  }

  ghost predicate Stands(files: seq<Framed>) {
    NulFreePaths(files) && Upserts(files) && IncreasingBy((f: Framed) => f.path, files)
  }

  lemma {:induction false} MergedStands(a: seq<Framed>)
    requires |a| >= 2 && Stands(a)
    ensures Stands([Merged(a[0], a[1])] + a[2..])
  {
    var b := [Merged(a[0], a[1])] + a[2..];
    assert forall k | 0 < k < |b| :: b[k] == a[k + 1];
    assert b[0].path == a[0].path && !b[0].deleted;
  }

  /** A string that holds no NUL before its last byte splits at a NUL in one way only. */
  lemma {:induction false} OnlyNul(d: string, e: string, r: string)
    requires '\0' !in d && d + ['\0'] == e + ['\0'] + r
    ensures d == e && r == ""
  {
    var s := d + ['\0'];
    assert s[0] == (if d == "" then '\0' else d[0]) == (if e == "" then '\0' else e[0]);
    if d == "" {
      assert |e| + 1 + |r| == 1;
    } else {
      assert d[1..] + ['\0'] == s[1..] == e[1..] + ['\0'] + r;
      OnlyNul(d[1..], e[1..], r);
      assert d == [d[0]] + d[1..] && e == [e[0]] + e[1..];
    }
  }

  lemma {:induction false} SingleFileUnique(f: Framed, b: seq<Framed>)
    requires NulFreePaths([f]) && Stands(b) && !f.deleted && '\0' !in f.data && Frame([f], false) == Frame(b, false)
    ensures b == [f]
  {
    SamePath([f], b, false, false);
    var rest := Frame(b[1..], false);
    assert AfterPath([f], false) == f.data + ['\0'];
    assert AfterPath(b, false) == b[0].data + ['\0'] + rest;
    OnlyNul(f.data, b[0].data, rest);
    assert b[1..] == [];
    assert b == [b[0]];
  }

  lemma {:induction false} ManyCollide(a: seq<Framed>) returns (b: seq<Framed>)
    requires Stands(a) && |a| >= 2
    ensures Stands(b) && b != a && Frame(b, false) == Frame(a, false)
  {
    hide Frame, Stands, Merged;
    MergedCollides(a);
    MergedStands(a);
    b := [Merged(a[0], a[1])] + a[2..];
    assert |b| != |a|;
  }

  lemma {:induction false} OneIsUnique(a: seq<Framed>, b: seq<Framed>)
    requires Stands(a) && NulFreeData(a) && |a| == 1 && Stands(b) && Frame(b, false) == Frame(a, false)
    ensures b == a
  {
    assert '\0' !in a[0].data && NulFreePaths(a) && !a[0].deleted;
    hide Frame, Stands, NulFreeData, NulFreePaths;
    assert a == [a[0]];
    SingleFileUnique(a[0], b);
  }

  /**
   * Exactly when an upsert-only bundle whose contents are free of zero bytes shares its bytes
   * with another upsert-only bundle: when it has two files or more.
   */
  lemma {:induction false} UpsertFrameAmbiguous(a: seq<Framed>)
    requires Stands(a) && NulFreeData(a) && a != []
    ensures (exists b :: Stands(b) && b != a && Frame(b, false) == Frame(a, false)) <==> |a| >= 2
  {
    hide Frame, Stands, NulFreeData;
    if |a| >= 2 {
      var _ := ManyCollide(a);
    } else {
      forall b | Stands(b) && Frame(b, false) == Frame(a, false) ensures b == a {
        OneIsUnique(a, b);
      }
    }
  }

  lemma {:induction false} LowestByte(n: nat, width: nat)
    requires n < 256 && width > 0
    ensures BigEndian(n, width) == seq(width - 1, _ => '\0') + [n as char]
  {
    if width > 1 {
      LowestByte(0, width - 1);
      assert seq(width - 2, _ => '\0') + ['\0'] == seq(width - 1, _ => '\0');
    } else {
      assert BigEndian(n / 256, 0) == "";
    }
  }

  /**
   * The format of a short file byte by byte: the path and a zero byte; in a bundle with deletions a byte that is
   * zero for a deletion and one otherwise, and the size in eight bytes; then the content and a zero byte.
   */
  lemma {:induction false} ShortFileFormat(f: Framed)
    requires |f.data| < 256
    ensures FrameFile(f, false) == f.path + "\0" + f.data + "\0"
    ensures FrameFile(f, true) ==
      f.path + "\0" + (if f.deleted then "\0" else "\U{1}") + "\0\0\0\0\0\0\0" + [|f.data| as char] + f.data + "\0"
  {
    LowestByte(|f.data|, 8);
    assert seq(7, _ => '\0') == "\0\0\0\0\0\0\0";
    hide BigEndian;
    assert f.path + "\0" + "" == f.path + "\0";
    var marker := if f.deleted then "\0" else "\U{1}";
    assert Header(f, true) == marker + "\0\0\0\0\0\0\0" + [|f.data| as char];
    assert f.path + "\0" + (marker + "\0\0\0\0\0\0\0" + [|f.data| as char])
      == f.path + "\0" + marker + "\0\0\0\0\0\0\0" + [|f.data| as char];
  }
}
