/** The store of bundles: one file for each scope and name, with the time it was last written. */
module BundleStore {
  import opened Prelude
  import opened Strings
  import opened DigestFraming
  import opened Bundle

  /** Directories are named by a digest of the trimmed scope, taken to be injective. */
  datatype Key = Key(scope: string, name: BundleName)

  datatype Slot = Slot(bundle: Bundle, written: int)

  type Slots = map<Key, Slot>

  datatype Found = Found(bundle: Bundle) | NotFound | Refused(error: string)

  // What each operation does to the files.

  predicate ValidScope(scope: string) {
    TrimSpace(scope) != ""
  }

  function KeyFor(scope: string, name: BundleName): Key {
    Key(TrimSpace(scope), name)
  }

  /** Storing a bundle that is there already only makes it younger. */
  ghost function AfterPut(m: Slots, scope: string, files: seq<File>, now: int): Slots {
    if !ValidScope(scope) || !Acceptable(files) then m
    else
      var bundle := BundleOf(files);
      var k := KeyFor(scope, bundle.name);
      m[k := Slot(if k in m then m[k].bundle else bundle, now)]
  }

  function Lookup(m: Slots, scope: string, name: BundleName, digest: Option<Digest>): Found {
    var k := KeyFor(scope, name);
    if !ValidScope(scope) then Refused("bundle scope is required")
    else if k !in m then NotFound
    else if digest.Some? && m[k].bundle.digest != digest.value then Refused("bundle digest mismatch")
    else Found(m[k].bundle)
  }

  function AfterDelete(m: Slots, scope: string, name: BundleName, digest: Option<Digest>): Slots {
    if Lookup(m, scope, name, digest).Found? then m - {KeyFor(scope, name)} else m
  }

  function AfterSweep(m: Slots, now: int, maxAge: int): Slots {
    map k | k in m && m[k].written >= now - maxAge :: m[k]
  }

  class FileStore {
    var slots: Slots

    constructor ()
      ensures slots == map[]
    {
      slots := map[];
    }

    method Put(scope: string, files: seq<File>, now: int) returns (r: Result<Bundle>)
      modifies this
      ensures slots == AfterPut(old(slots), scope, files, now)
      ensures r.Ok? <==> ValidScope(scope) && Acceptable(files)
      ensures r.Ok? ==> r.value == BundleOf(files) && KeyFor(scope, r.value.name) in slots
    {
      hide Acceptable, BundleOf;
      if TrimSpace(scope) == "" {
        return Err("bundle scope is required");
      }
      r := BuildBundle(files);
      if r.Err? {
        return;
      }
      var k := Key(TrimSpace(scope), r.value.name);
      if k in slots {
        slots := slots[k := slots[k].(written := now)];
      } else {
        slots := slots[k := Slot(r.value, now)];
      }
    }

    method Get(scope: string, name: BundleName, digest: Option<Digest>) returns (found: Found)
      ensures found == Lookup(slots, scope, name, digest)
      ensures found.Found? <==>
        && TrimSpace(scope) != "" && KeyFor(scope, name) in slots
        && (digest.Some? ==> slots[KeyFor(scope, name)].bundle.digest == digest.value)
      ensures found.Found? ==> found.bundle == slots[KeyFor(scope, name)].bundle
      ensures found.NotFound? <==> TrimSpace(scope) != "" && KeyFor(scope, name) !in slots
    {
      if TrimSpace(scope) == "" {
        return Refused("bundle scope is required");
      }
      var k := Key(TrimSpace(scope), name);
      if k !in slots {
        return NotFound;
      }
      if digest.Some? && slots[k].bundle.digest != digest.value {
        return Refused("bundle digest mismatch");
      }
      return Found(slots[k].bundle);
    }

    /** A bundle that is gone counts as deleted; one with another digest is left alone. */
    method Delete(scope: string, name: BundleName, digest: Option<Digest>) returns (ok: bool)
      modifies this
      ensures slots == AfterDelete(old(slots), scope, name, digest)
      ensures ok <==> !Lookup(old(slots), scope, name, digest).Refused?
      ensures ok ==> KeyFor(scope, name) !in slots
      ensures !ok ==> slots == old(slots)
      ensures forall k | k in old(slots) && k != KeyFor(scope, name) :: k in slots && slots[k] == old(slots)[k]
      ensures slots.Keys <= old(slots).Keys
    {
      var found := Get(scope, name, digest);
      if found.Refused? {
        return false;
      }
      if found.Found? {
        slots := slots - {Key(TrimSpace(scope), name)};
      }
      return true;
    }

    method Sweep(now: int, maxAge: int) returns (removed: nat)
      modifies this
      ensures slots == AfterSweep(old(slots), now, maxAge)
      ensures forall k :: k in slots <==> k in old(slots) && old(slots)[k].written >= now - maxAge
      ensures forall k | k in slots :: slots[k] == old(slots)[k]
      ensures removed == |old(slots)| - |slots|
    {
      removed := 0;
      var todo := slots.Keys;
      while todo != {}
        invariant todo <= slots.Keys <= old(slots).Keys
        invariant forall k :: k in slots <==> k in old(slots) && (k in todo || old(slots)[k].written >= now - maxAge)
        invariant forall k | k in slots :: slots[k] == old(slots)[k]
        invariant removed == |old(slots)| - |slots|
        decreases todo
      {
        var k :| k in todo;
        todo := todo - {k};
        if slots[k].written < now - maxAge {
          assert (slots - {k}).Keys == slots.Keys - {k};
          slots := slots - {k};
          removed := removed + 1;
        }
      }
    }
  }

  // Runs of the store.

  datatype Op =
    | Put(scope: string, files: seq<File>, now: int)
    | Delete(scope: string, name: BundleName, digest: Option<Digest>)
    | Sweep(now: int, maxAge: int)

  ghost function After(m: Slots, op: Op): Slots {
    match op
    case Put(scope, files, now) => AfterPut(m, scope, files, now)
    case Delete(scope, name, digest) => AfterDelete(m, scope, name, digest)
    case Sweep(now, maxAge) => AfterSweep(m, now, maxAge)
  }

  ghost function Run(ops: seq<Op>): Slots {
    if ops == [] then map[] else After(Run(ops[..|ops| - 1]), ops[|ops| - 1])
  }

  /** Every file holds the bundle of some acceptable request, under the name cut from its digest. */
  ghost predicate Honest(m: Slots) {
    forall k | k in m :: StoredBy(m[k].bundle, k.name)
  }

  ghost predicate StoredBy(bundle: Bundle, name: BundleName) {
    exists files :: Acceptable(files) && bundle == BundleOf(files) && name == BundleName(bundle.digest)
  }

  lemma {:induction false} RunHonest(ops: seq<Op>)
    ensures Honest(Run(ops))
  {
    if ops != [] {
      var op, before := ops[|ops| - 1], Run(ops[..|ops| - 1]);
      RunHonest(ops[..|ops| - 1]);
      if op.Put? && ValidScope(op.scope) && Acceptable(op.files) {
        var bundle := BundleOf(op.files);
        assert StoredBy(bundle, bundle.name);
        hide BundleOf, Acceptable, StoredBy;
      } else {
        hide BundleOf, Acceptable, StoredBy;
      }
    }
  }

  /** Nothing after the bundle was stored deletes it by name, or sweeps what is that old. */
  ghost predicate Spares(op: Op, k: Key, since: int) {
    match op
    case Put(_, _, now) => now >= since
    case Delete(scope, name, _) => KeyFor(scope, name) != k
    case Sweep(now, maxAge) => since >= now - maxAge
  }

  lemma {:induction false} SlotStays(m: Slots, op: Op, k: Key, since: int)
    requires k in m && m[k].written >= since && Spares(op, k, since)
    ensures k in After(m, op) && After(m, op)[k].written >= since && After(m, op)[k].bundle == m[k].bundle
  {
    hide Acceptable, BundleOf;
  }

  lemma {:induction false} SlotsStay(before: seq<Op>, after: seq<Op>, k: Key, since: int)
    requires k in Run(before) && Run(before)[k].written >= since
    requires forall op | op in after :: Spares(op, k, since)
    ensures k in Run(before + after) && Run(before + after)[k].written >= since
    ensures Run(before + after)[k].bundle == Run(before)[k].bundle
  {
    hide After, Spares;
    if after == [] {
      assert before + after == before;
    } else {
      var n := |after| - 1;
      SlotsStay(before, after[..n], k, since);
      var all := before + after;
      assert all[..|all| - 1] == before + after[..n] && all[|all| - 1] == after[n];
      SlotStays(Run(before + after[..n]), after[n], k, since);
    }
  }

  /**
   * A bundle that was stored can be fetched by its name and digest until someone deletes it or
   * sweeps it as too old, whatever happens in between; re-storing it keeps it young. What is
   * fetched was stored by a request with the same digest, and, if both are faithful, it has the
   * same paths, operations and bytes.
   */
  lemma {:induction false} StoredBundleStays(before: seq<Op>, scope: string, files: seq<File>, now: int, after: seq<Op>)
    returns (fetched: Bundle, source: seq<File>)
    requires ValidScope(scope) && Acceptable(files)
    requires forall op | op in after :: Spares(op, KeyFor(scope, BundleOf(files).name), now)
    ensures var bundle := BundleOf(files);
      Lookup(Run(before + [Put(scope, files, now)] + after), scope, bundle.name, Some(bundle.digest)) == Found(fetched)
    ensures Acceptable(source) && fetched == BundleOf(source) && fetched.digest == BundleOf(files).digest
    ensures Faithful(Contents(files)) && Faithful(Contents(source)) ==> Contents(source) == Contents(files)
  {
    var k := KeyFor(scope, BundleOf(files).name);
    assert k.name == BundleName(BundleOf(files).digest);
    hide Acceptable, BundleOf, Faithful, Contents;
    var first := before + [Put(scope, files, now)];
    assert first[..|first| - 1] == before && first[|first| - 1] == Put(scope, files, now);
    RunHonest(first);
    SlotsStay(first, after, k, now);
    fetched := Run(first)[k].bundle;
    assert StoredBy(fetched, k.name);
    source :| Acceptable(source) && fetched == BundleOf(source) && k.name == BundleName(fetched.digest);
    if Faithful(Contents(files)) && Faithful(Contents(source)) {
      DigestDeterminesContents(source, files);
    }
  }

  /** A sweep hides exactly the bundles that were last written longer ago than the age, and no others. */
  lemma {:induction false} SweepHidesTheOld(m: Slots, now: int, maxAge: int, scope: string, name: BundleName, digest: Option<Digest>)
    requires ValidScope(scope)
    ensures var k := KeyFor(scope, name);
      Lookup(AfterSweep(m, now, maxAge), scope, name, digest) ==
        if k in m && now - m[k].written <= maxAge then Lookup(m, scope, name, digest) else NotFound
  {
    hide TrimSpace;
  }
}
