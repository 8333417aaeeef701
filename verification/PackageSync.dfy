/** The Package objects of a repository, brought into line with what the host lists. */
module PackageSync {
  import opened Prelude

  datatype Version = Version(digest: string, createdAt: string, tags: seq<string>)

  /** One package as the host lists it. */
  datatype Info = Info(kind: string, name: string, visibility: string, url: string, versionCount: int,
                       updatedAt: string, image: string, versions: seq<Version>)

  const NO_INFO := Info("", "", "", "", 0, "", "", [])

  /** The Ready condition of a stored status: not there, there but False or Unknown, or True. */
  datatype Ready = Absent | NotTrue | True

  /** The observed fields, the Ready condition, and when they were last written. */
  datatype Status = Status(generation: int, info: Info, ready: Ready, lastSync: int)

  datatype Package = Package(repository: Option<string>, generation: int, status: Status)

  type Objects = map<string, Package>

  /** The status has the observed fields of a listing. */
  predicate Records(p: Package, info: Info) {
    p.status.info == info && p.status.generation == p.generation
  }

  predicate Shows(p: Package, info: Info) {
    Records(p, info) && p.status.ready.True?
  }

  /** The one case that a pass overlooks: all fields as listed, and a Ready condition that is there but not true. */
  predicate Stuck(p: Package, info: Info) {
    Records(p, info) && p.status.ready.NotTrue?
  }

  function NewPackage(repo: string): Package {
    Package(Some(repo), 1, Status(0, NO_INFO, Absent, 0))
  }

  /** What updateStatus leaves: nothing is written if the fields agree and there is a Ready condition at all. */
  function Observed(p: Package, info: Info, now: int): Package {
    if Records(p, info) && !p.status.ready.Absent? then p else p.(status := Status(p.generation, info, True, now))
  }

  /** The object that a pass leaves under a desired name. */
  function Brought(objects: Objects, name: string, repo: string, info: Info, now: int): Package {
    Observed(if name in objects then objects[name] else NewPackage(repo), info, now)
  }

  /** What should exist: by object name; the last listing of a name wins. */
  function Desired(infos: seq<Info>, names: Info -> string): map<string, Info> {
    if infos == [] then map[]
    else
      var last := infos[|infos| - 1];
      Desired(infos[..|infos| - 1], names)[names(last) := last]
  }

  predicate Stale(p: Package, name: string, repo: string, desired: map<string, Info>) {
    p.repository == Some(repo) && name !in desired
  }

  /** The outcome of a pass, whatever order its maps are walked in. */
  function Synced(objects: Objects, repo: string, desired: map<string, Info>, now: int): Objects {
    map name | name in objects.Keys + desired.Keys && !(name in objects && Stale(objects[name], name, repo, desired)) ::
      if name in desired then Brought(objects, name, repo, desired[name], now) else objects[name]
  }

  /** A pass has nothing to do. */
  ghost predicate InSync(objects: Objects, repo: string, desired: map<string, Info>) {
    && (forall name | name in objects :: !Stale(objects[name], name, repo, desired))
    && (forall name | name in desired :: name in objects && Settled(objects[name], desired[name]))
  }

  predicate Settled(p: Package, info: Info) {
    Shows(p, info) || Stuck(p, info)
  }

  /** A condition in a status that the controller has decoded; slices share their elements. */
  class Condition {
    var isTrue: bool

    constructor (isTrue: bool)
      ensures this.isTrue == isTrue
    {
      this.isTrue := isTrue;
    }
  }

  /** meta.SetStatusCondition: a condition that is there is changed in place, else one is appended. */
  method SetReady(conditions: seq<Condition>) returns (changed: seq<Condition>)
    requires |conditions| <= 1
    modifies conditions
    ensures conditions != [] ==> changed == conditions && conditions[0].isTrue
    ensures conditions == [] ==> |changed| == 1 && fresh(changed[0]) && changed[0].isTrue
  {
    if conditions != [] {
      conditions[0].isTrue := true;
      return conditions;
    }
    var ready := new Condition(true);
    return [ready];
  }

  /** The API server; every method is one call, and `writes` counts those that change something. */
  class Cluster {
    var objects: Objects
    var writes: nat

    method List(repo: string) returns (owned: Objects)
      ensures owned == map name | name in objects && objects[name].repository == Some(repo) :: objects[name]
    {
      owned := map name | name in objects && objects[name].repository == Some(repo) :: objects[name];
    }

    method Delete(name: string)
      modifies this
      ensures objects == old(objects) - {name}
      ensures writes == old(writes) + (if name in old(objects) then 1 else 0)
    {
      if name in objects {
        objects := objects - {name};
        writes := writes + 1;
      }
    }

    method Create(name: string, p: Package) returns (created: bool)
      modifies this
      ensures created <==> name !in old(objects)
      ensures objects == if created then old(objects)[name := p] else old(objects)
      ensures writes == old(writes) + (if created then 1 else 0)
    {
      created := name !in objects;
      if created {
        objects := objects[name := p];
        writes := writes + 1;
      }
    }

    /**
     * updateStatus. The new status starts from the conditions of the old one, and both share the Ready
     * condition if there is one: once it is set on the new status, the old one reads as ready too.
     */
    method UpdateStatus(name: string, info: Info, now: int)
      requires name in objects
      modifies this
      ensures objects == old(objects)[name := Observed(old(objects)[name], info, now)]
      ensures writes == old(writes) + (if Settled(old(objects)[name], info) then 0 else 1)
    {
      var p := objects[name];
      var conditions: seq<Condition> := [];
      if !p.status.ready.Absent? {
        var ready := new Condition(p.status.ready.True?);
        conditions := [ready];
      }
      var next := SetReady(conditions);
      var same := p.status.generation == p.generation && p.status.info == info && conditions != [] && conditions[0].isTrue;
      if same {
        return;
      }
      objects := objects[name := p.(status := Status(p.generation, info, if next[0].isTrue then True else NotTrue, now))];
      writes := writes + 1;
    }
  }

  /** The desired map, built in listing order. */
  method BuildDesired(infos: seq<Info>, names: Info -> string) returns (desired: map<string, Info>)
    ensures desired == Desired(infos, names)
  {
    desired := map[];
    for i := 0 to |infos|
      invariant desired == Desired(infos[..i], names)
    {
      assert infos[..i + 1][..i] == infos[..i];
      desired := desired[names(infos[i]) := infos[i]];
    }
    assert infos[..|infos|] == infos;
  }

  /** The first loop of sync: delete what is stale. */
  method DeleteStale(c: Cluster, existing: Objects, ghost repo: string, desired: map<string, Info>)
    requires existing == map name | name in c.objects && c.objects[name].repository == Some(repo) :: c.objects[name]
    modifies c
    ensures c.objects == map name | name in old(c.objects) && !Stale(old(c.objects)[name], name, repo, desired) :: old(c.objects)[name]
    ensures c.writes >= old(c.writes)
    ensures c.writes == old(c.writes) <==> forall name | name in old(c.objects) :: !Stale(old(c.objects)[name], name, repo, desired)
  {
    var todo := existing.Keys;
    while todo != {}
      invariant todo <= existing.Keys
      invariant forall name :: name in c.objects <==>
        name in old(c.objects) && (Stale(old(c.objects)[name], name, repo, desired) ==> name in todo)
      invariant forall name | name in c.objects :: c.objects[name] == old(c.objects)[name]
      invariant c.writes >= old(c.writes)
      invariant c.writes == old(c.writes) <==> c.objects == old(c.objects)
      decreases todo
    {
      var name :| name in todo;
      todo := todo - {name};
      if name !in desired {
        c.Delete(name);
      }
    }
    assert forall name | name in c.objects :: !Stale(old(c.objects)[name], name, repo, desired);
  }

  lemma {:induction false} NewIsUnsettled(repo: string, info: Info)
    ensures !Settled(NewPackage(repo), info)
  {
  }

  /** The second loop of sync: create what is missing, and update what differs. */
  method CreateOrUpdate(c: Cluster, existing: Objects, repo: string, desired: map<string, Info>, now: int)
    requires forall name | name in existing && name in desired :: name in c.objects
    modifies c
    ensures forall name :: name in c.objects <==> name in old(c.objects) || name in desired
    ensures forall name | name in c.objects ::
      c.objects[name] == if name in desired then Brought(old(c.objects), name, repo, desired[name], now) else old(c.objects)[name]
    ensures c.writes >= old(c.writes)
    ensures c.writes == old(c.writes) <==>
      forall name | name in desired :: name in old(c.objects) && Settled(old(c.objects)[name], desired[name])
  {
    hide Observed, Settled, NewPackage;
    var todo := desired.Keys;
    while todo != {}
      invariant todo <= desired.Keys
      invariant forall name :: name in c.objects <==> name in old(c.objects) || name in desired.Keys - todo
      invariant forall name | name in c.objects ::
        c.objects[name] == if name in desired.Keys - todo then Brought(old(c.objects), name, repo, desired[name], now)
                           else old(c.objects)[name]
      invariant c.writes >= old(c.writes)
      invariant c.writes == old(c.writes) <==>
        forall name | name in desired.Keys - todo :: name in old(c.objects) && Settled(old(c.objects)[name], desired[name])
      decreases todo
    {
      var name :| name in todo;
      todo := todo - {name};
      if name in existing {
        c.UpdateStatus(name, desired[name], now);
      } else {
        NewIsUnsettled(repo, desired[name]);
        var _ := c.Create(name, NewPackage(repo));
        c.UpdateStatus(name, desired[name], now);
      }
    }
  }

  /** sync: the objects afterwards depend on what was there and what is listed, and on no order. */
  method Sync(c: Cluster, repo: string, infos: seq<Info>, names: Info -> string, now: int)
    modifies c
    ensures c.objects == Synced(old(c.objects), repo, Desired(infos, names), now)
    ensures c.writes == old(c.writes) <==> InSync(old(c.objects), repo, Desired(infos, names))
  {
    hide Observed, Settled;
    var existing := c.List(repo);
    var desired := BuildDesired(infos, names);
    DeleteStale(c, existing, repo, desired);
    CreateOrUpdate(c, existing, repo, desired, now);
  }

  // What a pass achieves.

  lemma {:induction false} DesiredIsLast(infos: seq<Info>, names: Info -> string, name: string)
    ensures name in Desired(infos, names) <==> exists i | 0 <= i < |infos| :: names(infos[i]) == name
    ensures name in Desired(infos, names) ==> exists i | 0 <= i < |infos| ::
      && names(infos[i]) == name && Desired(infos, names)[name] == infos[i]
      && forall j | i < j < |infos| :: names(infos[j]) != name
  {
    if infos != [] {
      DesiredIsLast(infos[..|infos| - 1], names, name);
    }
  }

  /** No object outside the repository holds a name that the repository needs. */
  ghost predicate NoForeign(objects: Objects, repo: string, desired: map<string, Info>) {
    forall name | name in objects && name in desired :: objects[name].repository == Some(repo)
  }

  /** The repository's objects are exactly the desired ones, with the listed status. */
  ghost predicate Converged(objects: Objects, repo: string, desired: map<string, Info>) {
    && (forall name :: name in desired <==> name in objects && objects[name].repository == Some(repo))
    && (forall name | name in desired :: Shows(objects[name], desired[name]))
  }

  /** No object that a pass would bring up to date is overlooked by it. */
  ghost predicate NoneStuck(objects: Objects, desired: map<string, Info>) {
    forall name | name in objects && name in desired :: !Stuck(objects[name], desired[name])
  }

  /**
   * A pass converges exactly when no foreign object holds a needed name, and no needed object already has
   * the listed fields with a Ready condition that is not true. It leaves all other objects alone.
   */
  lemma {:induction false} SyncConverges(objects: Objects, repo: string, desired: map<string, Info>, now: int)
    ensures Converged(Synced(objects, repo, desired, now), repo, desired) <==>
      NoForeign(objects, repo, desired) && NoneStuck(objects, desired)
    ensures forall name | name in objects && objects[name].repository != Some(repo) && name !in desired ::
      name in Synced(objects, repo, desired, now) && Synced(objects, repo, desired, now)[name] == objects[name]
  {
    var after := Synced(objects, repo, desired, now);
    if Converged(after, repo, desired) {
      forall name | name in objects && name in desired
        ensures objects[name].repository == Some(repo) && !Stuck(objects[name], desired[name])
      {
        assert name in after && after[name].repository == objects[name].repository && Shows(after[name], desired[name]);
      }
    }
    if NoForeign(objects, repo, desired) && NoneStuck(objects, desired) {
      forall name | name in desired ensures name in after && after[name].repository == Some(repo) && Shows(after[name], desired[name]) {
      }
    }
  }

  /** A concrete object that stays not ready, pass after pass, although nothing foreign is in the way. */
  lemma {:induction false} StuckStaysStuck(repo: string, now: int) returns (objects: Objects, desired: map<string, Info>)
    ensures NoForeign(objects, repo, desired) && InSync(objects, repo, desired)
    ensures Synced(objects, repo, desired, now) == objects && !Converged(objects, repo, desired)
  {
    objects := map["p" := Package(Some(repo), 1, Status(1, NO_INFO, NotTrue, 0))];
    desired := map["p" := NO_INFO];
    assert Stuck(objects["p"], desired["p"]) && Synced(objects, repo, desired, now)["p"] == objects["p"];
    assert !Shows(objects["p"], desired["p"]);
    var after := Synced(objects, repo, desired, now);
    assert after.Keys == objects.Keys;
  }

  /** A second pass over the same listing changes nothing and writes nothing. */
  lemma {:induction false} SecondSyncIsIdle(objects: Objects, repo: string, desired: map<string, Info>, now: int, later: int)
    ensures InSync(Synced(objects, repo, desired, now), repo, desired)
    ensures Synced(Synced(objects, repo, desired, now), repo, desired, later) == Synced(objects, repo, desired, now)
  {
    var once := Synced(objects, repo, desired, now);
    var twice := Synced(once, repo, desired, later);
    forall name ensures name in twice <==> name in once
                ensures name in once && name in twice ==> twice[name] == once[name] {
    }
  }

  /** A status is written exactly when an observed field differs or there is no Ready condition: the time never matters. */
  lemma {:induction false} WrittenExactlyWhen(p: Package, info: Info, now: int)
    requires now != p.status.lastSync
    ensures Observed(p, info, now) != p <==> !Records(p, info) || p.status.ready.Absent?
    ensures Observed(p, info, now) != p ==> Observed(p, info, now).status.lastSync == now
    ensures Observed(p, info, now).repository == p.repository && Observed(p, info, now).generation == p.generation
    ensures Shows(Observed(p, info, now), info) <==> !Stuck(p, info)
  {
  }

  // With this controller as the only writer.

  /** One pass: what was listed, and when. */
  datatype Pass = Pass(desired: map<string, Info>, now: int)

  function Passes(repo: string, passes: seq<Pass>): Objects {
    if passes == [] then map[]
    else
      var last := passes[|passes| - 1];
      Synced(Passes(repo, passes[..|passes| - 1]), repo, last.desired, last.now)
  }

  /** Objects that only this controller has written: labelled for the repository, and ready once they have a condition. */
  ghost predicate OwnWork(objects: Objects, repo: string) {
    forall name | name in objects :: objects[name].repository == Some(repo) && !objects[name].status.ready.NotTrue?
  }

  lemma {:induction false} PassesAreOwnWork(repo: string, passes: seq<Pass>)
    ensures OwnWork(Passes(repo, passes), repo)
  {
    if passes != [] {
      PassesAreOwnWork(repo, passes[..|passes| - 1]);
    }
  }

  /** As the only writer from the start, the controller converges with every pass, to whatever was listed last. */
  lemma {:induction false} SoleWriterConverges(repo: string, passes: seq<Pass>)
    requires passes != []
    ensures Converged(Passes(repo, passes), repo, passes[|passes| - 1].desired)
  {
    var before, last := Passes(repo, passes[..|passes| - 1]), passes[|passes| - 1];
    PassesAreOwnWork(repo, passes[..|passes| - 1]);
    SyncConverges(before, repo, last.desired, last.now);
  }
}
