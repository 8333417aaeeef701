/**
 * Committing files to a branch as a transition system. Any number of attempts and foreign
 * writers run at once. A step of an attempt is one call to the host, which is atomic, except
 * that uploading blobs and reading the raced head take in the reads of commits named by id,
 * which never change.
 */
module CommitProtocol {
  import opened Prelude
  import opened GitTree
  import opened Strings
  import opened Trailer

  const SEARCH_WINDOW: nat := 50

  /** Commits are named in the order of their creation; every new commit gets a new name. */
  type CommitId = nat

  datatype Commit = Commit(parents: seq<CommitId>, tree: Tree, message: string)

  /** What the caller of CommitFiles asks for; `payloads` counts the distinct base64 payloads to upload. */
  datatype Request = Request(entries: seq<Entry>, text: string, key: string, payloads: nat)

  /** Why an attempt succeeded: it found its key, matched the raced head, had nothing to change, or moved the branch. */
  datatype How = ByKey | ByMatch | NoChange | SameTree | Moved

  datatype Outcome = Succeeded(commit: CommitId, how: How) | Failed

  /** Where an attempt stands; `base` is the branch head it works from, if there is one. */
  datatype Phase =
    | Starting
    | Searching(base: CommitId)
    | Uploading(at: Option<CommitId>)
    | Filtering(at: Option<CommitId>, retry: bool)
    | Growing(at: Option<CommitId>, retry: bool, kept: seq<Entry>)
    | Committing(at: Option<CommitId>, retry: bool, tree: Tree)
    | Moving(at: Option<CommitId>, retry: bool, commit: CommitId)
    | Recovering(attempted: CommitId)
    | Done(outcome: Outcome)

  datatype Attempt = Attempt(request: Request, phase: Phase)

  /** One ref update made by an attempt: the head that it replaced and the commit that it installed. */
  datatype Move = Move(attempt: nat, replaced: Option<CommitId>, installed: CommitId)

  datatype System = System(commits: seq<Commit>, head: Option<CommitId>, attempts: seq<Attempt>, moves: seq<Move>)

  const INITIAL := System([], None, [], [])

  ghost function MessageOf(r: Request): string {
    CommitMessage(r.text, r.key)
  }

  function TreeAt(commits: seq<Commit>, at: Option<CommitId>): Tree {
    if at.Some? && at.value < |commits| then commits[at.value].tree else map[]
  }

  function ParentsOf(at: Option<CommitId>): seq<CommitId> {
    if at.Some? then [at.value] else []
  }

  /** Reachability along parents, which are always older. */
  ghost predicate Reaches(commits: seq<Commit>, a: CommitId, b: CommitId)
    decreases b
  {
    b < |commits| && (a == b || exists p | p in commits[b].parents :: p < b && Reaches(commits, a, p))
  }

  ghost predicate OnBranch(commits: seq<Commit>, head: Option<CommitId>, c: CommitId) {
    head.Some? && Reaches(commits, c, head.value)
  }

  predicate Ordered(commits: seq<Commit>) {
    forall c, k | 0 <= c < |commits| && 0 <= k < |commits[c].parents| :: commits[c].parents[k] < c
  }

  // What the host answers.

  /** The first parents from a commit, newest first, at most n. */
  function Chain(commits: seq<Commit>, from: CommitId, n: nat): seq<CommitId> {
    if n == 0 || from >= |commits| then []
    else
      var parents := commits[from].parents;
      [from] + if parents == [] || parents[0] >= from then [] else Chain(commits, parents[0], n - 1)
  }

  ghost predicate Linear(commits: seq<Commit>) {
    forall c | 0 <= c < |commits| :: |commits[c].parents| <= 1
  }

  /** One page of the branch's commits; in a linear history it is the newest fifty. */
  ghost predicate IsPage(commits: seq<Commit>, head: Option<CommitId>, page: seq<CommitId>) {
    && |page| <= SEARCH_WINDOW
    && (forall c | c in page :: OnBranch(commits, head, c))
    && (Linear(commits) && head.Some? ==> page == Chain(commits, head.value, SEARCH_WINDOW))
  }

  /** What a search looks through: a page, or nothing when the host refuses the listing with a 404 or a 409. */
  ghost predicate Listed(s: System, page: seq<CommitId>) {
    IsPage(s.commits, s.head, page) || page == []
  }

  ghost predicate Keyed(commits: seq<Commit>, c: CommitId, key: string) {
    c < |commits| && HasKey(commits[c].message, key)
  }

  /** A tree with a deletion of a path that the base does not have is rejected. */
  predicate HostAccepts(base: Tree, kept: seq<Entry>) {
    forall e | e in kept :: IsDeletion(e) ==> e.path in base
  }

  /** CreateRef needs the branch to be absent; a non-forced UpdateRef needs a fast-forward. */
  ghost predicate RefAllows(s: System, at: Option<CommitId>, c: CommitId) {
    if at.None? then s.head.None? else s.head.Some? && Reaches(s.commits, s.head.value, c)
  }

  // The steps of one attempt.

  function To(s: System, p: nat, phase: Phase): System
    requires p < |s.attempts|
  {
    s.(attempts := s.attempts[p := s.attempts[p].(phase := phase)])
  }

  ghost predicate InPhase(s: System, p: nat) {
    p < |s.attempts|
  }

  /** Any call may fail, leaving the host as it was. */
  ghost predicate Fails(s: System, p: nat, s': System) {
    InPhase(s, p) && !s.attempts[p].phase.Done? && s' == To(s, p, Done(Failed))
  }

  /** The branch head is read; the search follows if there is a head and a key. */
  ghost predicate ReadsRef(s: System, p: nat, s': System) {
    && InPhase(s, p) && s.attempts[p].phase.Starting?
    && s' == To(s, p, if s.head.Some? && TrimSpace(s.attempts[p].request.key) != "" then Searching(s.head.value) else Uploading(s.head))
  }

  /** The first commit of the page that carries the key decides the attempt. */
  ghost predicate Searches(s: System, p: nat, page: seq<CommitId>, s': System) {
    && InPhase(s, p) && s.attempts[p].phase.Searching? && Listed(s, page)
    && var me := s.attempts[p];
       if exists i | 0 <= i < |page| :: Keyed(s.commits, page[i], me.request.key) then
         exists i | 0 <= i < |page| ::
           && Keyed(s.commits, page[i], me.request.key)
           && (forall j | 0 <= j < i :: !Keyed(s.commits, page[j], me.request.key))
           && s' == To(s, p, Done(Succeeded(page[i], ByKey)))
       else s' == To(s, p, Uploading(Some(me.phase.base)))
  }

  /** The blobs are uploaded and the parent commit is read. */
  ghost predicate Uploads(s: System, p: nat, s': System) {
    && InPhase(s, p) && s.attempts[p].phase.Uploading?
    && s' == To(s, p, Filtering(s.attempts[p].phase.at, false))
  }

  /** The base tree is listed, unless there is none, and no-op deletions are dropped. */
  ghost predicate Filters(s: System, p: nat, l: Listing, s': System) {
    && InPhase(s, p) && s.attempts[p].phase.Filtering?
    && var me := s.attempts[p];
       && Lists(l, TreeAt(s.commits, me.phase.at)) && (me.phase.at.None? ==> !l.truncated)
       && var kept := Kept(l, me.request.entries);
          s' == To(s, p, if kept != [] then Growing(me.phase.at, me.phase.retry, kept)
                         else if me.phase.at.None? then Done(Failed)
                         else Done(Succeeded(me.phase.at.value, NoChange)))
  }

  /** The tree is created; the first attempt stops if it is the head's own tree. */
  ghost predicate Grows(s: System, p: nat, s': System) {
    && InPhase(s, p) && s.attempts[p].phase.Growing?
    && var me := s.attempts[p];
       var base := TreeAt(s.commits, me.phase.at);
       var tree := Apply(base, me.phase.kept);
       && HostAccepts(base, me.phase.kept)
       && s' == To(s, p, if !me.phase.retry && me.phase.at.Some? && tree == base then Done(Succeeded(me.phase.at.value, SameTree))
                         else Committing(me.phase.at, me.phase.retry, tree))
  }

  ghost predicate Creates(s: System, p: nat, s': System) {
    && InPhase(s, p) && s.attempts[p].phase.Committing?
    && var me := s.attempts[p];
       s' == To(s, p, Moving(me.phase.at, me.phase.retry, |s.commits|))
             .(commits := s.commits + [Commit(ParentsOf(me.phase.at), me.phase.tree, MessageOf(me.request))])
  }

  /** The ref moves; the response may be lost all the same. */
  ghost predicate MovesRef(s: System, p: nat, lost: bool, s': System) {
    && InPhase(s, p) && s.attempts[p].phase.Moving?
    && var me := s.attempts[p];
       && RefAllows(s, me.phase.at, me.phase.commit)
       && s' == To(s, p, Done(if lost then Failed else Succeeded(me.phase.commit, Moved)))
                .(head := Some(me.phase.commit), moves := s.moves + [Move(p, s.head, me.phase.commit)])
  }

  /** The ref exists and has moved on: the first attempt recovers, the retry gives up. */
  ghost predicate LosesRace(s: System, p: nat, s': System) {
    && InPhase(s, p) && s.attempts[p].phase.Moving? && s.head.Some?
    && var me := s.attempts[p];
       && !RefAllows(s, me.phase.at, me.phase.commit)
       && s' == To(s, p, if me.phase.retry then Done(Failed) else Recovering(me.phase.commit))
  }

  /** The raced head decides the attempt if it is its own commit or carries its key; otherwise it is the new base. */
  ghost predicate Recovers(s: System, p: nat, s': System) {
    && InPhase(s, p) && s.attempts[p].phase.Recovering? && s.head.Some?
    && var me := s.attempts[p];
       s' == To(s, p, if s.head.value == me.phase.attempted || Keyed(s.commits, s.head.value, me.request.key)
                      then Done(Succeeded(s.head.value, ByMatch))
                      else Filtering(s.head, true))
  }

  ghost predicate Acts(s: System, p: nat, s': System) {
    || Fails(s, p, s') || ReadsRef(s, p, s') || (exists page :: Searches(s, p, page, s')) || Uploads(s, p, s')
    || (exists l :: Filters(s, p, l, s')) || Grows(s, p, s') || Creates(s, p, s') || (exists lost :: MovesRef(s, p, lost, s'))
    || LosesRace(s, p, s') || Recovers(s, p, s')
  }

  /** A request that gitTreeEntries lets through. */
  ghost predicate Proper(r: Request) {
    r.entries != [] && DistinctPaths(r.entries)
  }

  ghost predicate Spawns(s: System, r: Request, s': System) {
    Proper(r) && s' == s.(attempts := s.attempts + [Attempt(r, Starting)])
  }

  /** Someone else pushes new commits; the branch is only ever created or fast-forwarded. */
  ghost predicate Pushes(s: System, more: seq<Commit>, s': System) {
    && more != [] && Ordered(s.commits + more)
    && s' == s.(commits := s.commits + more, head := Some(|s.commits| + |more| - 1))
    && (s.head.Some? ==> Reaches(s'.commits, s.head.value, s'.head.value))
  }

  ghost predicate Next(s: System, s': System) {
    || (exists p :: Acts(s, p, s'))
    || (exists r :: Spawns(s, r, s'))
    || (exists more :: Pushes(s, more, s'))
  }

  ghost predicate IsRun(trace: seq<System>) {
    && |trace| >= 1 && trace[0] == INITIAL
    && forall i :: 0 <= i < |trace| - 1 ==> Next(trace[i], trace[i + 1])
  }
}
