/** At most one commit for each key, although responses get lost and attempts are repeated. */
module CommitOnce {
  import opened Prelude
  import opened Strings
  import opened Trailer
  import opened CommitProtocol
  import opened CommitSafety

  ghost predicate KeyedOnBranch(s: System, key: string, c: CommitId) {
    OnBranch(s.commits, s.head, c) && Keyed(s.commits, c, key)
  }

  ghost predicate AtMostOne(s: System, key: string) {
    forall a, b | KeyedOnBranch(s, key, a) && KeyedOnBranch(s, key, b) :: a == b
  }

  ghost predicate NoneYet(s: System, key: string) {
    forall c :: !KeyedOnBranch(s, key, c)
  }

  // The runs that the guarantee is about.

  /** The request of every attempt has the key, and a text that the trailer can be appended to. */
  ghost predicate UsesKey(r: Request, key: string) {
    && r.key == key && TrimSpace(key) != "" && '\n' !in TrimSpace(key)
    && !Contains(if TrimSpace(r.text) == "" then "Update generated application files" else TrimSpace(r.text), TRAILER)
  }

  ghost predicate AllDone(s: System) {
    forall p | 0 <= p < |s.attempts| :: s.attempts[p].phase.Done?
  }

  /** The keyed commit, if it is on the branch, is on the page that was listed. */
  ghost predicate Covers(s: System, key: string, page: seq<CommitId>) {
    forall c | KeyedOnBranch(s, key, c) :: c in page
  }

  /** A push brings no commit with the key onto the branch. */
  ghost predicate ForeignPush(s: System, key: string, s': System) {
    forall c | KeyedOnBranch(s', key, c) :: KeyedOnBranch(s, key, c)
  }

  ghost predicate CalmAct(s: System, key: string, p: nat, s': System) {
    || (exists page :: Searches(s, p, page, s') && Covers(s, key, page))
    || (Acts(s, p, s') && p < |s.attempts| && !s.attempts[p].phase.Searching?)
    || Fails(s, p, s')
  }

  /** One attempt after another; pushes without the key; the keyed commit within the search window. */
  ghost predicate CalmNext(s: System, key: string, s': System) {
    || (exists p :: CalmAct(s, key, p, s'))
    || (exists r :: Spawns(s, r, s') && UsesKey(r, key) && AllDone(s))
    || (exists more :: Pushes(s, more, s') && ForeignPush(s, key, s'))
  }

  ghost predicate IsCalmRun(trace: seq<System>, key: string) {
    && |trace| >= 1 && trace[0] == INITIAL
    && forall i :: 0 <= i < |trace| - 1 ==> CalmNext(trace[i], key, trace[i + 1])
  }

  lemma {:induction false} CalmIsNext(s: System, key: string, s': System)
    requires CalmNext(s, key, s')
    ensures Next(s, s')
  {
    hide Searches, Fails, Covers, ForeignPush, UsesKey, Pushes, Spawns;
    if p :| CalmAct(s, key, p, s') {
      assert Acts(s, p, s');
    }
  }

  // The search window.

  /** How many commits lie above c on the way back from a commit of a linear history. */
  function Above(commits: seq<Commit>, from: CommitId, c: CommitId): nat {
    if from >= |commits| || from == c || commits[from].parents == [] || commits[from].parents[0] >= from then 0
    else 1 + Above(commits, commits[from].parents[0], c)
  }

  lemma {:induction false} ChainFinds(commits: seq<Commit>, from: CommitId, c: CommitId, n: nat)
    requires Linear(commits) && Reaches(commits, c, from) && Above(commits, from, c) < n
    ensures c in Chain(commits, from, n)
    decreases from
  {
    if from != c {
      var p :| p in commits[from].parents && p < from && Reaches(commits, c, p);
      assert p == commits[from].parents[0];
      hide Reaches;
      ChainFinds(commits, p, c, n - 1);
      hide Linear;
      assert Chain(commits, from, n) == [from] + Chain(commits, p, n - 1);
    }
  }

  /** In a linear history a keyed commit with at most 49 commits above it is on the page. */
  lemma {:induction false} WindowCovers(s: System, key: string, page: seq<CommitId>)
    requires Linear(s.commits) && s.head.Some? && IsPage(s.commits, s.head, page)
    requires forall c | KeyedOnBranch(s, key, c) :: Above(s.commits, s.head.value, c) <= SEARCH_WINDOW - 1
    ensures Covers(s, key, page)
  {
    forall c | KeyedOnBranch(s, key, c) ensures c in page {
      ChainFinds(s.commits, s.head.value, c, SEARCH_WINDOW);
    }
  }

  // The invariant.

  /** The attempt has searched, or found no branch to search. */
  predicate PastSearch(phase: Phase) {
    !phase.Starting? && !phase.Searching? && !phase.Done?
  }

  ghost predicate Calm(s: System, key: string) {
    && Good(s) && AtMostOne(s, key)
    && (forall p | 0 <= p < |s.attempts| :: UsesKey(s.attempts[p].request, key))
    && (forall p, q | 0 <= p < q < |s.attempts| :: s.attempts[p].phase.Done? || s.attempts[q].phase.Done?)
    && (forall p | 0 <= p < |s.attempts| && PastSearch(s.attempts[p].phase) :: NoneYet(s, key))
  }

  /** Every commit that an attempt makes carries the key. */
  lemma {:induction false} RequestIsKeyed(r: Request, key: string)
    requires UsesKey(r, key)
    ensures HasKey(MessageOf(r), key)
  {
    PrintedKeyIsFound(if TrimSpace(r.text) == "" then "Update generated application files" else TrimSpace(r.text), key);
  }

  lemma {:induction false} SameKeyed(s: System, s': System, key: string, c: CommitId)
    requires Forward(s, s') && HeadOk(s) && s'.head == s.head
    ensures KeyedOnBranch(s', key, c) <==> KeyedOnBranch(s, key, c)
  {
    hide HasKey;
    if s.head.Some? {
      var more := s'.commits[|s.commits|..];
      assert s.commits + more == s'.commits;
      ReachesExtends(s.commits, more, c, s.head.value);
      if Reaches(s.commits, c, s.head.value) {
        ReachesOlder(s.commits, c, s.head.value);
        OldCommit(s, s', c);
      }
    }
  }

  /** The only keyed commit after a move is the one that the move installed. */
  lemma {:induction false} MovedIsOnly(s: System, p: nat, lost: bool, s': System, key: string, c: CommitId)
    requires Good(s) && MovesRef(s, p, lost, s') && NoneYet(s, key) && KeyedOnBranch(s', key, c)
    ensures c == s.attempts[p].phase.commit
  {
    hide HasKey;
    MoveReplacesBase(s, p);
    assert PhaseOk(s, s.attempts[p]);
    var at, moved := s.attempts[p].phase.at, s.attempts[p].phase.commit;
    ReachesChild(s.commits, at, moved, c);
    assert !KeyedOnBranch(s, key, c);
  }

  /** What one act changes, as far as the key is concerned. */
  ghost predicate KeyStep(s: System, key: string, p: nat, s': System) {
    && p < |s.attempts| && |s'.attempts| == |s.attempts|
    && (forall q | 0 <= q < |s.attempts| :: q != p ==> s'.attempts[q] == s.attempts[q])
    && s'.attempts[p].request == s.attempts[p].request && !s.attempts[p].phase.Done?
    && AtMostOne(s', key)
    && (PastSearch(s'.attempts[p].phase) ==> NoneYet(s', key))
  }

  lemma {:induction false} KeyStepCalm(s: System, key: string, p: nat, s': System)
    requires Calm(s, key) && KeyStep(s, key, p, s') && Good(s')
    ensures Calm(s', key)
  {
    hide Good, UsesKey, AtMostOne, NoneYet;
  }

  /** Acts that leave the head alone: the branch is as keyed as before. */
  lemma {:induction false} SameHeadStep(s: System, key: string, p: nat, s': System)
    requires Calm(s, key) && StepOk(s, p, s') && s'.head == s.head && !s.attempts[p].phase.Done?
    requires PastSearch(s'.attempts[p].phase) ==> PastSearch(s.attempts[p].phase) || NoneYet(s, key)
    ensures KeyStep(s, key, p, s')
  {
    hide Good, UsesKey, KeyedOnBranch, PhaseOk, MoveOk, Forward, Ordered;
    assert HeadOk(s) by {
      GoodHead(s);
    }
    forall c ensures KeyedOnBranch(s', key, c) <==> KeyedOnBranch(s, key, c) {
      SameKeyed(s, s', key, c);
    }
  }

  lemma {:induction false} GoodHead(s: System)
    requires Good(s)
    ensures HeadOk(s)
  {
  }

  /** The two ways that a search ends. */
  lemma {:induction false} SearchEnds(s: System, p: nat, page: seq<CommitId>, s': System)
    requires Searches(s, p, page, s')
    ensures p < |s.attempts| && p < |s'.attempts| && s'.head == s.head && !s.attempts[p].phase.Done?
    ensures var key, next := s.attempts[p].request.key, s'.attempts[p].phase;
      if exists c | c in page :: Keyed(s.commits, c, key) then
        next.Done? && next.outcome.Succeeded? && next.outcome.how.ByKey? && next.outcome.commit in page
        && Keyed(s.commits, next.outcome.commit, key)
      else next.Uploading?
  {
    hide HasKey, Reaches;
    var key := s.attempts[p].request.key;
    if c :| c in page && Keyed(s.commits, c, key) {
      var k :| 0 <= k < |page| && page[k] == c;
      assert Keyed(s.commits, page[k], key);
    }
  }

  lemma {:induction false} SearchStep(s: System, key: string, p: nat, page: seq<CommitId>, s': System)
    requires Calm(s, key) && Searches(s, p, page, s') && Covers(s, key, page)
    ensures KeyStep(s, key, p, s')
  {
    SearchesOk(s, p, page, s');
    SearchEnds(s, p, page, s');
    assert s.attempts[p].request.key == key by {
      assert UsesKey(s.attempts[p].request, key);
    }
    hide Good, StepOk, Searches, HasKey, Reaches, UsesKey, KeyStep, Calm;
    if s'.attempts[p].phase.Uploading? {
      assert forall c :: !KeyedOnBranch(s, key, c);
    }
    SameHeadStep(s, key, p, s');
  }

  lemma {:induction false} ReadStep(s: System, key: string, p: nat, s': System)
    requires Calm(s, key) && ReadsRef(s, p, s')
    ensures KeyStep(s, key, p, s')
  {
    ReadsRefOk(s, p, s');
    assert UsesKey(s.attempts[p].request, key);
    hide Good, StepOk, Reaches, HasKey, TrimSpace;
    SameHeadStep(s, key, p, s');
  }

  lemma {:induction false} MoveStep(s: System, key: string, p: nat, lost: bool, s': System)
    requires Calm(s, key) && MovesRef(s, p, lost, s')
    ensures KeyStep(s, key, p, s')
  {
    hide Good, KeyedOnBranch, UsesKey, RefAllows, NoneYet;
    assert NoneYet(s, key);
    forall a, b | KeyedOnBranch(s', key, a) && KeyedOnBranch(s', key, b) ensures a == b {
      MovedIsOnly(s, p, lost, s', key, a);
      MovedIsOnly(s, p, lost, s', key, b);
    }
  }

  /** Any other act: the head stays, and only an attempt past its search goes on. */
  lemma {:induction false} OtherStep(s: System, key: string, p: nat, s': System)
    requires Calm(s, key) && Acts(s, p, s') && p < |s.attempts|
    requires !s.attempts[p].phase.Searching? && !s.attempts[p].phase.Starting?
    requires forall lost :: !MovesRef(s, p, lost, s')
    ensures KeyStep(s, key, p, s')
  {
    HeadStays(s, p, s');
    hide Good, Acts, StepOk, MovesRef;
    ActKeepsGood(s, p, s');
    SameHeadStep(s, key, p, s');
  }

  lemma {:induction false} HeadStays(s: System, p: nat, s': System)
    requires Acts(s, p, s') && p < |s.attempts| && forall lost :: !MovesRef(s, p, lost, s')
    ensures s'.head == s.head && !s.attempts[p].phase.Done?
  {
    hide MovesRef, IsPage, Keyed, Reaches, RefAllows;
  }

  lemma {:induction false} CalmActKeeps(s: System, key: string, p: nat, s': System)
    requires Calm(s, key) && CalmAct(s, key, p, s')
    ensures Calm(s', key)
  {
    hide Calm, Good, KeyStep, Searches, Covers, ReadsRef, MovesRef, Fails;
    if page :| Searches(s, p, page, s') && Covers(s, key, page) {
      SearchStep(s, key, p, page, s');
    } else if Fails(s, p, s') {
      FailStep(s, key, p, s');
    } else if ReadsRef(s, p, s') {
      ReadStep(s, key, p, s');
    } else if lost :| MovesRef(s, p, lost, s') {
      MoveStep(s, key, p, lost, s');
    } else {
      NotStarting(s, p, s');
      OtherStep(s, key, p, s');
    }
    CalmIsGood(s, key);
    assert Acts(s, p, s');
    ActKeepsGood(s, p, s');
    KeyStepCalm(s, key, p, s');
  }

  lemma {:induction false} NotStarting(s: System, p: nat, s': System)
    requires Acts(s, p, s') && p < |s.attempts| && !ReadsRef(s, p, s') && !Fails(s, p, s')
    ensures !s.attempts[p].phase.Starting?
  {
    hide IsPage, Keyed, Reaches, RefAllows;
  }

  lemma {:induction false} FailStep(s: System, key: string, p: nat, s': System)
    requires Calm(s, key) && Fails(s, p, s')
    ensures KeyStep(s, key, p, s')
  {
    LearnsOk(s, p, Done(Failed));
    hide Good, StepOk;
    SameHeadStep(s, key, p, s');
  }

  lemma {:induction false} CalmIsGood(s: System, key: string)
    requires Calm(s, key)
    ensures Good(s)
  {
  }

  lemma {:induction false} CalmNextKeeps(s: System, key: string, s': System)
    requires Calm(s, key) && CalmNext(s, key, s')
    ensures Calm(s', key)
  {
    CalmIsGood(s, key);
    CalmIsNext(s, key, s');
    NextKeepsGood(s, s');
    hide Good, Next, UsesKey, KeyedOnBranch, CalmAct, Forward;
    if p :| CalmAct(s, key, p, s') {
      CalmActKeeps(s, key, p, s');
    } else if r :| Spawns(s, r, s') && UsesKey(r, key) && AllDone(s) {
      SpawnCalm(s, key, r, s');
    }
  }

  lemma {:induction false} SpawnCalm(s: System, key: string, r: Request, s': System)
    requires Calm(s, key) && Spawns(s, r, s') && UsesKey(r, key) && AllDone(s) && Good(s')
    ensures Calm(s', key)
  {
    hide Good, UsesKey, Keyed, OnBranch;
    assert forall c :: KeyedOnBranch(s', key, c) <==> KeyedOnBranch(s, key, c);
  }

  lemma {:induction false} RunCalm(trace: seq<System>, key: string, i: nat)
    requires IsCalmRun(trace, key) && i < |trace|
    ensures Calm(trace[i], key)
  {
    if i > 0 {
      RunCalm(trace, key, i - 1);
      CalmNextKeeps(trace[i - 1], key, trace[i]);
    }
  }

  lemma {:induction false} CalmStep(trace: seq<System>, key: string, i: nat)
    requires IsCalmRun(trace, key) && i + 1 < |trace|
    ensures CalmNext(trace[i], key, trace[i + 1])
  {
  }

  // What follows.

  /** At any time at most one commit with the key is on the branch, in every calm run. */
  lemma {:induction false} CalmAtMostOnce(trace: seq<System>, key: string, i: nat, a: CommitId, b: CommitId)
    requires IsCalmRun(trace, key) && i < |trace|
    requires KeyedOnBranch(trace[i], key, a) && KeyedOnBranch(trace[i], key, b)
    ensures a == b
  {
    RunCalm(trace, key, i);
  }

  /** A commit with the key stays on the branch. */
  lemma {:induction false} KeyedStays(s: System, key: string, s': System, c: CommitId)
    requires Calm(s, key) && CalmNext(s, key, s') && KeyedOnBranch(s, key, c)
    ensures KeyedOnBranch(s', key, c)
  {
    hide HasKey, Calm, CalmNext, Good, Next, Forward;
    CalmIsGood(s, key);
    CalmIsNext(s, key, s');
    NextKeepsGood(s, s');
    GoodHead(s);
    StaysOnBranch(s, s', c);
    OldCommit(s, s', c);
    LongerHistory(s, s');
  }

  /** An attempt that starts when its commit exists can only fail or find that commit. */
  ghost predicate FindsOnly(phase: Phase, c: CommitId) {
    phase.Starting? || phase.Searching? || phase == Done(Failed) || phase == Done(Succeeded(c, ByKey))
  }

  lemma {:induction false} SearchFinds(s: System, key: string, p: nat, page: seq<CommitId>, s': System, c: CommitId)
    requires Calm(s, key) && Searches(s, p, page, s') && Covers(s, key, page) && KeyedOnBranch(s, key, c)
    ensures p < |s'.attempts| && FindsOnly(s'.attempts[p].phase, c)
  {
    SearchEnds(s, p, page, s');
    assert s.attempts[p].request.key == key by {
      assert UsesKey(s.attempts[p].request, key);
    }
    assert forall d | d in page :: OnBranch(s.commits, s.head, d);
    assert AtMostOne(s, key);
    hide Good, Calm, Searches, Keyed, OnBranch;
    assert c in page;
    assert KeyedOnBranch(s, key, s'.attempts[p].phase.outcome.commit);
  }

  lemma {:induction false} ReadFinds(s: System, key: string, p: nat, s': System, c: CommitId)
    requires Calm(s, key) && ReadsRef(s, p, s') && KeyedOnBranch(s, key, c)
    ensures p < |s'.attempts| && FindsOnly(s'.attempts[p].phase, c)
  {
    assert UsesKey(s.attempts[p].request, key);
    hide TrimSpace, Good, Reaches, HasKey;
  }

  lemma {:induction false} FindsOnlyStays(s: System, key: string, s': System, p: nat, c: CommitId)
    requires Calm(s, key) && CalmNext(s, key, s') && KeyedOnBranch(s, key, c)
    requires p < |s.attempts| && FindsOnly(s.attempts[p].phase, c)
    ensures p < |s'.attempts| && FindsOnly(s'.attempts[p].phase, c)
  {
    hide Calm, Covers, Searches, ReadsRef, Fails, KeyedOnBranch;
    CalmIsGood(s, key);
    CalmIsNext(s, key, s');
    if CalmAct(s, key, p, s') {
      if page :| Searches(s, p, page, s') && Covers(s, key, page) {
        SearchFinds(s, key, p, page, s', c);
      } else if Fails(s, p, s') {
        FailedPhase(s, p, s');
      } else {
        OnlyReads(s, p, s', c);
        ReadFinds(s, key, p, s', c);
      }
    } else {
      NotActor(s, key, p, s');
    }
  }

  lemma {:induction false} FailedPhase(s: System, p: nat, s': System)
    requires Fails(s, p, s')
    ensures p < |s'.attempts| && s'.attempts[p].phase == Done(Failed)
  {
  }

  lemma {:induction false} OnlyReads(s: System, p: nat, s': System, c: CommitId)
    requires Acts(s, p, s') && p < |s.attempts| && FindsOnly(s.attempts[p].phase, c)
    requires !s.attempts[p].phase.Searching? && !Fails(s, p, s')
    ensures ReadsRef(s, p, s')
  {
    hide IsPage, Keyed, Reaches, RefAllows;
  }

  lemma {:induction false} NotActor(s: System, key: string, p: nat, s': System)
    requires Good(s) && CalmNext(s, key, s') && !CalmAct(s, key, p, s') && p < |s.attempts|
    ensures p < |s'.attempts| && s'.attempts[p] == s.attempts[p]
  {
    hide Good, StepOk, Searches, Fails, Covers, UsesKey, ForeignPush, Proper, Reaches;
    if q :| CalmAct(s, key, q, s') {
      assert Acts(s, q, s');
      ActKeepsGood(s, q, s');
      ActorOnly(s, q, s', p);
    }
  }

  /** The commit with the key is on the branch, and the attempt can only fail or find it. */
  ghost predicate Settles(s: System, key: string, p: nat, c: CommitId) {
    KeyedOnBranch(s, key, c) && p < |s.attempts| && FindsOnly(s.attempts[p].phase, c)
  }

  lemma {:induction false} SettlesStays(s: System, key: string, s': System, p: nat, c: CommitId)
    requires Calm(s, key) && CalmNext(s, key, s') && Settles(s, key, p, c)
    ensures Settles(s', key, p, c)
  {
    hide Calm, CalmNext, KeyedOnBranch, FindsOnly;
    FindsOnlyStays(s, key, s', p, c);
    KeyedStays(s, key, s', c);
  }

  lemma {:induction false} SettledFrom(trace: seq<System>, key: string, i: nat, j: nat, p: nat, c: CommitId)
    requires IsCalmRun(trace, key) && i <= j < |trace| && Settles(trace[i], key, p, c)
    ensures Settles(trace[j], key, p, c)
  {
    hide IsCalmRun, Calm, CalmNext, Settles;
    if j > i {
      SettledFrom(trace, key, i, j - 1, p, c);
      RunCalm(trace, key, j - 1);
      CalmStep(trace, key, j - 1);
      SettlesStays(trace[j - 1], key, trace[j], p, c);
    }
  }

  lemma {:induction false} CalmLaterAttempt(trace: seq<System>, key: string, i: nat, j: nat, p: nat, c: CommitId)
    requires IsCalmRun(trace, key) && i <= j < |trace| && KeyedOnBranch(trace[i], key, c) && p < |trace[i].attempts|
    requires trace[i].attempts[p].phase.Starting? || trace[i].attempts[p].phase.Searching?
    ensures KeyedOnBranch(trace[j], key, c) && p < |trace[j].attempts|
    ensures var now := trace[j].attempts[p].phase;
      now.Starting? || now.Searching? || now == Done(Failed) || now == Done(Succeeded(c, ByKey))
  {
    hide IsCalmRun, KeyedOnBranch;
    SettledFrom(trace, key, i, j, p, c);
  }

  // The same for the runs that a caller can tell: a linear history, and few commits above the keyed one.

  /** At most 49 commits lie above a commit with the key. */
  ghost predicate InWindow(s: System, key: string) {
    s.head.Some? ==> forall c | KeyedOnBranch(s, key, c) :: Above(s.commits, s.head.value, c) <= SEARCH_WINDOW - 1
  }

  /** Foreign commits are put one by one on top of the branch, or start it, and none carries the key. */
  ghost predicate LinearPush(s: System, more: seq<Commit>, key: string) {
    forall k | 0 <= k < |more| ::
      && more[k].parents == (if k == 0 then ParentsOf(s.head) else [|s.commits| + k - 1])
      && !HasKey(more[k].message, key)
  }

  /** The host lists the commits that a search asks for, or the attempt fails: the listing is not refused. */
  ghost predicate Answered(s: System, p: nat, s': System) {
    Fails(s, p, s') || exists page :: Searches(s, p, page, s') && IsPage(s.commits, s.head, page)
  }

  /** An act of an attempt; a search is answered, with the keyed commit, if there is one, within the window. */
  ghost predicate WindowAct(s: System, key: string, p: nat, s': System) {
    Acts(s, p, s') && p < |s.attempts| && (s.attempts[p].phase.Searching? ==> InWindow(s, key) && Answered(s, p, s'))
  }

  /** One attempt after another on a branch with a linear history. */
  ghost predicate WindowNext(s: System, key: string, s': System) {
    || (exists p :: WindowAct(s, key, p, s'))
    || (exists r :: Spawns(s, r, s') && UsesKey(r, key) && AllDone(s))
    || (exists more :: Pushes(s, more, s') && LinearPush(s, more, key))
  }

  ghost predicate WindowStep(trace: seq<System>, key: string, i: nat)
    requires i + 1 < |trace|
  {
    WindowNext(trace[i], key, trace[i + 1])
  }

  ghost predicate IsWindowRun(trace: seq<System>, key: string) {
    && |trace| >= 1 && trace[0] == INITIAL
    && forall i | 0 <= i < |trace| - 1 :: WindowStep(trace, key, i)
  }

  lemma {:induction false} ActLinear(s: System, p: nat, s': System)
    requires Linear(s.commits) && Acts(s, p, s')
    ensures Linear(s'.commits)
  {
    hide IsPage, Keyed, Reaches, RefAllows, HostAccepts;
    forall c | 0 <= c < |s'.commits| ensures |s'.commits[c].parents| <= 1 {
      if c < |s.commits| {
        assert s'.commits[c] == s.commits[c];
      }
    }
  }

  lemma {:induction false} WindowLinear(s: System, key: string, s': System)
    requires Linear(s.commits) && WindowNext(s, key, s')
    ensures Linear(s'.commits)
  {
    hide Acts, Reaches, HasKey, UsesKey, KeyedOnBranch;
    if p: nat :| WindowAct(s, key, p, s') {
      ActLinear(s, p, s');
    } else if r :| Spawns(s, r, s') && UsesKey(r, key) && AllDone(s) {
    } else {
      var more :| Pushes(s, more, s') && LinearPush(s, more, key);
      forall c | 0 <= c < |s'.commits| ensures |s'.commits[c].parents| <= 1 {
        if c < |s.commits| {
          assert s'.commits[c] == s.commits[c];
        } else {
          assert s'.commits[c] == more[c - |s.commits|];
        }
      }
    }
  }

  /** A linear push brings no keyed commit onto the branch: what it reaches is its own commits and the old branch. */
  lemma {:induction false} LinearPushIsForeign(s: System, more: seq<Commit>, s': System, key: string, k: nat, c: CommitId)
    requires HeadOk(s) && Pushes(s, more, s') && LinearPush(s, more, key) && k < |more|
    requires Reaches(s'.commits, c, |s.commits| + k) && Keyed(s'.commits, c, key)
    ensures KeyedOnBranch(s, key, c)
  {
    hide HasKey;
    var top := |s.commits| + k;
    assert s'.commits[top] == more[k];
    var at := if k == 0 then s.head else Some(top - 1);
    ReachesChild(s'.commits, at, top, c);
    assert c != top;
    if k == 0 {
      ReachesExtends(s.commits, more, c, s.head.value);
      ReachesOlder(s.commits, c, s.head.value);
      assert s'.commits[c] == s.commits[c];
    } else {
      LinearPushIsForeign(s, more, s', key, k - 1, c);
    }
  }

  lemma {:induction false} WindowSearch(s: System, key: string, p: nat, s': System)
    requires Good(s) && Linear(s.commits) && InWindow(s, key) && Answered(s, p, s') && p < |s.attempts|
    requires s.attempts[p].phase.Searching?
    ensures CalmAct(s, key, p, s')
  {
    assert s.head.Some? by {
      assert PhaseOk(s, s.attempts[p]);
    }
    hide Good, Acts, Searches, IsPage, Linear, InWindow, Covers, Fails;
    if !Fails(s, p, s') {
      var page :| Searches(s, p, page, s') && IsPage(s.commits, s.head, page);
      CoversByWindow(s, key, page);
    }
  }

  /** Why a search has to be answered: a refused listing takes the attempt on, whatever is on the branch. */
  lemma {:induction false} RefusedSearchGoesOn(s: System, p: nat) returns (s': System)
    requires p < |s.attempts| && s.attempts[p].phase.Searching?
    ensures Acts(s, p, s') && s'.attempts[p].phase == Uploading(Some(s.attempts[p].phase.base))
    ensures s'.head == s.head && s'.commits == s.commits
  {
    hide IsPage, Reaches, RefAllows, HostAccepts;
    s' := To(s, p, Uploading(Some(s.attempts[p].phase.base)));
    assert Searches(s, p, [], s');
  }

  lemma {:induction false} CoversByWindow(s: System, key: string, page: seq<CommitId>)
    requires Linear(s.commits) && s.head.Some? && IsPage(s.commits, s.head, page) && InWindow(s, key)
    ensures Covers(s, key, page)
  {
    hide Covers, Linear, IsPage, KeyedOnBranch;
    WindowCovers(s, key, page);
  }

  lemma {:induction false} WindowIsCalm(s: System, key: string, s': System)
    requires Good(s) && Linear(s.commits) && WindowNext(s, key, s')
    ensures CalmNext(s, key, s')
  {
    hide Good, Acts, UsesKey, Linear, InWindow, CalmAct, Answered;
    if p: nat :| WindowAct(s, key, p, s') {
      if s.attempts[p].phase.Searching? {
        WindowSearch(s, key, p, s');
      } else {
        OtherCalmAct(s, key, p, s');
      }
      assert CalmAct(s, key, p, s');
    } else if r :| Spawns(s, r, s') && UsesKey(r, key) && AllDone(s) {
    } else {
      var more :| Pushes(s, more, s') && LinearPush(s, more, key);
      PushIsForeign(s, more, s', key);
    }
  }

  lemma {:induction false} OtherCalmAct(s: System, key: string, p: nat, s': System)
    requires Acts(s, p, s') && p < |s.attempts| && !s.attempts[p].phase.Searching?
    ensures CalmAct(s, key, p, s')
  {
    hide Acts;
  }

  lemma {:induction false} PushIsForeign(s: System, more: seq<Commit>, s': System, key: string)
    requires Good(s) && Pushes(s, more, s') && LinearPush(s, more, key)
    ensures ForeignPush(s, key, s')
  {
    GoodHead(s);
    hide Good, Reaches, LinearPush, HasKey;
    forall c | KeyedOnBranch(s', key, c) ensures KeyedOnBranch(s, key, c) {
      LinearPushIsForeign(s, more, s', key, |more| - 1, c);
    }
  }

  /** Such a run is calm. */
  lemma {:induction false} WindowRunIsCalm(trace: seq<System>, key: string)
    requires IsWindowRun(trace, key)
    ensures IsCalmRun(trace, key)
  {
    hide CalmNext, WindowNext, Good, Linear;
    forall i | 0 <= i < |trace| - 1 ensures CalmNext(trace[i], key, trace[i + 1]) {
      WindowRunLinear(trace, key, i);
      assert WindowStep(trace, key, i);
      WindowIsCalm(trace[i], key, trace[i + 1]);
    }
  }

  lemma {:induction false} WindowRunLinear(trace: seq<System>, key: string, i: nat)
    requires IsWindowRun(trace, key) && i < |trace|
    ensures Linear(trace[i].commits) && Good(trace[i])
  {
    hide CalmNext, WindowNext, Good, Next;
    if i == 0 {
      InitialGood();
    } else {
      WindowRunLinear(trace, key, i - 1);
      assert WindowStep(trace, key, i - 1);
      WindowLinear(trace[i - 1], key, trace[i]);
      WindowIsCalm(trace[i - 1], key, trace[i]);
      CalmIsNext(trace[i - 1], key, trace[i]);
      NextKeepsGood(trace[i - 1], trace[i]);
    }
  }

  /**
   * At most once: on a branch with a linear history, with attempts one after another, whose searches are
   * answered with at most 49 commits above the keyed one, at most one commit with the key is ever on the
   * branch, also when a ref update landed but its response was lost, or when a lost race was retried.
   */
  lemma {:induction false} AtMostOnce(trace: seq<System>, key: string, i: nat, a: CommitId, b: CommitId)
    requires IsWindowRun(trace, key) && i < |trace|
    requires KeyedOnBranch(trace[i], key, a) && KeyedOnBranch(trace[i], key, b)
    ensures a == b
  {
    hide IsWindowRun, KeyedOnBranch;
    WindowRunIsCalm(trace, key);
    hide IsCalmRun;
    CalmAtMostOnce(trace, key, i, a, b);
  }

  /**
   * An attempt that starts, or searches, after a commit with the key has reached the branch, as the
   * next one does when a response was lost, makes no other: if it succeeds, it returns that commit.
   */
  lemma {:induction false} LaterAttemptReturnsIt(trace: seq<System>, key: string, i: nat, j: nat, p: nat, c: CommitId)
    requires IsWindowRun(trace, key) && i <= j < |trace| && KeyedOnBranch(trace[i], key, c) && p < |trace[i].attempts|
    requires trace[i].attempts[p].phase.Starting? || trace[i].attempts[p].phase.Searching?
    ensures KeyedOnBranch(trace[j], key, c) && p < |trace[j].attempts|
    ensures var now := trace[j].attempts[p].phase;
      now.Starting? || now.Searching? || now == Done(Failed) || now == Done(Succeeded(c, ByKey))
  {
    hide IsWindowRun, KeyedOnBranch;
    WindowRunIsCalm(trace, key);
    hide IsCalmRun;
    CalmLaterAttempt(trace, key, i, j, p, c);
  }
}
