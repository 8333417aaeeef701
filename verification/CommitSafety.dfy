/** No lost update: what every step of the commit protocol keeps, with any writers that only fast-forward. */
module CommitSafety {
  import opened Prelude
  import opened GitTree
  import opened Trailer
  import opened CommitProtocol

  // Reachability.

  lemma {:induction false} ReachesOlder(commits: seq<Commit>, a: CommitId, b: CommitId)
    requires Reaches(commits, a, b)
    ensures a <= b < |commits|
    decreases b
  {
    if a != b {
      var p :| p in commits[b].parents && p < b && Reaches(commits, a, p);
      ReachesOlder(commits, a, p);
    }
  }

  lemma {:induction false} ReachesTransitive(commits: seq<Commit>, a: CommitId, b: CommitId, c: CommitId)
    requires Reaches(commits, a, b) && Reaches(commits, b, c)
    ensures Reaches(commits, a, c)
    decreases c
  {
    if b != c {
      var p :| p in commits[c].parents && p < c && Reaches(commits, b, p);
      ReachesTransitive(commits, a, b, p);
    }
  }

  /** New commits change nothing about what old ones reach. */
  lemma {:induction false} ReachesExtends(commits: seq<Commit>, more: seq<Commit>, a: CommitId, b: CommitId)
    requires b < |commits|
    ensures Reaches(commits + more, a, b) <==> Reaches(commits, a, b)
    decreases b
  {
    assert (commits + more)[b] == commits[b];
    forall p | p in commits[b].parents && p < b ensures Reaches(commits + more, a, p) <==> Reaches(commits, a, p) {
      ReachesExtends(commits, more, a, p);
    }
  }

  /** What a commit with at most one parent reaches. */
  lemma {:induction false} ReachesChild(commits: seq<Commit>, at: Option<CommitId>, c: CommitId, a: CommitId)
    requires c < |commits| && commits[c].parents == ParentsOf(at) && (at.Some? ==> at.value < c)
    ensures Reaches(commits, a, c) <==> a == c || OnBranch(commits, at, a)
  {
    if Reaches(commits, a, c) && a != c {
      var p :| p in commits[c].parents && p < c && Reaches(commits, a, p);
      assert p == at.value;
    }
    if OnBranch(commits, at, a) {
      assert at.value in commits[c].parents;
    }
  }

  // Bounded retrying.

  /** How many more calls to the host an attempt can make: it retries a lost race once. */
  function CallsLeft(phase: Phase, payloads: nat): nat {
    match phase
    case Starting => 13 + payloads
    case Searching(_) => 12 + payloads
    case Uploading(_) => 11 + payloads
    case Filtering(_, retry) => if retry then 4 else 10
    case Growing(_, retry, _) => if retry then 3 else 9
    case Committing(_, retry, _) => if retry then 2 else 8
    case Moving(_, retry, _) => if retry then 1 else 7
    case Recovering(_) => 6
    case Done(_) => 0
  }

  /** How many calls the next step makes at most: uploads and the parent commit, the raced ref and its commit, else one. */
  function Cost(phase: Phase, payloads: nat): nat {
    match phase
    case Uploading(_) => payloads + 1
    case Recovering(_) => 2
    case Done(_) => 0
    case _ => 1
  }

  predicate Spends(before: Phase, after: Phase, payloads: nat) {
    !before.Done? && CallsLeft(after, payloads) + Cost(before, payloads) <= CallsLeft(before, payloads)
  }

  // The invariant.

  ghost predicate AtOk(s: System, at: Option<CommitId>) {
    at.Some? ==> OnBranch(s.commits, s.head, at.value)
  }

  /** A commit that carries out the request on a base. */
  ghost predicate CarriesOut(commits: seq<Commit>, r: Request, at: Option<CommitId>, c: CommitId) {
    && c < |commits| && (at.Some? ==> at.value < c)
    && commits[c] == Commit(ParentsOf(at), Apply(TreeAt(commits, at), r.entries), MessageOf(r))
  }

  ghost predicate OutcomeOk(s: System, r: Request, o: Outcome) {
    o.Succeeded? ==>
      && OnBranch(s.commits, s.head, o.commit) && o.commit < |s.commits|
      && (!o.how.ByKey? && !o.how.ByMatch? ==> Satisfies(s.commits[o.commit].tree, r.entries))
  }

  ghost predicate PhaseOk(s: System, a: Attempt) {
    match a.phase
    case Starting => true
    case Searching(base) => OnBranch(s.commits, s.head, base)
    case Uploading(at) => AtOk(s, at)
    case Filtering(at, _) => AtOk(s, at)
    case Growing(at, _, kept) =>
      AtOk(s, at) && Apply(TreeAt(s.commits, at), kept) == Apply(TreeAt(s.commits, at), a.request.entries)
    case Committing(at, _, tree) => AtOk(s, at) && tree == Apply(TreeAt(s.commits, at), a.request.entries)
    case Moving(at, _, c) => AtOk(s, at) && CarriesOut(s.commits, a.request, at, c) && s.head != Some(c)
    case Recovering(c) => c < |s.commits|
    case Done(o) => OutcomeOk(s, a.request, o)
  }

  ghost predicate MoveOk(s: System, m: Move) {
    && m.attempt < |s.attempts|
    && CarriesOut(s.commits, s.attempts[m.attempt].request, m.replaced, m.installed)
    && OnBranch(s.commits, s.head, m.installed)
  }

  ghost predicate HeadOk(s: System) {
    s.head.Some? ==> s.head.value < |s.commits|
  }

  ghost predicate Good(s: System) {
    && Ordered(s.commits) && HeadOk(s)
    && (forall p | 0 <= p < |s.attempts| :: Proper(s.attempts[p].request) && PhaseOk(s, s.attempts[p]))
    && (forall p, q | 0 <= p < q < |s.attempts| && s.attempts[p].phase.Moving? && s.attempts[q].phase.Moving? ::
         s.attempts[p].phase.commit != s.attempts[q].phase.commit)
    && (forall i | 0 <= i < |s.moves| :: MoveOk(s, s.moves[i]) && s.attempts[s.moves[i].attempt].phase.Done?)
    && (forall i, j | 0 <= i < j < |s.moves| :: s.moves[i].attempt != s.moves[j].attempt)
  }

  /** The branch has not been rewound. */
  ghost predicate Forward(s: System, s': System) {
    && |s.commits| <= |s'.commits| && s'.commits[..|s.commits|] == s.commits
    && (s.head.Some? ==> s'.head.Some? && Reaches(s'.commits, s.head.value, s'.head.value))
  }

  lemma {:induction false} StaysOnBranch(s: System, s': System, c: CommitId)
    requires Forward(s, s') && HeadOk(s) && OnBranch(s.commits, s.head, c)
    ensures OnBranch(s'.commits, s'.head, c)
  {
    var more := s'.commits[|s.commits|..];
    assert s.commits + more == s'.commits;
    ReachesExtends(s.commits, more, c, s.head.value);
    ReachesTransitive(s'.commits, c, s.head.value, s'.head.value);
  }

  lemma {:induction false} OnBranchOlder(s: System, c: CommitId)
    requires OnBranch(s.commits, s.head, c)
    ensures c < |s.commits| && c <= s.head.value
  {
    ReachesOlder(s.commits, c, s.head.value);
  }

  lemma {:induction false} OldCommit(s: System, s': System, c: CommitId)
    requires Forward(s, s') && c < |s.commits|
    ensures s'.commits[c] == s.commits[c]
  {
    assert s'.commits[..|s.commits|][c] == s'.commits[c];
  }

  lemma {:induction false} OldTree(s: System, s': System, at: Option<CommitId>)
    requires Forward(s, s') && (at.Some? ==> at.value < |s.commits|)
    ensures TreeAt(s'.commits, at) == TreeAt(s.commits, at)
  {
    if at.Some? {
      OldCommit(s, s', at.value);
    }
  }

  lemma {:induction false} OldAt(s: System, s': System, at: Option<CommitId>)
    requires Forward(s, s') && HeadOk(s) && AtOk(s, at)
    ensures AtOk(s', at) && TreeAt(s'.commits, at) == TreeAt(s.commits, at)
  {
    if at.Some? {
      StaysOnBranch(s, s', at.value);
      OnBranchOlder(s, at.value);
    }
    OldTree(s, s', at);
  }

  lemma {:induction false} StillCarriesOut(s: System, s': System, r: Request, at: Option<CommitId>, c: CommitId)
    requires Forward(s, s') && CarriesOut(s.commits, r, at, c)
    ensures CarriesOut(s'.commits, r, at, c)
  {
    OldCommit(s, s', c);
    OldTree(s, s', at);
  }

  /** What holds of an attempt goes on holding while others act. */
  lemma {:induction false} PhaseStays(s: System, s': System, a: Attempt)
    requires Forward(s, s') && HeadOk(s) && PhaseOk(s, a)
    requires a.phase.Moving? ==> s'.head != Some(a.phase.commit)
    ensures PhaseOk(s', a)
  {
    hide OnBranch, Forward, Apply, CarriesOut, Satisfies;
    match a.phase
    case Searching(base) => StaysOnBranch(s, s', base);
    case Uploading(at) => OldAt(s, s', at);
    case Filtering(at, _) => OldAt(s, s', at);
    case Growing(at, _, _) => OldAt(s, s', at);
    case Committing(at, _, _) => OldAt(s, s', at);
    case Moving(at, _, c) =>
      OldAt(s, s', at);
      StillCarriesOut(s, s', a.request, at, c);
    case Recovering(c) => LongerHistory(s, s');
    case Done(o) =>
      if o.Succeeded? {
        StaysOnBranch(s, s', o.commit);
        OldCommit(s, s', o.commit);
        LongerHistory(s, s');
      }
    case _ =>
  }

  lemma {:induction false} LongerHistory(s: System, s': System)
    requires Forward(s, s')
    ensures |s.commits| <= |s'.commits|
  {
  }

  lemma {:induction false} MoveStays(s: System, s': System, m: Move)
    requires Forward(s, s') && HeadOk(s) && MoveOk(s, m)
    requires m.attempt < |s'.attempts| && s'.attempts[m.attempt].request == s.attempts[m.attempt].request
    ensures MoveOk(s', m)
  {
    StillCarriesOut(s, s', s.attempts[m.attempt].request, m.replaced, m.installed);
    StaysOnBranch(s, s', m.installed);
  }

  /** One attempt moves on: what must hold of it, and of the branch, for the invariant to stay. */
  ghost predicate StepOk(s: System, p: nat, s': System) {
    && p < |s.attempts| && |s'.attempts| == |s.attempts|
    && (forall q | 0 <= q < |s.attempts| :: q != p ==> s'.attempts[q] == s.attempts[q])
    && s'.attempts[p].request == s.attempts[p].request
    && Spends(s.attempts[p].phase, s'.attempts[p].phase, s.attempts[p].request.payloads)
    && Forward(s, s') && Ordered(s'.commits) && HeadOk(s')
    && PhaseOk(s', s'.attempts[p])
    && (s'.head != s.head ==>
         && s.attempts[p].phase.Moving? && s'.head == Some(s.attempts[p].phase.commit)
         && s'.moves == s.moves + [Move(p, s.head, s.attempts[p].phase.commit)])
    && (s'.attempts[p].phase.Moving? ==> s'.attempts[p].phase.commit >= |s.commits|)
    && (s'.moves == s.moves
        || exists m :: s'.moves == s.moves + [m] && MoveOk(s', m) && m.attempt == p && s'.attempts[p].phase.Done?)
  }

  lemma {:induction false} StepKeepsGood(s: System, p: nat, s': System)
    requires Good(s) && StepOk(s, p, s')
    ensures Good(s')
  {
    hide PhaseOk, MoveOk, Forward, Proper, Ordered;
    forall q | 0 <= q < |s'.attempts| ensures Proper(s'.attempts[q].request) && PhaseOk(s', s'.attempts[q]) {
      if q != p {
        assert PhaseOk(s, s.attempts[q]);
        MovingIsOld(s, q);
        PhaseStays(s, s', s.attempts[q]);
      }
    }
    forall q, r | 0 <= q < r < |s'.attempts| && s'.attempts[q].phase.Moving? && s'.attempts[r].phase.Moving?
      ensures s'.attempts[q].phase.commit != s'.attempts[r].phase.commit
    {
      if q != p {
        MovingIsOld(s, q);
      }
      if r != p {
        MovingIsOld(s, r);
      }
    }
    forall i | 0 <= i < |s'.moves| ensures MoveOk(s', s'.moves[i]) && s'.moves[i].attempt < |s'.attempts|
      && s'.attempts[s'.moves[i].attempt].phase.Done?
    {
      if i < |s.moves| {
        assert MoveOk(s, s.moves[i]) && s'.moves[i] == s.moves[i];
        MoveOfAttempt(s, s.moves[i]);
        assert s.attempts[s.moves[i].attempt].phase.Done?;
        MoveStays(s, s', s.moves[i]);
      }
    }
  }

  lemma {:induction false} MoveOfAttempt(s: System, m: Move)
    requires MoveOk(s, m)
    ensures m.attempt < |s.attempts|
  {
  }

  lemma {:induction false} MovingIsOld(s: System, q: nat)
    requires Good(s) && q < |s.attempts|
    ensures s.attempts[q].phase.Moving? ==> s.attempts[q].phase.commit < |s.commits| && s.head != Some(s.attempts[q].phase.commit)
  {
    assert PhaseOk(s, s.attempts[q]);
  }

  /** The host does not change; the attempt only learns something. */
  lemma {:induction false} LearnsOk(s: System, p: nat, phase: Phase)
    requires Good(s) && p < |s.attempts| && PhaseOk(s, s.attempts[p].(phase := phase))
    requires !phase.Moving? && Spends(s.attempts[p].phase, phase, s.attempts[p].request.payloads)
    ensures StepOk(s, p, To(s, p, phase))
  {
    hide PhaseOk, Reaches;
    SelfForward(s, To(s, p, phase));
    SamePhase(s, To(s, p, phase), s.attempts[p].(phase := phase));
  }

  /** A step that changes the host. */
  lemma {:induction false} HostStepOk(s: System, p: nat, phase: Phase, s': System)
    requires p < |s.attempts| && s'.attempts == To(s, p, phase).attempts
    requires Spends(s.attempts[p].phase, phase, s.attempts[p].request.payloads)
    requires Forward(s, s') && Ordered(s'.commits) && HeadOk(s') && PhaseOk(s', s.attempts[p].(phase := phase))
    requires s'.head != s.head ==>
      && s.attempts[p].phase.Moving? && s'.head == Some(s.attempts[p].phase.commit)
      && s'.moves == s.moves + [Move(p, s.head, s.attempts[p].phase.commit)]
    requires phase.Moving? ==> phase.commit >= |s.commits|
    requires s'.moves == s.moves || exists m :: s'.moves == s.moves + [m] && MoveOk(s', m) && m.attempt == p && phase.Done?
    ensures StepOk(s, p, s')
  {
    hide Forward, Ordered, HeadOk, PhaseOk, MoveOk, Spends;
  }

  lemma {:induction false} SelfForward(s: System, s': System)
    requires HeadOk(s) && s'.commits == s.commits && s'.head == s.head
    ensures Forward(s, s')
  {
  }

  lemma {:induction false} SamePhase(s: System, s': System, a: Attempt)
    requires PhaseOk(s, a) && s'.commits == s.commits && s'.head == s.head
    ensures PhaseOk(s', a)
  {
    hide Reaches, Apply, Satisfies;
  }

  lemma {:induction false} ReadsRefOk(s: System, p: nat, s': System)
    requires Good(s) && ReadsRef(s, p, s')
    ensures StepOk(s, p, s')
  {
    LearnsOk(s, p, s'.attempts[p].phase);
  }

  lemma {:induction false} FoundPhase(s: System, p: nat, page: seq<CommitId>, s': System)
    requires p < |s.attempts| && PhaseOk(s, s.attempts[p]) && Searches(s, p, page, s')
    ensures p < |s'.attempts| && s' == To(s, p, s'.attempts[p].phase)
    ensures PhaseOk(s, s.attempts[p].(phase := s'.attempts[p].phase))
    ensures s'.attempts[p].phase.Done? || s'.attempts[p].phase.Uploading?
  {
    hide Keyed, Reaches, Satisfies;
    var next := s'.attempts[p].phase;
    if next.Done? {
      assert next.outcome.commit in page;
      OnBranchOlder(s, next.outcome.commit);
    }
  }

  lemma {:induction false} SearchingPhase(s: System, p: nat, page: seq<CommitId>, s': System)
    requires Good(s) && Searches(s, p, page, s')
    ensures p < |s.attempts| && PhaseOk(s, s.attempts[p]) && s.attempts[p].phase.Searching?
  {
    hide Listed, Keyed, PhaseOk;
  }

  lemma {:induction false} SearchesOk(s: System, p: nat, page: seq<CommitId>, s': System)
    requires Good(s) && Searches(s, p, page, s')
    ensures StepOk(s, p, s')
  {
    SearchingPhase(s, p, page, s');
    hide Searches, Good, PhaseOk, StepOk;
    FoundPhase(s, p, page, s');
    LearnsOk(s, p, s'.attempts[p].phase);
  }

  /** An attempt stops early only at a base that already satisfies its request. */
  lemma {:induction false} FiltersOk(s: System, p: nat, l: Listing, s': System)
    requires Good(s) && Filters(s, p, l, s')
    ensures StepOk(s, p, s')
  {
    var me := s.attempts[p];
    assert PhaseOk(s, me) && Proper(me.request);
    var base := TreeAt(s.commits, me.phase.at);
    FilterKeepsMeaning(base, l, me.request.entries);
    if Kept(l, me.request.entries) == [] {
      NothingKept(base, l, me.request.entries);
      if me.phase.at.Some? {
        OnBranchOlder(s, me.phase.at.value);
      }
    }
    hide Reaches, StepOk, Kept, Apply, Satisfies;
    LearnsOk(s, p, s'.attempts[p].phase);
  }

  lemma {:induction false} NothingKept(base: Tree, l: Listing, entries: seq<Entry>)
    requires Lists(l, base) && entries != [] && Kept(l, entries) == []
    ensures Satisfies(base, entries)
  {
    var e := entries[0];
    KeptMember(l, entries, e);
    if !l.truncated {
      NothingLeft(base, l, entries);
    }
  }

  lemma {:induction false} GrowsOk(s: System, p: nat, s': System)
    requires Good(s) && Grows(s, p, s')
    ensures StepOk(s, p, s')
  {
    var me := s.attempts[p];
    assert PhaseOk(s, me) && Proper(me.request);
    ApplyMeans(TreeAt(s.commits, me.phase.at), me.request.entries, Apply(TreeAt(s.commits, me.phase.at), me.request.entries));
    if me.phase.at.Some? {
      OnBranchOlder(s, me.phase.at.value);
    }
    hide Reaches, StepOk, Apply, Satisfies, HostAccepts;
    LearnsOk(s, p, s'.attempts[p].phase);
  }

  lemma {:induction false} RecoversOk(s: System, p: nat, s': System)
    requires Good(s) && Recovers(s, p, s')
    ensures StepOk(s, p, s')
  {
    hide Keyed, StepOk;
    LearnsOk(s, p, s'.attempts[p].phase);
  }

  lemma {:induction false} RestingPhase(s: System, a: Attempt, c: CommitId)
    requires c < |s.commits|
    ensures PhaseOk(s, a.(phase := Recovering(c))) && PhaseOk(s, a.(phase := Done(Failed)))
  {
  }

  lemma {:induction false} LosesRaceOk(s: System, p: nat, s': System)
    requires Good(s) && LosesRace(s, p, s')
    ensures StepOk(s, p, s')
  {
    hide Good, StepOk, RefAllows, HeadOk, PhaseOk;
    MovingIsOld(s, p);
    var me := s.attempts[p];
    RestingPhase(s, me, me.phase.commit);
    if me.phase.retry {
      LearnsOk(s, p, Done(Failed));
    } else {
      LearnsOk(s, p, Recovering(me.phase.commit));
    }
  }

  lemma {:induction false} CommittingFacts(s: System, p: nat)
    requires Good(s) && p < |s.attempts| && s.attempts[p].phase.Committing?
    ensures var at := s.attempts[p].phase.at;
      && HeadOk(s) && AtOk(s, at) && (at.Some? ==> at.value < |s.commits|)
      && s.attempts[p].phase.tree == Apply(TreeAt(s.commits, at), s.attempts[p].request.entries)
  {
    assert PhaseOk(s, s.attempts[p]);
    if s.attempts[p].phase.at.Some? {
      OnBranchOlder(s, s.attempts[p].phase.at.value);
    }
  }

  lemma {:induction false} CreatesOk(s: System, p: nat, s': System)
    requires Good(s) && Creates(s, p, s')
    ensures StepOk(s, p, s')
  {
    hide Good, Forward, Ordered, StepOk, PhaseOk, AtOk, Reaches, Apply;
    var me := s.attempts[p];
    CommittingFacts(s, p);
    CreatesForward(s, p, s');
    OldAt(s, s', me.phase.at);
    CreatedPhase(s, p, s');
    assert HeadOk(s');
    HostStepOk(s, p, Moving(me.phase.at, me.phase.retry, |s.commits|), s');
  }

  lemma {:induction false} CreatedPhase(s: System, p: nat, s': System)
    requires HeadOk(s) && Creates(s, p, s') && Forward(s, s')
    requires var at := s.attempts[p].phase.at;
      && AtOk(s', at) && TreeAt(s'.commits, at) == TreeAt(s.commits, at) && (at.Some? ==> at.value < |s.commits|)
      && s.attempts[p].phase.tree == Apply(TreeAt(s.commits, at), s.attempts[p].request.entries)
    ensures PhaseOk(s', s.attempts[p].(phase := Moving(s.attempts[p].phase.at, s.attempts[p].phase.retry, |s.commits|)))
  {
    hide Reaches, OnBranch, Apply, Forward;
    assert s'.commits[|s.commits|] ==
      Commit(ParentsOf(s.attempts[p].phase.at), s.attempts[p].phase.tree, MessageOf(s.attempts[p].request));
  }

  lemma {:induction false} CreatesForward(s: System, p: nat, s': System)
    requires Good(s) && Creates(s, p, s')
    requires s.attempts[p].phase.at.Some? ==> s.attempts[p].phase.at.value < |s.commits|
    ensures Forward(s, s') && Ordered(s'.commits)
  {
    forall c, k | 0 <= c < |s'.commits| && 0 <= k < |s'.commits[c].parents| ensures s'.commits[c].parents[k] < c {
      if c < |s.commits| {
        assert s'.commits[c] == s.commits[c];
      }
    }
  }

  /**
   * The heart of the matter: a non-forced update succeeds only if the branch is still at the head
   * that the commit was built on.
   */
  lemma {:induction false} MoveReplacesBase(s: System, p: nat)
    requires Good(s) && p < |s.attempts| && s.attempts[p].phase.Moving?
    requires RefAllows(s, s.attempts[p].phase.at, s.attempts[p].phase.commit)
    ensures s.head == s.attempts[p].phase.at
  {
    var at, c := s.attempts[p].phase.at, s.attempts[p].phase.commit;
    assert PhaseOk(s, s.attempts[p]);
    if at.Some? {
      ReachesChild(s.commits, at, c, s.head.value);
      ReachesOlder(s.commits, at.value, s.head.value);
      if s.head.value != c {
        ReachesOlder(s.commits, s.head.value, at.value);
      }
    }
  }

  lemma {:induction false} MovingFacts(s: System, p: nat)
    requires Good(s) && p < |s.attempts| && s.attempts[p].phase.Moving?
    ensures Ordered(s.commits) && DistinctPaths(s.attempts[p].request.entries)
    ensures CarriesOut(s.commits, s.attempts[p].request, s.attempts[p].phase.at, s.attempts[p].phase.commit)
  {
    assert PhaseOk(s, s.attempts[p]) && Proper(s.attempts[p].request);
  }

  lemma {:induction false} MovedPhase(s: System, p: nat, at: Option<CommitId>, c: CommitId)
    requires p < |s.attempts| && OnBranch(s.commits, s.head, c)
    requires CarriesOut(s.commits, s.attempts[p].request, at, c) && DistinctPaths(s.attempts[p].request.entries)
    ensures PhaseOk(s, s.attempts[p].(phase := Done(Succeeded(c, Moved)))) && PhaseOk(s, s.attempts[p].(phase := Done(Failed)))
    ensures MoveOk(s, Move(p, at, c))
  {
    hide Reaches, Satisfies, Apply;
    ApplyMeans(TreeAt(s.commits, at), s.attempts[p].request.entries, s.commits[c].tree);
  }

  lemma {:induction false} MovesRefOk(s: System, p: nat, lost: bool, s': System)
    requires Good(s) && MovesRef(s, p, lost, s')
    ensures StepOk(s, p, s')
  {
    hide Good, StepOk, Reaches, Apply, PhaseOk, RefAllows, OutcomeOk, MoveOk, CarriesOut, Forward, Ordered;
    MoveReplacesBase(s, p);
    MovingFacts(s, p);
    var me := s.attempts[p];
    var at, c := me.phase.at, me.phase.commit;
    CarriedParents(s.commits, me.request, at, c);
    MovedForward(s, at, c, s');
    MovedPhase(s', p, at, c);
    SamePhases(me, s'.attempts[p], c);
    HostStepOk(s, p, Done(if lost then Failed else Succeeded(c, Moved)), s');
  }

  lemma {:induction false} SamePhases(a: Attempt, b: Attempt, c: CommitId)
    requires a.request == b.request
    ensures a.(phase := Done(Succeeded(c, Moved))) == b.(phase := Done(Succeeded(c, Moved)))
    ensures a.(phase := Done(Failed)) == b.(phase := Done(Failed))
  {
  }

  lemma {:induction false} CarriedParents(commits: seq<Commit>, r: Request, at: Option<CommitId>, c: CommitId)
    requires CarriesOut(commits, r, at, c)
    ensures c < |commits| && commits[c].parents == ParentsOf(at) && (at.Some? ==> at.value < c)
  {
  }

  lemma {:induction false} MovedForward(s: System, at: Option<CommitId>, c: CommitId, s': System)
    requires s.head == at && c < |s.commits| && s.commits[c].parents == ParentsOf(at) && (at.Some? ==> at.value < c)
    requires s'.commits == s.commits && s'.head == Some(c)
    ensures Forward(s, s') && OnBranch(s'.commits, s'.head, c)
  {
    ReachesChild(s.commits, at, c, c);
    if at.Some? {
      ReachesChild(s.commits, at, c, at.value);
      assert Reaches(s.commits, at.value, at.value);
    }
  }

  lemma {:induction false} ActKeepsGood(s: System, p: nat, s': System)
    requires Good(s) && Acts(s, p, s')
    ensures StepOk(s, p, s') && Good(s')
  {
    assert StepOk(s, p, s') by {
      hide StepOk, Good;
      if Fails(s, p, s') {
        LearnsOk(s, p, Done(Failed));
      } else if ReadsRef(s, p, s') {
        ReadsRefOk(s, p, s');
      } else if page :| Searches(s, p, page, s') {
        SearchesOk(s, p, page, s');
      } else if Uploads(s, p, s') {
        UploadsOk(s, p, s');
      } else if l :| Filters(s, p, l, s') {
        FiltersOk(s, p, l, s');
      } else if Grows(s, p, s') {
        GrowsOk(s, p, s');
      } else if Creates(s, p, s') {
        CreatesOk(s, p, s');
      } else if lost :| MovesRef(s, p, lost, s') {
        MovesRefOk(s, p, lost, s');
      } else if LosesRace(s, p, s') {
        LosesRaceOk(s, p, s');
      } else {
        RecoversOk(s, p, s');
      }
    }
    StepKeepsGood(s, p, s');
  }

  lemma {:induction false} UploadsOk(s: System, p: nat, s': System)
    requires Good(s) && Uploads(s, p, s')
    ensures StepOk(s, p, s')
  {
    assert PhaseOk(s, s.attempts[p]);
    hide Reaches, StepOk;
    LearnsOk(s, p, s'.attempts[p].phase);
  }

  lemma {:induction false} PushForward(s: System, more: seq<Commit>, s': System)
    requires Good(s) && Pushes(s, more, s')
    ensures Forward(s, s')
  {
  }

  lemma {:induction false} PushKeepsGood(s: System, more: seq<Commit>, s': System)
    requires Good(s) && Pushes(s, more, s')
    ensures Forward(s, s') && Good(s')
  {
    PushForward(s, more, s');
    hide PhaseOk, MoveOk, Forward, Proper, Ordered, Reaches;
    forall q | 0 <= q < |s'.attempts| ensures PhaseOk(s', s'.attempts[q]) {
      MovingIsOld(s, q);
      PhaseStays(s, s', s.attempts[q]);
    }
    forall i | 0 <= i < |s'.moves| ensures MoveOk(s', s'.moves[i]) {
      MoveOfAttempt(s, s.moves[i]);
      MoveStays(s, s', s.moves[i]);
    }
  }

  lemma {:induction false} SpawnKeepsGood(s: System, r: Request, s': System)
    requires Good(s) && Spawns(s, r, s')
    ensures Forward(s, s') && Good(s')
  {
    SelfForward(s, s');
    forall q | 0 <= q < |s'.attempts| ensures PhaseOk(s', s'.attempts[q]) {
      if q < |s.attempts| {
        SamePhase(s, s', s.attempts[q]);
      }
    }
    hide PhaseOk, Forward, Ordered, Reaches, Apply;
    forall i | 0 <= i < |s'.moves| ensures MoveOk(s', s'.moves[i]) {
      assert MoveOk(s, s.moves[i]);
    }
  }

  lemma {:induction false} NextKeepsGood(s: System, s': System)
    requires Good(s) && Next(s, s')
    ensures Good(s') && Forward(s, s')
  {
    if p :| Acts(s, p, s') {
      ActKeepsGood(s, p, s');
    } else if r :| Spawns(s, r, s') {
      SpawnKeepsGood(s, r, s');
    } else {
      var more :| Pushes(s, more, s');
      PushKeepsGood(s, more, s');
    }
  }

  lemma {:induction false} RunGood(trace: seq<System>, i: nat)
    requires IsRun(trace) && i < |trace|
    ensures Good(trace[i])
  {
    hide Good;
    if i == 0 {
      InitialGood();
    } else {
      RunGood(trace, i - 1);
      NextKeepsGood(trace[i - 1], trace[i]);
    }
  }

  lemma {:induction false} InitialGood()
    ensures Good(INITIAL)
  {
  }

  // What the invariant means.

  /**
   * No lost update: every ref move of an attempt installs a commit whose parent is exactly the head
   * that it replaced, or that has none if it created the branch, and whose tree is the request as it
   * was made applied to that head's tree. The commit stays on the branch for good.
   */
  lemma {:induction false} NoLostUpdate(trace: seq<System>, i: nat, k: nat)
    requires IsRun(trace) && i < |trace| && k < |trace[i].moves|
    ensures var s, m := trace[i], trace[i].moves[k];
      && m.attempt < |s.attempts| && m.installed < |s.commits|
      && s.commits[m.installed].parents == ParentsOf(m.replaced)
      && s.commits[m.installed].tree == Apply(TreeAt(s.commits, m.replaced), s.attempts[m.attempt].request.entries)
      && OnBranch(s.commits, s.head, m.installed)
  {
    RunGood(trace, i);
    assert MoveOk(trace[i], trace[i].moves[k]);
  }

  /** Every step that moves the ref for an attempt is recorded with the head that was really there. */
  lemma {:induction false} MovesAreRecorded(trace: seq<System>, i: nat, p: nat)
    requires IsRun(trace) && i + 1 < |trace| && Acts(trace[i], p, trace[i + 1]) && trace[i + 1].head != trace[i].head
    ensures trace[i + 1].head.Some?
    ensures trace[i + 1].moves == trace[i].moves + [Move(p, trace[i].head, trace[i + 1].head.value)]
  {
    RunGood(trace, i);
    hide Acts, Good, PhaseOk, MoveOk, Forward, Ordered;
    ActKeepsGood(trace[i], p, trace[i + 1]);
  }

  /**
   * A successful attempt returns a commit that is on the branch, and stays there; unless a key or an
   * id decided the attempt, the commit's tree has every write of the request and none of its deletions.
   */
  lemma {:induction false} SuccessSatisfies(trace: seq<System>, i: nat, p: nat)
    requires IsRun(trace) && i < |trace| && p < |trace[i].attempts|
    requires trace[i].attempts[p].phase.Done? && trace[i].attempts[p].phase.outcome.Succeeded?
    ensures var s, o := trace[i], trace[i].attempts[p].phase.outcome;
      && OnBranch(s.commits, s.head, o.commit) && o.commit < |s.commits|
      && (o.how in {NoChange, SameTree, Moved} ==> Satisfies(s.commits[o.commit].tree, s.attempts[p].request.entries))
  {
    RunGood(trace, i);
    assert PhaseOk(trace[i], trace[i].attempts[p]);
  }

  // How long an attempt runs.

  /** How many calls the steps of attempt p have made at most in a run. */
  ghost function CallsOf(trace: seq<System>, p: nat): nat {
    if |trace| < 2 then 0
    else
      var n := |trace| - 1;
      var s := trace[n - 1];
      CallsOf(trace[..n], p)
      + if Acts(s, p, trace[n]) && p < |s.attempts| then Cost(s.attempts[p].phase, s.attempts[p].request.payloads) else 0
  }

  lemma {:induction false} OthersStay(s: System, s': System, p: nat)
    requires Good(s) && Next(s, s') && p < |s.attempts| && !Acts(s, p, s')
    ensures p < |s'.attempts| && s'.attempts[p] == s.attempts[p]
  {
    hide Acts, Good, StepOk, Reaches;
    if q :| Acts(s, q, s') {
      ActKeepsGood(s, q, s');
      ActorOnly(s, q, s', p);
    }
  }

  lemma {:induction false} ActorOnly(s: System, q: nat, s': System, p: nat)
    requires StepOk(s, q, s') && p < |s.attempts|
    ensures p < |s'.attempts| && (p != q ==> s'.attempts[p] == s.attempts[p])
    ensures s'.attempts[q].request == s.attempts[q].request
    ensures Spends(s.attempts[q].phase, s'.attempts[q].phase, s.attempts[q].request.payloads)
  {
    hide PhaseOk, Forward, Ordered, MoveOk, Spends;
  }

  /** An attempt is within its calls: those made and those left are at most thirteen and one for each payload. */
  ghost predicate Within(s: System, p: nat, made: nat) {
    if p < |s.attempts| then made + CallsLeft(s.attempts[p].phase, s.attempts[p].request.payloads) <= 13 + s.attempts[p].request.payloads
    else made == 0
  }

  lemma {:induction false} WithinStep(s: System, s': System, p: nat, made: nat)
    requires Good(s) && Next(s, s') && Within(s, p, made)
    ensures Within(s', p, made + if Acts(s, p, s') && p < |s.attempts| then Cost(s.attempts[p].phase, s.attempts[p].request.payloads) else 0)
  {
    hide Acts, Good, Next, StepOk;
    if p >= |s.attempts| {
      if p < |s'.attempts| {
        NewAttempt(s, s', p);
      }
    } else if Acts(s, p, s') {
      ActKeepsGood(s, p, s');
      ActorOnly(s, p, s', p);
    } else {
      OthersStay(s, s', p);
    }
  }

  lemma {:induction false} RunWithin(trace: seq<System>, p: nat)
    requires IsRun(trace)
    ensures Within(trace[|trace| - 1], p, CallsOf(trace, p))
  {
    hide Good, Next, Acts, Within, Cost;
    var n := |trace| - 1;
    if n > 0 {
      RunWithin(trace[..n], p);
      RunGood(trace, n - 1);
      WithinStep(trace[n - 1], trace[n], p, CallsOf(trace[..n], p));
    } else {
      InitiallyWithin(p);
    }
  }

  lemma {:induction false} InitiallyWithin(p: nat)
    ensures Within(INITIAL, p, 0)
  {
  }

  /**
   * Bounded retrying: an attempt makes at most thirteen calls, and one for each distinct payload, in any
   * run; and it moves the ref at most once.
   */
  lemma {:induction false} AttemptIsBounded(trace: seq<System>, p: nat)
    requires IsRun(trace) && p < |trace[|trace| - 1].attempts|
    ensures CallsOf(trace, p) <= 13 + trace[|trace| - 1].attempts[p].request.payloads
    ensures var moves := trace[|trace| - 1].moves; forall i, j | 0 <= i < j < |moves| :: moves[i].attempt != moves[j].attempt
  {
    hide Good, CallsOf;
    RunWithin(trace, p);
    RunGood(trace, |trace| - 1);
    MovesOnce(trace[|trace| - 1]);
  }

  lemma {:induction false} MovesOnce(s: System)
    requires Good(s)
    ensures forall i, j | 0 <= i < j < |s.moves| :: s.moves[i].attempt != s.moves[j].attempt
  {
  }

  lemma {:induction false} NewAttempt(s: System, s': System, p: nat)
    requires Good(s) && Next(s, s') && |s.attempts| <= p < |s'.attempts|
    ensures s'.attempts[p].phase.Starting?
  {
    hide Acts, Good, StepOk;
    if q :| Acts(s, q, s') {
      ActKeepsGood(s, q, s');
      SameAttempts(s, q, s');
    }
  }

  lemma {:induction false} SameAttempts(s: System, q: nat, s': System)
    requires StepOk(s, q, s')
    ensures |s'.attempts| == |s.attempts|
  {
  }
}
