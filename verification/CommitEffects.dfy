/** What an attempt does to the branch: nothing if there is nothing to change, and a commit if it is left alone. */
module CommitEffects {
  import opened Prelude
  import opened GitTree
  import opened Strings
  import opened Trailer
  import opened CommitProtocol
  import opened CommitSafety

  // A first attempt commits only a change.

  /** A commit that is under way, by an attempt that has not lost a race, changes the tree of its parent. */
  ghost predicate Changing(commits: seq<Commit>, phase: Phase) {
    match phase
    case Committing(at, retry, tree) => !retry && at.Some? ==> at.value < |commits| && tree != commits[at.value].tree
    case Moving(at, retry, c) =>
      !retry && at.Some? ==> at.value < |commits| && c < |commits| && commits[c].tree != commits[at.value].tree
    case _ => true
  }

  ghost predicate AllChanging(s: System) {
    forall p | 0 <= p < |s.attempts| :: Changing(s.commits, s.attempts[p].phase)
  }

  lemma {:induction false} ChangingStays(s: System, s': System, phase: Phase)
    requires Forward(s, s') && Changing(s.commits, phase)
    ensures Changing(s'.commits, phase)
  {
    hide Reaches;
    assert forall c | 0 <= c < |s.commits| :: s'.commits[..|s.commits|][c] == s'.commits[c];
  }

  lemma {:induction false} GrowsChanging(s: System, p: nat, s': System)
    requires Good(s) && Grows(s, p, s')
    ensures Changing(s'.commits, s'.attempts[p].phase)
  {
    var me := s.attempts[p];
    assert PhaseOk(s, me);
    if me.phase.at.Some? {
      OnBranchOlder(s, me.phase.at.value);
    }
    hide Good, PhaseOk, Apply, Reaches;
  }

  lemma {:induction false} CreatesChanging(s: System, p: nat, s': System)
    requires Creates(s, p, s') && Changing(s.commits, s.attempts[p].phase)
    ensures Changing(s'.commits, s'.attempts[p].phase)
  {
  }

  lemma {:induction false} OthersPhase(s: System, p: nat, s': System)
    requires Acts(s, p, s') && p < |s.attempts| && !Grows(s, p, s') && !Creates(s, p, s')
    ensures p < |s'.attempts| && !s'.attempts[p].phase.Committing? && !s'.attempts[p].phase.Moving?
  {
    hide Listed, Keyed, Reaches, RefAllows, HostAccepts, Apply, Kept, Lists;
  }

  lemma {:induction false} ActChanging(s: System, p: nat, s': System)
    requires Good(s) && AllChanging(s) && Acts(s, p, s')
    ensures AllChanging(s')
  {
    ActKeepsGood(s, p, s');
    ActorMoves(s, p, s');
    hide Good, StepOk, Acts, Grows, Creates, Changing, Forward;
    forall q | 0 <= q < |s'.attempts| ensures Changing(s'.commits, s'.attempts[q].phase) {
      assert Changing(s.commits, s.attempts[q].phase);
      if q != p {
        ChangingStays(s, s', s.attempts[q].phase);
      } else if Grows(s, p, s') {
        GrowsChanging(s, p, s');
      } else if Creates(s, p, s') {
        CreatesChanging(s, p, s');
      } else {
        OthersPhase(s, p, s');
        NoCommit(s'.commits, s'.attempts[p].phase);
      }
    }
  }

  lemma {:induction false} NoCommit(commits: seq<Commit>, phase: Phase)
    requires !phase.Committing? && !phase.Moving?
    ensures Changing(commits, phase)
  {
  }

  lemma {:induction false} ActorMoves(s: System, p: nat, s': System)
    requires StepOk(s, p, s')
    ensures p < |s.attempts| == |s'.attempts| && Forward(s, s')
    ensures forall q | 0 <= q < |s.attempts| && q != p :: s'.attempts[q] == s.attempts[q]
    ensures s'.attempts[p].request == s.attempts[p].request
  {
    hide PhaseOk, Forward, Ordered, MoveOk, Spends;
  }

  lemma {:induction false} NextChanging(s: System, s': System)
    requires Good(s) && AllChanging(s) && Next(s, s')
    ensures AllChanging(s')
  {
    hide Acts, Good, Changing;
    if p :| Acts(s, p, s') {
      ActChanging(s, p, s');
    } else {
      NextKeepsGood(s, s');
      hide Forward, Reaches;
      forall q | 0 <= q < |s'.attempts| ensures Changing(s'.commits, s'.attempts[q].phase) {
        if q < |s.attempts| {
          ChangingStays(s, s', s.attempts[q].phase);
        } else {
          NoCommit(s'.commits, s'.attempts[q].phase);
        }
      }
    }
  }

  lemma {:induction false} RunChanging(trace: seq<System>, i: nat)
    requires IsRun(trace) && i < |trace|
    ensures AllChanging(trace[i])
  {
    hide Good, Changing;
    if i > 0 {
      RunChanging(trace, i - 1);
      RunGood(trace, i - 1);
      assert Next(trace[i - 1], trace[i - 1 + 1]);
      NextChanging(trace[i - 1], trace[i]);
    }
  }

  /** A commit that an attempt makes before it has lost a race has a tree other than its parent's. */
  lemma {:induction false} FirstCommitChanges(trace: seq<System>, i: nat, p: nat)
    requires IsRun(trace) && i + 1 < |trace| && Creates(trace[i], p, trace[i + 1])
    requires !trace[i].attempts[p].phase.retry && trace[i].attempts[p].phase.at.Some?
    ensures var s, s', at := trace[i], trace[i + 1], trace[i].attempts[p].phase.at.value;
      && at < |s.commits| && |s'.commits| == |s.commits| + 1
      && s'.commits[|s.commits|].parents == [at] && s'.commits[|s.commits|].tree != s.commits[at].tree
  {
    RunChanging(trace, i);
    hide IsRun;
    assert Changing(trace[i].commits, trace[i].attempts[p].phase);
  }

  // A request that the head already satisfies.

  /** Where an attempt can be that found head h as it wants it. */
  ghost predicate Content(phase: Phase, h: CommitId) {
    || phase == Searching(h) || phase == Uploading(Some(h)) || phase == Filtering(Some(h), false)
    || (phase.Growing? && phase.at == Some(h) && !phase.retry)
    || phase == Done(Failed) || phase == Done(Succeeded(h, NoChange)) || phase == Done(Succeeded(h, SameTree))
    || (phase.Done? && phase.outcome.Succeeded? && phase.outcome.how.ByKey?)
  }

  ghost predicate NoMoveBy(s: System, p: nat) {
    forall k | 0 <= k < |s.moves| :: s.moves[k].attempt != p
  }

  ghost predicate Resting(s: System, p: nat, h: CommitId) {
    && p < |s.attempts| && h < |s.commits| && Satisfies(s.commits[h].tree, s.attempts[p].request.entries)
    && Content(s.attempts[p].phase, h) && NoMoveBy(s, p)
  }

  /** Carrying out a request on a tree that satisfies it changes nothing. */
  lemma {:induction false} SatisfiedStays(base: Tree, entries: seq<Entry>)
    requires DistinctPaths(entries) && Satisfies(base, entries)
    ensures Apply(base, entries) == base
  {
    ApplyMeans(base, entries, base);
  }

  lemma {:induction false} GrowsRests(s: System, p: nat, h: CommitId, s': System)
    requires Good(s) && Resting(s, p, h) && Grows(s, p, s')
    ensures s' == To(s, p, Done(Succeeded(h, SameTree)))
  {
    var me := s.attempts[p];
    assert PhaseOk(s, me) && Proper(me.request);
    SatisfiedStays(s.commits[h].tree, me.request.entries);
    hide Good, Satisfies, Apply, Reaches, HostAccepts;
  }

  /** What the actor's own step does when it is at rest. */
  lemma {:induction false} ActRests(s: System, p: nat, h: CommitId, s': System)
    requires Good(s) && Resting(s, p, h) && Acts(s, p, s')
    ensures p < |s'.attempts| && s' == To(s, p, s'.attempts[p].phase) && Content(s'.attempts[p].phase, h)
  {
    if Grows(s, p, s') {
      GrowsRests(s, p, h, s');
    } else {
      hide Listed, Keyed, Reaches, RefAllows, HostAccepts, Apply, Kept, Lists, Good, Satisfies, NoMoveBy;
    }
  }

  lemma {:induction false} OthersRest(s: System, p: nat, h: CommitId, q: nat, s': System)
    requires Resting(s, p, h) && StepOk(s, q, s') && q != p
    ensures Resting(s', p, h)
  {
    hide PhaseOk, Spends, Satisfies, Reaches, Content;
    OldCommit(s, s', h);
    forall k | 0 <= k < |s'.moves| ensures s'.moves[k].attempt != p {
      if k < |s.moves| {
        assert s'.moves[k] == s.moves[k];
      }
    }
  }

  lemma {:induction false} NextRests(s: System, p: nat, h: CommitId, s': System)
    requires Good(s) && Resting(s, p, h) && Next(s, s')
    ensures Resting(s', p, h) && s'.attempts[p].request == s.attempts[p].request
  {
    hide Acts, Good, StepOk, Satisfies, Content, Reaches, Resting;
    if q :| Acts(s, q, s') {
      ActKeepsGood(s, q, s');
      ActorMoves(s, q, s');
      if q == p {
        ActRests(s, p, h, s');
        SameHost(s, p, h, s');
      } else {
        OthersRest(s, p, h, q, s');
        RestingIsThere(s, p, h);
      }
    } else {
      HostRests(s, p, h, s');
    }
  }

  lemma {:induction false} RestingIsThere(s: System, p: nat, h: CommitId)
    requires Resting(s, p, h)
    ensures p < |s.attempts|
  {
  }

  lemma {:induction false} SameHost(s: System, p: nat, h: CommitId, s': System)
    requires Resting(s, p, h) && p < |s'.attempts| && s' == To(s, p, s'.attempts[p].phase) && Content(s'.attempts[p].phase, h)
    ensures Resting(s', p, h) && s'.attempts[p].request == s.attempts[p].request
  {
  }

  lemma {:induction false} HostRests(s: System, p: nat, h: CommitId, s': System)
    requires Resting(s, p, h) && ((exists r :: Spawns(s, r, s')) || exists more :: Pushes(s, more, s'))
    ensures Resting(s', p, h) && s'.attempts[p] == s.attempts[p]
  {
    hide Satisfies, Reaches, Proper, Ordered;
  }

  lemma {:induction false} ReadRests(s: System, p: nat, h: CommitId, s': System)
    requires Good(s) && ReadsRef(s, p, s') && s.head == Some(h) && h < |s.commits|
    requires Satisfies(s.commits[h].tree, s.attempts[p].request.entries)
    ensures Resting(s', p, h) && s'.attempts[p].request == s.attempts[p].request
  {
    hide PhaseOk, MoveOk, Satisfies, TrimSpace, Ordered;
    forall k | 0 <= k < |s.moves| ensures s.moves[k].attempt != p {
      MoveOfAttempt(s, s.moves[k]);
    }
  }

  lemma {:induction false} RunRests(trace: seq<System>, i: nat, j: nat, p: nat, h: CommitId)
    requires IsRun(trace) && i <= j < |trace| && Resting(trace[i], p, h)
    ensures Resting(trace[j], p, h) && p < |trace[i].attempts| && trace[j].attempts[p].request == trace[i].attempts[p].request
    decreases j
  {
    hide Good, Resting, Next;
    RestingIsThere(trace[i], p, h);
    if i < j {
      RunRests(trace, i, j - 1, p, h);
      RunGood(trace, j - 1);
      assert Next(trace[j - 1], trace[j - 1 + 1]);
      NextRests(trace[j - 1], p, h, trace[j]);
      RestingIsThere(trace[j], p, h);
    }
  }

  /**
   * Repeating a request is idle: an attempt that reads a head whose tree already has all that the request asks
   * for never makes a commit and never moves the branch. If it succeeds, it returns that head, or a commit
   * that carries its key.
   */
  lemma {:induction false} RepeatIsIdle(trace: seq<System>, i: nat, j: nat, p: nat, h: CommitId)
    requires IsRun(trace) && i < j < |trace| && ReadsRef(trace[i], p, trace[i + 1]) && trace[i].head == Some(h)
    requires h < |trace[i].commits| && Satisfies(trace[i].commits[h].tree, trace[i].attempts[p].request.entries)
    ensures p < |trace[j].attempts|
    ensures var phase := trace[j].attempts[p].phase;
      && !phase.Committing? && !phase.Moving? && !phase.Recovering?
      && (phase.Done? && phase.outcome.Succeeded? ==> phase.outcome.commit == h || phase.outcome.how.ByKey?)
    ensures NoMoveBy(trace[j], p)
  {
    RunGood(trace, i);
    hide Good, IsRun, ReadsRef, Satisfies;
    ReadRests(trace[i], p, h, trace[i + 1]);
    RunRests(trace, i + 1, j, p, h);
  }

  /** After a lost race there is no such test: a retry goes on to commit the tree that its base already has. */
  lemma {:induction false} RetryCommitsAnyway(s: System, p: nat) returns (s': System)
    requires p < |s.attempts| && s.attempts[p].phase.Growing? && s.attempts[p].phase.retry
    requires HostAccepts(TreeAt(s.commits, s.attempts[p].phase.at), s.attempts[p].phase.kept)
    ensures Acts(s, p, s') && s'.attempts[p].phase.Committing?
  {
    hide Reaches, RefAllows, Listed, Apply;
    var me := s.attempts[p];
    s' := To(s, p, Committing(me.phase.at, true, Apply(TreeAt(s.commits, me.phase.at), me.phase.kept)));
    assert Grows(s, p, s');
  }

  // An attempt that is left alone.

  ghost predicate HasWrite(entries: seq<Entry>) {
    exists k :: 0 <= k < |entries| && !IsDeletion(entries[k])
  }

  /** There is something to commit on: a branch, or a file to start one with. */
  ghost predicate Startable(at: Option<CommitId>, entries: seq<Entry>) {
    at.Some? || HasWrite(entries)
  }

  /** From here the attempt can still succeed: a retry only on the head itself, and a tree only as the host takes it. */
  ghost predicate CanSucceed(s: System, p: nat) {
    && p < |s.attempts|
    && var a := s.attempts[p];
       match a.phase
       case Starting => Startable(s.head, a.request.entries)
       case Searching(_) => true
       case Uploading(at) => Startable(at, a.request.entries)
       case Filtering(at, retry) => Startable(at, a.request.entries) && (retry ==> at == s.head)
       case Growing(at, retry, kept) => HostAccepts(TreeAt(s.commits, at), kept) && (retry ==> at == s.head)
       case Committing(at, retry, _) => retry ==> at == s.head
       case Moving(at, retry, _) => retry ==> at == s.head
       case Recovering(_) => s.head.Some?
       case Done(o) => o.Succeeded?
  }

  lemma {:induction false} ChainOnBranch(commits: seq<Commit>, from: CommitId, n: nat)
    ensures |Chain(commits, from, n)| <= n
    ensures forall c | c in Chain(commits, from, n) :: Reaches(commits, c, from)
    decreases from
  {
    if n > 0 && from < |commits| {
      var parents := commits[from].parents;
      if parents != [] && parents[0] < from {
        ChainOnBranch(commits, parents[0], n - 1);
      }
    }
  }

  /** The first commit of a page that carries the key, if there is one. */
  lemma {:induction false} FirstKeyed(commits: seq<Commit>, page: seq<CommitId>, key: string) returns (i: nat)
    ensures i <= |page| && (forall j | 0 <= j < i :: !Keyed(commits, page[j], key))
    ensures i < |page| ==> Keyed(commits, page[i], key)
  {
    hide Keyed;
    i := 0;
    while i < |page| && !Keyed(commits, page[i], key)
      invariant i <= |page| && forall j | 0 <= j < i :: !Keyed(commits, page[j], key)
    {
      i := i + 1;
    }
  }

  lemma {:induction false} SomePage(s: System) returns (page: seq<CommitId>)
    requires s.head.Some?
    ensures Listed(s, page)
  {
    hide Chain, Reaches, Linear;
    page := if Linear(s.commits) then Chain(s.commits, s.head.value, SEARCH_WINDOW) else [];
    ChainOnBranch(s.commits, s.head.value, SEARCH_WINDOW);
    assert forall c | c in page :: OnBranch(s.commits, s.head, c);
  }

  lemma {:induction false} SearchedBranch(s: System, p: nat)
    requires Good(s) && p < |s.attempts| && s.attempts[p].phase.Searching?
    ensures s.head.Some?
  {
    assert PhaseOk(s, s.attempts[p]);
  }

  lemma {:induction false} SearchGoesOn(s: System, p: nat) returns (s': System)
    requires Good(s) && p < |s.attempts| && s.attempts[p].phase.Searching?
    ensures Acts(s, p, s') && CanSucceed(s', p)
  {
    hide Good, PhaseOk, Keyed, Reaches, Listed, HasWrite;
    SearchedBranch(s, p);
    var me := s.attempts[p];
    var page := SomePage(s);
    var i := FirstKeyed(s.commits, page, me.request.key);
    s' := To(s, p, if i < |page| then Done(Succeeded(page[i], ByKey)) else Uploading(Some(me.phase.base)));
    assert Searches(s, p, page, s');
  }

  lemma {:induction false} FilterGoesOn(s: System, p: nat) returns (s': System)
    requires Good(s) && CanSucceed(s, p) && s.attempts[p].phase.Filtering?
    ensures Acts(s, p, s') && CanSucceed(s', p)
  {
    var me := s.attempts[p];
    var base := TreeAt(s.commits, me.phase.at);
    var l := Listing(base.Keys, false);
    var kept := Kept(l, me.request.entries);
    FilterKeepsMeaning(base, l, me.request.entries);
    if me.phase.at.None? {
      var k :| 0 <= k < |me.request.entries| && !IsDeletion(me.request.entries[k]);
      assert me.request.entries[k] in kept;
    }
    hide Good, Kept, Apply;
    s' := To(s, p, if kept != [] then Growing(me.phase.at, me.phase.retry, kept) else Done(Succeeded(me.phase.at.value, NoChange)));
    assert Filters(s, p, l, s');
  }

  lemma {:induction false} GrowGoesOn(s: System, p: nat) returns (s': System)
    requires CanSucceed(s, p) && s.attempts[p].phase.Growing?
    ensures Acts(s, p, s') && CanSucceed(s', p)
  {
    var me := s.attempts[p];
    var base := TreeAt(s.commits, me.phase.at);
    var tree := Apply(base, me.phase.kept);
    hide Apply, Reaches;
    s' := To(s, p, if !me.phase.retry && me.phase.at.Some? && tree == base then Done(Succeeded(me.phase.at.value, SameTree))
                   else Committing(me.phase.at, me.phase.retry, tree));
    assert Grows(s, p, s');
  }

  lemma {:induction false} CreateGoesOn(s: System, p: nat) returns (s': System)
    requires CanSucceed(s, p) && s.attempts[p].phase.Committing?
    ensures Acts(s, p, s') && CanSucceed(s', p)
  {
    hide Reaches, MessageOf;
    var me := s.attempts[p];
    s' := To(s, p, Moving(me.phase.at, me.phase.retry, |s.commits|))
            .(commits := s.commits + [Commit(ParentsOf(me.phase.at), me.phase.tree, MessageOf(me.request))]);
    assert Creates(s, p, s');
  }

  /** On the head that it was built on a commit can be installed; otherwise there is another head. */
  lemma {:induction false} MoveOrRace(s: System, p: nat)
    requires Good(s) && p < |s.attempts| && s.attempts[p].phase.Moving?
    ensures var at, c := s.attempts[p].phase.at, s.attempts[p].phase.commit;
      RefAllows(s, at, c) || (s.head.Some? && at != s.head)
  {
    var at, c := s.attempts[p].phase.at, s.attempts[p].phase.commit;
    assert PhaseOk(s, s.attempts[p]);
    if at.Some? && at == s.head {
      ReachesChild(s.commits, at, c, at.value);
      assert Reaches(s.commits, at.value, at.value);
    }
  }

  lemma {:induction false} MoveGoesOn(s: System, p: nat) returns (s': System)
    requires Good(s) && CanSucceed(s, p) && s.attempts[p].phase.Moving?
    ensures Acts(s, p, s') && CanSucceed(s', p)
  {
    MoveOrRace(s, p);
    hide Good, PhaseOk, Reaches, RefAllows, HasWrite, HostAccepts;
    var at, c := s.attempts[p].phase.at, s.attempts[p].phase.commit;
    if RefAllows(s, at, c) {
      s' := To(s, p, Done(Succeeded(c, Moved))).(head := Some(c), moves := s.moves + [Move(p, s.head, c)]);
      assert MovesRef(s, p, false, s');
    } else {
      s' := To(s, p, Recovering(c));
      assert LosesRace(s, p, s');
    }
  }

  lemma {:induction false} RecoverGoesOn(s: System, p: nat) returns (s': System)
    requires CanSucceed(s, p) && s.attempts[p].phase.Recovering?
    ensures Acts(s, p, s') && CanSucceed(s', p)
  {
    hide Keyed, Reaches;
    var me := s.attempts[p];
    s' := To(s, p, if s.head.value == me.phase.attempted || Keyed(s.commits, s.head.value, me.request.key)
                   then Done(Succeeded(s.head.value, ByMatch)) else Filtering(s.head, true));
    assert Recovers(s, p, s');
  }

  lemma {:induction false} BeginGoesOn(s: System, p: nat) returns (s': System)
    requires CanSucceed(s, p) && (s.attempts[p].phase.Starting? || s.attempts[p].phase.Uploading?)
    ensures Acts(s, p, s') && CanSucceed(s', p)
  {
    hide HasWrite, TrimSpace;
    var me := s.attempts[p];
    if me.phase.Starting? {
      s' := To(s, p, if s.head.Some? && TrimSpace(me.request.key) != "" then Searching(s.head.value) else Uploading(s.head));
      assert ReadsRef(s, p, s');
    } else {
      s' := To(s, p, Filtering(me.phase.at, false));
      assert Uploads(s, p, s');
    }
  }

  lemma {:induction false} GoesOn(s: System, p: nat) returns (s': System)
    requires Good(s) && CanSucceed(s, p) && !s.attempts[p].phase.Done?
    ensures Acts(s, p, s') && CanSucceed(s', p)
  {
    hide Good, Acts;
    match s.attempts[p].phase
    case Starting => s' := BeginGoesOn(s, p);
    case Searching(_) => s' := SearchGoesOn(s, p);
    case Uploading(_) => s' := BeginGoesOn(s, p);
    case Filtering(_, _) => s' := FilterGoesOn(s, p);
    case Growing(_, _, _) => s' := GrowGoesOn(s, p);
    case Committing(_, _, _) => s' := CreateGoesOn(s, p);
    case Moving(_, _, _) => s' := MoveGoesOn(s, p);
    case Recovering(_) => s' := RecoverGoesOn(s, p);
  }

  /** A run of steps of one attempt alone. */
  ghost predicate Alone(run: seq<System>, s: System, p: nat) {
    && |run| >= 1 && run[0] == s
    && forall k | 0 <= k < |run| - 1 :: Acts(run[k], p, run[k + 1])
  }

  ghost predicate Succeeds(s: System, p: nat) {
    p < |s.attempts| && s.attempts[p].phase.Done? && s.attempts[p].phase.outcome.Succeeded?
  }

  lemma {:induction false} AloneFrom(s: System, p: nat) returns (run: seq<System>)
    requires Good(s) && CanSucceed(s, p)
    ensures Alone(run, s, p) && Succeeds(run[|run| - 1], p)
    decreases CallsLeft(s.attempts[p].phase, s.attempts[p].request.payloads)
  {
    if s.attempts[p].phase.Done? {
      run := [s];
    } else {
      var s' := GoesOn(s, p);
      ActKeepsGood(s, p, s');
      ActorOnly(s, p, s', p);
      hide Good, Acts, StepOk, CanSucceed;
      var rest := AloneFrom(s', p);
      run := [s] + rest;
      forall k | 0 <= k < |run| - 1 ensures Acts(run[k], p, run[k + 1]) {
        if k > 0 {
          assert Acts(rest[k - 1], p, rest[k - 1 + 1]);
        }
      }
      assert run[|run| - 1] == rest[|rest| - 1];
    }
  }

  /**
   * An attempt that is left alone can succeed: from every reachable state in which it starts, with a branch or
   * at least one write, and also from one in which it has just lost its first race.
   */
  lemma {:induction false} AloneSucceeds(trace: seq<System>, i: nat, p: nat) returns (run: seq<System>)
    requires IsRun(trace) && i < |trace| && p < |trace[i].attempts|
    requires var phase := trace[i].attempts[p].phase;
      || (phase.Starting? && Startable(trace[i].head, trace[i].attempts[p].request.entries))
      || phase.Searching?
      || (phase.Uploading? && Startable(phase.at, trace[i].attempts[p].request.entries))
      || (phase.Committing? && !phase.retry) || (phase.Moving? && !phase.retry)
      || (phase.Recovering? && trace[i].head.Some?)
    ensures Alone(run, trace[i], p) && Succeeds(run[|run| - 1], p)
  {
    RunGood(trace, i);
    hide Good, IsRun;
    run := AloneFrom(trace[i], p);
  }
}
