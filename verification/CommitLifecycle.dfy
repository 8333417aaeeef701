/** The life of a commit request: how its controller retries, waits and ends. */
module CommitLifecycle {
  import opened Prelude
  import opened RequestState

  const BUNDLE_ARRIVAL_TIMEOUT: Time := 30 * SECOND
  const RATE_LIMIT_WINDOW: Time := 15 * MINUTE

  datatype Phase = Unset | Running | Succeeded | Failed

  datatype Reason = Nothing | Reconciling | RateLimited | Ready | Broken

  datatype Status = Status(phase: Phase, startedAt: Option<Time>, completedAt: Option<Time>, commit: Option<string>, reason: Reason)

  predicate IsTerminal(phase: Phase) {
    phase.Succeeded? || phase.Failed?
  }

  /** What a call to the git host comes back with. */
  datatype Reply = Fine(commit: string) | Limited(retryAt: Time) | Refused

  /** What reading the request gives: a deleted request is no error. */
  datatype Read = Present | Gone | Unreadable

  /**
   * Everything that one reconcile meets: whether the object can be read, what is wired up, what the
   * host replies and when, and which Kubernetes writes and bundle deletions succeed.
   */
  datatype Env = Env(
    read: Read, deleting: bool, stores: bool, backends: bool, resolved: bool, bundleIntact: bool,
    ensured: Reply, committed: Reply,
    startedAt: Time, ensuredAt: Time, lookedAt: Time, committedAt: Time, endsAt: Time,
    writesRunning: bool, writesFinal: bool, deletes: bool)

  predicate InOrder(env: Env) {
    env.startedAt <= env.ensuredAt <= env.lookedAt <= env.committedAt <= env.endsAt
  }

  /** No Kubernetes call of the reconcile fails, and the object is there. */
  predicate KubernetesWorks(env: Env) {
    env.read.Present? && !env.deleting && env.writesRunning && env.writesFinal
  }

  datatype Next = Stop | Requeue(after: Time) | Error

  /** The stored status, the source bundle, and whether the controller has removed the bundle. */
  datatype State = State(status: Status, stored: bool, removed: bool)

  const NEW := State(Status(Unset, None, None, None, Nothing), false, false)

  // The pure parts.

  /** rateLimitRetry: when to try again, if that is still inside the window. */
  function RateLimitRetry(reply: Reply, startedAt: Option<Time>, now: Time): Option<Time> {
    if !reply.Limited? || startedAt.None? then None
    else
      var retryAt := Max(reply.retryAt, now + SECOND);
      if retryAt > startedAt.value + RATE_LIMIT_WINDOW then None else Some(retryAt)
  }

  predicate BundleArrivalTimedOut(startedAt: Option<Time>, now: Time) {
    startedAt.Some? && now - startedAt.value >= BUNDLE_ARRIVAL_TIMEOUT
  }

  /** Every retry is at least a second ahead and inside the window; none is given exactly when that is impossible. */
  lemma {:induction false} RetryInsideWindow(retryAt: Time, startedAt: Time, now: Time)
    ensures RateLimitRetry(Limited(retryAt), Some(startedAt), now).Some? <==>
      Max(retryAt, now + SECOND) <= startedAt + RATE_LIMIT_WINDOW
    ensures var r := RateLimitRetry(Limited(retryAt), Some(startedAt), now);
      r.Some? ==> now + SECOND <= r.value <= startedAt + RATE_LIMIT_WINDOW && retryAt <= r.value
  {
  }

  function StartedStatus(status: Status, now: Time): Status {
    status.(phase := Running, startedAt := if status.startedAt.None? then Some(now) else status.startedAt, reason := Reconciling)
  }

  function FailedStatus(status: Status, now: Time): Status {
    status.(phase := Failed, startedAt := if status.startedAt.None? then Some(now) else status.startedAt,
            completedAt := Some(now), reason := Broken)
  }

  function SucceededStatus(status: Status, commit: string, now: Time): Status {
    status.(phase := Succeeded, completedAt := Some(now), commit := Some(commit), reason := Ready)
  }

  /** The status is written first; only then is the bundle removed, as far as that works. */
  function Finished(s: State, status: Status, env: Env): (State, Next) {
    if !env.writesFinal then (s, Error)
    else
      var gone := s.stored && env.stores && env.deletes;
      (State(status, s.stored && !gone, s.removed || gone), Stop)
  }

  function Waiting(s: State, retryAt: Time, env: Env): (State, Next) {
    if !env.writesFinal then (s, Error)
    else (s.(status := s.status.(reason := RateLimited)), Requeue(Max(retryAt - env.endsAt, SECOND)))
  }

  /** One reconcile of the stored state. */
  function Reconciled(s: State, env: Env): (State, Next) {
    if env.read.Unreadable? then (s, Error)
    else if env.read.Gone? || env.deleting || IsTerminal(s.status.phase) then (s, Stop)
    else if !env.stores || !env.backends then Finished(s, FailedStatus(s.status, env.startedAt), env)
    else if !env.writesRunning then (s, Error)
    else
      var running := s.(status := StartedStatus(s.status, env.startedAt));
      if !env.resolved then Finished(running, FailedStatus(running.status, env.startedAt), env)
      else AfterResolving(running, env)
  }

  function AfterResolving(s: State, env: Env): (State, Next) {
    var failed := FailedStatus(s.status, env.endsAt);
    if !env.ensured.Fine? then
      var retry := RateLimitRetry(env.ensured, s.status.startedAt, env.ensuredAt);
      if retry.Some? then Waiting(s, retry.value, env) else Finished(s, failed, env)
    else if !s.stored then
      if BundleArrivalTimedOut(s.status.startedAt, env.lookedAt) then Finished(s, failed, env) else (s, Requeue(SECOND))
    else if !env.bundleIntact then Finished(s, failed, env)
    else if !env.committed.Fine? then
      var retry := RateLimitRetry(env.committed, s.status.startedAt, env.committedAt);
      if retry.Some? then Waiting(s, retry.value, env) else Finished(s, failed, env)
    else
      Finished(s, SucceededStatus(s.status, env.committed.commit, env.endsAt), env)
  }

  class Reconciler {
    var status: Status
    var stored: bool
    var removed: bool

    function Now(): State
      reads this
    {
      State(status, stored, removed)
    }

    constructor ()
      ensures Now() == NEW
    {
      status, stored, removed := Status(Unset, None, None, None, Nothing), false, false;
    }

    /** updateStatusIfChanged, which fails with the Kubernetes call. */
    method UpdateStatus(next: Status, works: bool) returns (ok: bool)
      modifies this`status
      ensures ok == works && status == if works then next else old(status)
    {
      if works {
        status := next;
      }
      ok := works;
    }

    method DeleteBundle(env: Env)
      modifies this`stored, this`removed
      ensures var gone := old(stored) && env.stores && env.deletes;
        stored == (old(stored) && !gone) && removed == (old(removed) || gone)
    {
      if env.stores && env.deletes && stored {
        stored := false;
        removed := true;
      }
    }

    /** failAndDeleteBundle */
    method Fail(current: Status, now: Time, env: Env) returns (next: Next)
      modifies this
      ensures (Now(), next) == Finished(old(Now()), FailedStatus(current, now), env)
    {
      var failed := current;
      if failed.startedAt.None? {
        failed := failed.(startedAt := Some(now));
      }
      failed := failed.(completedAt := Some(now), phase := Failed, reason := Broken);
      var ok := UpdateStatus(failed, env.writesFinal);
      if !ok {
        return Error;
      }
      DeleteBundle(env);
      return Stop;
    }

    /**
     * The wait is shown on the status and nothing else moves: phase, start and bundle stay, and the next
     * reconcile is asked for at the retry time, at least a second away. If the write fails nothing changes.
     */
    method WaitForRateLimit(retryAt: Time, env: Env) returns (next: Next)
      modifies this
      ensures stored == old(stored) && removed == old(removed)
      ensures status.phase == old(status.phase) && status.startedAt == old(status.startedAt)
      ensures status.completedAt == old(status.completedAt) && status.commit == old(status.commit)
      ensures next.Error? <==> !env.writesFinal
      ensures next.Error? ==> status == old(status)
      ensures !next.Error? ==>
        && status.reason == RateLimited && next.Requeue? && next.after >= SECOND && env.endsAt + next.after >= retryAt
        && (env.endsAt + next.after == retryAt || next.after == SECOND)
      ensures (Now(), next) == Waiting(old(Now()), retryAt, env)
    {
      var wait := Max(retryAt - env.endsAt, SECOND);
      var ok := UpdateStatus(status.(reason := RateLimited), env.writesFinal);
      if !ok {
        return Error;
      }
      return Requeue(wait);
    }

    method Reconcile(env: Env) returns (next: Next)
      modifies this
      ensures (Now(), next) == Reconciled(old(Now()), env)
    {
      if env.read.Unreadable? {
        return Error;
      }
      if env.read.Gone? {
        return Stop;
      }
      if env.deleting || IsTerminal(status.phase) {
        return Stop;
      }
      if !env.stores || !env.backends {
        next := Fail(status, env.startedAt, env);
        return;
      }
      var current := status;
      if current.startedAt.None? {
        current := current.(startedAt := Some(env.startedAt));
      }
      current := current.(phase := Running, reason := Reconciling);
      var ok := UpdateStatus(current, env.writesRunning);
      if !ok {
        return Error;
      }
      if !env.resolved {
        next := Fail(current, env.startedAt, env);
        return;
      }
      if !env.ensured.Fine? {
        var retry := RateLimitRetry(env.ensured, current.startedAt, env.ensuredAt);
        if retry.Some? {
          next := WaitForRateLimit(retry.value, env);
          return;
        }
        next := Fail(current, env.endsAt, env);
        return;
      }
      if !stored {
        if !BundleArrivalTimedOut(current.startedAt, env.lookedAt) {
          return Requeue(SECOND);
        }
        next := Fail(current, env.endsAt, env);
        return;
      }
      if !env.bundleIntact {
        next := Fail(current, env.endsAt, env);
        return;
      }
      if !env.committed.Fine? {
        var retry := RateLimitRetry(env.committed, current.startedAt, env.committedAt);
        if retry.Some? {
          next := WaitForRateLimit(retry.value, env);
          return;
        }
        next := Fail(current, env.endsAt, env);
        return;
      }
      current := current.(phase := Succeeded, completedAt := Some(env.endsAt));
      current := current.(commit := Some(env.committed.commit), reason := Ready);
      ok := UpdateStatus(current, env.writesFinal);
      if !ok {
        return Error;
      }
      DeleteBundle(env);
      return Stop;
    }
  }

  // Runs.

  /** The controller reconciles; the requester stores the bundle; or the store's sweeper takes it. */
  datatype Event = Reconcile(env: Env) | Arrive | Sweep

  function After(s: State, e: Event): State {
    match e
    case Reconcile(env) => Reconciled(s, env).0
    case Arrive => s.(stored := true)
    case Sweep => s.(stored := false)
  }

  function Run(s: State, events: seq<Event>): State
    decreases |events|
  {
    if events == [] then s else Run(After(s, events[0]), events[1..])
  }

  /** What every reachable state looks like. */
  predicate Sound(s: State) {
    && (s.status.phase.Unset? <==> s.status.startedAt.None?)
    && (s.removed ==> IsTerminal(s.status.phase))
    && (s.status.phase.Succeeded? ==> s.status.commit.Some?)
    && (IsTerminal(s.status.phase) <==> s.status.completedAt.Some?)
  }

  lemma {:induction false} AfterSound(s: State, e: Event)
    requires Sound(s)
    ensures Sound(After(s, e))
  {
  }

  lemma {:induction false} RunSound(s: State, events: seq<Event>)
    requires Sound(s)
    ensures Sound(Run(s, events))
    decreases |events|
  {
    if events != [] {
      AfterSound(s, events[0]);
      RunSound(After(s, events[0]), events[1..]);
    }
  }

  /** Succeeded and Failed absorb: whatever happens next, the status is final. */
  lemma {:induction false} TerminalIsFinal(s: State, events: seq<Event>)
    requires IsTerminal(s.status.phase)
    ensures Run(s, events).status == s.status
    decreases |events|
  {
    if events != [] {
      TerminalIsFinal(After(s, events[0]), events[1..]);
    }
  }

  /** The start time is set once. */
  lemma {:induction false} StartedOnce(s: State, events: seq<Event>)
    requires s.status.startedAt.Some?
    ensures Run(s, events).status.startedAt == s.status.startedAt
    decreases |events|
  {
    if events != [] {
      StartedOnce(After(s, events[0]), events[1..]);
    }
  }

  /** The controller removes a bundle only once its own commit is terminal, in every run. */
  lemma {:induction false} RemovedOnlyWhenTerminal(events: seq<Event>)
    ensures Run(NEW, events).removed ==> IsTerminal(Run(NEW, events).status.phase)
  {
    RunSound(NEW, events);
  }

  /**
   * Why a reconcile can leave a request running: a Kubernetes call failed, or the bundle is still
   * within its time to arrive, or the host's rate limit ends inside the window. There is no other reason.
   */
  lemma {:induction false} StillRunning(s: State, env: Env)
    requires Sound(s) && InOrder(env) && KubernetesWorks(env) && !IsTerminal(s.status.phase)
    requires !IsTerminal(Reconciled(s, env).0.status.phase)
    ensures var (s', next) := Reconciled(s, env);
      && s'.status.phase.Running? && s'.status.startedAt.Some? && next.Requeue? && next.after >= SECOND
      && env.startedAt - s'.status.startedAt.value + SECOND <= RATE_LIMIT_WINDOW
      && ((!s.stored && next.after == SECOND && env.lookedAt - s'.status.startedAt.value < BUNDLE_ARRIVAL_TIMEOUT)
          || (s'.status.reason.RateLimited? && (env.ensured.Limited? || env.committed.Limited?)))
  {
  }

  // How a request ends.

  /** Everything that one reconcile needs for the commit to be made. */
  predicate AllInPlace(s: State, env: Env) {
    && env.stores && env.backends && env.resolved && env.ensured.Fine? && s.stored && env.bundleIntact && env.committed.Fine?
  }

  /** The time of the first reconcile: this one, if there was none before. */
  function FirstStart(s: State, env: Env): Time {
    if s.status.startedAt.Some? then s.status.startedAt.value else env.startedAt
  }

  /** The host refuses, or puts the retry off beyond the window. */
  predicate GivesUp(reply: Reply, first: Time, now: Time) {
    reply.Refused? || (reply.Limited? && Max(reply.retryAt, now + SECOND) > first + RATE_LIMIT_WINDOW)
  }

  /** Something that no later reconcile can put right, or that has taken too long, met in this order. */
  predicate CannotEndWell(s: State, env: Env) {
    || !env.stores || !env.backends || !env.resolved
    || GivesUp(env.ensured, FirstStart(s, env), env.ensuredAt)
    || (env.ensured.Fine? && !s.stored && env.lookedAt >= FirstStart(s, env) + BUNDLE_ARRIVAL_TIMEOUT)
    || (env.ensured.Fine? && s.stored && !env.bundleIntact)
    || (env.ensured.Fine? && s.stored && env.bundleIntact && GivesUp(env.committed, FirstStart(s, env), env.committedAt))
  }

  /**
   * With Kubernetes working, a request ends Succeeded exactly if everything is in place and the host answers with
   * a commit, and then records that commit; it ends Failed exactly if something cannot end well; and it is
   * gone from the store, once it has ended, exactly if it was there and could be deleted.
   */
  lemma {:induction false} EndsExactlyWhen(s: State, env: Env)
    requires Sound(s) && KubernetesWorks(env) && !IsTerminal(s.status.phase)
    ensures var s' := After(s, Reconcile(env));
      && (s'.status.phase.Succeeded? <==> AllInPlace(s, env))
      && (s'.status.phase.Succeeded? ==>
           && s'.status.commit == Some(env.committed.commit) && s'.status.completedAt == Some(env.endsAt)
           && s'.status.startedAt == Some(FirstStart(s, env)))
      && (s'.status.phase.Failed? <==> CannotEndWell(s, env))
      && (s'.status.phase.Failed? ==> s'.status.commit == s.status.commit && s'.status.startedAt == Some(FirstStart(s, env)))
      && (s'.status.phase.Failed? ==> s'.status.completedAt in {Some(env.startedAt), Some(env.endsAt)})
      && (IsTerminal(s'.status.phase) ==> (s'.stored <==> s.stored && !(env.stores && env.deletes)))
      && (!IsTerminal(s'.status.phase) ==> s'.stored == s.stored)
  {
  }

  /** A reconcile that cannot record the end of a request leaves its bundle. */
  lemma {:induction false} UnrecordedKeepsBundle(s: State, env: Env)
    requires !env.writesFinal
    ensures After(s, Reconcile(env)).stored == s.stored && After(s, Reconcile(env)).removed == s.removed
    ensures IsTerminal(After(s, Reconcile(env)).status.phase) ==> IsTerminal(s.status.phase)
  {
  }

  predicate HasNoCommit(s: State) {
    !s.status.phase.Succeeded? ==> s.status.commit.None?
  }

  /** The event made the request succeed with this commit, which is the host's answer in that reconcile. */
  predicate Answers(s: State, e: Event, commit: string) {
    e.Reconcile? && !IsTerminal(s.status.phase) && AllInPlace(s, e.env) && e.env.committed == Fine(commit) && e.env.writesFinal
  }

  lemma {:induction false} EventAnswers(s: State, e: Event)
    requires Sound(s) && HasNoCommit(s)
    ensures HasNoCommit(After(s, e))
    ensures After(s, e).status.phase.Succeeded? && !s.status.phase.Succeeded? ==>
      After(s, e).status.commit.Some? && Answers(s, e, After(s, e).status.commit.value)
  {
  }

  /** A request that has succeeded shows the commit that the host answered with in the reconcile that ended it. */
  lemma {:induction false} SucceededIsAnswered(s: State, events: seq<Event>) returns (k: nat)
    requires Sound(s) && HasNoCommit(s) && !s.status.phase.Succeeded? && Run(s, events).status.phase.Succeeded?
    ensures k < |events| && Run(s, events).status.commit.Some?
    ensures Answers(Run(s, events[..k]), events[k], Run(s, events).status.commit.value)
    decreases |events|
  {
    var next := After(s, events[0]);
    AfterSound(s, events[0]);
    EventAnswers(s, events[0]);
    if next.status.phase.Succeeded? {
      TerminalIsFinal(next, events[1..]);
      k := 0;
      assert events[..0] == [];
    } else {
      var rest := SucceededIsAnswered(next, events[1..]);
      k := rest + 1;
      assert events[..k][1..] == events[1..][..rest] && events[..k][0] == events[0];
    }
  }

  /** Any reconcile that starts after the window, less a second, ends the request unless Kubernetes fails. */
  lemma {:induction false} EndsAfterWindow(s: State, env: Env)
    requires Sound(s) && InOrder(env) && KubernetesWorks(env) && s.status.startedAt.Some?
    requires env.startedAt > s.status.startedAt.value + RATE_LIMIT_WINDOW - SECOND
    ensures IsTerminal(Reconciled(s, env).0.status.phase)
  {
    if !IsTerminal(s.status.phase) && !IsTerminal(Reconciled(s, env).0.status.phase) {
      StillRunning(s, env);
    }
  }

  /**
   * In every run, however its reconciles are spaced and whichever of their calls fail, a reconcile that
   * starts after the window ends the request unless one of its own Kubernetes calls fails.
   */
  lemma {:induction false} EndsInEveryRun(events: seq<Event>, env: Env)
    requires InOrder(env) && KubernetesWorks(env)
    ensures var s := Run(NEW, events);
      s.status.startedAt.Some? && env.startedAt > s.status.startedAt.value + RATE_LIMIT_WINDOW - SECOND ==>
        IsTerminal(Reconciled(s, env).0.status.phase)
  {
    RunSound(NEW, events);
    if Run(NEW, events).status.startedAt.Some?
      && env.startedAt > Run(NEW, events).status.startedAt.value + RATE_LIMIT_WINDOW - SECOND
    {
      EndsAfterWindow(Run(NEW, events), env);
    }
  }

  /** A run in which every reconcile starts at least a second after the one before, and Kubernetes works. */
  predicate Paced(events: seq<Event>, from: Time)
    decreases |events|
  {
    events == []
    || (!events[0].Reconcile? && Paced(events[1..], from))
    || (events[0].Reconcile? && InOrder(events[0].env) && KubernetesWorks(events[0].env) && events[0].env.startedAt >= from
        && Paced(events[1..], events[0].env.startedAt + SECOND))
  }

  function Reconciles(events: seq<Event>): nat {
    if events == [] then 0 else (if events[0].Reconcile? then 1 else 0) + Reconciles(events[1..])
  }

  /** How many more reconciles, a second apart from `now` on, can leave the request running. */
  function Budget(s: State, now: Time): nat
    requires s.status.startedAt.Some?
  {
    var left := s.status.startedAt.value + RATE_LIMIT_WINDOW - now;
    if left < SECOND then 0 else left / SECOND
  }

  lemma {:induction false} BudgetFalls(s: State, now: Time, then': Time)
    requires s.status.startedAt.Some? && now <= then' && then' + SECOND <= s.status.startedAt.value + RATE_LIMIT_WINDOW
    ensures Budget(s, then' + SECOND) + 1 <= Budget(s, now)
  {
    var left, later := s.status.startedAt.value + RATE_LIMIT_WINDOW - now, s.status.startedAt.value + RATE_LIMIT_WINDOW - then' - SECOND;
    assert left / SECOND >= (later + SECOND) / SECOND == later / SECOND + 1;
  }

  lemma {:induction false} RunningIsBounded(s: State, events: seq<Event>, now: Time)
    requires Sound(s) && s.status.startedAt.Some? && Paced(events, now)
    requires Reconciles(events) > Budget(s, now)
    ensures IsTerminal(Run(s, events).status.phase)
    decreases |events|
  {
    if IsTerminal(s.status.phase) {
      TerminalIsFinal(s, events);
    } else {
      var next := After(s, events[0]);
      AfterSound(s, events[0]);
      if !events[0].Reconcile? {
        RunningIsBounded(next, events[1..], now);
      } else {
        var at := events[0].env.startedAt;
        StartedOnce(s, [events[0]]);
        assert Run(next, []) == next && [events[0]][1..] == [];
        if IsTerminal(next.status.phase) {
          TerminalIsFinal(next, events[1..]);
        } else {
          StillRunning(s, events[0].env);
          BudgetFalls(s, now, at);
          RunningIsBounded(next, events[1..], at + SECOND);
        }
      }
    }
  }

  /**
   * A request ends: of reconciles that start a second or more apart, with Kubernetes working, the
   * first 900 at most leave it running, whatever the host replies and whenever the bundle arrives.
   */
  lemma {:induction false} RequestEnds(events: seq<Event>, now: Time)
    requires Paced(events, now) && Reconciles(events) > 900
    ensures IsTerminal(Run(NEW, events).status.phase)
  {
    FirstReconcile(NEW, events, now);
  }

  lemma {:induction false} FirstReconcile(s: State, events: seq<Event>, now: Time)
    requires Sound(s) && s.status.phase.Unset? && Paced(events, now) && Reconciles(events) > 900
    ensures IsTerminal(Run(s, events).status.phase)
    decreases |events|
  {
    var next := After(s, events[0]);
    AfterSound(s, events[0]);
    if !events[0].Reconcile? {
      FirstReconcile(next, events[1..], now);
    } else if IsTerminal(next.status.phase) {
      TerminalIsFinal(next, events[1..]);
    } else {
      var at := events[0].env.startedAt;
      StillRunning(s, events[0].env);
      assert next.status.startedAt == Some(at);
      assert Budget(next, at + SECOND) == 899;
      RunningIsBounded(next, events[1..], at + SECOND);
    }
  }
}
