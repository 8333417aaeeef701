/** The refresh controller: one task at a time, one queued follow-up, and a generation that fences results. */
module LatestRefresh {
  import opened Prelude

  datatype Mode = Foreground | Background

  /** A task that was started; `because` are the requests it was started for. */
  datatype Task = Task(id: nat, mode: Mode, because: seq<Mode>, done: bool)

  /**
   * The closure's variables, and history: the tasks started so far, the requests made since the last
   * start, and how many tasks had been started at the last invalidation or stop.
   */
  datatype State = State(generation: nat, active: bool, queued: Option<Mode>, stopped: bool,
                         tasks: seq<Task>, asked: seq<Mode>, fence: nat)

  const NEW := State(0, false, None, false, [], [], 0)

  /** Requests merge into one: in the foreground if any of them was. */
  function Merged(asked: seq<Mode>): Option<Mode> {
    if asked == [] then None else if Foreground in asked then Some(Foreground) else Some(Background)
  }

  predicate IsCurrent(s: State, id: nat) {
    !s.stopped && id == s.generation
  }

  function Start(s: State, mode: Mode, because: seq<Mode>): State {
    s.(generation := s.generation + 1, active := true, asked := [],
       tasks := s.tasks + [Task(s.generation + 1, mode, because, false)])
  }

  function DoRequest(s: State, mode: Mode): State {
    if s.stopped then s
    else if s.active then
      s.(queued := Some(if s.queued == Some(Foreground) || mode.Foreground? then Foreground else Background), asked := s.asked + [mode])
    else Start(s, mode, [mode])
  }

  function DoInvalidate(s: State): State {
    if s.stopped then s
    else
      s.(generation := s.generation + 1, queued := if s.active then Some(Foreground) else s.queued,
         asked := if s.active then s.asked + [Foreground] else s.asked, fence := |s.tasks|)
  }

  function DoStop(s: State): State {
    s.(stopped := true, generation := s.generation + 1, queued := None, asked := [], fence := |s.tasks|)
  }

  predicate CanComplete(s: State) {
    s.active && s.tasks != []
  }

  /** The running task's promise settles, either way. */
  function DoComplete(s: State): State
    requires CanComplete(s)
  {
    var n := |s.tasks| - 1;
    var idle := s.(active := false, tasks := s.tasks[n := s.tasks[n].(done := true)]);
    if s.queued.Some? && !s.stopped then Start(idle.(queued := None), s.queued.value, s.asked) else idle
  }

  class Controller {
    var generation: nat
    var active: bool
    var queued: Option<Mode>
    var stopped: bool
    ghost var tasks: seq<Task>
    ghost var asked: seq<Mode>
    ghost var fence: nat

    ghost function Now(): State
      reads this
    {
      State(generation, active, queued, stopped, tasks, asked, fence)
    }

    constructor ()
      ensures Now() == NEW
    {
      generation, active, queued, stopped := 0, false, None, false;
      tasks, asked, fence := [], [], 0;
    }

    method Begin(mode: Mode, ghost because: seq<Mode>) returns (id: nat)
      requires !active
      modifies this
      ensures Now() == Start(old(Now()), mode, because) && id == generation
    {
      generation := generation + 1;
      id := generation;
      active := true;
      asked := [];
      tasks := tasks + [Task(id, mode, because, false)];
    }

    method Request(mode: Mode)
      modifies this
      ensures Now() == DoRequest(old(Now()), mode)
    {
      if stopped {
        return;
      }
      if active {
        queued := Some(if queued == Some(Foreground) || mode == Foreground then Foreground else Background);
        asked := asked + [mode];
        return;
      }
      var _ := Begin(mode, [mode]);
    }

    method Complete()
      requires CanComplete(Now())
      modifies this
      ensures Now() == DoComplete(old(Now()))
    {
      tasks := tasks[|tasks| - 1 := tasks[|tasks| - 1].(done := true)];
      active := false;
      if queued.Some? && !stopped {
        var nextMode := queued.value;
        queued := None;
        var _ := Begin(nextMode, asked);
      }
    }

    method Invalidate()
      modifies this
      ensures Now() == DoInvalidate(old(Now()))
    {
      if stopped {
        return;
      }
      generation := generation + 1;
      fence := |tasks|;
      if active {
        queued := Some(Foreground);
        asked := asked + [Foreground];
      }
    }

    method Stop()
      modifies this
      ensures Now() == DoStop(old(Now()))
    {
      stopped := true;
      generation := generation + 1;
      queued := None;
      asked := [];
      fence := |tasks|;
    }
  }

  // Every run.

  ghost predicate Next(s: State, s': State) {
    || (exists mode :: s' == DoRequest(s, mode))
    || s' == DoInvalidate(s)
    || s' == DoStop(s)
    || (CanComplete(s) && s' == DoComplete(s))
  }

  ghost predicate IsRun(trace: seq<State>) {
    && |trace| >= 1 && trace[0] == NEW
    && forall i :: 0 <= i < |trace| - 1 ==> Next(trace[i], trace[i + 1])
  }

  ghost predicate Sound(s: State) {
    && (forall k | 0 <= k < |s.tasks| :: s.tasks[k].done <==> !(s.active && k == |s.tasks| - 1))
    && (forall k | 0 <= k < |s.tasks| :: Merged(s.tasks[k].because) == Some(s.tasks[k].mode))
    && (forall j, k | 0 <= j < k < |s.tasks| :: s.tasks[j].id < s.tasks[k].id)
    && (s.active ==> s.tasks != [])
    && (s.queued.Some? ==> s.active && !s.stopped)
    && s.queued == Merged(s.asked)
    && s.fence <= |s.tasks|
    && (forall k | 0 <= k < |s.tasks| :: s.tasks[k].id <= s.generation)
    && (s.tasks != [] && s.fence < |s.tasks| ==> s.tasks[|s.tasks| - 1].id == s.generation)
    && (forall k | 0 <= k < s.fence :: s.tasks[k].id < s.generation)
  }

  lemma {:induction false} StartSound(s: State, mode: Mode, because: seq<Mode>)
    requires Sound(s) && !s.active && s.queued.None? && Merged(because) == Some(mode)
    ensures Sound(Start(s, mode, because))
  {
  }

  function Idle(s: State): State
    requires CanComplete(s)
  {
    var n := |s.tasks| - 1;
    s.(active := false, queued := None, asked := [], tasks := s.tasks[n := s.tasks[n].(done := true)])
  }

  lemma {:induction false} IdleSound(s: State)
    requires Sound(s) && CanComplete(s)
    ensures Sound(Idle(s))
  {
    hide Merged;
    assert Merged([]) == None by {
      NothingMerged();
    }
    var tasks, after := s.tasks, Idle(s).tasks;
    assert forall k | 0 <= k < |tasks| ::
      after[k].id == tasks[k].id && after[k].mode == tasks[k].mode && after[k].because == tasks[k].because && after[k].done;
  }

  lemma {:induction false} NothingMerged()
    ensures Merged([]) == None
  {
  }

  lemma {:induction false} CompleteSound(s: State)
    requires Sound(s) && CanComplete(s)
    ensures Sound(DoComplete(s))
  {
    IdleSound(s);
    if s.queued.Some? {
      StartSound(Idle(s), s.queued.value, s.asked);
      hide Sound, Merged;
      assert DoComplete(s) == Start(Idle(s), s.queued.value, s.asked);
    } else {
      assert s.asked == [];
      hide Sound, Merged;
      assert DoComplete(s) == Idle(s);
    }
  }

  /** One more request that is merged. */
  lemma {:induction false} MergeMore(asked: seq<Mode>, mode: Mode)
    ensures Merged(asked + [mode]) == Some(if Merged(asked) == Some(Foreground) || mode.Foreground? then Foreground else Background)
  {
    assert (asked + [mode])[|asked|] == mode;
    assert Foreground in asked + [mode] <==> Foreground in asked || mode.Foreground?;
  }

  lemma {:induction false} NextSound(s: State, s': State)
    requires Sound(s) && Next(s, s')
    ensures Sound(s')
  {
    if mode :| s' == DoRequest(s, mode) {
      if !s.stopped && !s.active {
        MergeMore([], mode);
        assert [] + [mode] == [mode];
        StartSound(s, mode, [mode]);
      } else if !s.stopped {
        MergeMore(s.asked, mode);
      }
    } else if CanComplete(s) && s' == DoComplete(s) {
      CompleteSound(s);
    } else if s' == DoInvalidate(s) {
      MergeMore(s.asked, Foreground);
    }
  }

  lemma {:induction false} RunSound(trace: seq<State>, i: nat)
    requires IsRun(trace) && i < |trace|
    ensures Sound(trace[i])
  {
    if i > 0 {
      RunSound(trace, i - 1);
      NextSound(trace[i - 1], trace[i]);
    }
  }

  /** At most one task is active in any run. */
  lemma {:induction false} OneTaskAtATime(trace: seq<State>, i: nat, j: nat, k: nat)
    requires IsRun(trace) && i < |trace| && j < |trace[i].tasks| && k < |trace[i].tasks|
    requires !trace[i].tasks[j].done && !trace[i].tasks[k].done
    ensures j == k
  {
    RunSound(trace, i);
  }

  /** A task runs in the foreground exactly when one of the requests merged into it asked for that. */
  lemma {:induction false} MergedMode(trace: seq<State>, i: nat, k: nat)
    requires IsRun(trace) && i < |trace| && k < |trace[i].tasks|
    ensures trace[i].tasks[k].because != []
    ensures trace[i].tasks[k].mode.Foreground? <==> Foreground in trace[i].tasks[k].because
  {
    RunSound(trace, i);
  }

  /**
   * Which task is current: the latest one, provided that nothing was invalidated or stopped since it
   * began. So at most one task is current, and none that began before the last invalidation or stop.
   */
  lemma {:induction false} CurrentIsLatest(trace: seq<State>, i: nat, k: nat)
    requires IsRun(trace) && i < |trace| && k < |trace[i].tasks|
    ensures IsCurrent(trace[i], trace[i].tasks[k].id) <==>
      !trace[i].stopped && k == |trace[i].tasks| - 1 && k >= trace[i].fence
  {
    RunSound(trace, i);
  }

  /** The follow-up that a request made during task n - 1 is owed. */
  ghost predicate Owed(s: State, n: nat, mode: Mode) {
    || s.stopped
    || (|s.tasks| > n && (mode.Foreground? ==> s.tasks[n].mode.Foreground?))
    || (|s.tasks| == n && s.active && s.queued.Some? && (mode.Foreground? ==> s.queued == Some(Foreground)))
  }

  lemma {:induction false} OwedStays(s: State, s': State, n: nat, mode: Mode)
    requires Sound(s) && Next(s, s') && Owed(s, n, mode)
    ensures Owed(s', n, mode)
  {
  }

  /**
   * A request made while a task is active is not lost: once that task is over, another one has been
   * started, unless the controller was stopped; it runs in the foreground if the request asked for that.
   */
  lemma {:induction false} RequestIsFollowed(trace: seq<State>, i: nat, j: nat, mode: Mode)
    requires IsRun(trace) && i < j < |trace|
    requires trace[i].active && !trace[i].stopped && trace[i + 1] == DoRequest(trace[i], mode)
    ensures Owed(trace[j], |trace[i].tasks|, mode)
    ensures !trace[j].stopped && !trace[j].active ==> |trace[j].tasks| > |trace[i].tasks|
  {
    RunSound(trace, j);
    if j > i + 1 {
      RequestIsFollowed(trace, i, j - 1, mode);
      RunSound(trace, j - 1);
      OwedStays(trace[j - 1], trace[j], |trace[i].tasks|, mode);
    }
  }

  // Invalidation and stopping.

  lemma {:induction false} StartsAtOnce(trace: seq<State>, i: nat, mode: Mode)
    requires IsRun(trace) && i + 1 < |trace| && trace[i + 1] == DoRequest(trace[i], mode)
    requires !trace[i].stopped && !trace[i].active
    ensures var s, s' := trace[i], trace[i + 1];
      && s'.active && |s'.tasks| == |s.tasks| + 1 && s'.tasks[|s.tasks|].mode == mode && !s'.tasks[|s.tasks|].done
      && IsCurrent(s', s'.tasks[|s.tasks|].id)
  {
  }

  /** The tasks that had begun at a moment stay fenced. */
  predicate Fenced(s: State, n: nat) {
    s.fence >= n
  }

  lemma {:induction false} FenceStays(s: State, s': State, n: nat)
    requires Sound(s) && Next(s, s') && Fenced(s, n)
    ensures Fenced(s', n)
  {
  }

  /**
   * An invalidation during a task fences it and all earlier ones for good, and, unless the controller is stopped, a
   * foreground task follows.
   */
  lemma {:induction false} InvalidationIsFollowed(trace: seq<State>, i: nat, j: nat, k: nat)
    requires IsRun(trace) && i < j < |trace|
    requires trace[i].active && !trace[i].stopped && trace[i + 1] == DoInvalidate(trace[i])
    ensures Owed(trace[j], |trace[i].tasks|, Foreground)
    ensures !trace[j].stopped && !trace[j].active ==> |trace[j].tasks| > |trace[i].tasks|
    ensures Fenced(trace[j], |trace[i].tasks|)
    ensures k < |trace[i].tasks| && k < |trace[j].tasks| ==> !IsCurrent(trace[j], trace[j].tasks[k].id)
  {
    RunSound(trace, j);
    CurrentWhen(trace, j, k);
    if j > i + 1 {
      InvalidationIsFollowed(trace, i, j - 1, k);
      RunSound(trace, j - 1);
      assert Next(trace[j - 1], trace[j - 1 + 1]);
      hide IsRun, Sound, Owed, Fenced, Next;
      OwedStays(trace[j - 1], trace[j], |trace[i].tasks|, Foreground);
      FenceStays(trace[j - 1], trace[j], |trace[i].tasks|);
      OwedWhenIdle(trace[j], |trace[i].tasks|, Foreground);
    }
  }

  lemma {:induction false} CurrentWhen(trace: seq<State>, i: nat, k: nat)
    requires IsRun(trace) && i < |trace|
    ensures k < |trace[i].tasks| && trace[i].fence > k ==> !IsCurrent(trace[i], trace[i].tasks[k].id)
  {
    RunSound(trace, i);
  }

  lemma {:induction false} OwedWhenIdle(s: State, n: nat, mode: Mode)
    requires Owed(s, n, mode)
    ensures !s.stopped && !s.active ==> |s.tasks| > n
  {
  }

  /** Once stopped, nothing is current and nothing is started any more. */
  lemma {:induction false} StopIsFinal(trace: seq<State>, i: nat, j: nat)
    requires IsRun(trace) && i <= j < |trace| && trace[i].stopped
    ensures trace[j].stopped && |trace[j].tasks| == |trace[i].tasks|
    ensures forall id :: !IsCurrent(trace[j], id)
  {
    if i < j {
      StopIsFinal(trace, i, j - 1);
      assert Next(trace[j - 1], trace[j - 1 + 1]);
    }
  }
}
