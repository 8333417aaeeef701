/** The gate never seizes up: while a goroutine has work, some goroutine can go on. */
module GateProgress {
  import opened Prelude
  import opened RequestState
  import opened RequestGate
  import opened GateSafety
  import GateData

  /** The goroutine is in a call, or leads a refresh. */
  predicate Engaged(pr: Proc) {
    !pr.pc.Idle? || pr.lead.Some?
  }

  /** A leader whose page requests are over ends its fetch. */
  ghost predicate EndsFetch(s: System, p: Pid, s': System) {
    && p < |s.procs| && s.procs[p].pc.Idle? && s.procs[p].lead.Some?
    && Commits(s, p, Quiet(s, s.procs[p].(pc := Publishing(None))), s')
  }

  /** A step that carries work on: no call begins, and none is cancelled or given up. */
  ghost predicate Progresses(s: System, p: Pid, s': System) {
    || Locks(s, p, s') || (exists at :: Skips(s, p, at, s')) || (exists at :: Takes(s, p, at, s'))
    || Judges(s, p, s') || Admits(s, p, s') || Withdraws(s, p, s') || Enters(s, p, s') || Decides(s, p, s')
    || (exists r :: Hears(s, p, r, s')) || (exists mentions, body :: Reads(s, p, mentions, body, s'))
    || Looks(s, p, s') || Releases(s, p, s') || Grabs(s, p, s') || Publishes(s, p, s') || Wakes(s, p, s')
    || EndsFetch(s, p, s')
  }

  lemma {:induction false} ProgressIsStep(s: System, p: Pid, s': System)
    requires Progresses(s, p, s')
    ensures Next(s, s')
  {
    hide Commits;
    if EndsFetch(s, p, s') {
      EndingMovesOn(s, p, s');
    }
    assert Acts(s, p, s');
  }

  lemma {:induction false} EndingMovesOn(s: System, p: Pid, s': System)
    requires EndsFetch(s, p, s')
    ensures MovesOn(s, p, s')
  {
    hide Commits;
    assert QuietMove(s, s.procs[p], s.procs[p].(pc := Publishing(None)));
  }

  /** The scan under the mutex can always go on. */
  lemma {:induction false} ScannerMoves(s: System, p: Pid) returns (s': System)
    requires Safe(s) && p < |s.procs| && Scans(s.procs[p])
    ensures Progresses(s, p, s')
  {
    IsLocal(s, p);
    var me := s.procs[p];
    hide Evictable, Safe, Local;
    if me.pc.Inspecting? {
      s' := Commit(s, p, DoJudge(s, me));
      assert Judges(s, p, s');
    } else if me.pc.scan.todo == {} {
      s' := Commit(s, p, DoAdmit(s, me));
      assert Admits(s, p, s');
    } else {
      var at :| at in me.pc.scan.todo;
      if s.objs[s.states[at]].tokens > 0 {
        s' := Commit(s, p, DoTake(s, me, at));
        assert Takes(s, p, at, s');
      } else {
        s' := Commit(s, p, DoSkip(s, me, at));
        assert Skips(s, p, at, s');
      }
    }
  }

  /** A goroutine that is sending, reading or releasing can go on. */
  lemma {:induction false} SenderMoves(s: System, p: Pid) returns (s': System)
    requires Safe(s) && s.mu.None? && p < |s.procs| && s.procs[p].pc.With?
    requires s.procs[p].pc.work.Sending? || s.procs[p].pc.work.Reading? || s.procs[p].pc.work.Releasing?
    ensures Progresses(s, p, s')
  {
    IsLocal(s, p);
    var me := s.procs[p];
    assert HasObject(s, me.pc.sid) && CallOk(me);
    assert me.lead.Some? ==> me.lead.value.fid < |s.flights| by {
      assert LeadOk(s, p);
    }
    hide Safe, Local, Unexpired, Observed, Stored, IsThrottled;
    match me.pc.work
    case Sending(_) =>
      var r := Response(200, false, None, Absent);
      s' := Commit(s, p, DoHeaders(s, me, r));
      assert Hears(s, p, r, s');
    case Reading(_, _, _) =>
      s' := Commit(s, p, DoBody(s, me, false, ""));
      assert Reads(s, p, false, "", s');
    case Releasing(_) =>
      s' := Commit(s, p, DoRelease(s, p, me));
      assert Releases(s, p, s');
  }

  /** With the mutex free, a goroutine that holds a gate, or is on its way to give up its place, can go on. */
  lemma {:induction false} WorkerMoves(s: System, p: Pid) returns (s': System)
    requires Safe(s) && s.mu.None? && p < |s.procs| && s.procs[p].pc.With? && !s.procs[p].pc.work.Waiting?
    ensures Progresses(s, p, s')
  {
    IsLocal(s, p);
    var me := s.procs[p];
    assert HasObject(s, me.pc.sid) && CallOk(me);
    assert me.lead.Some? ==> me.lead.value.fid < |s.flights| by {
      assert LeadOk(s, p);
    }
    hide Safe, Local, Unexpired, Observed, Stored, IsThrottled;
    match me.pc.work
    case Cancelling =>
      s' := Commit(s, p, DoWithdraw(s, me));
      assert Withdraws(s, p, s');
    case Holding =>
      if me.call.Request? {
        s' := Commit(s, p, DoDecide(s, me));
        assert Decides(s, p, s');
      } else {
        s' := Commit(s, p, DoLook(s, p, me));
        assert Looks(s, p, s');
      }
    case Sending(_) =>
      s' := SenderMoves(s, p);
    case Reading(_, _, _) =>
      s' := SenderMoves(s, p);
    case Releasing(_) =>
      s' := SenderMoves(s, p);
  }

  lemma {:induction false} FillerMoves(s: System, p: Pid) returns (s': System)
    requires Safe(s) && p < |s.procs| && s.procs[p].pc.Filling?
    ensures Progresses(s, p, s')
  {
    LeaderIsBusy(s, p);
    assert LeadOk(s, p);
    hide Safe, Stored;
    s' := Commit(s, p, DoPublish(s, p, s.procs[p]));
    assert Publishes(s, p, s');
  }

  /** Whoever holds the token of a gate can go on. */
  lemma {:induction false} HolderMoves(s: System, sid: Sid) returns (q: Pid, s': System)
    requires Safe(s) && s.mu.None? && sid < |s.objs| && s.objs[sid].tokens <= 0
    ensures Progresses(s, q, s')
  {
    assert CountOk(s, sid);
    assert |Holders(s.procs, sid)| >= 1;
    q :| q in Holders(s.procs, sid);
    NotScanning(s, q);
    hide Safe, Progresses;
    if s.procs[q].pc.With? {
      s' := WorkerMoves(s, q);
    } else {
      s' := FillerMoves(s, q);
    }
  }

  lemma {:induction false} NotScanning(s: System, q: Pid)
    requires Safe(s) && s.mu.None? && q < |s.procs|
    ensures !Scans(s.procs[q])
  {
  }

  /** A leader can go on, or somebody holds the gate that it needs. */
  lemma {:induction false} LeaderMoves(s: System, p: Pid) returns (q: Pid, s': System)
    requires Safe(s) && s.mu.None? && p < |s.procs| && s.procs[p].lead.Some?
    ensures Progresses(s, q, s')
  {
    var me := s.procs[p];
    assert CallOk(me);
    LeaderIsBusy(s, p);
    NotScanning(s, p);
    hide Safe, Progresses;
    match me.pc
    case Idle =>
      q, s' := p, Commit(s, p, Quiet(s, me.(pc := Publishing(None))));
      EndsNow(s, p, s');
    case Publishing(_) =>
      if s.objs[me.lead.value.sid].tokens > 0 {
        q, s' := p, Commit(s, p, DoGrab(s, me));
        GrabsNow(s, p, s');
      } else {
        q, s' := HolderMoves(s, me.lead.value.sid);
      }
    case Filling(_) =>
      q := p;
      s' := FillerMoves(s, p);
    case Locking(_) =>
      q, s' := p, Commit(s, p, DoLock(s, p, me));
      LocksNow(s, p, s');
    case With(_, _, _) => q, s' := UserMoves(s, p);
  }

  lemma {:induction false} EndsNow(s: System, p: Pid, s': System)
    requires p < |s.procs| && s.procs[p].pc.Idle? && s.procs[p].lead.Some?
    requires s' == Commit(s, p, Quiet(s, s.procs[p].(pc := Publishing(None))))
    ensures Progresses(s, p, s')
  {
    assert EndsFetch(s, p, s');
  }

  lemma {:induction false} GrabsNow(s: System, p: Pid, s': System)
    requires p < |s.procs| && CanGrab(s, s.procs[p]) && s' == Commit(s, p, DoGrab(s, s.procs[p]))
    ensures Progresses(s, p, s')
  {
    assert Grabs(s, p, s');
  }

  lemma {:induction false} LocksNow(s: System, p: Pid, s': System)
    requires p < |s.procs| && s.procs[p].pc.Locking? && s.mu.None? && s' == Commit(s, p, DoLock(s, p, s.procs[p]))
    ensures Progresses(s, p, s')
  {
    assert Locks(s, p, s');
  }

  lemma {:induction false} UserMoves(s: System, p: Pid) returns (q: Pid, s': System)
    requires Safe(s) && s.mu.None? && p < |s.procs| && s.procs[p].pc.With?
    ensures Progresses(s, q, s')
  {
    UserIsBusy(s, p);
    var me := s.procs[p];
    hide Safe, Progresses;
    if !me.pc.work.Waiting? {
      q := p;
      s' := WorkerMoves(s, p);
    } else if s.objs[me.pc.sid].tokens > 0 {
      q, s' := p, Commit(s, p, DoEnter(s, me));
      EntersNow(s, p, s');
    } else {
      q, s' := HolderMoves(s, me.pc.sid);
    }
  }

  lemma {:induction false} EntersNow(s: System, p: Pid, s': System)
    requires p < |s.procs| && CanEnter(s, s.procs[p]) && s' == Commit(s, p, DoEnter(s, s.procs[p]))
    ensures Progresses(s, p, s')
  {
    assert Enters(s, p, s');
  }

  lemma {:induction false} WakesNow(s: System, p: Pid, s': System)
    requires p < |s.procs| && CanWake(s, s.procs[p]) && s' == Commit(s, p, DoWake(s, p, s.procs[p]))
    ensures Progresses(s, p, s')
  {
    assert Wakes(s, p, s');
  }

  /** A caller that joined a refresh wakes up, or its leader goes on. */
  lemma {:induction false} JoinerMoves(s: System, p: Pid) returns (q: Pid, s': System)
    requires Safe(s) && s.mu.None? && p < |s.procs| && s.procs[p].pc.Joining? && s.procs[p].pc.fid < |s.flights|
    ensures Progresses(s, q, s')
  {
    var fid := s.procs[p].pc.fid;
    assert FlightOk(s, fid);
    hide Safe, Progresses;
    if s.flights[fid].verdict.Pending? {
      q, s' := LeaderMoves(s, s.flights[fid].leader);
    } else {
      q, s' := p, Commit(s, p, DoWake(s, p, s.procs[p]));
      WakesNow(s, p, s');
    }
  }

  /**
   * In every reachable state in which a goroutine is in a call or leads a refresh, some goroutine can
   * carry its work on; nobody has to be cancelled, and no deadlock of mutex, gates and flights exists.
   */
  lemma {:induction false} NeverStuck(trace: seq<System>, i: nat, p: Pid) returns (q: Pid, s': System)
    requires IsRun(trace) && i < |trace| && p < |trace[i].procs| && Engaged(trace[i].procs[p])
    ensures Progresses(trace[i], q, s') && Next(trace[i], s')
  {
    hide IsRun;
    var s := trace[i];
    GateData.RunSound(trace, i);
    JoinedFlight(s, p);
    q, s' := SomeMoves(s, p);
    ProgressIsStep(s, q, s');
  }

  lemma {:induction false} JoinedFlight(s: System, p: Pid)
    requires GateData.Sound(s) && p < |s.procs|
    ensures s.procs[p].pc.Joining? ==> s.procs[p].pc.fid < |s.flights|
  {
    assert GateData.ProcOk(s, s.procs[p]);
  }

  lemma {:induction false} SomeMoves(s: System, p: Pid) returns (q: Pid, s': System)
    requires Safe(s) && p < |s.procs| && Engaged(s.procs[p])
    requires s.procs[p].pc.Joining? ==> s.procs[p].pc.fid < |s.flights|
    ensures Progresses(s, q, s')
  {
    var me := s.procs[p];
    if s.mu.Some? {
      q := s.mu.value;
      assert Scans(s.procs[q]);
      s' := ScannerMoves(s, q);
    } else {
      NotScanning(s, p);
      hide Safe, Progresses;
      if me.lead.Some? {
        q, s' := LeaderMoves(s, p);
      } else if me.pc.With? {
        q, s' := UserMoves(s, p);
      } else if me.pc.Joining? {
        q, s' := JoinerMoves(s, p);
      } else {
        assert me.pc.Locking? by {
          LeadsToPublish(s, p);
        }
        q, s' := p, Commit(s, p, DoLock(s, p, me));
        LocksNow(s, p, s');
      }
    }
  }

  lemma {:induction false} LeadsToPublish(s: System, p: Pid)
    requires Safe(s) && p < |s.procs|
    ensures s.procs[p].pc.Publishing? || s.procs[p].pc.Filling? ==> s.procs[p].lead.Some?
  {
    assert PinOk(s.states, s.procs[p]);
  }
}
