/** Every page request of a refresh is accounted for: a refresh that is published has all of its pages. */
module GatePages {
  import opened Prelude
  import opened RequestState
  import opened RequestGate
  import opened GateSafety
  import opened GateData

  /** The goroutine gives its fetch up as soon as it has released the gate, or has done so. */
  predicate Breaking(pr: Proc) {
    pr.broken || (pr.pc.With? && pr.pc.work.Releasing? && pr.pc.work.outcome.Failed?)
  }

  /** Where the answer to a page request of a pending refresh is: with its leader, or lost to the fetch. */
  predicate InHand(pr: Proc, n: nat) {
    SendOf(pr) == Some(n) || Breaking(pr)
  }

  /** A page request has become a page of its refresh, or is in hand, or has broken the refresh. */
  ghost predicate Accounted(procs: seq<Proc>, flights: seq<Flight>, fid: Fid, n: nat) {
    && fid < |flights|
    && (|| n in flights[fid].pages
        || (if flights[fid].verdict.Pending? then flights[fid].leader < |procs| && InHand(procs[flights[fid].leader], n)
            else flights[fid].broken))
  }

  ghost predicate AllAccounted(s: System) {
    forall n | 0 <= n < |s.sends| && s.sends[n].flight.Some? :: Accounted(s.procs, s.flights, s.sends[n].flight.value, n)
  }

  /** A step that sends nothing and leaves flights alone, by a goroutine that keeps what it has in hand. */
  lemma {:induction false} KeepsAccounts(s: System, p: Pid, e: Effect)
    requires AllAccounted(s) && Fits(s, p, e) && e.flights == s.flights && e.sends == s.sends
    requires s.procs[p].lead.Some? ==> forall n | InHand(s.procs[p], n) :: InHand(e.me, n)
    requires forall fid | 0 <= fid < |s.flights| && s.flights[fid].verdict.Pending? && s.flights[fid].leader == p :: s.procs[p].lead.Some?
    ensures AllAccounted(Commit(s, p, e))
  {
    hide InHand;
    var s' := Commit(s, p, e);
    forall n | 0 <= n < |s'.sends| && s'.sends[n].flight.Some?
      ensures Accounted(s'.procs, s'.flights, s'.sends[n].flight.value, n)
    {
      assert Accounted(s.procs, s.flights, s.sends[n].flight.value, n);
    }
  }

  /** Only a leader has a pending flight of its own. */
  lemma {:induction false} LeadersLead(s: System, p: Pid)
    requires Safe(s) && p < |s.procs|
    ensures forall fid | 0 <= fid < |s.flights| && s.flights[fid].verdict.Pending? && s.flights[fid].leader == p ::
      s.procs[p].lead.Some? && s.procs[p].lead.value.fid == fid
  {
    forall fid | 0 <= fid < |s.flights| && s.flights[fid].verdict.Pending? && s.flights[fid].leader == p
      ensures s.procs[p].lead.Some? && s.procs[p].lead.value.fid == fid
    {
      assert FlightOk(s, fid);
    }
  }

  lemma {:induction false} ScanAccounts(s: System, p: Pid, at: Identity, s': System)
    requires Safe(s) && AllAccounted(s)
    requires Locks(s, p, s') || Skips(s, p, at, s') || Takes(s, p, at, s') || Judges(s, p, s')
    ensures AllAccounted(s')
  {
    LeadersLead(s, p);
    hide Safe, AllAccounted, Evictable;
    var me := s.procs[p];
    var e := if Locks(s, p, s') then DoLock(s, p, me) else if Skips(s, p, at, s') then DoSkip(s, me, at)
      else if Takes(s, p, at, s') then DoTake(s, me, at) else DoJudge(s, me);
    KeepsAccounts(s, p, e);
  }

  lemma {:induction false} QuietAccounts(s: System, p: Pid, r: Response, s': System)
    requires Safe(s) && AllAccounted(s)
    requires Withdraws(s, p, s') || Enters(s, p, s') || Grabs(s, p, s') || Hears(s, p, r, s') || Wakes(s, p, s')
    ensures AllAccounted(s')
  {
    LeadersLead(s, p);
    hide Safe, AllAccounted, Observed;
    var me := s.procs[p];
    var e := if Withdraws(s, p, s') then DoWithdraw(s, me) else if Enters(s, p, s') then DoEnter(s, me)
      else if Grabs(s, p, s') then DoGrab(s, me) else if Hears(s, p, r, s') then DoHeaders(s, me, r) else DoWake(s, p, me);
    KeepsAccounts(s, p, e);
  }

  lemma {:induction false} MovesOnAccounts(s: System, p: Pid, s': System)
    requires Safe(s) && AllAccounted(s) && MovesOn(s, p, s')
    ensures AllAccounted(s')
  {
    LeadersLead(s, p);
    hide Safe, AllAccounted;
    var me' :| QuietMove(s, s.procs[p], me') && Commits(s, p, Quiet(s, me'), s');
    KeepsAccounts(s, p, Quiet(s, me'));
  }

  lemma {:induction false} AdmitAccounts(s: System, p: Pid, s': System)
    requires Safe(s) && AllAccounted(s) && Admits(s, p, s')
    ensures AllAccounted(s')
  {
    LeadersLead(s, p);
    hide Safe, AllAccounted, Remaining;
    KeepsAccounts(s, p, DoAdmit(s, s.procs[p]));
  }

  lemma {:induction false} ReadAccounts(s: System, p: Pid, mentions: bool, body: string, s': System)
    requires Safe(s) && AllAccounted(s) && Reads(s, p, mentions, body, s')
    ensures AllAccounted(s')
  {
    LeadersLead(s, p);
    hide Safe, AllAccounted, BodyThrottle, BodySeen, BodyResponses, IsThrottled;
    KeepsAccounts(s, p, DoBody(s, s.procs[p], mentions, body));
  }

  /** A page request that is sent is in the hand of its leader. */
  lemma {:induction false} SendAccounts(s: System, p: Pid, e: Effect, sent: Sent)
    requires AllAccounted(s) && Fits(s, p, e) && e.flights == s.flights && e.sends == s.sends + [sent]
    requires SendOf(e.me) == Some(|s.sends|) && (Breaking(s.procs[p]) ==> Breaking(e.me)) && SendOf(s.procs[p]).None?
    requires sent.flight.Some? ==>
      sent.flight.value < |s.flights| && s.flights[sent.flight.value].verdict.Pending? && s.flights[sent.flight.value].leader == p
    ensures AllAccounted(Commit(s, p, e))
  {
    hide Breaking, SendOf;
    var s' := Commit(s, p, e);
    forall n | 0 <= n < |s'.sends| && s'.sends[n].flight.Some?
      ensures Accounted(s'.procs, s'.flights, s'.sends[n].flight.value, n)
    {
      if n < |s.sends| {
        assert s'.sends[n] == s.sends[n] && Accounted(s.procs, s.flights, s.sends[n].flight.value, n);
      }
    }
  }

  lemma {:induction false} DecideAccounts(s: System, p: Pid, s': System)
    requires Safe(s) && AllAccounted(s) && Decides(s, p, s')
    ensures AllAccounted(s')
  {
    LeadersLead(s, p);
    assert LeadOk(s, p);
    hide Safe, Unexpired, AllAccounted;
    var e := DoDecide(s, s.procs[p]);
    if e.sends == s.sends {
      KeepsAccounts(s, p, e);
    } else {
      SendAccounts(s, p, e, e.sends[|s.sends|]);
    }
  }

  lemma {:induction false} LookAccounts(s: System, p: Pid, s': System)
    requires Safe(s) && AllAccounted(s) && Looks(s, p, s')
    ensures AllAccounted(s')
  {
    LeadersLead(s, p);
    assert CallOk(s.procs[p]) && s.procs[p].lead.None?;
    hide Safe, Unexpired, InHand;
    assert s'.sends == s.sends && s.flights <= s'.flights;
    forall n | 0 <= n < |s'.sends| && s'.sends[n].flight.Some?
      ensures Accounted(s'.procs, s'.flights, s'.sends[n].flight.value, n)
    {
      assert Accounted(s.procs, s.flights, s.sends[n].flight.value, n);
    }
  }

  /** An answer that arrives becomes a page of its refresh. */
  lemma {:induction false} PageAccounts(s: System, p: Pid, e: Effect, fid: Fid, send: nat)
    requires AllAccounted(s) && Fits(s, p, e) && fid < |s.flights| && e.sends == s.sends
    requires e.flights == s.flights[fid := s.flights[fid].(pages := s.flights[fid].pages + [send])]
    requires SendOf(s.procs[p]) == Some(send) && (Breaking(s.procs[p]) ==> Breaking(e.me))
    requires forall g | 0 <= g < |s.flights| && s.flights[g].verdict.Pending? && s.flights[g].leader == p :: g == fid
    ensures AllAccounted(Commit(s, p, e))
  {
    hide Breaking, SendOf;
    var s' := Commit(s, p, e);
    forall n | 0 <= n < |s'.sends| && s'.sends[n].flight.Some?
      ensures Accounted(s'.procs, s'.flights, s'.sends[n].flight.value, n)
    {
      assert Accounted(s.procs, s.flights, s.sends[n].flight.value, n);
    }
  }

  lemma {:induction false} ReleaseAccounts(s: System, p: Pid, s': System)
    requires Safe(s) && AllAccounted(s) && Releases(s, p, s')
    ensures AllAccounted(s')
  {
    LeadersLead(s, p);
    hide Safe, AllAccounted;
    var me, e := s.procs[p], DoRelease(s, p, s.procs[p]);
    if me.lead.Some? && me.pc.work.outcome.Received? {
      PageAccounts(s, p, e, me.lead.value.fid, me.pc.work.outcome.send);
    } else {
      KeepsAccounts(s, p, e);
    }
  }

  lemma {:induction false} PublishAccounts(s: System, p: Pid, s': System)
    requires Safe(s) && AllAccounted(s) && Publishes(s, p, s')
    ensures AllAccounted(s')
  {
    LeadersLead(s, p);
    assert LeadOk(s, p);
    hide Safe, Stored, RetryLimit;
    assert s'.sends == s.sends && SendOf(s.procs[p]).None?;
    forall n | 0 <= n < |s'.sends| && s'.sends[n].flight.Some?
      ensures Accounted(s'.procs, s'.flights, s'.sends[n].flight.value, n)
    {
      assert Accounted(s.procs, s.flights, s.sends[n].flight.value, n);
    }
  }

  lemma {:induction false} IdleAccounts(s: System, s': System)
    requires AllAccounted(s) && (Ticks(s, s') || Spawns(s, s'))
    ensures AllAccounted(s')
  {
    forall n | 0 <= n < |s'.sends| && s'.sends[n].flight.Some?
      ensures Accounted(s'.procs, s'.flights, s'.sends[n].flight.value, n)
    {
      assert Accounted(s.procs, s.flights, s.sends[n].flight.value, n);
    }
  }

  lemma {:induction false} ActAccounts(s: System, p: Pid, s': System)
    requires Safe(s) && AllAccounted(s) && Acts(s, p, s')
    ensures AllAccounted(s')
  {
    var none := Response(0, false, None, Absent);
    hide MovesOn, Locks, Skips, Takes, Judges, Withdraws, Enters, Grabs, Hears, Wakes, Admits, Decides, Looks, Releases, Reads,
      Publishes, AllAccounted, Safe;
    if at :| Skips(s, p, at, s') {
      ScanAccounts(s, p, at, s');
    } else if at :| Takes(s, p, at, s') {
      ScanAccounts(s, p, at, s');
    } else if r :| Hears(s, p, r, s') {
      QuietAccounts(s, p, r, s');
    } else if MovesOn(s, p, s') {
      MovesOnAccounts(s, p, s');
    } else if Admits(s, p, s') {
      AdmitAccounts(s, p, s');
    } else if Decides(s, p, s') {
      DecideAccounts(s, p, s');
    } else if Looks(s, p, s') {
      LookAccounts(s, p, s');
    } else if Releases(s, p, s') {
      ReleaseAccounts(s, p, s');
    } else if mentions, body :| Reads(s, p, mentions, body, s') {
      ReadAccounts(s, p, mentions, body, s');
    } else if Publishes(s, p, s') {
      PublishAccounts(s, p, s');
    } else if Locks(s, p, s') || Judges(s, p, s') {
      ScanAccounts(s, p, Identity("", ""), s');
    } else {
      QuietAccounts(s, p, none, s');
    }
  }

  lemma {:induction false} RunAccounts(trace: seq<System>, i: nat)
    requires IsRun(trace) && i < |trace|
    ensures AllAccounted(trace[i])
  {
    hide Safe, Acts, AllAccounted, Ticks, Spawns;
    if i > 0 {
      RunAccounts(trace, i - 1);
      RunSafe(trace, i - 1);
      var s, s' := trace[i - 1], trace[i];
      assert Next(trace[i - 1], trace[i - 1 + 1]);
      hide IsRun;
      if p :| Acts(s, p, s') {
        ActAccounts(s, p, s');
      } else {
        IdleAccounts(s, s');
      }
    } else {
      NothingSent(trace);
    }
  }

  lemma {:induction false} NothingSent(trace: seq<System>)
    requires IsRun(trace)
    ensures AllAccounted(trace[0])
  {
  }

  /**
   * A refresh that is published is complete: every page request that it ever made was answered, and is one of
   * its pages; a single one that was refused, throttled, cut off or cancelled keeps it from being published.
   */
  lemma {:induction false} PublishedIsComplete(trace: seq<System>, i: nat, fid: Fid, n: nat)
    requires IsRun(trace) && i < |trace| && fid < |trace[i].flights| && trace[i].flights[fid].verdict.Published?
    requires n < |trace[i].sends| && trace[i].sends[n].flight == Some(fid)
    ensures n in trace[i].flights[fid].pages
  {
    RunAccounts(trace, i);
    RunSound(trace, i);
    assert Accounted(trace[i].procs, trace[i].flights, fid, n) && WholeFlight(trace[i].flights[fid]);
  }
}
