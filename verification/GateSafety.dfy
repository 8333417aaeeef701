/** What every step of the request gate keeps, and what follows for every run. */
module GateSafety {
  import opened Prelude
  import opened RequestState
  import opened RequestGate

  // The invariant.

  ghost predicate StatesOk(s: System) {
    && |s.states| <= MAX_REQUEST_STATES
    && forall id | id in s.states :: s.states[id] < |s.objs| && s.objs[s.states[id]].id == id
  }

  /** `users` counts the admitted goroutines; one token is either in the channel or held. */
  ghost predicate CountOk(s: System, sid: Sid)
    requires sid < |s.objs|
  {
    && s.objs[sid].users == |Users(s.procs, sid)|
    && s.objs[sid].tokens + |Holders(s.procs, sid)| == 1
    && s.objs[sid].tokens >= 0
  }

  ghost predicate CountsOk(s: System) {
    forall sid | 0 <= sid < |s.objs| :: CountOk(s, sid)
  }

  /** Every admitted goroutine and every flight leader works on the current state of its identity. */
  predicate PinOk(states: map<Identity, Sid>, pr: Proc) {
    && (UserOf(pr).Some? ==> pr.pc.id in states && states[pr.pc.id] == pr.pc.sid)
    && (pr.lead.Some? ==> pr.lead.value.id in states && states[pr.lead.value.id] == pr.lead.value.sid)
    && (pr.pc.Publishing? || pr.pc.Filling? ==> pr.lead.Some?)
  }

  ghost predicate PinsOk(s: System) {
    forall p | 0 <= p < |s.procs| :: PinOk(s.states, s.procs[p])
  }

  predicate Scans(pr: Proc) {
    pr.pc.Scanning? || pr.pc.Inspecting?
  }

  /** The identities the scan has judged evictable so far. */
  function Candidates(states: map<Identity, Sid>, scan: Scan, at: set<Identity>): set<Identity> {
    states.Keys - scan.todo - scan.spared - at
  }

  /** `at` holds the identity under inspection, if any: already visited, not yet judged. */
  ghost predicate ScanOk(s: System, scan: Scan, at: set<Identity>)
    requires StatesOk(s)
  {
    && scan.now <= s.clock
    && scan.todo <= s.states.Keys
    && scan.todo !! scan.spared
    && at <= s.states.Keys && at !! scan.todo && at !! scan.spared
    && (scan.oldest.Some? ==> scan.oldest.value in Candidates(s.states, scan, at))
    && forall k | k in Candidates(s.states, scan, at) ::
         && Evictable(s.objs[s.states[k]], scan.now)
         && scan.oldest.Some? && scan.oldest.value in s.states
         && s.objs[s.states[scan.oldest.value]].lastUsed <= s.objs[s.states[k]].lastUsed
  }

  function Visiting(pc: Pc): set<Identity> {
    if pc.Inspecting? then {pc.at} else {}
  }

  /** The goroutine's scan, if it runs one, is consistent with the states. */
  ghost predicate ScannerOk(s: System, pr: Proc)
    requires StatesOk(s)
  {
    && (Scans(pr) ==> ScanOk(s, pr.pc.scan, Visiting(pr.pc)))
    && (pr.pc.Inspecting? ==> pr.pc.at in s.states && s.states[pr.pc.at] == pr.pc.held)
  }

  ghost predicate LockOk(s: System)
    requires StatesOk(s)
  {
    && (s.mu.Some? ==> s.mu.value < |s.procs|)
    && (forall p | 0 <= p < |s.procs| :: Scans(s.procs[p]) <==> s.mu == Some(p))
    && (forall p | 0 <= p < |s.procs| :: ScannerOk(s, s.procs[p]))
  }

  ghost predicate ListingOk(s: System, sid: Sid, key: CacheKey)
    requires sid < |s.objs| && key in s.objs[sid].listings
  {
    var fid := s.objs[sid].listings[key];
    fid < |s.flights| && s.flights[fid].sid == sid && s.flights[fid].key == key && s.flights[fid].verdict.Pending?
  }

  ghost predicate FlightOk(s: System, fid: Fid)
    requires fid < |s.flights|
  {
    var f := s.flights[fid];
    && f.sid < |s.objs|
    && (f.verdict.Pending? ==>
      && f.key in s.objs[f.sid].listings && s.objs[f.sid].listings[f.key] == fid
      && f.leader < |s.procs| && s.procs[f.leader].lead == Some(Lead(s.objs[f.sid].id, f.sid, f.key, fid)))
  }

  ghost predicate LeadOk(s: System, p: Pid)
    requires p < |s.procs|
  {
    s.procs[p].lead.Some? ==>
      var l := s.procs[p].lead.value;
      && l.fid < |s.flights| && s.flights[l.fid].verdict.Pending? && s.flights[l.fid].leader == p
      && s.flights[l.fid].sid == l.sid && s.flights[l.fid].key == l.key
  }

  ghost predicate FlightsOk(s: System) {
    && (forall sid, key | 0 <= sid < |s.objs| && key in s.objs[sid].listings :: ListingOk(s, sid, key))
    && (forall fid | 0 <= fid < |s.flights| :: FlightOk(s, fid))
    && (forall p | 0 <= p < |s.procs| :: LeadOk(s, p))
  }

  /** Calls keep their kind of key, and a leader makes only uncached page requests. */
  predicate CallOk(pr: Proc) {
    && KeyFits(pr.call)
    && (InFlight(pr) ==> pr.call.Request?)
    && (pr.pc.Joining? || (pr.pc.With? && pr.pc.work.Releasing? && pr.pc.work.outcome.Joined?) ==> pr.call.Listing?)
    && (pr.lead.Some? && !pr.pc.Idle? ==>
      || (pr.call.Request? && pr.call.ttl == 0)
      || (pr.pc.With? && pr.pc.work == Releasing(Led))
      || pr.pc.Publishing? || pr.pc.Filling?)
  }

  ghost predicate CallsOk(s: System) {
    forall p | 0 <= p < |s.procs| :: CallOk(s.procs[p])
  }

  ghost predicate Safe(s: System) {
    StatesOk(s) && CountsOk(s) && PinsOk(s) && LockOk(s) && FlightsOk(s) && CallsOk(s)
  }

  // Counting.

  function One(b: bool): int {
    if b then 1 else 0
  }

  lemma {:induction false} SwapOne<T>(a: set<T>, b: set<T>, p: T)
    requires a - {p} == b - {p}
    ensures |b| == |a| - One(p in a) + One(p in b)
  {
    assert a == if p in a then (a - {p}) + {p} else a - {p};
    assert b == if p in b then (b - {p}) + {p} else b - {p};
  }

  lemma {:induction false} UsersUpdate(before: seq<Proc>, after: seq<Proc>, p: Pid, sid: Sid)
    requires p < |before| && |after| == |before|
    requires forall q | 0 <= q < |before| :: q != p ==> after[q] == before[q]
    ensures |Users(after, sid)| == |Users(before, sid)| - One(UserOf(before[p]) == Some(sid)) + One(UserOf(after[p]) == Some(sid))
  {
    forall q ensures q in Users(before, sid) - {p} <==> q in Users(after, sid) - {p} {}
    SwapOne(Users(before, sid), Users(after, sid), p);
  }

  lemma {:induction false} HoldersUpdate(before: seq<Proc>, after: seq<Proc>, p: Pid, sid: Sid)
    requires p < |before| && |after| == |before|
    requires forall q | 0 <= q < |before| :: q != p ==> after[q] == before[q]
    ensures |Holders(after, sid)| == |Holders(before, sid)| - One(HolderOf(before[p]) == Some(sid)) + One(HolderOf(after[p]) == Some(sid))
  {
    forall q ensures q in Holders(before, sid) - {p} <==> q in Holders(after, sid) - {p} {}
    SwapOne(Holders(before, sid), Holders(after, sid), p);
  }

  // A goroutine that pins a state keeps that state from being evicted.

  ghost predicate Busy(o: Shared) {
    o.users > 0 || o.listings != map[]
  }

  lemma {:induction false} UserIsBusy(s: System, p: Pid)
    requires StatesOk(s) && CountsOk(s) && PinsOk(s)
    requires p < |s.procs| && UserOf(s.procs[p]).Some?
    ensures UserOf(s.procs[p]).value < |s.objs|
    ensures s.objs[UserOf(s.procs[p]).value].users > 0
  {
    assert PinOk(s.states, s.procs[p]);
    var sid := UserOf(s.procs[p]).value;
    assert CountOk(s, sid);
    assert p in Users(s.procs, sid);
  }

  lemma {:induction false} LeaderIsBusy(s: System, p: Pid)
    requires FlightsOk(s)
    requires p < |s.procs| && s.procs[p].lead.Some?
    ensures var l := s.procs[p].lead.value;
      l.sid < |s.objs| && l.key in s.objs[l.sid].listings && s.objs[l.sid].listings[l.key] == l.fid
  {
    assert LeadOk(s, p);
    assert FlightOk(s, s.procs[p].lead.value.fid);
  }

  // What an effect must satisfy, stated about the acting goroutine alone.

  ghost predicate CountsFit(s: System, p: Pid, e: Effect)
    requires Fits(s, p, e)
  {
    var me := s.procs[p];
    && (forall sid | 0 <= sid < |s.objs| && !(e.touch.Some? && e.touch.value.sid == sid) ::
         (UserOf(me) == Some(sid) <==> UserOf(e.me) == Some(sid)) && (HolderOf(me) == Some(sid) <==> HolderOf(e.me) == Some(sid)))
    && (e.touch.Some? ==>
         var sid, o := e.touch.value.sid, e.touch.value.obj;
         && o.id == s.objs[sid].id
         && o.users == s.objs[sid].users - One(UserOf(me) == Some(sid)) + One(UserOf(e.me) == Some(sid))
         && o.tokens == s.objs[sid].tokens + One(HolderOf(me) == Some(sid)) - One(HolderOf(e.me) == Some(sid))
         && o.tokens >= 0)
    && (e.created.Some? ==>
         && e.created.value.users == One(UserOf(e.me) == Some(|s.objs|))
         && e.created.value.tokens == 1 && HolderOf(e.me) != Some(|s.objs|)
         && e.created.value.listings == map[])
  }

  ghost predicate StatesFit(s: System, p: Pid, e: Effect)
    requires StatesOk(s)
  {
    && |e.states| <= MAX_REQUEST_STATES
    && (e.states != s.states ==> s.mu == Some(p))
    && (forall id | id in e.states ::
         || (id in s.states && e.states[id] == s.states[id])
         || (e.created.Some? && e.states[id] == |s.objs| && e.created.value.id == id))
    && (forall id | id in s.states :: id in e.states || Evictable(s.objs[s.states[id]], s.clock))
    && (forall id | id in s.states && id in e.states :: e.states[id] == s.states[id])
  }

  ghost predicate LockFits(s: System, p: Pid, e: Effect)
    requires Fits(s, p, e)
  {
    && (s.mu == e.mu || (s.mu == Some(p) && e.mu.None?) || (s.mu.None? && e.mu == Some(p)))
    && (Scans(e.me) <==> e.mu == Some(p))
    && (e.touch.Some? && s.mu.Some? && s.mu != Some(p) ==> Busy(s.objs[e.touch.value.sid]))
  }

  lemma {:induction false} CommitCounts(s: System, p: Pid, e: Effect)
    requires StatesOk(s) && CountsOk(s) && PinsOk(s) && LockOk(s)
    requires Fits(s, p, e) && CountsFit(s, p, e)
    ensures CountsOk(Commit(s, p, e))
  {
    var s' := Commit(s, p, e);
    forall sid | 0 <= sid < |s'.objs| ensures CountOk(s', sid) {
      UsersUpdate(s.procs, s'.procs, p, sid);
      HoldersUpdate(s.procs, s'.procs, p, sid);
      if sid < |s.objs| {
        assert CountOk(s, sid);
      } else {
        NoStrangers(s, sid);
      }
    }
  }

  lemma {:induction false} NoStrangers(s: System, sid: Sid)
    requires StatesOk(s) && PinsOk(s) && LockOk(s) && sid >= |s.objs|
    ensures Users(s.procs, sid) == {} && Holders(s.procs, sid) == {}
  {
    forall q | 0 <= q < |s.procs| ensures UserOf(s.procs[q]) != Some(sid) && HolderOf(s.procs[q]) != Some(sid) {
      assert PinOk(s.states, s.procs[q]);
      assert ScannerOk(s, s.procs[q]);
    }
  }

  lemma {:induction false} CommitStates(s: System, p: Pid, e: Effect)
    requires StatesOk(s) && Fits(s, p, e) && CountsFit(s, p, e) && StatesFit(s, p, e)
    ensures StatesOk(Commit(s, p, e))
  {
    hide Evictable;
  }

  lemma {:induction false} CommitPins(s: System, p: Pid, e: Effect)
    requires Safe(s) && Fits(s, p, e) && CountsFit(s, p, e) && StatesFit(s, p, e)
    requires PinOk(e.states, e.me)
    ensures PinsOk(Commit(s, p, e))
  {
    var s' := Commit(s, p, e);
    forall q | 0 <= q < |s'.procs| ensures PinOk(s'.states, s'.procs[q]) {
      if q != p {
        assert PinOk(s.states, s.procs[q]);
        if UserOf(s.procs[q]).Some? {
          UserIsBusy(s, q);
        }
        if s.procs[q].lead.Some? {
          LeaderIsBusy(s, q);
        }
      }
    }
  }

  lemma {:induction false} CommitLock(s: System, p: Pid, e: Effect)
    requires StatesOk(s) && LockOk(s) && Fits(s, p, e) && CountsFit(s, p, e) && StatesFit(s, p, e) && LockFits(s, p, e)
    requires StatesOk(Commit(s, p, e)) && (Scans(e.me) ==> ScannerOk(Commit(s, p, e), e.me))
    ensures LockOk(Commit(s, p, e))
  {
    var s' := Commit(s, p, e);
    forall q | 0 <= q < |s'.procs|
      ensures Scans(s'.procs[q]) <==> s'.mu == Some(q)
      ensures ScannerOk(s', s'.procs[q])
    {
      assert ScannerOk(s, s.procs[q]);
      if q != p && Scans(s.procs[q]) {
        var at := Visiting(s.procs[q].pc);
        forall k | k in Candidates(s.states, s.procs[q].pc.scan, at) ensures s'.objs[s.states[k]] == s.objs[s.states[k]] {
        }
      }
    }
  }

  predicate SameFlight(a: Flight, b: Flight) {
    a.sid == b.sid && a.key == b.key && a.leader == b.leader && a.verdict == b.verdict
  }

  ghost predicate FlightsUntouched(s: System, p: Pid, e: Effect)
    requires Fits(s, p, e)
  {
    && |e.flights| == |s.flights|
    && (forall fid | 0 <= fid < |s.flights| :: SameFlight(e.flights[fid], s.flights[fid]))
    && e.me.lead == s.procs[p].lead
    && (e.touch.Some? ==> e.touch.value.obj.listings == s.objs[e.touch.value.sid].listings)
  }

  lemma {:induction false} CommitFlights(s: System, p: Pid, e: Effect)
    requires FlightsOk(s) && Fits(s, p, e) && CountsFit(s, p, e) && FlightsUntouched(s, p, e)
    ensures FlightsOk(Commit(s, p, e))
  {
    var s' := Commit(s, p, e);
    forall sid, key | 0 <= sid < |s'.objs| && key in s'.objs[sid].listings ensures ListingOk(s', sid, key) {
      assert ListingOk(s, sid, key);
    }
    forall fid | 0 <= fid < |s'.flights| ensures FlightOk(s', fid) {
      assert FlightOk(s, fid);
    }
    forall q | 0 <= q < |s'.procs| ensures LeadOk(s', q) {
      assert LeadOk(s, q);
    }
  }

  // Every step satisfies these conditions.

  ghost predicate EffectOk(s: System, p: Pid, e: Effect)
    requires StatesOk(s)
  {
    && Fits(s, p, e) && CountsFit(s, p, e) && StatesFit(s, p, e) && LockFits(s, p, e)
    && PinOk(e.states, e.me)
    && CallOk(e.me)
  }

  /** The facts about one goroutine, and the states it works on, that its next step needs. */
  ghost predicate Local(s: System, p: Pid)
    requires StatesOk(s)
  {
    && p < |s.procs|
    && var me := s.procs[p];
    && PinOk(s.states, me) && CallOk(me)
    && (Scans(me) <==> s.mu == Some(p))
    && ScannerOk(s, me)
    && (UserOf(me).Some? ==> UserOf(me).value < |s.objs| && Busy(s.objs[UserOf(me).value]))
    && (me.lead.Some? ==> me.lead.value.sid < |s.objs| && Busy(s.objs[me.lead.value.sid]))
    && (HolderOf(me).Some? ==> HolderOf(me).value < |s.objs| && s.objs[HolderOf(me).value].tokens == 0)
  }

  lemma {:induction false} IsLocal(s: System, p: Pid)
    requires Safe(s) && p < |s.procs|
    ensures Local(s, p)
  {
    assert PinOk(s.states, s.procs[p]);
    if UserOf(s.procs[p]).Some? {
      UserIsBusy(s, p);
    }
    if s.procs[p].lead.Some? {
      LeaderIsBusy(s, p);
    }
    if HolderOf(s.procs[p]).Some? {
      var sid := HolderOf(s.procs[p]).value;
      assert CountOk(s, sid);
      assert p in Holders(s.procs, sid);
    }
  }

  /** A goroutine moves on without touching any shared field. */
  lemma {:induction false} QuietOk(s: System, p: Pid, me: Proc)
    requires StatesOk(s) && Local(s, p)
    requires UserOf(me) == UserOf(s.procs[p]) && HolderOf(me) == HolderOf(s.procs[p]) && me.lead == s.procs[p].lead
    requires !Scans(me) && !Scans(s.procs[p]) && PinOk(s.states, me) && CallOk(me)
    ensures EffectOk(s, p, Quiet(s, me)) && FlightsUntouched(s, p, Quiet(s, me))
  {
  }

  lemma {:induction false} WakeOk(s: System, p: Pid, e: Effect)
    requires StatesOk(s) && Local(s, p) && CanWake(s, s.procs[p]) && e == DoWake(s, p, s.procs[p])
    ensures EffectOk(s, p, e) && FlightsUntouched(s, p, e)
  {
    hide ScanOk, Candidates, Evictable;
  }

  lemma {:induction false} LockOkay(s: System, p: Pid, e: Effect)
    requires StatesOk(s) && Local(s, p) && s.procs[p].pc.Locking? && s.mu.None? && e == DoLock(s, p, s.procs[p])
    ensures EffectOk(s, p, e) && FlightsUntouched(s, p, e)
    ensures StatesOk(Commit(s, p, e)) && ScannerOk(Commit(s, p, e), e.me)
  {
  }

  lemma {:induction false} SkipOk(s: System, p: Pid, at: Identity, e: Effect)
    requires StatesOk(s) && Local(s, p) && CanVisit(s, s.procs[p], at) && e == DoSkip(s, s.procs[p], at)
    ensures EffectOk(s, p, e) && FlightsUntouched(s, p, e)
    ensures StatesOk(Commit(s, p, e)) && ScannerOk(Commit(s, p, e), e.me)
  {
    assert Candidates(s.states, e.me.pc.scan, {}) == Candidates(s.states, s.procs[p].pc.scan, {});
  }

  lemma {:induction false} TakeOk(s: System, p: Pid, at: Identity, e: Effect)
    requires StatesOk(s) && Local(s, p) && CanTake(s, s.procs[p], at) && e == DoTake(s, s.procs[p], at)
    ensures EffectOk(s, p, e) && FlightsUntouched(s, p, e)
    ensures StatesOk(Commit(s, p, e)) && ScannerOk(Commit(s, p, e), e.me)
  {
    assert Candidates(s.states, e.me.pc.scan, {at}) == Candidates(s.states, s.procs[p].pc.scan, {});
  }

  lemma {:induction false} JudgeStates(s: System, p: Pid, e: Effect)
    requires StatesOk(s) && Local(s, p) && CanJudge(s, s.procs[p]) && e == DoJudge(s, s.procs[p])
    ensures StatesFit(s, p, e) && PinOk(e.states, e.me)
  {
    hide Candidates, CallOk;
    assert e.states.Keys <= s.states.Keys;
    SubsetSize(e.states.Keys, s.states.Keys);
  }

  lemma {:induction false} JudgeCounts(s: System, p: Pid, e: Effect)
    requires StatesOk(s) && Local(s, p) && CanJudge(s, s.procs[p]) && e == DoJudge(s, s.procs[p])
    ensures Fits(s, p, e) && CountsFit(s, p, e)
  {
    hide Candidates, PinOk, Evictable, ScanOk, CallOk, Busy;
  }

  lemma {:induction false} JudgeOk(s: System, p: Pid, e: Effect)
    requires StatesOk(s) && Local(s, p) && CanJudge(s, s.procs[p]) && e == DoJudge(s, s.procs[p])
    ensures EffectOk(s, p, e) && FlightsUntouched(s, p, e)
  {
    JudgeStates(s, p, e);
    JudgeCounts(s, p, e);
    hide Candidates, StatesFit, CountsFit, PinOk, Evictable, ScanOk;
  }

  /** Nothing that the scan judges by has changed. */
  ghost predicate SameGrounds(s: System, s': System) {
    && s'.clock == s.clock && |s'.objs| == |s.objs|
    && forall sid | 0 <= sid < |s.objs| ::
         s'.objs[sid] == s.objs[sid].(tokens := s'.objs[sid].tokens)
  }

  lemma {:induction false} ScanDropped(s: System, s': System, scan: Scan, at: Identity)
    requires StatesOk(s) && StatesOk(s') && SameGrounds(s, s') && ScanOk(s, scan, {at})
    requires s'.states == s.states - {at}
    ensures ScanOk(s', scan, {})
  {
    assert Candidates(s'.states, scan, {}) == Candidates(s.states, scan, {at});
  }

  lemma {:induction false} ScanSpared(s: System, s': System, scan: Scan, at: Identity)
    requires StatesOk(s) && StatesOk(s') && SameGrounds(s, s') && ScanOk(s, scan, {at})
    requires s'.states == s.states
    ensures ScanOk(s', scan.(spared := scan.spared + {at}), {})
  {
    assert Candidates(s.states, scan.(spared := scan.spared + {at}), {}) == Candidates(s.states, scan, {at});
  }

  lemma {:induction false} ScanChosen(s: System, s': System, scan: Scan, at: Identity, oldest: Option<Identity>)
    requires StatesOk(s) && StatesOk(s') && SameGrounds(s, s') && ScanOk(s, scan, {at})
    requires s'.states == s.states && at in s.states && Evictable(s.objs[s.states[at]], scan.now)
    requires oldest == (if scan.oldest.None? || s.objs[s.states[at]].lastUsed < s.objs[s.states[scan.oldest.value]].lastUsed
                        then Some(at) else scan.oldest)
    ensures ScanOk(s', scan.(oldest := oldest), {})
  {
    assert Candidates(s.states, scan, {}) == Candidates(s.states, scan, {at}) + {at};
  }

  lemma {:induction false} JudgeScans(s: System, p: Pid, e: Effect, s': System)
    requires StatesOk(s) && Local(s, p) && CanJudge(s, s.procs[p]) && e == DoJudge(s, s.procs[p])
    requires Fits(s, p, e) && s' == Commit(s, p, e) && StatesOk(s')
    ensures ScannerOk(s', e.me)
  {
    var pc := s.procs[p].pc;
    var o := s.objs[pc.held];
    assert SameGrounds(s, s');
    if !Evictable(o, pc.scan.now) {
      ScanSpared(s, s', pc.scan, pc.at);
    } else if pc.scan.now - o.lastUsed >= HOUR {
      ScanDropped(s, s', pc.scan, pc.at);
    } else {
      ScanChosen(s, s', pc.scan, pc.at, e.me.pc.scan.oldest);
    }
  }

  lemma {:induction false} ReserveOk(s: System, p: Pid)
    requires StatesOk(s) && Local(s, p) && s.procs[p].pc.Scanning? && s.procs[p].pc.scan.id in s.states
    requires s.objs[s.states[s.procs[p].pc.scan.id]].tokens >= 0
    ensures EffectOk(s, p, DoReserve(s, s.procs[p], s.states[s.procs[p].pc.scan.id]))
    ensures FlightsUntouched(s, p, DoReserve(s, s.procs[p], s.states[s.procs[p].pc.scan.id]))
  {
  }

  /** The scan's choice can be evicted: nothing can have pinned it since it was judged. */
  lemma {:induction false} RemainingFits(s: System, p: Pid, kept: map<Identity, Sid>)
    requires StatesOk(s) && Local(s, p) && s.procs[p].pc.Scanning?
    requires kept == Remaining(s, s.procs[p].pc.scan.oldest)
    ensures kept.Keys <= s.states.Keys && |kept| <= |s.states|
    ensures forall id | id in kept :: kept[id] == s.states[id]
    ensures forall id | id in s.states && id !in kept ::
      Evictable(s.objs[s.states[id]], s.clock) && s.procs[p].pc.scan.oldest == Some(id) && |s.states| == MAX_REQUEST_STATES
  {
    SubsetSize(kept.Keys, s.states.Keys);
  }

  lemma {:induction false} RefuseOk(s: System, p: Pid, kept: map<Identity, Sid>)
    requires StatesOk(s) && Local(s, p) && s.procs[p].pc.Scanning?
    requires kept == Remaining(s, s.procs[p].pc.scan.oldest)
    ensures var e := Quiet(s, GivenUp(s.procs[p])).(states := kept, mu := None);
      EffectOk(s, p, e) && FlightsUntouched(s, p, e)
  {
    RemainingFits(s, p, kept);
  }

  lemma {:induction false} AddedStates(s: System, p: Pid, kept: map<Identity, Sid>, id: Identity, e: Effect)
    requires StatesOk(s) && |kept| < MAX_REQUEST_STATES && s.mu == Some(p) && id !in s.states
    requires e.states == kept[id := |s.objs|] && e.created.Some? && e.created.value.id == id
    requires forall k | k in kept :: k in s.states && kept[k] == s.states[k]
    requires forall k | k in s.states && k !in kept :: Evictable(s.objs[s.states[k]], s.clock)
    ensures StatesFit(s, p, e)
  {
    hide Evictable;
    AddedSize(kept, id, |s.objs|);
    forall k | k in s.states ensures k in e.states || Evictable(s.objs[s.states[k]], s.clock) {
      assert k in kept ==> k in e.states;
    }
    forall k | k in e.states && k != id ensures k in s.states && e.states[k] == s.states[k] {
      assert k in kept && e.states[k] == kept[k];
    }
  }

  lemma {:induction false} AddedSize<K, V>(m: map<K, V>, k: K, v: V)
    ensures |m[k := v]| <= |m| + 1
  {
    assert m[k := v].Keys == m.Keys + {k};
  }

  lemma {:induction false} CreateStates(s: System, p: Pid, kept: map<Identity, Sid>, e: Effect)
    requires StatesOk(s) && Local(s, p) && s.procs[p].pc.Scanning? && s.procs[p].pc.scan.id !in s.states
    requires kept == Remaining(s, s.procs[p].pc.scan.oldest) && |kept| < MAX_REQUEST_STATES
    requires e == DoCreate(s, s.procs[p], kept)
    ensures StatesFit(s, p, e)
  {
    RemainingFits(s, p, kept);
    hide ScanOk, Candidates, Remaining, Evictable, PinOk, CallOk, ScannerOk, Busy, StatesFit;
    AddedStates(s, p, kept, s.procs[p].pc.scan.id, e);
  }

  lemma {:induction false} CreatePins(s: System, p: Pid, kept: map<Identity, Sid>, e: Effect)
    requires StatesOk(s) && Local(s, p) && s.procs[p].pc.Scanning? && s.procs[p].pc.scan.id !in s.states
    requires kept == Remaining(s, s.procs[p].pc.scan.oldest) && |kept| < MAX_REQUEST_STATES
    requires e == DoCreate(s, s.procs[p], kept)
    ensures PinOk(e.states, e.me)
  {
    RemainingFits(s, p, kept);
    hide ScanOk, Candidates, Remaining, CallOk, ScannerOk;
  }

  lemma {:induction false} CreateOk(s: System, p: Pid, kept: map<Identity, Sid>)
    requires StatesOk(s) && Local(s, p) && s.procs[p].pc.Scanning? && s.procs[p].pc.scan.id !in s.states
    requires kept == Remaining(s, s.procs[p].pc.scan.oldest) && |kept| < MAX_REQUEST_STATES
    ensures EffectOk(s, p, DoCreate(s, s.procs[p], kept))
    ensures FlightsUntouched(s, p, DoCreate(s, s.procs[p], kept))
  {
    CreateStates(s, p, kept, DoCreate(s, s.procs[p], kept));
    CreatePins(s, p, kept, DoCreate(s, s.procs[p], kept));
    hide ScanOk, Candidates, Remaining, StatesFit, PinOk, Busy, Evictable;
  }

  /** The holder of a gate changes the data behind it and moves on, still holding it. */
  lemma {:induction false} DataOk(s: System, p: Pid, me: Proc, sid: Sid, o: Shared, e: Effect)
    requires StatesOk(s) && Local(s, p) && UserOf(s.procs[p]) == HolderOf(s.procs[p]) == Some(sid)
    requires UserOf(me) == HolderOf(me) == Some(sid) && PinOk(s.states, me) && CallOk(me) && me.lead == s.procs[p].lead
    requires sid < |s.objs| && o == s.objs[sid].(throttle := o.throttle, responses := o.responses, seen := o.seen)
    requires e == Touching(s, me, sid, o).(sends := e.sends)
    ensures EffectOk(s, p, e) && FlightsUntouched(s, p, e)
  {
    hide ScanOk, Candidates, Evictable;
  }

  lemma {:induction false} WithdrawOk(s: System, p: Pid, e: Effect)
    requires StatesOk(s) && Local(s, p) && CanWithdraw(s, s.procs[p]) && e == DoWithdraw(s, s.procs[p])
    requires s.objs[s.procs[p].pc.sid].tokens >= 0
    ensures EffectOk(s, p, e) && FlightsUntouched(s, p, e)
  {
  }

  lemma {:induction false} EnterOk(s: System, p: Pid, e: Effect)
    requires StatesOk(s) && Local(s, p) && CanEnter(s, s.procs[p]) && e == DoEnter(s, s.procs[p])
    ensures EffectOk(s, p, e) && FlightsUntouched(s, p, e)
  {
  }

  lemma {:induction false} GrabOk(s: System, p: Pid, e: Effect)
    requires StatesOk(s) && Local(s, p) && CanGrab(s, s.procs[p]) && e == DoGrab(s, s.procs[p])
    ensures EffectOk(s, p, e) && FlightsUntouched(s, p, e)
  {
  }

  lemma {:induction false} DecideOk(s: System, p: Pid, e: Effect)
    requires StatesOk(s) && Local(s, p) && CanDecide(s, s.procs[p]) && e == DoDecide(s, s.procs[p])
    ensures EffectOk(s, p, e) && FlightsUntouched(s, p, e)
  {
    hide Unexpired, ScanOk, Candidates, StatesOk, StatesFit, CountsFit, FlightsUntouched;
    DataOk(s, p, e.me, s.procs[p].pc.sid, e.touch.value.obj, e);
  }

  lemma {:induction false} HeadersOk(s: System, p: Pid, r: Response, e: Effect)
    requires StatesOk(s) && Local(s, p) && CanHeaders(s, s.procs[p]) && e == DoHeaders(s, s.procs[p], r)
    ensures EffectOk(s, p, e) && FlightsUntouched(s, p, e)
  {
    hide Observed, ScanOk, Candidates, StatesOk, StatesFit, CountsFit, FlightsUntouched;
    DataOk(s, p, e.me, s.procs[p].pc.sid, e.touch.value.obj, e);
  }

  lemma {:induction false} BodyOk(s: System, p: Pid, mentions: bool, body: string, e: Effect)
    requires StatesOk(s) && Local(s, p) && CanBody(s, s.procs[p]) && e == DoBody(s, s.procs[p], mentions, body)
    ensures EffectOk(s, p, e) && FlightsUntouched(s, p, e)
  {
    hide BodyThrottle, BodySeen, BodyResponses, IsThrottled, ScanOk, Candidates, StatesOk, StatesFit, CountsFit, FlightsUntouched;
    DataOk(s, p, e.me, s.procs[p].pc.sid, e.touch.value.obj, e);
  }

  lemma {:induction false} LookOk(s: System, p: Pid, e: Effect)
    requires StatesOk(s) && Local(s, p) && CanLook(s, s.procs[p]) && e == DoLook(s, p, s.procs[p])
    requires e.me.pc.work.outcome != Led
    ensures EffectOk(s, p, e) && FlightsUntouched(s, p, e)
  {
    hide Unexpired, ScanOk, Candidates, StatesOk, StatesFit, CountsFit, FlightsUntouched;
    DataOk(s, p, e.me, s.procs[p].pc.sid, e.touch.value.obj, e);
  }

  lemma {:induction false} LeadOkay(s: System, p: Pid, e: Effect)
    requires StatesOk(s) && Local(s, p) && CanLook(s, s.procs[p]) && e == DoLook(s, p, s.procs[p])
    requires e.me.pc.work.outcome == Led
    ensures EffectOk(s, p, e)
  {
    hide Unexpired, Evictable, ScanOk, Candidates;
  }

  /** The holder of a gate puts the token back and drops its reservation. */
  lemma {:induction false} FreedOk(s: System, p: Pid, me: Proc, sid: Sid, o: Shared, e: Effect)
    requires StatesOk(s) && Local(s, p) && UserOf(s.procs[p]) == HolderOf(s.procs[p]) == Some(sid)
    requires UserOf(me) == HolderOf(me) == None && !Scans(me) && PinOk(s.states, me) && CallOk(me)
    requires me.lead == s.procs[p].lead && sid < |s.objs| && s.mu.None?
    requires o == s.objs[sid].(users := s.objs[sid].users - 1, tokens := s.objs[sid].tokens + 1, lastUsed := o.lastUsed)
    requires e == Touching(s, me, sid, o).(flights := e.flights, answers := e.answers)
    requires |e.flights| == |s.flights|
    requires forall fid | 0 <= fid < |s.flights| :: SameFlight(e.flights[fid], s.flights[fid])
    ensures EffectOk(s, p, e) && FlightsUntouched(s, p, e)
  {
    hide ScanOk, Candidates, Evictable;
  }

  lemma {:induction false} ReleaseOk(s: System, p: Pid, e: Effect)
    requires StatesOk(s) && Local(s, p) && CanRelease(s, s.procs[p]) && e == DoRelease(s, p, s.procs[p])
    ensures EffectOk(s, p, e) && FlightsUntouched(s, p, e)
  {
    hide ScanOk, Candidates, StatesFit, CountsFit;
    var pc := s.procs[p].pc;
    var o := e.touch.value.obj;
    match pc.work.outcome
    case Received(_) => FreedOk(s, p, s.procs[p].(pc := Idle), pc.sid, o, e);
    case _ => FreedOk(s, p, e.me, pc.sid, o, e);
  }

  lemma {:induction false} PublishOk(s: System, p: Pid, e: Effect)
    requires StatesOk(s) && Local(s, p) && CanPublish(s, s.procs[p]) && e == DoPublish(s, p, s.procs[p])
    ensures EffectOk(s, p, e)
  {
  }

  // The two steps that begin and end a flight.

  /** The effect registers a new flight for `key`, led by the acting goroutine. */
  ghost predicate Begins(s: System, p: Pid, e: Effect, id: Identity, sid: Sid, key: CacheKey) {
    && Fits(s, p, e) && sid < |s.objs| && s.objs[sid].id == id
    && e.touch.Some? && e.touch.value.sid == sid && e.touch.value.obj.id == id
    && key !in s.objs[sid].listings
    && e.touch.value.obj.listings == s.objs[sid].listings[key := |s.flights|]
    && e.created.None? && s.procs[p].lead.None? && e.me.lead == Some(Lead(id, sid, key, |s.flights|))
    && |e.flights| == |s.flights| + 1 && e.flights[..|s.flights|] == s.flights
    && e.flights[|s.flights|].sid == sid && e.flights[|s.flights|].key == key
    && e.flights[|s.flights|].leader == p && e.flights[|s.flights|].verdict.Pending?
  }

  lemma {:induction false} OldFlight(s: System, p: Pid, e: Effect, fid: Fid)
    requires Fits(s, p, e) && |e.flights| >= |s.flights| && e.flights[..|s.flights|] == s.flights && fid < |s.flights|
    ensures Commit(s, p, e).flights[fid] == s.flights[fid]
  {
    assert e.flights[..|s.flights|][fid] == e.flights[fid];
  }

  lemma {:induction false} BeginListing(s: System, p: Pid, e: Effect, id: Identity, at: Sid, key: CacheKey, sid: Sid, k: CacheKey)
    requires FlightsOk(s) && Begins(s, p, e, id, at, key)
    requires sid < |s.objs| && k in Commit(s, p, e).objs[sid].listings
    ensures ListingOk(Commit(s, p, e), sid, k)
  {
    if k in s.objs[sid].listings {
      assert ListingOk(s, sid, k);
      OldFlight(s, p, e, s.objs[sid].listings[k]);
    }
  }

  lemma {:induction false} BeginFlight(s: System, p: Pid, e: Effect, id: Identity, at: Sid, key: CacheKey, fid: Fid)
    requires FlightsOk(s) && Begins(s, p, e, id, at, key)
    requires fid <= |s.flights|
    ensures FlightOk(Commit(s, p, e), fid)
  {
    if fid < |s.flights| {
      assert FlightOk(s, fid);
      OldFlight(s, p, e, fid);
    }
  }

  lemma {:induction false} BeginLead(s: System, p: Pid, e: Effect, id: Identity, at: Sid, key: CacheKey, q: Pid)
    requires FlightsOk(s) && Begins(s, p, e, id, at, key)
    requires q < |s.procs|
    ensures LeadOk(Commit(s, p, e), q)
  {
    assert LeadOk(s, q);
    if s.procs[q].lead.Some? && q != p {
      OldFlight(s, p, e, s.procs[q].lead.value.fid);
    }
  }

  lemma {:induction false} BeginFlights(s: System, p: Pid, e: Effect, id: Identity, sid: Sid, key: CacheKey)
    requires FlightsOk(s) && Begins(s, p, e, id, sid, key)
    ensures FlightsOk(Commit(s, p, e))
  {
    assert Fits(s, p, e);
    hide Begins, ListingOk, FlightOk, LeadOk;
    var s' := Commit(s, p, e);
    assert |s'.objs| == |s.objs| && |s'.flights| == |s.flights| + 1 by {
      BeginsSizes(s, p, e, id, sid, key);
    }
    forall sid', k | 0 <= sid' < |s'.objs| && k in s'.objs[sid'].listings ensures ListingOk(s', sid', k) {
      BeginListing(s, p, e, id, sid, key, sid', k);
    }
    forall fid | 0 <= fid < |s'.flights| ensures FlightOk(s', fid) {
      BeginFlight(s, p, e, id, sid, key, fid);
    }
    forall q | 0 <= q < |s'.procs| ensures LeadOk(s', q) {
      BeginLead(s, p, e, id, sid, key, q);
    }
  }

  lemma {:induction false} BeginsSizes(s: System, p: Pid, e: Effect, id: Identity, sid: Sid, key: CacheKey)
    requires Begins(s, p, e, id, sid, key)
    ensures |Commit(s, p, e).objs| == |s.objs| && |Commit(s, p, e).flights| == |s.flights| + 1
  {
  }

  lemma {:induction false} LeadFlights(s: System, p: Pid, e: Effect)
    requires FlightsOk(s) && p < |s.procs| && CanLook(s, s.procs[p]) && e == DoLook(s, p, s.procs[p])
    requires e.me.pc.work.outcome == Led && Fits(s, p, e)
    requires s.procs[p].lead.None? && s.objs[s.procs[p].pc.sid].id == s.procs[p].pc.id
    ensures FlightsOk(Commit(s, p, e))
  {
    hide Unexpired, FlightsOk, Commit;
    var pc := s.procs[p].pc;
    BeginFlights(s, p, e, pc.id, pc.sid, s.procs[p].call.key);
  }

  lemma {:induction false} PublishFlights(s: System, p: Pid, e: Effect)
    requires FlightsOk(s) && p < |s.procs| && CanPublish(s, s.procs[p]) && e == DoPublish(s, p, s.procs[p]) && Fits(s, p, e)
    ensures FlightsOk(Commit(s, p, e))
  {
    var s' := Commit(s, p, e);
    assert LeadOk(s, p) && FlightOk(s, s.procs[p].lead.value.fid);
    forall sid, key | 0 <= sid < |s'.objs| && key in s'.objs[sid].listings ensures ListingOk(s', sid, key) {
      assert ListingOk(s, sid, key);
    }
    forall fid | 0 <= fid < |s'.flights| ensures FlightOk(s', fid) {
      assert FlightOk(s, fid);
    }
    forall q | 0 <= q < |s'.procs| ensures LeadOk(s', q) {
      assert LeadOk(s, q);
    }
  }

  // The invariant as a whole.

  /** A step keeps the invariant, and a state leaves the map only when nothing can need it. */
  ghost predicate SafeStep(s: System, s': System)
    requires StatesOk(s)
  {
    && Safe(s')
    && forall id | id in s.states ::
         (id in s'.states && s'.states[id] == s.states[id]) || Evictable(s.objs[s.states[id]], s.clock)
  }

  lemma {:induction false} CommitSafe(s: System, p: Pid, e: Effect)
    requires Safe(s) && EffectOk(s, p, e)
    requires FlightsOk(Commit(s, p, e))
    requires Scans(e.me) ==> StatesOk(Commit(s, p, e)) && ScannerOk(Commit(s, p, e), e.me)
    ensures SafeStep(s, Commit(s, p, e))
  {
    hide CountsOk, PinsOk, LockOk, FlightsOk, PinOk, CountsFit, LockFits, ScannerOk;
    CommitStates(s, p, e);
    CommitCounts(s, p, e);
    CommitPins(s, p, e);
    CommitLock(s, p, e);
  }

  lemma {:induction false} CommitQuietly(s: System, p: Pid, e: Effect)
    requires Safe(s) && EffectOk(s, p, e) && FlightsUntouched(s, p, e)
    requires Scans(e.me) ==> StatesOk(Commit(s, p, e)) && ScannerOk(Commit(s, p, e), e.me)
    ensures SafeStep(s, Commit(s, p, e))
  {
    CommitFlights(s, p, e);
    CommitSafe(s, p, e);
  }

  lemma {:induction false} MovesOnSafe(s: System, p: Pid, s': System)
    requires Safe(s) && MovesOn(s, p, s')
    ensures SafeStep(s, s')
  {
    IsLocal(s, p);
    var me' :| QuietMove(s, s.procs[p], me') && Commits(s, p, Quiet(s, me'), s');
    QuietMoveFits(s, p, me');
    QuietOk(s, p, me');
    CommitQuietly(s, p, Quiet(s, me'));
  }

  lemma {:induction false} QuietMoveFits(s: System, p: Pid, me': Proc)
    requires StatesOk(s) && Local(s, p) && QuietMove(s, s.procs[p], me')
    ensures UserOf(me') == UserOf(s.procs[p]) && HolderOf(me') == HolderOf(s.procs[p]) && me'.lead == s.procs[p].lead
    ensures !Scans(me') && !Scans(s.procs[p]) && PinOk(s.states, me') && CallOk(me')
  {
  }

  lemma {:induction false} WakesSafe(s: System, p: Pid, s': System)
    requires Safe(s) && Wakes(s, p, s')
    ensures SafeStep(s, s')
  {
    IsLocal(s, p);
    var e := DoWake(s, p, s.procs[p]);
    WakeOk(s, p, e);
    CommitQuietly(s, p, e);
  }

  lemma {:induction false} LocksSafe(s: System, p: Pid, s': System)
    requires Safe(s) && Locks(s, p, s')
    ensures SafeStep(s, s')
  {
    IsLocal(s, p);
    var e := DoLock(s, p, s.procs[p]);
    LockOkay(s, p, e);
    CommitQuietly(s, p, e);
  }

  lemma {:induction false} VisitsSafe(s: System, p: Pid, at: Identity, s': System)
    requires Safe(s) && (Skips(s, p, at, s') || Takes(s, p, at, s'))
    ensures SafeStep(s, s')
  {
    IsLocal(s, p);
    if Skips(s, p, at, s') {
      var e := DoSkip(s, s.procs[p], at);
      SkipOk(s, p, at, e);
      CommitQuietly(s, p, e);
    } else {
      var e := DoTake(s, s.procs[p], at);
      TakeOk(s, p, at, e);
      CommitQuietly(s, p, e);
    }
  }

  lemma {:induction false} JudgesSafe(s: System, p: Pid, s': System)
    requires Safe(s) && Judges(s, p, s')
    ensures SafeStep(s, s')
  {
    IsLocal(s, p);
    var e := DoJudge(s, s.procs[p]);
    JudgeOk(s, p, e);
    CommitStates(s, p, e);
    JudgeScans(s, p, e, s');
    CommitQuietly(s, p, e);
  }

  lemma {:induction false} AdmitsSafe(s: System, p: Pid, s': System)
    requires Safe(s) && Admits(s, p, s')
    ensures SafeStep(s, s')
  {
    IsLocal(s, p);
    var scan := s.procs[p].pc.scan;
    var kept := Remaining(s, scan.oldest);
    if scan.id in s.states {
      assert CountOk(s, s.states[scan.id]);
      ReserveOk(s, p);
    } else if |kept| >= MAX_REQUEST_STATES {
      RefuseOk(s, p, kept);
    } else {
      CreateOk(s, p, kept);
    }
    CommitQuietly(s, p, DoAdmit(s, s.procs[p]));
  }

  lemma {:induction false} TokenSafe(s: System, p: Pid, s': System)
    requires Safe(s) && (Withdraws(s, p, s') || Enters(s, p, s') || Grabs(s, p, s'))
    ensures SafeStep(s, s')
  {
    IsLocal(s, p);
    if Withdraws(s, p, s') {
      assert CountOk(s, s.procs[p].pc.sid);
      var e := DoWithdraw(s, s.procs[p]);
      WithdrawOk(s, p, e);
      CommitQuietly(s, p, e);
    } else if Enters(s, p, s') {
      var e := DoEnter(s, s.procs[p]);
      EnterOk(s, p, e);
      CommitQuietly(s, p, e);
    } else {
      var e := DoGrab(s, s.procs[p]);
      GrabOk(s, p, e);
      CommitQuietly(s, p, e);
    }
  }

  lemma {:induction false} ReleasesSafe(s: System, p: Pid, s': System)
    requires Safe(s) && Releases(s, p, s')
    ensures SafeStep(s, s')
  {
    IsLocal(s, p);
    var e := DoRelease(s, p, s.procs[p]);
    ReleaseOk(s, p, e);
    CommitQuietly(s, p, e);
  }

  lemma {:induction false} DecidesSafe(s: System, p: Pid, s': System)
    requires Safe(s) && Decides(s, p, s')
    ensures SafeStep(s, s')
  {
    IsLocal(s, p);
    var e := DoDecide(s, s.procs[p]);
    DecideOk(s, p, e);
    CommitQuietly(s, p, e);
  }

  lemma {:induction false} HearsSafe(s: System, p: Pid, r: Response, s': System)
    requires Safe(s) && Hears(s, p, r, s')
    ensures SafeStep(s, s')
  {
    IsLocal(s, p);
    var e := DoHeaders(s, s.procs[p], r);
    HeadersOk(s, p, r, e);
    CommitQuietly(s, p, e);
  }

  lemma {:induction false} ReadsSafe(s: System, p: Pid, mentions: bool, body: string, s': System)
    requires Safe(s) && Reads(s, p, mentions, body, s')
    ensures SafeStep(s, s')
  {
    IsLocal(s, p);
    var e := DoBody(s, s.procs[p], mentions, body);
    BodyOk(s, p, mentions, body, e);
    CommitQuietly(s, p, e);
  }

  lemma {:induction false} LooksSafe(s: System, p: Pid, s': System)
    requires Safe(s) && Looks(s, p, s')
    ensures SafeStep(s, s')
  {
    IsLocal(s, p);
    var e := DoLook(s, p, s.procs[p]);
    if e.me.pc.work.outcome == Led {
      LeadOkay(s, p, e);
      LeadFlights(s, p, e);
      CommitSafe(s, p, e);
    } else {
      LookOk(s, p, e);
      CommitQuietly(s, p, e);
    }
  }

  lemma {:induction false} PublishesSafe(s: System, p: Pid, s': System)
    requires Safe(s) && Publishes(s, p, s')
    ensures SafeStep(s, s')
  {
    IsLocal(s, p);
    var e := DoPublish(s, p, s.procs[p]);
    PublishOk(s, p, e);
    PublishFlights(s, p, e);
    CommitSafe(s, p, e);
  }

  lemma {:induction false} ActSafe(s: System, p: Pid, s': System)
    requires Safe(s) && Acts(s, p, s')
    ensures SafeStep(s, s')
  {
    if MovesOn(s, p, s') {
      MovesOnSafe(s, p, s');
    } else if Locks(s, p, s') {
      LocksSafe(s, p, s');
    } else if at :| Skips(s, p, at, s') {
      VisitsSafe(s, p, at, s');
    } else if at :| Takes(s, p, at, s') {
      VisitsSafe(s, p, at, s');
    } else if Judges(s, p, s') {
      JudgesSafe(s, p, s');
    } else if Admits(s, p, s') {
      AdmitsSafe(s, p, s');
    } else if Withdraws(s, p, s') || Enters(s, p, s') || Grabs(s, p, s') {
      TokenSafe(s, p, s');
    } else if Releases(s, p, s') {
      ReleasesSafe(s, p, s');
    } else if Decides(s, p, s') {
      DecidesSafe(s, p, s');
    } else if r :| Hears(s, p, r, s') {
      HearsSafe(s, p, r, s');
    } else if mentions, body :| Reads(s, p, mentions, body, s') {
      ReadsSafe(s, p, mentions, body, s');
    } else if Looks(s, p, s') {
      LooksSafe(s, p, s');
    } else if Wakes(s, p, s') {
      WakesSafe(s, p, s');
    } else {
      PublishesSafe(s, p, s');
    }
  }

  lemma {:induction false} StepSafe(s: System, s': System)
    requires Safe(s) && Next(s, s')
    ensures SafeStep(s, s')
  {
    if Ticks(s, s') {
      TickSafe(s, s');
    } else if Spawns(s, s') {
      SpawnSafe(s, s');
    } else {
      var p :| Acts(s, p, s');
      ActSafe(s, p, s');
    }
  }

  lemma {:induction false} TickSafe(s: System, s': System)
    requires Safe(s) && Ticks(s, s')
    ensures SafeStep(s, s')
  {
    forall sid | 0 <= sid < |s'.objs| ensures CountOk(s', sid) {
      assert CountOk(s, sid);
    }
    forall p | 0 <= p < |s'.procs| ensures ScannerOk(s', s'.procs[p]) {
      assert ScannerOk(s, s.procs[p]);
    }
    forall sid, key | 0 <= sid < |s'.objs| && key in s'.objs[sid].listings ensures ListingOk(s', sid, key) {
      assert ListingOk(s, sid, key);
    }
    forall fid | 0 <= fid < |s'.flights| ensures FlightOk(s', fid) {
      assert FlightOk(s, fid);
    }
    forall p | 0 <= p < |s'.procs| ensures LeadOk(s', p) {
      assert LeadOk(s, p);
    }
  }

  lemma {:induction false} SpawnSafe(s: System, s': System)
    requires Safe(s) && Spawns(s, s')
    ensures SafeStep(s, s')
  {
    forall sid | 0 <= sid < |s'.objs| ensures CountOk(s', sid) {
      assert CountOk(s, sid);
      assert Users(s'.procs, sid) == Users(s.procs, sid);
      assert Holders(s'.procs, sid) == Holders(s.procs, sid);
    }
    forall p | 0 <= p < |s'.procs| ensures ScannerOk(s', s'.procs[p]) {
      assert p < |s.procs| ==> ScannerOk(s, s.procs[p]);
    }
    forall sid, key | 0 <= sid < |s'.objs| && key in s'.objs[sid].listings ensures ListingOk(s', sid, key) {
      assert ListingOk(s, sid, key);
    }
    forall fid | 0 <= fid < |s'.flights| ensures FlightOk(s', fid) {
      assert FlightOk(s, fid);
    }
    forall p | 0 <= p < |s'.procs| ensures LeadOk(s', p) {
      assert p < |s.procs| ==> LeadOk(s, p);
    }
  }

  lemma {:induction false} RunSafe(trace: seq<System>, i: nat)
    requires IsRun(trace) && i < |trace|
    ensures Safe(trace[i])
  {
    if i > 0 {
      RunSafe(trace, i - 1);
      StepSafe(trace[i - 1], trace[i]);
    }
  }

  // What the invariant means.

  /** At any time there is at most one HTTP request per identity, even across evictions. */
  lemma {:induction false} OneRequestPerIdentity(trace: seq<System>, i: nat, p: Pid, q: Pid)
    requires IsRun(trace) && i < |trace|
    requires p < |trace[i].procs| && InFlight(trace[i].procs[p])
    requires q < |trace[i].procs| && InFlight(trace[i].procs[q])
    requires trace[i].procs[p].pc.id == trace[i].procs[q].pc.id
    ensures p == q
  {
    RunSafe(trace, i);
    var s := trace[i];
    assert PinOk(s.states, s.procs[p]) && PinOk(s.states, s.procs[q]);
    var sid := s.procs[p].pc.sid;
    assert CountOk(s, sid);
    if p != q {
      assert {p, q} <= Holders(s.procs, sid);
      SubsetSize({p, q}, Holders(s.procs, sid));
    }
  }

  /**
   * A state leaves the map only while nobody uses it, no flight pins it and its deadline has
   * passed; every goroutine that still works with the identity works with the state in the map.
   */
  lemma {:induction false} EvictionIsSafe(trace: seq<System>, i: nat, id: Identity)
    requires IsRun(trace) && i + 1 < |trace|
    requires id in trace[i].states && (id in trace[i + 1].states ==> trace[i + 1].states[id] != trace[i].states[id])
    ensures trace[i].states[id] < |trace[i].objs|
    ensures Evictable(trace[i].objs[trace[i].states[id]], trace[i].clock)
    ensures forall p | 0 <= p < |trace[i].procs| ::
      UserOf(trace[i].procs[p]) != Some(trace[i].states[id])
      && (trace[i].procs[p].lead.Some? ==> trace[i].procs[p].lead.value.sid != trace[i].states[id])
  {
    RunSafe(trace, i);
    var s, s' := trace[i], trace[i + 1];
    StepSafe(s, s');
    forall q | 0 <= q < |s.procs| && UserOf(s.procs[q]).Some? ensures UserOf(s.procs[q]) != Some(s.states[id]) {
      UserIsBusy(s, q);
    }
    forall q | 0 <= q < |s.procs| && s.procs[q].lead.Some? ensures s.procs[q].lead.value.sid != s.states[id] {
      LeaderIsBusy(s, q);
    }
  }

  function LastUsed(s: System, id: Identity): Time {
    if id in s.states && s.states[id] < |s.objs| then s.objs[s.states[id]].lastUsed else ZERO_TIME
  }

  /**
   * acquire gives up only at capacity, when its scan found every state busy or throttled;
   * it then removes nothing. Otherwise it reserves the state of its identity, and at
   * capacity makes room by evicting the least recently used state that it found idle.
   */
  lemma {:induction false} AdmissionOutcome(trace: seq<System>, i: nat, p: Pid)
    requires IsRun(trace) && i + 1 < |trace| && Admits(trace[i], p, trace[i + 1])
    ensures var s, s', scan := trace[i], trace[i + 1], trace[i].procs[p].pc.scan;
      var refused := s'.procs[p].pc.Idle?;
      && (refused <==> scan.id !in s.states && |s.states| == MAX_REQUEST_STATES && scan.oldest.None?)
      && (refused ==> s'.states == s.states && s.states.Keys <= scan.spared)
      && (!refused ==> scan.id in s'.states && s'.procs[p].pc == With(scan.id, s'.states[scan.id], Waiting))
      && (forall id | id in s.states && id !in s'.states ::
           scan.oldest == Some(id) && forall k | k in s.states && k !in scan.spared :: LastUsed(s, id) <= LastUsed(s, k))
  {
    RunSafe(trace, i);
    var s := trace[i];
    IsLocal(s, p);
    var scan := s.procs[p].pc.scan;
    RemainingFits(s, p, Remaining(s, scan.oldest));
    assert Candidates(s.states, scan, {}) == s.states.Keys - scan.spared;
  }

  /** A state is spared only if, when the scan reached it, it was in use, pinned or throttled. */
  lemma {:induction false} SparedWasBusy(trace: seq<System>, i: nat, p: Pid, at: Identity)
    requires IsRun(trace) && i + 1 < |trace|
    requires Skips(trace[i], p, at, trace[i + 1]) || (Judges(trace[i], p, trace[i + 1]) && trace[i].procs[p].pc.at == at)
    ensures at in trace[i].states && trace[i].states[at] < |trace[i].objs|
    ensures at in trace[i + 1].procs[p].pc.scan.spared ==>
      !Evictable(trace[i].objs[trace[i].states[at]], trace[i].procs[p].pc.scan.now)
  {
    RunSafe(trace, i);
    var s, s' := trace[i], trace[i + 1];
    IsLocal(s, p);
    if Skips(s, p, at, s') {
      var sid := s.states[at];
      assert CountOk(s, sid);
      if Holders(s.procs, sid) == {} {
        assert false;
      }
      var q :| q in Holders(s.procs, sid);
      IsLocal(s, q);
      assert Scans(s.procs[p]) && s.mu == Some(p);
    }
  }
}
