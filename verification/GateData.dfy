/**
 * What the gate protects, over every run: throttle deadlines, cached snapshots, refresh
 * flights and the HTTP requests they make.
 */
module GateData {
  import opened Prelude
  import opened RequestState
  import opened RequestGate
  import opened GateSafety

  // The invariant.

  /** While a body is being read, its headers are the last thing the throttle observed. */
  ghost predicate ReadingOk(objs: seq<Shared>, pr: Proc) {
    pr.pc.With? && pr.pc.work.Reading? ==>
      && pr.pc.sid < |objs| && objs[pr.pc.sid].seen != []
      && objs[pr.pc.sid].seen[|objs[pr.pc.sid].seen| - 1] == Seen(pr.pc.work.response, false, pr.pc.work.observedAt)
  }

  /** The cached value came, whole, from a refresh of the same listing behind the same state. */
  ghost predicate FromFlight(flights: seq<Flight>, fid: Fid, sid: Sid, key: CacheKey, value: CachedResponse) {
    && fid < |flights| && flights[fid].sid == sid && flights[fid].key == key
    && flights[fid].verdict == Published(value.body, value.expires - PACKAGE_CACHE_TTL)
  }

  ghost predicate SnapshotOk(flights: seq<Flight>, sid: Sid, key: CacheKey, value: CachedResponse) {
    key.ListingKey? ==> exists fid :: FromFlight(flights, fid, sid, key, value)
  }

  ghost predicate ObjectOk(s: System, sid: Sid)
    requires sid < |s.objs|
  {
    && s.objs[sid].throttle == Replay(s.objs[sid].seen)
    && forall key | key in s.objs[sid].responses :: SnapshotOk(s.flights, sid, key, s.objs[sid].responses[key])
  }

  /** The HTTP request that a goroutine made, or is making, for its current call. */
  function SendOf(pr: Proc): Option<nat> {
    if !pr.pc.With? then None
    else
      match pr.pc.work
      case Sending(n) => Some(n)
      case Reading(n, _, _) => Some(n)
      case Releasing(Received(n)) => Some(n)
      case _ => None
  }

  ghost predicate SenderOk(flights: seq<Flight>, sends: seq<Sent>, pr: Proc) {
    SendOf(pr).Some? ==>
      var n := SendOf(pr).value;
      && n < |sends|
      && sends[n].flight == (if pr.lead.Some? then Some(pr.lead.value.fid) else None)
      && (pr.lead.Some? ==> pr.lead.value.fid < |flights| && flights[pr.lead.value.fid].firstSend <= n)
  }

  /** Every page of a refresh answers a request that this refresh made after it began. */
  ghost predicate PagesOk(f: Flight, fid: Fid, sends: seq<Sent>) {
    && f.firstSend <= |sends|
    && forall i | 0 <= i < |f.pages| :: f.firstSend <= f.pages[i] < |sends| && sends[f.pages[i]].flight == Some(fid)
  }

  /** The refresh is one of this listing of this identity. */
  ghost predicate Serves(objs: seq<Shared>, flights: seq<Flight>, fid: Fid, id: Identity, key: CacheKey) {
    && fid < |flights| && flights[fid].key == key
    && flights[fid].sid < |objs| && objs[flights[fid].sid].id == id
  }

  /** A caller that joined a refresh joined one of the listing and the identity that it asked for. */
  ghost predicate JoinOk(objs: seq<Shared>, flights: seq<Flight>, pr: Proc) {
    && (pr.pc.Joining? ==> Serves(objs, flights, pr.pc.fid, pr.pc.id, pr.call.key))
    && (pr.pc.With? && pr.pc.work.Releasing? && pr.pc.work.outcome.Joined? ==>
         pr.pc.work.outcome.fid < |flights| && flights[pr.pc.work.outcome.fid].key == pr.call.key
         && flights[pr.pc.work.outcome.fid].sid == pr.pc.sid)
  }

  /** The body was published by the refresh less than two minutes before it was looked up. */
  ghost predicate RecentBody(flights: seq<Flight>, fid: Fid, body: string, lookedAt: Time) {
    && fid < |flights| && flights[fid].verdict.Published?
    && flights[fid].verdict.body == body && lookedAt < flights[fid].verdict.at + PACKAGE_CACHE_TTL
  }

  /** A call that is about to return a snapshot has it from a refresh of its own listing. */
  ghost predicate SnapOk(flights: seq<Flight>, pr: Proc) {
    pr.pc.With? && pr.pc.work.Releasing? && pr.pc.work.outcome.Snapshot? ==>
      exists fid: Fid ::
        && RecentBody(flights, fid, pr.pc.work.outcome.body, pr.pc.work.outcome.lookedAt)
        && flights[fid].sid == pr.pc.sid && flights[fid].key == pr.call.key
  }

  /** What a listing call may have returned. */
  ghost predicate AnswerOk(objs: seq<Shared>, flights: seq<Flight>, a: Answer) {
    match a.how
    case Hit(lookedAt) =>
      a.reply.Body? && exists fid: Fid :: Serves(objs, flights, fid, a.id, a.key) && RecentBody(flights, fid, a.reply.body, lookedAt)
    case Joiner(fid) => Serves(objs, flights, fid, a.id, a.key) && !flights[fid].verdict.Pending? && a.reply == ReplyOf(flights[fid].verdict)
    case Leader(fid) => Serves(objs, flights, fid, a.id, a.key) && !flights[fid].verdict.Pending? && a.reply == ReplyOf(flights[fid].verdict)
  }

  /** Only a refresh without a failed page request was published. */
  ghost predicate WholeFlight(f: Flight) {
    f.verdict.Published? ==> !f.broken
  }

  /** A state that is no longer the current one of its identity has no deadline ahead. */
  ghost predicate RetiredOk(s: System, sid: Sid)
    requires sid < |s.objs|
  {
    (s.objs[sid].id in s.states && s.states[s.objs[sid].id] == sid) || s.objs[sid].throttle.until <= s.clock
  }

  /** A refresh that is about to publish a value had no failed page request. */
  predicate WholeOk(pr: Proc) {
    (pr.pc.Publishing? || pr.pc.Filling?) && pr.pc.result.Some? ==> !pr.broken
  }

  ghost predicate ProcOk(s: System, pr: Proc) {
    && ReadingOk(s.objs, pr) && SenderOk(s.flights, s.sends, pr) && JoinOk(s.objs, s.flights, pr)
    && SnapOk(s.flights, pr) && WholeOk(pr)
  }

  ghost predicate Sound(s: System) {
    && (forall p | 0 <= p < |s.procs| :: ProcOk(s, s.procs[p]))
    && (forall sid | 0 <= sid < |s.objs| :: ObjectOk(s, sid))
    && (forall fid | 0 <= fid < |s.flights| :: PagesOk(s.flights[fid], fid, s.sends) && WholeFlight(s.flights[fid]))
    && (forall n | 0 <= n < |s.sends| :: s.sends[n].deadline <= s.sends[n].at)
    && (forall n | 0 <= n < |s.answers| :: AnswerOk(s.objs, s.flights, s.answers[n]))
    && s.clock >= 0 && (forall sid | 0 <= sid < |s.objs| :: RetiredOk(s, sid))
  }

  // What an effect must satisfy.

  /** A flight keeps its identity, and its verdict once it has one. */
  predicate Continues(f: Flight, f': Flight) {
    && f'.sid == f.sid && f'.key == f.key && f'.leader == f.leader && f'.firstSend == f.firstSend
    && (!f.verdict.Pending? ==> f' == f)
  }

  ghost predicate HistoryFits(s: System, e: Effect) {
    && |s.flights| <= |e.flights| && s.sends <= e.sends && s.answers <= e.answers
    && (forall fid | 0 <= fid < |s.flights| :: Continues(s.flights[fid], e.flights[fid]))
    && (forall fid | 0 <= fid < |e.flights| :: PagesOk(e.flights[fid], fid, e.sends) && WholeFlight(e.flights[fid]))
    && SendsFit(s, e.sends)
    && (forall n | |s.answers| <= n < |e.answers| :: AnswerOk(s.objs, e.flights, e.answers[n]))
  }

  /** Requests are sent now, for the current state of their identity, and not before its deadline. */
  ghost predicate SendsFit(s: System, sends: seq<Sent>) {
    forall n | |s.sends| <= n < |sends| ::
      && sends[n].at == s.clock && sends[n].deadline <= sends[n].at
      && sends[n].id in s.states && s.states[sends[n].id] == sends[n].sid
      && sends[n].sid < |s.objs| && s.objs[sends[n].sid].throttle.until == sends[n].deadline
  }

  ghost predicate ObjectFits(s: System, p: Pid, e: Effect)
    requires Fits(s, p, e)
  {
    && (e.touch.Some? ==>
         var sid, o, o' := e.touch.value.sid, s.objs[e.touch.value.sid], e.touch.value.obj;
         && o'.id == o.id
         && o'.throttle == Replay(o'.seen)
         && o.throttle.until <= o'.throttle.until
         && (o'.seen == o.seen || (HolderOf(s.procs[p]) == Some(sid) && UserOf(s.procs[p]) == Some(sid)))
         && forall key | key in o'.responses ::
              (key in o.responses && o'.responses[key] == o.responses[key]) || SnapshotOk(e.flights, sid, key, o'.responses[key]))
    && (e.created.Some? ==> e.created.value.throttle == UNTHROTTLED && e.created.value.seen == [] && e.created.value.responses == map[])
  }

  ghost predicate MeFits(s: System, p: Pid, e: Effect)
    requires Fits(s, p, e)
  {
    && ReadingOk(Commit(s, p, e).objs, e.me) && SenderOk(e.flights, e.sends, e.me) && JoinOk(s.objs, e.flights, e.me)
    && SnapOk(e.flights, e.me) && WholeOk(e.me)
  }

  /** The token excludes a second holder. */
  lemma {:induction false} Exclusive(s: System, p: Pid, q: Pid, sid: Sid)
    requires CountsOk(s) && sid < |s.objs| && p < |s.procs| && q < |s.procs|
    requires HolderOf(s.procs[p]) == Some(sid) && HolderOf(s.procs[q]) == Some(sid)
    ensures p == q
  {
    assert CountOk(s, sid);
    if p != q {
      assert {p, q} <= Holders(s.procs, sid);
      SubsetSize({p, q}, Holders(s.procs, sid));
    }
  }

  /** States keep their identity, and flights continue. */
  ghost predicate Kept(objs: seq<Shared>, objs': seq<Shared>, flights: seq<Flight>, flights': seq<Flight>) {
    && |objs| <= |objs'| && (forall sid | 0 <= sid < |objs| :: objs'[sid].id == objs[sid].id)
    && |flights| <= |flights'| && (forall fid | 0 <= fid < |flights| :: Continues(flights[fid], flights'[fid]))
  }

  lemma {:induction false} CommitKept(s: System, p: Pid, e: Effect)
    requires Fits(s, p, e) && HistoryFits(s, e) && ObjectFits(s, p, e)
    ensures Kept(s.objs, Commit(s, p, e).objs, s.flights, e.flights)
    ensures Kept(s.objs, Commit(s, p, e).objs, e.flights, e.flights)
  {
    hide PagesOk, AnswerOk, WholeFlight, SendsFit, SnapshotOk, Replay;
  }

  lemma {:induction false} JoinStays(objs: seq<Shared>, objs': seq<Shared>, flights: seq<Flight>, flights': seq<Flight>, pr: Proc)
    requires Kept(objs, objs', flights, flights') && JoinOk(objs, flights, pr) && SnapOk(flights, pr)
    ensures JoinOk(objs', flights', pr) && SnapOk(flights', pr)
  {
    if pr.pc.With? && pr.pc.work.Releasing? && pr.pc.work.outcome.Snapshot? {
      var fid: Fid :|
        && RecentBody(flights, fid, pr.pc.work.outcome.body, pr.pc.work.outcome.lookedAt)
        && flights[fid].sid == pr.pc.sid && flights[fid].key == pr.call.key;
      assert Continues(flights[fid], flights'[fid]);
      assert RecentBody(flights', fid, pr.pc.work.outcome.body, pr.pc.work.outcome.lookedAt);
    }
    if pr.pc.Joining? {
      assert Continues(flights[pr.pc.fid], flights'[pr.pc.fid]);
    }
  }

  lemma {:induction false} AnswerStays(objs: seq<Shared>, objs': seq<Shared>, flights: seq<Flight>, flights': seq<Flight>, a: Answer)
    requires Kept(objs, objs', flights, flights') && AnswerOk(objs, flights, a)
    ensures AnswerOk(objs', flights', a)
  {
    match a.how
    case Hit(lookedAt) =>
      var fid: Fid :| Serves(objs, flights, fid, a.id, a.key) && RecentBody(flights, fid, a.reply.body, lookedAt);
      assert Continues(flights[fid], flights'[fid]);
      assert Serves(objs', flights', fid, a.id, a.key) && RecentBody(flights', fid, a.reply.body, lookedAt);
    case Joiner(fid) => assert Continues(flights[fid], flights'[fid]);
    case Leader(fid) => assert Continues(flights[fid], flights'[fid]);
  }

  lemma {:induction false} CommitProcs(s: System, p: Pid, e: Effect)
    requires Safe(s) && Sound(s) && Fits(s, p, e) && HistoryFits(s, e) && ObjectFits(s, p, e) && MeFits(s, p, e)
    ensures forall q | 0 <= q < |s.procs| :: ProcOk(Commit(s, p, e), Commit(s, p, e).procs[q])
  {
    hide Safe, PagesOk, AnswerOk, WholeFlight, SendsFit, SnapshotOk, Replay, RetiredOk;
    var s' := Commit(s, p, e);
    CommitKept(s, p, e);
    forall q | 0 <= q < |s.procs| ensures ProcOk(s', s'.procs[q]) {
      if q != p {
        assert ProcOk(s, s.procs[q]);
        JoinStays(s.objs, s'.objs, s.flights, s'.flights, s.procs[q]);
        OtherReading(s, p, e, q);
      } else {
        JoinStays(s.objs, s'.objs, e.flights, s'.flights, e.me);
      }
    }
  }

  /** While another goroutine reads a body, nobody else touches what its throttle has observed. */
  lemma {:induction false} OtherReading(s: System, p: Pid, e: Effect, q: Pid)
    requires Safe(s) && Fits(s, p, e) && ObjectFits(s, p, e) && q < |s.procs| && q != p && ReadingOk(s.objs, s.procs[q])
    ensures ReadingOk(Commit(s, p, e).objs, s.procs[q])
  {
    hide SnapshotOk, Replay;
    if s.procs[q].pc.With? && s.procs[q].pc.work.Reading? {
      if e.touch.Some? && e.touch.value.sid == s.procs[q].pc.sid && HolderOf(s.procs[p]) == Some(e.touch.value.sid) {
        Exclusive(s, p, q, e.touch.value.sid);
      }
    }
  }

  lemma {:induction false} CommitAnswers(s: System, p: Pid, e: Effect)
    requires Sound(s) && Fits(s, p, e) && HistoryFits(s, e) && ObjectFits(s, p, e)
    ensures forall n | 0 <= n < |e.answers| :: AnswerOk(Commit(s, p, e).objs, e.flights, e.answers[n])
  {
    hide PagesOk, AnswerOk, WholeFlight, SendsFit, ProcOk, ObjectOk, RetiredOk, ObjectFits;
    var s' := Commit(s, p, e);
    CommitKept(s, p, e);
    forall n | 0 <= n < |e.answers| ensures AnswerOk(s'.objs, e.flights, e.answers[n]) {
      if n < |s.answers| {
        AnswerStays(s.objs, s'.objs, s.flights, e.flights, s.answers[n]);
        assert e.answers[n] == s.answers[n];
      } else {
        AnswerStays(s.objs, s'.objs, e.flights, e.flights, e.answers[n]);
      }
    }
  }

  lemma {:induction false} CommitObjects(s: System, p: Pid, e: Effect)
    requires Sound(s) && Fits(s, p, e) && HistoryFits(s, e) && ObjectFits(s, p, e)
    ensures forall sid | 0 <= sid < |Commit(s, p, e).objs| :: ObjectOk(Commit(s, p, e), sid)
  {
    hide PagesOk, AnswerOk, WholeFlight, SendsFit, ProcOk, RetiredOk;
    var s' := Commit(s, p, e);
    forall sid | 0 <= sid < |s'.objs| ensures ObjectOk(s', sid) {
      if sid < |s.objs| {
        assert ObjectOk(s, sid);
      }
      forall key | key in s'.objs[sid].responses ensures SnapshotOk(s'.flights, sid, key, s'.objs[sid].responses[key]) {
        if sid < |s.objs| && key in s.objs[sid].responses && s'.objs[sid].responses[key] == s.objs[sid].responses[key] && key.ListingKey? {
          var value := s.objs[sid].responses[key];
          assert SnapshotOk(s.flights, sid, key, value);
          var fid: Fid :| FromFlight(s.flights, fid, sid, key, value);
          assert Continues(s.flights[fid], s'.flights[fid]);
          assert FromFlight(s'.flights, fid, sid, key, value);
        }
      }
    }
  }

  /** A state is retired only when its deadline has passed, and from then on its deadline stays. */
  lemma {:induction false} CommitRetired(s: System, p: Pid, e: Effect)
    requires Safe(s) && Sound(s) && Fits(s, p, e) && ObjectFits(s, p, e) && SafeStep(s, Commit(s, p, e))
    ensures forall sid | 0 <= sid < |Commit(s, p, e).objs| :: RetiredOk(Commit(s, p, e), sid)
  {
    hide Safe, ProcOk, ObjectOk, PagesOk, AnswerOk, WholeFlight, SnapshotOk, Replay;
    var s' := Commit(s, p, e);
    forall sid | 0 <= sid < |s'.objs| ensures RetiredOk(s', sid) {
      if sid < |s.objs| {
        assert RetiredOk(s, sid);
        if e.touch.Some? && e.touch.value.sid == sid && UserOf(s.procs[p]) == Some(sid) {
          UserIsCurrent(s, p, sid);
        } else {
          SameThrottle(s, p, e, sid);
        }
      }
    }
  }

  lemma {:induction false} UserIsCurrent(s: System, p: Pid, sid: Sid)
    requires Safe(s) && p < |s.procs| && UserOf(s.procs[p]) == Some(sid)
    ensures sid < |s.objs| && s.objs[sid].id in s.states && s.states[s.objs[sid].id] == sid && s.objs[sid].users > 0
  {
    UserIsBusy(s, p);
    assert PinOk(s.states, s.procs[p]);
  }

  lemma {:induction false} SameThrottle(s: System, p: Pid, e: Effect, sid: Sid)
    requires Sound(s) && Fits(s, p, e) && ObjectFits(s, p, e) && sid < |s.objs|
    requires !(e.touch.Some? && e.touch.value.sid == sid && UserOf(s.procs[p]) == Some(sid))
    ensures Commit(s, p, e).objs[sid].throttle == s.objs[sid].throttle && Commit(s, p, e).objs[sid].id == s.objs[sid].id
  {
    hide SnapshotOk, Replay;
    assert ObjectOk(s, sid);
  }

  lemma {:induction false} CommitSound(s: System, p: Pid, e: Effect)
    requires Safe(s) && Sound(s) && Fits(s, p, e) && HistoryFits(s, e) && ObjectFits(s, p, e) && MeFits(s, p, e)
    requires SafeStep(s, Commit(s, p, e))
    ensures SoundStep(s, Commit(s, p, e))
  {
    hide Safe, SafeStep, ProcOk, ObjectOk, PagesOk, AnswerOk, WholeFlight, SnapshotOk, RetiredOk, Replay, MeFits;
    CommitProcs(s, p, e);
    CommitAnswers(s, p, e);
    CommitObjects(s, p, e);
    CommitRetired(s, p, e);
  }

  /** Deadlines never move back, logs only grow, and a finished flight never changes. */
  ghost predicate Forward(s: System, s': System) {
    && s.clock <= s'.clock && |s.objs| <= |s'.objs| && |s.flights| <= |s'.flights| && s.sends <= s'.sends
    && (forall sid | 0 <= sid < |s.objs| :: s'.objs[sid].id == s.objs[sid].id)
    && (forall sid | 0 <= sid < |s.objs| :: s.objs[sid].throttle.until <= s'.objs[sid].throttle.until)
    && (forall fid | 0 <= fid < |s.flights| :: Continues(s.flights[fid], s'.flights[fid]))
  }

  ghost predicate SoundStep(s: System, s': System) {
    Sound(s') && Forward(s, s') && SendsFit(s, s'.sends)
  }

  // Each step meets these conditions.

  /** A step that leaves the protected data alone. */
  ghost predicate Plain(s: System, e: Effect) {
    && (e.touch.Some? ==>
         && e.touch.value.sid < |s.objs|
         && var o, o' := s.objs[e.touch.value.sid], e.touch.value.obj;
         o'.id == o.id && o'.throttle == o.throttle && o'.seen == o.seen && o'.responses == o.responses)
    && (e.created.Some? ==> e.created.value.throttle == UNTHROTTLED && e.created.value.seen == [] && e.created.value.responses == map[])
    && SendOf(e.me).None? && JoinOk(s.objs, e.flights, e.me) && SnapOk(e.flights, e.me) && WholeOk(e.me)
  }

  lemma {:induction false} PlainHistorySound(s: System, p: Pid, e: Effect)
    requires Safe(s) && Sound(s) && Fits(s, p, e) && Plain(s, e) && HistoryFits(s, e) && SafeStep(s, Commit(s, p, e))
    ensures SoundStep(s, Commit(s, p, e))
  {
    if e.touch.Some? {
      assert ObjectOk(s, e.touch.value.sid);
    }
    CommitSound(s, p, e);
  }

  lemma {:induction false} PlainSound(s: System, p: Pid, e: Effect)
    requires Safe(s) && Sound(s) && Fits(s, p, e) && Plain(s, e) && SafeStep(s, Commit(s, p, e))
    requires e.flights == s.flights && e.sends == s.sends && e.answers == s.answers
    ensures SoundStep(s, Commit(s, p, e))
  {
    PlainHistorySound(s, p, e);
  }

  lemma {:induction false} MovesOnSound(s: System, p: Pid, s': System)
    requires Safe(s) && Sound(s) && SafeStep(s, s') && MovesOn(s, p, s')
    ensures SoundStep(s, s')
  {
    var me' :| QuietMove(s, s.procs[p], me') && Commits(s, p, Quiet(s, me'), s');
    PlainSound(s, p, Quiet(s, me'));
  }

  lemma {:induction false} ScanSound(s: System, p: Pid, at: Identity, s': System)
    requires Safe(s) && Sound(s) && SafeStep(s, s')
    requires Locks(s, p, s') || Skips(s, p, at, s') || Takes(s, p, at, s') || Judges(s, p, s')
    ensures SoundStep(s, s')
  {
    hide Safe, Sound, SafeStep, SoundStep, Evictable, Serves;
    if Locks(s, p, s') {
      PlainSound(s, p, DoLock(s, p, s.procs[p]));
    } else if Skips(s, p, at, s') {
      PlainSound(s, p, DoSkip(s, s.procs[p], at));
    } else if Takes(s, p, at, s') {
      PlainSound(s, p, DoTake(s, s.procs[p], at));
    } else {
      PlainSound(s, p, DoJudge(s, s.procs[p]));
    }
  }

  lemma {:induction false} AdmitsSound(s: System, p: Pid, s': System)
    requires Safe(s) && Sound(s) && SafeStep(s, s') && Admits(s, p, s')
    ensures SoundStep(s, s')
  {
    hide Safe, Sound, SafeStep, SoundStep, Remaining;
    PlainSound(s, p, DoAdmit(s, s.procs[p]));
  }

  lemma {:induction false} TokenSound(s: System, p: Pid, s': System)
    requires Safe(s) && Sound(s) && SafeStep(s, s') && (Withdraws(s, p, s') || Enters(s, p, s') || Grabs(s, p, s'))
    ensures SoundStep(s, s')
  {
    if Withdraws(s, p, s') {
      PlainSound(s, p, DoWithdraw(s, s.procs[p]));
    } else if Enters(s, p, s') {
      PlainSound(s, p, DoEnter(s, s.procs[p]));
    } else {
      assert ProcOk(s, s.procs[p]);
      PlainSound(s, p, DoGrab(s, s.procs[p]));
    }
  }

  ghost predicate AllPagesOk(s: System) {
    forall fid | 0 <= fid < |s.flights| :: PagesOk(s.flights[fid], fid, s.sends) && WholeFlight(s.flights[fid])
  }

  lemma {:induction false} DecideHistory(s: System, me: Proc, e: Effect)
    requires CanDecide(s, me) && e == DoDecide(s, me) && AllPagesOk(s)
    requires me.pc.id in s.states && s.states[me.pc.id] == me.pc.sid
    ensures HistoryFits(s, e)
  {
    hide Unexpired, AnswerOk;
    forall fid | 0 <= fid < |e.flights| ensures PagesOk(e.flights[fid], fid, e.sends) {
      assert PagesOk(s.flights[fid], fid, s.sends);
    }
  }

  lemma {:induction false} DecideObject(s: System, p: Pid, e: Effect)
    requires p < |s.procs| && CanDecide(s, s.procs[p]) && e == DoDecide(s, s.procs[p]) && ObjectOk(s, s.procs[p].pc.sid)
    ensures Fits(s, p, e) && ObjectFits(s, p, e)
  {
  }

  lemma {:induction false} DecideMe(s: System, p: Pid, e: Effect)
    requires p < |s.procs| && CanDecide(s, s.procs[p]) && e == DoDecide(s, s.procs[p]) && Fits(s, p, e)
    requires s.procs[p].lead.Some? ==>
      s.procs[p].lead.value.fid < |s.flights| && s.flights[s.procs[p].lead.value.fid].firstSend <= |s.sends|
    ensures MeFits(s, p, e)
  {
    hide Unexpired, Observed;
  }

  lemma {:induction false} LookHistory(s: System, p: Pid, me: Proc, e: Effect)
    requires CanLook(s, me) && e == DoLook(s, p, me) && AllPagesOk(s)
    ensures HistoryFits(s, e)
  {
    forall fid | 0 <= fid < |s.flights| ensures PagesOk(e.flights[fid], fid, e.sends) {
      assert PagesOk(s.flights[fid], fid, s.sends);
    }
  }

  lemma {:induction false} LookObject(s: System, p: Pid, e: Effect)
    requires p < |s.procs| && CanLook(s, s.procs[p]) && e == DoLook(s, p, s.procs[p]) && ObjectOk(s, s.procs[p].pc.sid)
    ensures Fits(s, p, e) && ObjectFits(s, p, e)
  {
  }

  lemma {:induction false} LookMe(s: System, p: Pid, e: Effect)
    requires p < |s.procs| && CanLook(s, s.procs[p]) && e == DoLook(s, p, s.procs[p]) && Fits(s, p, e)
    requires s.procs[p].call.key in s.objs[s.procs[p].pc.sid].listings ==> ListingOk(s, s.procs[p].pc.sid, s.procs[p].call.key)
    requires ObjectOk(s, s.procs[p].pc.sid) && s.procs[p].call.key.ListingKey?
    ensures MeFits(s, p, e)
  {
    var me := s.procs[p];
    var o := s.objs[me.pc.sid];
    if e.me.pc.work.outcome.Snapshot? {
      var value := o.responses[me.call.key];
      assert SnapshotOk(s.flights, me.pc.sid, me.call.key, value);
      var fid: Fid :| FromFlight(s.flights, fid, me.pc.sid, me.call.key, value);
      assert RecentBody(e.flights, fid, e.me.pc.work.outcome.body, e.me.pc.work.outcome.lookedAt);
    }
  }

  lemma {:induction false} ReleaseHistory(s: System, p: Pid, e: Effect)
    requires p < |s.procs| && CanRelease(s, s.procs[p]) && e == DoRelease(s, p, s.procs[p])
    requires AllPagesOk(s) && SenderOk(s.flights, s.sends, s.procs[p]) && SnapOk(s.flights, s.procs[p])
    requires s.objs[s.procs[p].pc.sid].id == s.procs[p].pc.id
    requires s.procs[p].lead.Some? ==> s.flights[s.procs[p].lead.value.fid].verdict.Pending?
    ensures HistoryFits(s, e)
  {
    var me := s.procs[p];
    forall fid | 0 <= fid < |s.flights| ensures PagesOk(e.flights[fid], fid, e.sends) {
      assert PagesOk(s.flights[fid], fid, s.sends);
    }
    if me.pc.work.outcome.Snapshot? {
      var fid: Fid :|
        && RecentBody(s.flights, fid, me.pc.work.outcome.body, me.pc.work.outcome.lookedAt)
        && s.flights[fid].sid == me.pc.sid && s.flights[fid].key == me.call.key;
      assert Serves(s.objs, e.flights, fid, me.pc.id, me.call.key);
    }
  }

  lemma {:induction false} ReleasePlain(s: System, p: Pid, e: Effect)
    requires p < |s.procs| && CanRelease(s, s.procs[p]) && e == DoRelease(s, p, s.procs[p])
    requires JoinOk(s.objs, s.flights, s.procs[p]) && s.objs[s.procs[p].pc.sid].id == s.procs[p].pc.id
    ensures Fits(s, p, e) && Plain(s, e)
  {
  }

  /** Reading the body replaces the last observation by one of the whole response. */
  lemma {:induction false} ReadThrottle(o: Shared, r: Response, mentions: bool, at: Time)
    requires o.throttle == Replay(o.seen) && o.seen != [] && o.seen[|o.seen| - 1] == Seen(r, false, at)
    ensures Observed(o.throttle, r, mentions, at).until >= o.throttle.until
    ensures !IsThrottled(r, false) ==>
      Observed(o.throttle, r, mentions, at) == Replay(o.seen[..|o.seen| - 1] + [Seen(r, mentions, at)])
  {
    var earlier := o.seen[..|o.seen| - 1];
    ExchangeObservesOnce(Replay(earlier), r, mentions, at);
    assert (earlier + [Seen(r, mentions, at)])[..|o.seen| - 1] == earlier;
  }

  lemma {:induction false} ReadStores(o: Shared, call: Call, work: Work, mentions: bool, body: string, now: Time, key: CacheKey)
    requires work.Reading? && call.Request? && key in BodyResponses(o, call, work, mentions, body, now)
    ensures key == call.key || (key in o.responses && BodyResponses(o, call, work, mentions, body, now)[key] == o.responses[key])
  {
    if BodyResponses(o, call, work, mentions, body, now) != o.responses {
      StoredFrom(o.responses, call.key, CachedResponse(200, body, now + call.ttl), key);
    }
  }

  lemma {:induction false} ReadObject(s: System, p: Pid, mentions: bool, body: string, e: Effect)
    requires p < |s.procs| && CanBody(s, s.procs[p]) && e == DoBody(s, s.procs[p], mentions, body)
    requires ObjectOk(s, s.procs[p].pc.sid) && ReadingOk(s.objs, s.procs[p]) && KeyFits(s.procs[p].call)
    ensures Fits(s, p, e) && ObjectFits(s, p, e)
  {
    var me := s.procs[p];
    var o := s.objs[me.pc.sid];
    ReadThrottle(o, me.pc.work.response, mentions, me.pc.work.observedAt);
    forall key | key in e.touch.value.obj.responses
      ensures key == me.call.key || (key in o.responses && e.touch.value.obj.responses[key] == o.responses[key])
    {
      ReadStores(o, me.call, me.pc.work, mentions, body, s.clock, key);
    }
  }

  lemma {:induction false} ReadMe(s: System, p: Pid, mentions: bool, body: string, e: Effect)
    requires p < |s.procs| && CanBody(s, s.procs[p]) && e == DoBody(s, s.procs[p], mentions, body)
    requires ProcOk(s, s.procs[p]) && Fits(s, p, e) && AllPagesOk(s)
    ensures HistoryFits(s, e) && MeFits(s, p, e)
  {
  }

  lemma {:induction false} DecidesSound(s: System, p: Pid, s': System)
    requires Safe(s) && Sound(s) && SafeStep(s, s') && Decides(s, p, s')
    ensures SoundStep(s, s')
  {
    var e := DoDecide(s, s.procs[p]);
    assert PinOk(s.states, s.procs[p]);
    assert ObjectOk(s, s.procs[p].pc.sid) && LeadOk(s, p);
    if s.procs[p].lead.Some? {
      assert PagesOk(s.flights[s.procs[p].lead.value.fid], s.procs[p].lead.value.fid, s.sends);
    }
    DecideHistory(s, s.procs[p], e);
    DecideObject(s, p, e);
    DecideMe(s, p, e);
    CommitSound(s, p, e);
  }

  lemma {:induction false} ObservedAdvances(t: Throttle, r: Response, now: Time)
    ensures Observed(t, r, false, now).until >= t.until
  {
  }

  lemma {:induction false} HeardFits(s: System, p: Pid, r: Response, e: Effect)
    requires p < |s.procs| && CanHeaders(s, s.procs[p]) && e == DoHeaders(s, s.procs[p], r) && Fits(s, p, e)
    requires ProcOk(s, s.procs[p]) && ObjectOk(s, s.procs[p].pc.sid) && AllPagesOk(s)
    ensures HistoryFits(s, e) && ObjectFits(s, p, e) && MeFits(s, p, e)
  {
    hide Observed, PagesOk, SnapshotOk, WholeFlight;
    var sid := s.procs[p].pc.sid;
    ObservedAdvances(s.objs[sid].throttle, r, s.clock);
    assert e.touch.value.obj.seen[..|s.objs[sid].seen|] == s.objs[sid].seen;
  }

  lemma {:induction false} HearsSound(s: System, p: Pid, r: Response, s': System)
    requires Safe(s) && Sound(s) && SafeStep(s, s') && Hears(s, p, r, s')
    ensures SoundStep(s, s')
  {
    hide Safe, SafeStep, SoundStep, HistoryFits, MeFits, ObjectFits, Observed;
    var e := DoHeaders(s, s.procs[p], r);
    assert ObjectOk(s, s.procs[p].pc.sid) && ProcOk(s, s.procs[p]) && AllPagesOk(s);
    HeardFits(s, p, r, e);
    CommitSound(s, p, e);
  }

  lemma {:induction false} ReadsSound(s: System, p: Pid, mentions: bool, body: string, s': System)
    requires Safe(s) && Sound(s) && SafeStep(s, s') && Reads(s, p, mentions, body, s')
    ensures SoundStep(s, s')
  {
    var e := DoBody(s, s.procs[p], mentions, body);
    assert ObjectOk(s, s.procs[p].pc.sid) && ProcOk(s, s.procs[p]) && CallOk(s.procs[p]);
    ReadObject(s, p, mentions, body, e);
    ReadMe(s, p, mentions, body, e);
    CommitSound(s, p, e);
  }

  lemma {:induction false} LooksSound(s: System, p: Pid, s': System)
    requires Safe(s) && Sound(s) && SafeStep(s, s') && Looks(s, p, s')
    ensures SoundStep(s, s')
  {
    var me := s.procs[p];
    var e := DoLook(s, p, me);
    assert ObjectOk(s, me.pc.sid) && CallOk(me);
    assert me.call.key in s.objs[me.pc.sid].listings ==> ListingOk(s, me.pc.sid, me.call.key);
    LookHistory(s, p, me, e);
    LookObject(s, p, e);
    LookMe(s, p, e);
    CommitSound(s, p, e);
  }

  lemma {:induction false} ReleasesSound(s: System, p: Pid, s': System)
    requires Safe(s) && Sound(s) && SafeStep(s, s') && Releases(s, p, s')
    ensures SoundStep(s, s')
  {
    var me := s.procs[p];
    var e := DoRelease(s, p, me);
    assert ObjectOk(s, me.pc.sid) && ProcOk(s, me) && LeadOk(s, p) && PinOk(s.states, me);
    ReleaseHistory(s, p, e);
    ReleasePlain(s, p, e);
    PlainHistorySound(s, p, e);
  }

  lemma {:induction false} PublishFits(s: System, p: Pid, e: Effect)
    requires p < |s.procs| && CanPublish(s, s.procs[p]) && e == DoPublish(s, p, s.procs[p]) && Fits(s, p, e)
    requires ProcOk(s, s.procs[p]) && AllPagesOk(s) && s.flights[s.procs[p].lead.value.fid].verdict.Pending?
    requires Serves(s.objs, s.flights, s.procs[p].lead.value.fid, s.procs[p].lead.value.id, s.procs[p].lead.value.key)
    ensures HistoryFits(s, e) && MeFits(s, p, e)
  {
    hide Stored, RetryLimit;
    var lead := s.procs[p].lead.value;
    assert PagesOk(s.flights[lead.fid], lead.fid, s.sends);
    forall fid | 0 <= fid < |e.flights| ensures PagesOk(e.flights[fid], fid, e.sends) && WholeFlight(e.flights[fid]) {
      assert PagesOk(s.flights[fid], fid, s.sends) && WholeFlight(s.flights[fid]);
    }
  }

  lemma {:induction false} PublishObject(s: System, p: Pid, e: Effect)
    requires p < |s.procs| && CanPublish(s, s.procs[p]) && e == DoPublish(s, p, s.procs[p]) && Fits(s, p, e)
    requires ObjectOk(s, s.procs[p].lead.value.sid)
    requires s.flights[s.procs[p].lead.value.fid].sid == s.procs[p].lead.value.sid
    requires s.flights[s.procs[p].lead.value.fid].key == s.procs[p].lead.value.key
    ensures ObjectFits(s, p, e)
  {
    var me := s.procs[p];
    var lead := me.lead.value;
    var o, o' := s.objs[lead.sid], e.touch.value.obj;
    forall key | key in o'.responses
      ensures (key in o.responses && o'.responses[key] == o.responses[key]) || SnapshotOk(e.flights, lead.sid, key, o'.responses[key])
    {
      if me.pc.result.Some? {
        var value := CachedResponse(200, me.pc.result.value, s.clock + PACKAGE_CACHE_TTL);
        StoredFrom(o.responses, lead.key, value, key);
        hide Stored;
        assert FromFlight(e.flights, lead.fid, lead.sid, lead.key, value);
      }
    }
  }

  lemma {:induction false} LeaderServes(s: System, p: Pid)
    requires Safe(s) && p < |s.procs| && s.procs[p].lead.Some?
    ensures var lead := s.procs[p].lead.value;
      && Serves(s.objs, s.flights, lead.fid, lead.id, lead.key) && s.flights[lead.fid].sid == lead.sid
      && s.flights[lead.fid].verdict.Pending?
  {
    assert LeadOk(s, p) && PinOk(s.states, s.procs[p]) && FlightOk(s, s.procs[p].lead.value.fid);
  }

  lemma {:induction false} PublishesSound(s: System, p: Pid, s': System)
    requires Safe(s) && Sound(s) && SafeStep(s, s') && Publishes(s, p, s')
    ensures SoundStep(s, s')
  {
    hide Safe, SafeStep, SoundStep, HistoryFits, MeFits, ObjectFits, Serves, Stored;
    var e := DoPublish(s, p, s.procs[p]);
    LeaderServes(s, p);
    assert ProcOk(s, s.procs[p]) && ObjectOk(s, s.procs[p].lead.value.sid) && AllPagesOk(s);
    PublishFits(s, p, e);
    PublishObject(s, p, e);
    CommitSound(s, p, e);
  }

  lemma {:induction false} WakesSound(s: System, p: Pid, s': System)
    requires Safe(s) && Sound(s) && SafeStep(s, s') && Wakes(s, p, s')
    ensures SoundStep(s, s')
  {
    assert ProcOk(s, s.procs[p]);
    PlainHistorySound(s, p, DoWake(s, p, s.procs[p]));
  }

  lemma {:induction false} ActSound(s: System, p: Pid, s': System)
    requires Safe(s) && Sound(s) && SafeStep(s, s') && Acts(s, p, s')
    ensures SoundStep(s, s')
  {
    if MovesOn(s, p, s') {
      MovesOnSound(s, p, s');
    } else if Locks(s, p, s') || Judges(s, p, s') {
      ScanSound(s, p, Identity("", ""), s');
    } else if at :| Skips(s, p, at, s') {
      ScanSound(s, p, at, s');
    } else if at :| Takes(s, p, at, s') {
      ScanSound(s, p, at, s');
    } else if Admits(s, p, s') {
      AdmitsSound(s, p, s');
    } else if Withdraws(s, p, s') || Enters(s, p, s') || Grabs(s, p, s') {
      TokenSound(s, p, s');
    } else if Releases(s, p, s') {
      ReleasesSound(s, p, s');
    } else if Decides(s, p, s') {
      DecidesSound(s, p, s');
    } else if r :| Hears(s, p, r, s') {
      HearsSound(s, p, r, s');
    } else if mentions, body :| Reads(s, p, mentions, body, s') {
      ReadsSound(s, p, mentions, body, s');
    } else if Looks(s, p, s') {
      LooksSound(s, p, s');
    } else if Wakes(s, p, s') {
      WakesSound(s, p, s');
    } else {
      PublishesSound(s, p, s');
    }
  }

  lemma {:induction false} StepSound(s: System, s': System)
    requires Safe(s) && Sound(s) && Next(s, s')
    ensures SoundStep(s, s')
  {
    if Ticks(s, s') || Spawns(s, s') {
      forall p | 0 <= p < |s'.procs| ensures ProcOk(s', s'.procs[p]) {
        assert p < |s.procs| ==> ProcOk(s, s.procs[p]);
      }
      forall sid | 0 <= sid < |s'.objs| ensures ObjectOk(s', sid) {
        assert ObjectOk(s, sid);
      }
      forall n | 0 <= n < |s'.answers| ensures AnswerOk(s'.objs, s'.flights, s'.answers[n]) {
        assert AnswerOk(s.objs, s.flights, s.answers[n]);
      }
      forall sid | 0 <= sid < |s'.objs| ensures RetiredOk(s', sid) {
        assert RetiredOk(s, sid);
      }
      assert Sound(s');
    } else {
      var p :| Acts(s, p, s');
      StepSafe(s, s');
      ActSound(s, p, s');
    }
  }

  // What holds in every run.

  lemma {:induction false} StepBoth(trace: seq<System>, i: nat)
    requires IsRun(trace) && 0 < i < |trace| && Safe(trace[i - 1]) && Sound(trace[i - 1])
    ensures Safe(trace[i]) && SoundStep(trace[i - 1], trace[i])
  {
    var s, s' := trace[i - 1], trace[i];
    assert Next(trace[i - 1], trace[i - 1 + 1]);
    StepSafe(s, s');
    StepSound(s, s');
  }

  lemma {:induction false} RunSound(trace: seq<System>, i: nat)
    requires IsRun(trace) && i < |trace|
    ensures Safe(trace[i]) && Sound(trace[i])
  {
    if i > 0 {
      RunSound(trace, i - 1);
      StepBoth(trace, i);
    }
  }

  lemma {:induction false} ForwardTwice(s: System, m: System, s': System)
    requires Forward(s, m) && Forward(m, s')
    ensures Forward(s, s')
  {
  }

  lemma {:induction false} RunForward(trace: seq<System>, i: nat, j: nat)
    requires IsRun(trace) && i <= j < |trace|
    ensures Forward(trace[i], trace[j])
    decreases j - i
  {
    if i < j {
      RunSound(trace, j - 1);
      StepBoth(trace, j);
      RunForward(trace, i, j - 1);
      ForwardTwice(trace[i], trace[j - 1], trace[j]);
    }
  }

  /** Per identity and listing, at most one refresh runs at a time. */
  lemma {:induction false} SingleFlight(trace: seq<System>, i: nat, f: Fid, g: Fid)
    requires IsRun(trace) && i < |trace|
    requires f < |trace[i].flights| && g < |trace[i].flights|
    requires var s := trace[i];
      && s.flights[f].verdict.Pending? && s.flights[g].verdict.Pending? && s.flights[f].key == s.flights[g].key
      && s.flights[f].sid < |s.objs| && s.flights[g].sid < |s.objs|
      && s.objs[s.flights[f].sid].id == s.objs[s.flights[g].sid].id
    ensures f == g
  {
    RunSafe(trace, i);
    var s := trace[i];
    assert FlightOk(s, f) && FlightOk(s, g);
    assert PinOk(s.states, s.procs[s.flights[f].leader]) && PinOk(s.states, s.procs[s.flights[g].leader]);
  }

  /** A refresh ends once: its outcome is final, and from then on nothing can join it. */
  lemma {:induction false} FlightEndsOnce(trace: seq<System>, i: nat, j: nat, fid: Fid)
    requires IsRun(trace) && i <= j < |trace|
    requires fid < |trace[i].flights| && !trace[i].flights[fid].verdict.Pending?
    ensures fid < |trace[j].flights| && trace[j].flights[fid] == trace[i].flights[fid]
    ensures forall sid, key | 0 <= sid < |trace[j].objs| && key in trace[j].objs[sid].listings ::
      trace[j].objs[sid].listings[key] != fid
  {
    RunForward(trace, i, j);
    assert Continues(trace[i].flights[fid], trace[j].flights[fid]);
    RunSafe(trace, j);
    forall sid, key | 0 <= sid < |trace[j].objs| && key in trace[j].objs[sid].listings
      ensures trace[j].objs[sid].listings[key] != fid
    {
      assert ListingOk(trace[j], sid, key);
    }
  }

  /** A cached listing is the value of one whole refresh of that listing, less than two minutes old. */
  lemma {:induction false} HitIsRecentRefresh(trace: seq<System>, i: nat, p: Pid) returns (fid: Fid)
    requires IsRun(trace) && i + 1 < |trace| && Looks(trace[i], p, trace[i + 1])
    requires trace[i + 1].procs[p].pc.work.Releasing? && trace[i + 1].procs[p].pc.work.outcome.Snapshot?
    ensures var s := trace[i];
      && fid < |s.flights| && s.flights[fid].key == s.procs[p].call.key && s.flights[fid].sid == s.procs[p].pc.sid
      && s.flights[fid].verdict.Published?
      && s.flights[fid].verdict.body == trace[i + 1].procs[p].pc.work.outcome.body
      && s.clock < s.flights[fid].verdict.at + PACKAGE_CACHE_TTL
  {
    RunSound(trace, i);
    var s := trace[i];
    var me := s.procs[p];
    assert ObjectOk(s, me.pc.sid) && CallOk(me);
    var value := s.objs[me.pc.sid].responses[me.call.key];
    assert SnapshotOk(s.flights, me.pc.sid, me.call.key, value);
    fid :| FromFlight(s.flights, fid, me.pc.sid, me.call.key, value);
  }

  /**
   * The end of a refresh: a value is published only if every page request succeeded, the leader
   * returns the outcome, and a failed refresh leaves every cached response alone.
   */
  lemma {:induction false} RefreshOutcome(trace: seq<System>, i: nat, p: Pid)
    requires IsRun(trace) && i + 1 < |trace| && Publishes(trace[i], p, trace[i + 1])
    ensures var s, s', lead := trace[i], trace[i + 1], trace[i].procs[p].lead.value;
      var fid := lead.fid;
      && fid < |s.flights| && s.flights[fid].verdict.Pending? && !s'.flights[fid].verdict.Pending?
      && (s'.flights[fid].verdict.Published? ==> !s.procs[p].broken && s.procs[p].pc.result == Some(s'.flights[fid].verdict.body))
      && |s'.objs| == |s.objs|
      && (s'.flights[fid].verdict.Abandoned? ==>
           forall sid | 0 <= sid < |s.objs| :: s'.objs[sid].responses == s.objs[sid].responses)
      && s'.answers == s.answers + [Answer(p, lead.id, lead.key, Leader(fid), ReplyOf(s'.flights[fid].verdict))]
  {
    RunSound(trace, i);
    var s := trace[i];
    assert LeadOk(s, p) && ProcOk(s, s.procs[p]);
  }

  /**
   * Every listing that is returned, by a hit, a leader or a joiner, is the body of one refresh of the same
   * identity and listing that was published with no failed page; a hit was published less than two minutes
   * before it was looked up. Every failure that a leader or a joiner returns is that of an abandoned refresh.
   */
  lemma {:induction false} ListingAnswers(trace: seq<System>, i: nat, n: nat) returns (fid: Fid)
    requires IsRun(trace) && i < |trace| && n < |trace[i].answers|
    ensures var s, a := trace[i], trace[i].answers[n];
      && fid < |s.flights| && s.flights[fid].key == a.key
      && s.flights[fid].sid < |s.objs| && s.objs[s.flights[fid].sid].id == a.id
      && (a.how.Joiner? ==> a.how.fid == fid) && (a.how.Leader? ==> a.how.fid == fid)
      && (a.reply.Body? ==>
           && s.flights[fid].verdict.Published? && s.flights[fid].verdict.body == a.reply.body && !s.flights[fid].broken
           && (a.how.Hit? ==> a.how.lookedAt < s.flights[fid].verdict.at + PACKAGE_CACHE_TTL))
      && (a.reply.Failure? ==> !a.how.Hit? && s.flights[fid].verdict == Abandoned(a.reply.limit))
  {
    RunSound(trace, i);
    var s, a := trace[i], trace[i].answers[n];
    assert AnswerOk(s.objs, s.flights, a);
    match a.how
    case Hit(lookedAt) => fid :| Serves(s.objs, s.flights, fid, a.id, a.key) && RecentBody(s.flights, fid, a.reply.body, lookedAt);
    case Joiner(f) => fid := f;
    case Leader(f) => fid := f;
    assert WholeFlight(s.flights[fid]);
  }

  /** Every return is recorded: a joiner that wakes returns the outcome of the flight it joined, and only once that is over. */
  lemma {:induction false} WakingReturnsOutcome(trace: seq<System>, i: nat, p: Pid)
    requires IsRun(trace) && i + 1 < |trace| && Wakes(trace[i], p, trace[i + 1])
    ensures var s, me := trace[i], trace[i].procs[p];
      && me.pc.fid < |s.flights| && !s.flights[me.pc.fid].verdict.Pending?
      && s.flights[me.pc.fid].key == me.call.key
      && trace[i + 1].answers == s.answers + [Answer(p, me.pc.id, me.call.key, Joiner(me.pc.fid), ReplyOf(s.flights[me.pc.fid].verdict))]
  {
    RunSound(trace, i);
    var s := trace[i];
    assert ProcOk(s, s.procs[p]);
    hide Safe, Sound;
  }

  /** No refresh reuses a page: its pages were requested after it began, and by no other refresh. */
  lemma {:induction false} PagesAreFresh(trace: seq<System>, i: nat, f: Fid, g: Fid, page: nat)
    requires IsRun(trace) && i < |trace| && f < |trace[i].flights| && g < |trace[i].flights|
    requires page in trace[i].flights[f].pages
    ensures trace[i].flights[f].firstSend <= page < |trace[i].sends|
    ensures page in trace[i].flights[g].pages ==> f == g
  {
    RunSound(trace, i);
    assert PagesOk(trace[i].flights[f], f, trace[i].sends) && PagesOk(trace[i].flights[g], g, trace[i].sends);
  }

  /** The deadline of a state never moves back. */
  lemma {:induction false} DeadlineNeverMovesBack(trace: seq<System>, i: nat, j: nat, sid: Sid)
    requires IsRun(trace) && i <= j < |trace| && sid < |trace[i].objs|
    ensures sid < |trace[j].objs| && trace[i].objs[sid].throttle.until <= trace[j].objs[sid].throttle.until
  {
    RunForward(trace, i, j);
  }

  /** However goroutines interleave, each response counts once towards the backoff of its state. */
  lemma {:induction false} BackoffCountsResponses(trace: seq<System>, i: nat, sid: Sid)
    requires IsRun(trace) && i < |trace| && sid < |trace[i].objs|
    ensures trace[i].objs[sid].throttle == Replay(trace[i].objs[sid].seen)
    ensures trace[i].objs[sid].throttle.backoff == BackoffAfter(ThrottledRun(trace[i].objs[sid].seen))
  {
    RunSound(trace, i);
    assert ObjectOk(trace[i], sid);
    BackoffCounts(trace[i].objs[sid].seen);
  }

  lemma {:induction false} SendsBetween(trace: seq<System>, j: nat)
    requires IsRun(trace) && j + 1 < |trace|
    ensures Safe(trace[j]) && Sound(trace[j]) && SoundStep(trace[j], trace[j + 1])
  {
    RunSound(trace, j);
    StepBoth(trace, j + 1);
  }

  /** Any state that an identity ever had: it is the current one, or its deadline has passed. */
  lemma {:induction false} CurrentOrPast(s: System, sid: Sid, id: Identity)
    requires Sound(s) && sid < |s.objs| && s.objs[sid].id == id && id in s.states
    ensures s.states[id] == sid || s.objs[sid].throttle.until <= s.clock
  {
    assert RetiredOk(s, sid);
  }

  /**
   * A deadline binds all later requests of its identity: whatever happens after a moment, evictions
   * included, no request for the identity is sent before the deadline that any of its states had then.
   */
  lemma {:induction false} NoSendBeforeDeadline(trace: seq<System>, i: nat, j: nat, sid: Sid, n: nat)
    requires IsRun(trace) && i <= j < |trace| && sid < |trace[i].objs|
    requires |trace[i].sends| <= n < |trace[j].sends| && trace[j].sends[n].id == trace[i].objs[sid].id
    ensures trace[j].sends[n].at >= trace[i].objs[sid].throttle.until
  {
    hide IsRun, Safe, Sound;
    var s, s' := trace[j - 1], trace[j];
    SendsBetween(trace, j - 1);
    assert s.sends <= s'.sends;
    if n < |s.sends| {
      NoSendBeforeDeadline(trace, i, j - 1, sid, n);
    } else {
      DeadlineNeverMovesBack(trace, i, j - 1, sid);
      SameIdentity(trace, i, j - 1, sid);
      CurrentOrPast(s, sid, s'.sends[n].id);
    }
  }

  lemma {:induction false} SameIdentity(trace: seq<System>, i: nat, j: nat, sid: Sid)
    requires IsRun(trace) && i <= j < |trace| && sid < |trace[i].objs|
    ensures sid < |trace[j].objs| && trace[j].objs[sid].id == trace[i].objs[sid].id
  {
    RunForward(trace, i, j);
  }
}
