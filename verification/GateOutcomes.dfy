/** What each call gets from the gate, by the fields of its responses and of the state it works on. */
module GateOutcomes {
  import opened Prelude
  import opened RequestState
  import opened RequestGate
  import opened GateSafety
  import opened GateData

  // Responses bind all later requests.

  /**
   * Whatever any response that a state has seen asks for binds every later request of its identity,
   * also after the state was evicted and replaced.
   */
  lemma {:induction false} AskedTimeBinds(trace: seq<System>, i: nat, j: nat, sid: Sid, k: nat, at: Time, n: nat)
    requires IsRun(trace) && i <= j < |trace| && sid < |trace[i].objs|
    requires k < |trace[i].objs[sid].seen| && AsksFor(trace[i].objs[sid].seen, k, at)
    requires |trace[i].sends| <= n < |trace[j].sends| && trace[j].sends[n].id == trace[i].objs[sid].id
    ensures trace[j].sends[n].at >= at
  {
    BackoffCountsResponses(trace, i, sid);
    DeadlineIsLatestAsked(trace[i].objs[sid].seen);
    NoSendBeforeDeadline(trace, i, j, sid, n);
  }

  lemma {:induction false} WorksOnIdentity(trace: seq<System>, i: nat, p: Pid)
    requires IsRun(trace) && i < |trace| && p < |trace[i].procs| && trace[i].procs[p].pc.With?
    ensures var s, pc := trace[i], trace[i].procs[p].pc;
      pc.sid < |s.objs| && s.objs[pc.sid].id == pc.id && pc.id in s.states && s.states[pc.id] == pc.sid
  {
    RunSafe(trace, i);
    assert PinOk(trace[i].states, trace[i].procs[p]);
  }

  /**
   * A response whose headers arrive binds every later request of the identity: not before the reset when the
   * budget is used up, and, if it says to slow down, not before the time that its Retry-After names.
   */
  lemma {:induction false} HeadersBind(trace: seq<System>, i: nat, p: Pid, r: Response, j: nat, n: nat)
    requires IsRun(trace) && i < j < |trace| && Hears(trace[i], p, r, trace[i + 1])
    requires |trace[i].sends| <= n < |trace[j].sends| && trace[j].sends[n].id == trace[i].procs[p].pc.id
    ensures r.remainingIsZero && r.reset.Some? ==> trace[j].sends[n].at >= (r.reset.value + 1) * SECOND
    ensures SaysSlowDown(Seen(r, false, trace[i].clock)) ==>
      && (r.retryAfter.Seconds? && r.retryAfter.seconds > 0 ==>
           trace[j].sends[n].at >= trace[i].clock + r.retryAfter.seconds * SECOND)
      && (r.retryAfter.Date? ==> trace[j].sends[n].at >= r.retryAfter.date)
      && trace[j].sends[n].at > trace[i].clock
  {
    WorksOnIdentity(trace, i, p);
    var s, s', sid := trace[i], trace[i + 1], trace[i].procs[p].pc.sid;
    var seen := s'.objs[sid].seen;
    var k := |s.objs[sid].seen|;
    assert seen == s.objs[sid].seen + [Seen(r, false, s.clock)] && seen[..k + 1] == seen;
    hide IsRun, Hears, Replay, ThrottledRun;
    if r.remainingIsZero && r.reset.Some? {
      AskedTimeBinds(trace, i + 1, j, sid, k, (r.reset.value + 1) * SECOND, n);
    }
    if SaysSlowDown(seen[k]) {
      SlowDownIsAhead(seen, k);
      AskedTimeBinds(trace, i + 1, j, sid, k, SlowDownEnd(seen[k], ThrottledRun(seen)), n);
    }
  }

  lemma {:induction false} SlowDownIsAhead(seen: seq<Seen>, k: nat)
    requires k + 1 == |seen| && SaysSlowDown(seen[k])
    ensures SlowDownEnd(seen[k], ThrottledRun(seen)) > seen[k].at
  {
    assert ThrottledRun(seen) > 0 && BackoffAfter(ThrottledRun(seen)) >= MINUTE;
  }

  // The answers to one HTTP request.

  /** A response that may be replayed: of a GET with a time to live, under its own key, and not expired. */
  predicate Replayable(call: Call, o: Shared, now: Time) {
    call.Request? && call.isGet && call.ttl > 0 && call.key in o.responses && now < o.responses[call.key].expires
  }

  /**
   * Under the gate a request is answered from the cache exactly if that has a live response for it; else it
   * is refused exactly while the deadline is ahead, and told that deadline; else it is sent.
   */
  lemma {:induction false} RequestDecision(trace: seq<System>, i: nat, p: Pid)
    requires IsRun(trace) && i + 1 < |trace| && Decides(trace[i], p, trace[i + 1])
    ensures var s, s', me := trace[i], trace[i + 1], trace[i].procs[p];
      var o, work := s.objs[me.pc.sid], s'.procs[p].pc.work;
      && (Replayable(me.call, o, s.clock) ==> work == Releasing(Replayed(o.responses[me.call.key])) && s'.sends == s.sends)
      && (!Replayable(me.call, o, s.clock) && s.clock < o.throttle.until ==>
           work == Releasing(Failed(Some(o.throttle.until))) && s'.sends == s.sends)
      && (!Replayable(me.call, o, s.clock) && s.clock >= o.throttle.until ==>
           && work == Sending(|s.sends|) && |s'.sends| == |s.sends| + 1
           && s'.sends[|s.sends|].id == me.pc.id && s'.sends[|s.sends|].at == s.clock)
  {
  }

  /**
   * A response that says to slow down, by its headers or its body, is never handed to the caller: the caller
   * gets the deadline, which is ahead of the response. Any other response is handed over.
   */
  lemma {:induction false} BodyOutcome(trace: seq<System>, i: nat, p: Pid, mentions: bool, body: string)
    requires IsRun(trace) && i + 1 < |trace| && Reads(trace[i], p, mentions, body, trace[i + 1])
    ensures var s', work := trace[i + 1], trace[i].procs[p].pc.work;
      var o', outcome := s'.objs[trace[i].procs[p].pc.sid], s'.procs[p].pc.work;
      if SaysSlowDown(Seen(work.response, mentions, work.observedAt)) then
        outcome == Releasing(Failed(Some(o'.throttle.until))) && o'.throttle.until > work.observedAt
      else outcome == Releasing(Received(work.send))
  {
    RunSound(trace, i);
    RunSound(trace, i + 1);
    var s, me := trace[i], trace[i].procs[p];
    assert ProcOk(s, me);
    assert ObjectOk(trace[i + 1], me.pc.sid);
    var seen := trace[i + 1].objs[me.pc.sid].seen;
    var last := seen[|seen| - 1];
    hide Safe, Sound, IsRun, Replay, Stored;
    if SaysSlowDown(Seen(me.pc.work.response, mentions, me.pc.work.observedAt)) {
      assert last.response == me.pc.work.response && last.at == me.pc.work.observedAt && SaysSlowDown(last);
      ThrottledWaits(seen);
    }
  }

  /** A body that mentions a rate limit, under 403 and without other signs, stops the identity for a minute or more. */
  lemma {:induction false} BodyBinds(trace: seq<System>, i: nat, p: Pid, body: string, j: nat, n: nat)
    requires IsRun(trace) && i < j < |trace| && Reads(trace[i], p, true, body, trace[i + 1])
    requires trace[i].procs[p].pc.work.response.status == 403 && trace[i].procs[p].pc.work.response.retryAfter.Absent?
    requires !trace[i].procs[p].pc.work.response.remainingIsZero
    requires |trace[i].sends| <= n < |trace[j].sends| && trace[j].sends[n].id == trace[i].procs[p].pc.id
    ensures trace[j].sends[n].at >= trace[i].procs[p].pc.work.observedAt + MINUTE
  {
    WorksOnIdentity(trace, i, p);
    RunSound(trace, i);
    var s, me := trace[i], trace[i].procs[p];
    assert ProcOk(s, me);
    hide IsRun, Safe, Sound, SaysSlowDown, SlowDownEnd, ThrottledRun;
    BodySeenLast(s, p, body, trace[i + 1]);
    var seen := trace[i + 1].objs[me.pc.sid].seen;
    BodyAsks(seen);
    hide Reads;
    AskedTimeBinds(trace, i + 1, j, me.pc.sid, |seen| - 1, SlowDownEnd(seen[|seen| - 1], ThrottledRun(seen)), n);
  }

  lemma {:induction false} BodySeenLast(s: System, p: Pid, body: string, s': System)
    requires Reads(s, p, true, body, s') && ReadingOk(s.objs, s.procs[p])
    requires var r := s.procs[p].pc.work.response; r.status == 403 && r.retryAfter.Absent? && !r.remainingIsZero
    ensures var pc, seen := s.procs[p].pc, s'.objs[s.procs[p].pc.sid].seen;
      && seen != [] && seen[|seen| - 1] == Seen(pc.work.response, true, pc.work.observedAt)
      && s'.sends == s.sends && s'.objs[pc.sid].id == s.objs[pc.sid].id
  {
    hide Stored, Observed;
  }

  lemma {:induction false} BodyAsks(seen: seq<Seen>)
    requires seen != []
    requires var x := seen[|seen| - 1];
      x.response.status == 403 && x.response.retryAfter.Absent? && !x.response.remainingIsZero && x.bodyMentionsLimit
    ensures AsksFor(seen, |seen| - 1, SlowDownEnd(seen[|seen| - 1], ThrottledRun(seen)))
    ensures SlowDownEnd(seen[|seen| - 1], ThrottledRun(seen)) >= seen[|seen| - 1].at + MINUTE
  {
    assert seen[..|seen| - 1 + 1] == seen;
    assert ThrottledRun(seen) > 0 && BackoffAfter(ThrottledRun(seen)) >= MINUTE;
  }

  // The answers to one listing.

  /**
   * Under the gate a listing is answered from the cache exactly if that has a live snapshot and no fresh one was
   * asked for; else it joins the refresh that runs; else it leads one, unless too many run.
   */
  lemma {:induction false} ListingDecision(trace: seq<System>, i: nat, p: Pid)
    requires IsRun(trace) && i + 1 < |trace| && Looks(trace[i], p, trace[i + 1])
    ensures var s, s', me := trace[i], trace[i + 1], trace[i].procs[p];
      var o, work, key := s.objs[me.pc.sid], s'.procs[p].pc.work, me.call.key;
      var live := !me.call.refetch && key in o.responses && s.clock < o.responses[key].expires;
      && (live ==> work == Releasing(Snapshot(o.responses[key].body, s.clock)))
      && (!live && key in o.listings ==> work == Releasing(Joined(o.listings[key])))
      && (!live && key !in o.listings && |o.listings| >= MAX_CACHED_RESPONSES ==> work == Releasing(Failed(None)))
      && (!live && key !in o.listings && |o.listings| < MAX_CACHED_RESPONSES ==>
           && work == Releasing(Led) && s'.procs[p].lead == Some(Lead(me.pc.id, me.pc.sid, key, |s.flights|))
           && |s'.flights| == |s.flights| + 1 && s'.flights[|s.flights|].firstSend == |s.sends|)
  {
  }

  /** A refresh that ends well is cached for two minutes; one that fails reports the deadline if that is ahead. */
  lemma {:induction false} RefreshIsCached(trace: seq<System>, i: nat, p: Pid)
    requires IsRun(trace) && i + 1 < |trace| && Publishes(trace[i], p, trace[i + 1])
    ensures var s, s', lead, result := trace[i], trace[i + 1], trace[i].procs[p].lead.value, trace[i].procs[p].pc.result;
      && lead.fid < |s'.flights|
      && (result.Some? ==> s'.flights[lead.fid].verdict == Published(result.value, s.clock))
      && (result.Some? && |result.value| <= MAX_CACHED_BYTES ==>
           && lead.key in s'.objs[lead.sid].responses
           && s'.objs[lead.sid].responses[lead.key].body == result.value
           && s'.objs[lead.sid].responses[lead.key].expires == s.clock + 2 * MINUTE)
      && (result.None? && s.clock < s.objs[lead.sid].throttle.until ==>
           s'.flights[lead.fid].verdict == Abandoned(Some(s.objs[lead.sid].throttle.until)))
      && (result.None? && s.clock >= s.objs[lead.sid].throttle.until ==> s'.flights[lead.fid].verdict == Abandoned(None))
  {
    hide TotalBytes;
  }

  /** A scan removes a state exactly if nobody uses or needs it and it has been idle for an hour. */
  lemma {:induction false} ScanRemovesIdle(trace: seq<System>, i: nat, p: Pid, id: Identity)
    requires IsRun(trace) && i + 1 < |trace| && Judges(trace[i], p, trace[i + 1]) && id in trace[i].states
    ensures var s, s', scan, at := trace[i], trace[i + 1], trace[i].procs[p].pc.scan, trace[i].procs[p].pc.at;
      && at in s.states && s.states[at] < |s.objs|
      && (id !in s'.states <==>
           var o := s.objs[s.states[at]];
           id == at && o.users == 0 && o.listings == map[] && o.throttle.until <= scan.now && scan.now >= o.lastUsed + HOUR)
  {
    RunSafe(trace, i);
    IsLocal(trace[i], p);
  }

  // Where cached pages come from.

  /** The step reads a body that is kept: a successful GET with a time to live. */
  ghost predicate KeepsPage(s: System, p: Pid, mentions: bool, body: string, s': System, sid: Sid, key: CacheKey, value: CachedResponse) {
    && Reads(s, p, mentions, body, s')
    && var me := s.procs[p];
       && me.pc.sid == sid && me.call.key == key && me.call.isGet && me.call.ttl > 0
       && me.pc.work.response.status == 200 && value == CachedResponse(200, body, s.clock + me.call.ttl)
  }

  ghost predicate PageArrives(s: System, s': System, sid: Sid, key: CacheKey, value: CachedResponse) {
    exists p, mentions, body :: KeepsPage(s, p, mentions, body, s', sid, key, value)
  }

  ghost predicate Had(s: System, sid: Sid, key: CacheKey, value: CachedResponse) {
    sid < |s.objs| && key in s.objs[sid].responses && s.objs[sid].responses[key] == value
  }

  /** Refreshes are of listings. */
  predicate ListingFlights(s: System) {
    forall fid | 0 <= fid < |s.flights| :: s.flights[fid].key.ListingKey?
  }

  /** What a step adds to the caches: nothing, a page that arrived, or a listing. */
  ghost predicate AddsOnlyPages(s: System, s': System) {
    forall sid, key | 0 <= sid < |s'.objs| && key in s'.objs[sid].responses && key.PageKey? ::
      Had(s, sid, key, s'.objs[sid].responses[key]) || PageArrives(s, s', sid, key, s'.objs[sid].responses[key])
  }

  lemma {:induction false} FewerPages(s: System, p: Pid, e: Effect)
    requires Fits(s, p, e)
    requires e.touch.Some? ==> forall key | key in e.touch.value.obj.responses && key.PageKey? ::
      Had(s, e.touch.value.sid, key, e.touch.value.obj.responses[key])
    requires e.created.Some? ==> e.created.value.responses == map[]
    ensures AddsOnlyPages(s, Commit(s, p, e))
  {
    hide PageArrives;
  }

  lemma {:induction false} UntouchedPages(s: System, p: Pid, at: Identity, r: Response, s': System)
    requires MovesOn(s, p, s') || Locks(s, p, s') || Skips(s, p, at, s') || Takes(s, p, at, s') || Judges(s, p, s')
      || Withdraws(s, p, s') || Enters(s, p, s') || Grabs(s, p, s') || Hears(s, p, r, s') || Wakes(s, p, s')
    ensures AddsOnlyPages(s, s') && s'.flights == s.flights
  {
    hide PageArrives, QuietMove, Observed, Evictable;
  }

  lemma {:induction false} AdmitPages(s: System, p: Pid, s': System)
    requires Admits(s, p, s')
    ensures AddsOnlyPages(s, s') && s'.flights == s.flights
  {
    FewerPages(s, p, DoAdmit(s, s.procs[p]));
    hide AddsOnlyPages;
  }

  lemma {:induction false} DecidePages(s: System, p: Pid, s': System)
    requires Decides(s, p, s')
    ensures AddsOnlyPages(s, s') && s'.flights == s.flights
  {
    FewerPages(s, p, DoDecide(s, s.procs[p]));
    hide AddsOnlyPages;
  }

  lemma {:induction false} LookPages(s: System, p: Pid, s': System)
    requires Looks(s, p, s') && KeyFits(s.procs[p].call) && ListingFlights(s)
    ensures AddsOnlyPages(s, s') && ListingFlights(s')
  {
    FewerPages(s, p, DoLook(s, p, s.procs[p]));
    hide AddsOnlyPages, PageArrives;
  }

  lemma {:induction false} ReleasePages(s: System, p: Pid, s': System)
    requires Releases(s, p, s') && ListingFlights(s)
    ensures AddsOnlyPages(s, s') && ListingFlights(s')
  {
    FewerPages(s, p, DoRelease(s, p, s.procs[p]));
    hide AddsOnlyPages, PageArrives;
  }

  lemma {:induction false} PublishPages(s: System, p: Pid, s': System)
    requires Publishes(s, p, s') && ListingFlights(s) && s.flights[s.procs[p].lead.value.fid].key == s.procs[p].lead.value.key
    ensures AddsOnlyPages(s, s') && ListingFlights(s')
  {
    var me := s.procs[p];
    var lead := me.lead.value;
    var o := s.objs[lead.sid];
    var e := DoPublish(s, p, me);
    if me.pc.result.Some? {
      var value := CachedResponse(200, me.pc.result.value, s.clock + PACKAGE_CACHE_TTL);
      forall key | key in Stored(o.responses, lead.key, value) && key.PageKey?
        ensures Had(s, lead.sid, key, Stored(o.responses, lead.key, value)[key])
      {
        StoredFrom(o.responses, lead.key, value, key);
      }
    }
    hide Stored, AddsOnlyPages, PageArrives;
    FewerPages(s, p, e);
  }

  lemma {:induction false} ReadPages(s: System, p: Pid, mentions: bool, body: string, s': System)
    requires Reads(s, p, mentions, body, s')
    ensures AddsOnlyPages(s, s') && s'.flights == s.flights
  {
    var me := s.procs[p];
    var o := s.objs[me.pc.sid];
    var value := CachedResponse(200, body, s.clock + me.call.ttl);
    forall sid, key | 0 <= sid < |s'.objs| && key in s'.objs[sid].responses
      ensures Had(s, sid, key, s'.objs[sid].responses[key]) || PageArrives(s, s', sid, key, s'.objs[sid].responses[key])
    {
      if !Had(s, sid, key, s'.objs[sid].responses[key]) {
        StoredFrom(o.responses, me.call.key, value, key);
        assert KeepsPage(s, p, mentions, body, s', sid, key, s'.objs[sid].responses[key]);
      }
    }
  }

  lemma {:induction false} ActPages(s: System, p: Pid, s': System)
    requires Safe(s) && ListingFlights(s) && Acts(s, p, s')
    ensures AddsOnlyPages(s, s') && ListingFlights(s')
  {
    assert p < |s.procs| ==> CallOk(s.procs[p]) && LeadOk(s, p);
    var none := Response(0, false, None, Absent);
    hide MovesOn, Locks, Skips, Takes, Judges, Withdraws, Enters, Grabs, Hears, Wakes, Admits, Decides, Looks, Releases, Reads, AddsOnlyPages, Safe;
    if at :| Skips(s, p, at, s') {
      UntouchedPages(s, p, at, none, s');
    } else if at :| Takes(s, p, at, s') {
      UntouchedPages(s, p, at, none, s');
    } else if r :| Hears(s, p, r, s') {
      UntouchedPages(s, p, Identity("", ""), r, s');
    } else if Admits(s, p, s') {
      AdmitPages(s, p, s');
    } else if Decides(s, p, s') {
      DecidePages(s, p, s');
    } else if Looks(s, p, s') {
      LookIsListing(s, p, s');
      LookPages(s, p, s');
    } else if Releases(s, p, s') {
      ReleasePages(s, p, s');
    } else if mentions, body :| Reads(s, p, mentions, body, s') {
      ReadPages(s, p, mentions, body, s');
    } else if Publishes(s, p, s') {
      PublishPages(s, p, s');
    } else {
      UntouchedPages(s, p, Identity("", ""), none, s');
    }
  }

  lemma {:induction false} LookIsListing(s: System, p: Pid, s': System)
    requires Looks(s, p, s')
    ensures p < |s.procs|
  {
  }

  lemma {:induction false} IdlePages(s: System, s': System)
    requires ListingFlights(s) && (Ticks(s, s') || Spawns(s, s'))
    ensures AddsOnlyPages(s, s') && ListingFlights(s')
  {
    hide PageArrives;
  }

  lemma {:induction false} NextPages(s: System, s': System)
    requires Safe(s) && ListingFlights(s) && Next(s, s')
    ensures AddsOnlyPages(s, s') && ListingFlights(s')
  {
    hide Safe, Acts, AddsOnlyPages, ListingFlights, Ticks, Spawns;
    if p :| Acts(s, p, s') {
      ActPages(s, p, s');
    } else {
      IdlePages(s, s');
    }
  }

  lemma {:induction false} StepPages(trace: seq<System>, i: nat)
    requires IsRun(trace) && 0 < i < |trace| && ListingFlights(trace[i - 1])
    ensures AddsOnlyPages(trace[i - 1], trace[i]) && ListingFlights(trace[i])
  {
    hide Safe, Next, AddsOnlyPages, ListingFlights;
    RunSafe(trace, i - 1);
    assert Next(trace[i - 1], trace[i - 1 + 1]);
    NextPages(trace[i - 1], trace[i]);
  }

  lemma {:induction false} RunListingFlights(trace: seq<System>, i: nat)
    requires IsRun(trace) && i < |trace|
    ensures ListingFlights(trace[i])
  {
    if i > 0 {
      RunListingFlights(trace, i - 1);
      StepPages(trace, i);
    }
  }

  /**
   * Every cached page is the whole body of a successful GET that was read earlier in the run for exactly this
   * key behind this state, with the time to live of that call counted from then.
   */
  lemma {:induction false} CachedPageWasRead(trace: seq<System>, i: nat, sid: Sid, key: CacheKey) returns (j: nat)
    requires IsRun(trace) && i < |trace| && sid < |trace[i].objs| && key in trace[i].objs[sid].responses && key.PageKey?
    ensures j < i && PageArrives(trace[j], trace[j + 1], sid, key, trace[i].objs[sid].responses[key])
  {
    hide PageArrives, AddsOnlyPages, IsRun, ListingFlights;
    StartsEmpty(trace);
    if i > 0 {
      RunListingFlights(trace, i - 1);
      StepPages(trace, i);
      AddedPage(trace[i - 1], trace[i], sid, key);
      j := i - 1;
      if Had(trace[i - 1], sid, key, trace[i].objs[sid].responses[key]) {
        j := CachedPageWasRead(trace, i - 1, sid, key);
      }
    }
  }

  lemma {:induction false} StartsEmpty(trace: seq<System>)
    requires IsRun(trace)
    ensures trace[0].objs == []
  {
  }

  lemma {:induction false} AddedPage(s: System, s': System, sid: Sid, key: CacheKey)
    requires AddsOnlyPages(s, s') && sid < |s'.objs| && key in s'.objs[sid].responses && key.PageKey?
    ensures Had(s, sid, key, s'.objs[sid].responses[key]) || PageArrives(s, s', sid, key, s'.objs[sid].responses[key])
  {
  }

  /** And every successful GET with a time to live is kept, if its body is within the bound. */
  lemma {:induction false} ReadPageIsCached(trace: seq<System>, i: nat, p: Pid, body: string)
    requires IsRun(trace) && i + 1 < |trace| && Reads(trace[i], p, false, body, trace[i + 1]) && |body| <= MAX_CACHED_BYTES
    requires var me := trace[i].procs[p]; me.call.isGet && me.call.ttl > 0 && me.pc.work.response.status == 200
    ensures var s, s', me := trace[i], trace[i + 1], trace[i].procs[p];
      && me.call.key in s'.objs[me.pc.sid].responses
      && s'.objs[me.pc.sid].responses[me.call.key] == CachedResponse(200, body, s.clock + me.call.ttl)
  {
    hide TotalBytes;
  }

  // What eviction goes by.

  /** A state counts as used when it is reserved, at the time of the scan, and again when its user leaves. */
  lemma {:induction false} UseIsNoted(trace: seq<System>, i: nat, p: Pid)
    requires IsRun(trace) && i + 1 < |trace| && p < |trace[i].procs|
    ensures Admits(trace[i], p, trace[i + 1]) && trace[i + 1].procs[p].pc.With? ==>
      trace[i + 1].procs[p].pc.sid < |trace[i + 1].objs|
      && trace[i + 1].objs[trace[i + 1].procs[p].pc.sid].lastUsed == trace[i].procs[p].pc.scan.now
    ensures Releases(trace[i], p, trace[i + 1]) ==>
      trace[i + 1].objs[trace[i].procs[p].pc.sid].lastUsed == trace[i].clock
  {
    hide IsRun, Remaining;
  }
}
