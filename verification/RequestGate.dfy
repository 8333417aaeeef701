/**
 * The shared request cache as a transition system. Any number of goroutines run
 * `acquire`, `release`, `RoundTrip` and `cachedPackageListing` at once; a step is one
 * access to the mutex, to a gate channel, or to data that one of them protects.
 */
module RequestGate {
  import opened Prelude
  import opened RequestState

  const MAX_REQUEST_STATES: nat := 64

  type Pid = nat
  type Sid = nat
  type Fid = nat

  datatype Identity = Identity(credential: string, host: string)

  /** What a goroutine was asked for: one HTTP request or one whole listing. */
  datatype Call =
    | Request(key: CacheKey, isGet: bool, ttl: Time)
    | Listing(key: CacheKey, refetch: bool)

  /** HTTP requests and listings are cached under different kinds of key. */
  predicate KeyFits(call: Call) {
    if call.Request? then call.key.PageKey? else call.key.ListingKey?
  }

  /** What a call has decided to return once it has released the gate. */
  datatype Outcome =
    | Received(send: nat)
    | Replayed(cached: CachedResponse)
    | Snapshot(body: string, lookedAt: Time)
    | Joined(fid: Fid)
    | Led
    | Failed(limit: Option<Time>)

  /** An acquire that scans for evictable states: those still to visit, those found busy, its choice. */
  datatype Scan = Scan(id: Identity, now: Time, todo: set<Identity>, spared: set<Identity>, oldest: Option<Identity>)

  /** What a goroutine does with the state that acquire reserved for it. */
  datatype Work =
    | Waiting
    | Cancelling
    | Holding
    | Sending(send: nat)
    | Reading(send: nat, response: Response, observedAt: Time)
    | Releasing(outcome: Outcome)

  datatype Pc =
    | Idle
    | Locking(id: Identity)
    | Scanning(scan: Scan)
    | Inspecting(scan: Scan, at: Identity, held: Sid)
    | With(id: Identity, sid: Sid, work: Work)
    | Joining(id: Identity, fid: Fid)
    | Publishing(result: Option<string>)
    | Filling(result: Option<string>)

  /** The flight that a goroutine leads; between its page requests its pc is Idle. */
  datatype Lead = Lead(id: Identity, sid: Sid, key: CacheKey, fid: Fid)

  /** `broken` records that one of the leader's page requests failed. */
  datatype Proc = Proc(pc: Pc, call: Call, lead: Option<Lead>, broken: bool)

  /**
   * One requestState: tokens in its gate channel, its user count and its protected data.
   * `seen` is history: the responses that its throttle has observed.
   */
  datatype Shared = Shared(
    id: Identity, tokens: int, users: int, lastUsed: Time,
    throttle: Throttle, responses: Responses, listings: map<CacheKey, Fid>, seen: seq<Seen>)

  datatype Verdict = Pending | Published(body: string, at: Time) | Abandoned(limit: Option<Time>)

  /**
   * One refresh: who runs it, the HTTP requests made before it began, and its pages since. When it
   * ends, `broken` records whether one of its page requests failed.
   */
  datatype Flight = Flight(sid: Sid, key: CacheKey, leader: Pid, firstSend: nat, pages: seq<nat>, verdict: Verdict, broken: bool)

  /** How a listing call came by what it returns: from the cache, from a refresh it joined, or from its own. */
  datatype How = Hit(lookedAt: Time) | Joiner(fid: Fid) | Leader(fid: Fid)

  datatype Reply = Body(body: string) | Failure(limit: Option<Time>)

  /** History: what a listing call returned. */
  datatype Answer = Answer(pid: Pid, id: Identity, key: CacheKey, how: How, reply: Reply)

  /** The log of HTTP requests sent; `flight` is the refresh that asked for a page, if any. */
  datatype Sent = Sent(id: Identity, sid: Sid, at: Time, deadline: Time, flight: Option<Fid>)

  datatype System = System(
    clock: Time, mu: Option<Pid>, states: map<Identity, Sid>, objs: seq<Shared>,
    procs: seq<Proc>, flights: seq<Flight>, sends: seq<Sent>, answers: seq<Answer>)

  datatype Touch = Touch(sid: Sid, obj: Shared)

  /** What a step changes: its goroutine, at most one state in place, and the shared fields. */
  datatype Effect = Effect(
    me: Proc, touch: Option<Touch>, created: Option<Shared>, mu: Option<Pid>,
    states: map<Identity, Sid>, flights: seq<Flight>, sends: seq<Sent>, answers: seq<Answer>)

  const INITIAL := System(0, None, map[], [], [], [], [], [])

  // Who counts as a user, and who holds the gate token.

  function UserOf(pr: Proc): Option<Sid> {
    if pr.pc.With? then Some(pr.pc.sid) else None
  }

  function HolderOf(pr: Proc): Option<Sid> {
    if pr.pc.With? && !pr.pc.work.Waiting? && !pr.pc.work.Cancelling? then Some(pr.pc.sid)
    else if pr.pc.Inspecting? then Some(pr.pc.held)
    else if pr.pc.Filling? && pr.lead.Some? then Some(pr.lead.value.sid)
    else None
  }

  ghost function Users(procs: seq<Proc>, sid: Sid): set<Pid> {
    set p | 0 <= p < |procs| && UserOf(procs[p]) == Some(sid)
  }

  ghost function Holders(procs: seq<Proc>, sid: Sid): set<Pid> {
    set p | 0 <= p < |procs| && HolderOf(procs[p]) == Some(sid)
  }

  predicate InFlight(pr: Proc) {
    pr.pc.With? && (pr.pc.work.Sending? || pr.pc.work.Reading?)
  }

  // A state that acquire may evict, as its scan tests it while holding the token.

  predicate Evictable(o: Shared, now: Time) {
    o.users == 0 && o.listings == map[] && o.throttle.until <= now
  }

  // The steps: what each needs, and its effect.

  function Quiet(s: System, me: Proc): Effect {
    Effect(me, None, None, s.mu, s.states, s.flights, s.sends, s.answers)
  }

  function Touching(s: System, me: Proc, sid: Sid, obj: Shared): Effect {
    Effect(me, Some(Touch(sid, obj)), None, s.mu, s.states, s.flights, s.sends, s.answers)
  }

  predicate HasObject(s: System, sid: Sid) {
    sid < |s.objs|
  }

  /** Whether RoundTrip buffers the body before it decides. */
  predicate ReadsBody(call: Call, r: Response)
    requires call.Request?
  {
    r.status == 403 || r.status == 429 || (call.ttl > 0 && call.isGet && r.status == 200)
  }

  /** A page request that ends without a response breaks the fetch it belongs to. */
  function GivenUp(me: Proc): Proc {
    me.(pc := Idle, broken := me.lead.Some?)
  }

  predicate CanBegin(me: Proc, call: Call) {
    && me.pc.Idle? && KeyFits(call)
    && (call.Listing? ==> me.lead.None?)
    && (me.lead.Some? ==> call.Request? && call.ttl == 0)
  }

  /** The steps that move a goroutine on without touching a shared field. */
  predicate QuietMove(s: System, me: Proc, me': Proc) {
    // a call begins
    || (me'.pc.Locking? && CanBegin(me, me'.call) && me' == me.(pc := Locking(me'.pc.id), call := me'.call))
    // the context of a waiting call ends
    || (me.pc.With? && me.pc.work.Waiting? && me' == me.(pc := me.pc.(work := Cancelling)))
    // the HTTP request fails without a response
    || (me.pc.With? && me.pc.work.Sending? && me' == me.(pc := me.pc.(work := Releasing(Failed(None)))))
    // the response body cannot be read
    || (CanBody(s, me) && ReadsBody(me.call, me.pc.work.response)
        && me' == me.(pc := me.pc.(work := Releasing(Failed(RetryLimit(s.objs[me.pc.sid].throttle, s.clock))))))
    // a joiner gives up before its flight is done
    || (me.pc.Joining? && me' == me.(pc := Idle))
    // the leader's fetch ends; it can succeed only if no page request failed
    || (me.pc.Idle? && me.lead.Some? && me'.pc.Publishing? && (me'.pc.result.Some? ==> !me.broken)
        && me' == me.(pc := me'.pc))
  }

  /** The scan has yet to visit `at`. */
  predicate CanVisit(s: System, me: Proc, at: Identity) {
    me.pc.Scanning? && at in me.pc.scan.todo && at in s.states && HasObject(s, s.states[at])
  }

  predicate CanTake(s: System, me: Proc, at: Identity) {
    CanVisit(s, me, at) && s.objs[s.states[at]].tokens > 0
  }

  predicate CanJudge(s: System, me: Proc) {
    && me.pc.Inspecting? && HasObject(s, me.pc.held)
    && (me.pc.scan.oldest.Some? ==> me.pc.scan.oldest.value in s.states && HasObject(s, s.states[me.pc.scan.oldest.value]))
  }

  predicate CanAdmit(s: System, me: Proc) {
    me.pc.Scanning? && me.pc.scan.todo == {} && (me.pc.scan.id in s.states ==> HasObject(s, s.states[me.pc.scan.id]))
  }

  predicate CanWithdraw(s: System, me: Proc) {
    (me.pc.With? && me.pc.work.Cancelling?) && HasObject(s, me.pc.sid) && s.mu.None?
  }

  predicate CanEnter(s: System, me: Proc) {
    (me.pc.With? && me.pc.work.Waiting?) && HasObject(s, me.pc.sid) && s.objs[me.pc.sid].tokens > 0
  }

  predicate CanDecide(s: System, me: Proc) {
    (me.pc.With? && me.pc.work.Holding?) && HasObject(s, me.pc.sid) && me.call.Request?
  }

  predicate CanHeaders(s: System, me: Proc) {
    (me.pc.With? && me.pc.work.Sending?) && HasObject(s, me.pc.sid)
  }

  predicate CanBody(s: System, me: Proc) {
    (me.pc.With? && me.pc.work.Reading?) && HasObject(s, me.pc.sid) && me.call.Request?
  }

  predicate CanLook(s: System, me: Proc) {
    (me.pc.With? && me.pc.work.Holding?) && HasObject(s, me.pc.sid) && me.call.Listing?
  }

  predicate CanRelease(s: System, me: Proc) {
    && (me.pc.With? && me.pc.work.Releasing?) && HasObject(s, me.pc.sid) && s.mu.None?
    && (me.lead.Some? ==> me.lead.value.fid < |s.flights|)
  }

  predicate CanGrab(s: System, me: Proc) {
    me.pc.Publishing? && me.lead.Some? && HasObject(s, me.lead.value.sid) && s.objs[me.lead.value.sid].tokens > 0
  }

  predicate CanPublish(s: System, me: Proc) {
    me.pc.Filling? && me.lead.Some? && HasObject(s, me.lead.value.sid) && me.lead.value.fid < |s.flights|
  }

  function DoLock(s: System, p: Pid, me: Proc): Effect
    requires me.pc.Locking?
  {
    Quiet(s, me.(pc := Scanning(Scan(me.pc.id, s.clock, s.states.Keys, {}, None)))).(mu := Some(p))
  }

  /** The gate of `at` is held by another goroutine, so the scan leaves that state alone. */
  function DoSkip(s: System, me: Proc, at: Identity): Effect
    requires CanVisit(s, me, at)
  {
    var scan := me.pc.scan;
    Quiet(s, me.(pc := Scanning(scan.(todo := scan.todo - {at}, spared := scan.spared + {at}))))
  }

  function DoTake(s: System, me: Proc, at: Identity): Effect
    requires CanTake(s, me, at)
  {
    var sid := s.states[at];
    var scan := me.pc.scan;
    Touching(s, me.(pc := Inspecting(scan.(todo := scan.todo - {at}), at, sid)), sid,
             s.objs[sid].(tokens := s.objs[sid].tokens - 1))
  }

  /** The scan judges the state whose token it took, then puts the token back. */
  function DoJudge(s: System, me: Proc): Effect
    requires CanJudge(s, me)
  {
    var scan, at := me.pc.scan, me.pc.at;
    var o := s.objs[me.pc.held];
    var free := Evictable(o, scan.now);
    var older := scan.oldest.None? || o.lastUsed < s.objs[s.states[scan.oldest.value]].lastUsed;
    var stale := free && scan.now - o.lastUsed >= HOUR;
    var spared := if free then scan.spared else scan.spared + {at};
    var oldest := if free && !stale && older then Some(at) else scan.oldest;
    Touching(s, me.(pc := Scanning(scan.(spared := spared, oldest := oldest))), me.pc.held, o.(tokens := o.tokens + 1))
      .(states := if stale then s.states - {at} else s.states)
  }

  /** The states left after the eviction that makes room, if one is needed and possible. */
  function Remaining(s: System, oldest: Option<Identity>): map<Identity, Sid> {
    if |s.states| >= MAX_REQUEST_STATES && oldest.Some? then s.states - {oldest.value} else s.states
  }

  /** The end of the scan: find or make the state, reserve it, and unlock. */
  function DoAdmit(s: System, me: Proc): Effect
    requires CanAdmit(s, me)
  {
    var scan := me.pc.scan;
    var kept := Remaining(s, scan.oldest);
    if scan.id in s.states then DoReserve(s, me, s.states[scan.id])
    else if |kept| >= MAX_REQUEST_STATES then Quiet(s, GivenUp(me)).(states := kept, mu := None)
    else DoCreate(s, me, kept)
  }

  function DoReserve(s: System, me: Proc, sid: Sid): Effect
    requires me.pc.Scanning? && HasObject(s, sid)
  {
    var o := s.objs[sid];
    Touching(s, me.(pc := With(me.pc.scan.id, sid, Waiting)), sid, o.(lastUsed := me.pc.scan.now, users := o.users + 1))
      .(mu := None)
  }

  function DoCreate(s: System, me: Proc, kept: map<Identity, Sid>): Effect
    requires me.pc.Scanning?
  {
    var id := me.pc.scan.id;
    Quiet(s, me.(pc := With(id, |s.objs|, Waiting)))
      .(mu := None, states := kept[id := |s.objs|],
        created := Some(Shared(id, 1, 1, me.pc.scan.now, UNTHROTTLED, map[], map[], [])))
  }

  function DoWithdraw(s: System, me: Proc): Effect
    requires CanWithdraw(s, me)
  {
    var o := s.objs[me.pc.sid];
    Touching(s, GivenUp(me), me.pc.sid, o.(users := o.users - 1))
  }

  function DoEnter(s: System, me: Proc): Effect
    requires CanEnter(s, me)
  {
    var o := s.objs[me.pc.sid];
    Touching(s, me.(pc := me.pc.(work := Holding)), me.pc.sid, o.(tokens := o.tokens - 1))
  }

  /** RoundTrip under the gate: replay a cached response, refuse before the deadline, or send. */
  function DoDecide(s: System, me: Proc): Effect
    requires CanDecide(s, me)
  {
    var pc := me.pc;
    var live := Unexpired(s.objs[pc.sid].responses, s.clock);
    var o := s.objs[pc.sid].(responses := live);
    if me.call.isGet && me.call.ttl > 0 && me.call.key in live then
      Touching(s, me.(pc := pc.(work := Releasing(Replayed(live[me.call.key])))), pc.sid, o)
    else if s.clock < o.throttle.until then
      Touching(s, me.(pc := pc.(work := Releasing(Failed(Some(o.throttle.until))))), pc.sid, o)
    else
      var flight := if me.lead.Some? then Some(me.lead.value.fid) else None;
      Touching(s, me.(pc := pc.(work := Sending(|s.sends|))), pc.sid, o)
        .(sends := s.sends + [Sent(pc.id, pc.sid, s.clock, o.throttle.until, flight)])
  }

  /** The status line and headers arrived: they are observed at once. */
  function DoHeaders(s: System, me: Proc, r: Response): Effect
    requires CanHeaders(s, me)
  {
    var o := s.objs[me.pc.sid];
    Touching(s, me.(pc := me.pc.(work := Reading(me.pc.work.send, r, s.clock))), me.pc.sid,
             o.(throttle := Observed(o.throttle, r, false, s.clock), seen := o.seen + [Seen(r, false, s.clock)]))
  }

  /** What a body that arrived does to the throttle: nothing if the headers already throttled. */
  function BodyThrottle(o: Shared, work: Work, mentions: bool): Throttle
    requires work.Reading?
  {
    if IsThrottled(work.response, false) then o.throttle
    else Observed(o.throttle, work.response, mentions, work.observedAt)
  }

  function BodySeen(o: Shared, work: Work, mentions: bool): seq<Seen>
    requires work.Reading?
  {
    if IsThrottled(work.response, false) || o.seen == [] then o.seen
    else o.seen[..|o.seen| - 1] + [Seen(work.response, mentions, work.observedAt)]
  }

  /** A successful GET with a time to live is cached, unless it throttled or is too large. */
  ghost function BodyResponses(o: Shared, call: Call, work: Work, mentions: bool, body: string, now: Time): Responses
    requires work.Reading? && call.Request?
  {
    if work.response.status == 200 && call.isGet && call.ttl > 0 && |body| <= MAX_CACHED_BYTES
       && !IsThrottled(work.response, false) && !IsThrottled(work.response, mentions)
    then Stored(o.responses, call.key, CachedResponse(200, body, now + call.ttl))
    else o.responses
  }

  /** The body arrived: observe again unless the headers already throttled, and maybe cache. */
  ghost function DoBody(s: System, me: Proc, mentions: bool, body: string): Effect
    requires CanBody(s, me)
  {
    var pc := me.pc;
    var o := s.objs[pc.sid];
    var throttle := BodyThrottle(o, pc.work, mentions);
    var throttled := IsThrottled(pc.work.response, false) || IsThrottled(pc.work.response, mentions);
    var outcome := if throttled then Failed(Some(throttle.until)) else Received(pc.work.send);
    Touching(s, me.(pc := pc.(work := Releasing(outcome))), pc.sid,
             o.(throttle := throttle, seen := BodySeen(o, pc.work, mentions),
               responses := BodyResponses(o, me.call, pc.work, mentions, body, s.clock)))
  }

  /** cachedPackageListing under the gate: a live snapshot, a flight to join, or a new flight. */
  function DoLook(s: System, p: Pid, me: Proc): Effect
    requires CanLook(s, me)
  {
    var pc := me.pc;
    var key := me.call.key;
    var live := Unexpired(s.objs[pc.sid].responses, s.clock);
    var o := s.objs[pc.sid].(responses := live);
    if key in live && !me.call.refetch then
      Touching(s, me.(pc := pc.(work := Releasing(Snapshot(live[key].body, s.clock)))), pc.sid, o)
    else if key in o.listings then
      Touching(s, me.(pc := pc.(work := Releasing(Joined(o.listings[key])))), pc.sid, o)
    else if |o.listings| >= MAX_CACHED_RESPONSES then
      Touching(s, me.(pc := pc.(work := Releasing(Failed(None)))), pc.sid, o)
    else
      var fid := |s.flights|;
      Touching(s, Proc(pc.(work := Releasing(Led)), me.call, Some(Lead(pc.id, pc.sid, key, fid)), false), pc.sid,
               o.(listings := o.listings[key := fid]))
        .(flights := s.flights + [Flight(pc.sid, key, p, |s.sends|, [], Pending, false)])
  }

  /** release, and the return of the call: a page that arrived is added to its flight, a snapshot is the answer. */
  function DoRelease(s: System, p: Pid, me: Proc): Effect
    requires CanRelease(s, me)
  {
    var pc := me.pc;
    var o := s.objs[pc.sid];
    var freed := o.(users := o.users - 1, tokens := o.tokens + 1, lastUsed := s.clock);
    match pc.work.outcome
    case Joined(fid) => Touching(s, me.(pc := Joining(pc.id, fid)), pc.sid, freed)
    case Failed(_) => Touching(s, GivenUp(me), pc.sid, freed)
    case Received(send) =>
      var base := Touching(s, me.(pc := Idle), pc.sid, freed);
      if me.lead.None? then base
      else
        var flight := s.flights[me.lead.value.fid];
        base.(flights := s.flights[me.lead.value.fid := flight.(pages := flight.pages + [send])])
    case Snapshot(body, lookedAt) =>
      Touching(s, me.(pc := Idle), pc.sid, freed)
        .(answers := s.answers + [Answer(p, pc.id, me.call.key, Hit(lookedAt), Body(body))])
    case _ => Touching(s, me.(pc := Idle), pc.sid, freed)
  }

  function ReplyOf(v: Verdict): Reply
    requires !v.Pending?
  {
    if v.Published? then Body(v.body) else Failure(v.limit)
  }

  predicate CanWake(s: System, me: Proc) {
    me.pc.Joining? && me.pc.fid < |s.flights| && !s.flights[me.pc.fid].verdict.Pending?
  }

  /** The flight that was joined is done: its outcome is the answer. */
  function DoWake(s: System, p: Pid, me: Proc): Effect
    requires CanWake(s, me)
  {
    Quiet(s, me.(pc := Idle))
      .(answers := s.answers + [Answer(p, me.pc.id, me.call.key, Joiner(me.pc.fid), ReplyOf(s.flights[me.pc.fid].verdict))])
  }

  /** The leader takes the gate without registering as a user: its flight pins the state. */
  function DoGrab(s: System, me: Proc): Effect
    requires CanGrab(s, me)
  {
    var o := s.objs[me.lead.value.sid];
    Touching(s, me.(pc := Filling(me.pc.result)), me.lead.value.sid, o.(tokens := o.tokens - 1))
  }

  /** Publication: the outcome is cached if the fetch succeeded, ends the flight, and is the leader's own answer. */
  ghost function DoPublish(s: System, p: Pid, me: Proc): Effect
    requires CanPublish(s, me)
  {
    var lead := me.lead.value;
    var result := me.pc.result;
    var o := s.objs[lead.sid];
    var responses := if result.Some? then Stored(o.responses, lead.key, CachedResponse(200, result.value, s.clock + PACKAGE_CACHE_TTL))
                     else o.responses;
    var verdict := if result.Some? then Published(result.value, s.clock) else Abandoned(RetryLimit(o.throttle, s.clock));
    Touching(s, Proc(Idle, me.call, None, false), lead.sid,
             o.(tokens := o.tokens + 1, responses := responses, listings := o.listings - {lead.key}))
      .(flights := s.flights[lead.fid := s.flights[lead.fid].(verdict := verdict, broken := me.broken)],
        answers := s.answers + [Answer(p, lead.id, lead.key, Leader(lead.fid), ReplyOf(verdict))])
  }

  predicate Fits(s: System, p: Pid, e: Effect) {
    p < |s.procs| && (e.touch.Some? ==> e.touch.value.sid < |s.objs|)
  }

  function Commit(s: System, p: Pid, e: Effect): System
    requires Fits(s, p, e)
  {
    var touched := if e.touch.Some? then s.objs[e.touch.value.sid := e.touch.value.obj] else s.objs;
    System(s.clock, e.mu, e.states, if e.created.Some? then touched + [e.created.value] else touched,
           s.procs[p := e.me], e.flights, e.sends, e.answers)
  }

  // The step relation: one disjunct for each kind of step.

  ghost predicate Commits(s: System, p: Pid, e: Effect, s': System) {
    Fits(s, p, e) && s' == Commit(s, p, e)
  }

  ghost predicate MovesOn(s: System, p: Pid, s': System) {
    p < |s.procs| && exists me' :: QuietMove(s, s.procs[p], me') && Commits(s, p, Quiet(s, me'), s')
  }

  ghost predicate Locks(s: System, p: Pid, s': System) {
    && p < |s.procs| && s.procs[p].pc.Locking? && s.mu.None?
    && Commits(s, p, DoLock(s, p, s.procs[p]), s')
  }

  ghost predicate Skips(s: System, p: Pid, at: Identity, s': System) {
    && p < |s.procs| && CanVisit(s, s.procs[p], at) && s.objs[s.states[at]].tokens <= 0
    && Commits(s, p, DoSkip(s, s.procs[p], at), s')
  }

  ghost predicate Takes(s: System, p: Pid, at: Identity, s': System) {
    p < |s.procs| && CanTake(s, s.procs[p], at) && Commits(s, p, DoTake(s, s.procs[p], at), s')
  }

  ghost predicate Judges(s: System, p: Pid, s': System) {
    p < |s.procs| && CanJudge(s, s.procs[p]) && Commits(s, p, DoJudge(s, s.procs[p]), s')
  }

  ghost predicate Admits(s: System, p: Pid, s': System) {
    p < |s.procs| && CanAdmit(s, s.procs[p]) && Commits(s, p, DoAdmit(s, s.procs[p]), s')
  }

  ghost predicate Withdraws(s: System, p: Pid, s': System) {
    p < |s.procs| && CanWithdraw(s, s.procs[p]) && Commits(s, p, DoWithdraw(s, s.procs[p]), s')
  }

  ghost predicate Enters(s: System, p: Pid, s': System) {
    p < |s.procs| && CanEnter(s, s.procs[p]) && Commits(s, p, DoEnter(s, s.procs[p]), s')
  }

  ghost predicate Decides(s: System, p: Pid, s': System) {
    p < |s.procs| && CanDecide(s, s.procs[p]) && Commits(s, p, DoDecide(s, s.procs[p]), s')
  }

  ghost predicate Hears(s: System, p: Pid, r: Response, s': System) {
    p < |s.procs| && CanHeaders(s, s.procs[p]) && Commits(s, p, DoHeaders(s, s.procs[p], r), s')
  }

  ghost predicate Reads(s: System, p: Pid, mentions: bool, body: string, s': System) {
    && p < |s.procs| && CanBody(s, s.procs[p])
    && (mentions ==> ReadsBody(s.procs[p].call, s.procs[p].pc.work.response))
    && Commits(s, p, DoBody(s, s.procs[p], mentions, body), s')
  }

  ghost predicate Looks(s: System, p: Pid, s': System) {
    p < |s.procs| && CanLook(s, s.procs[p]) && Commits(s, p, DoLook(s, p, s.procs[p]), s')
  }

  ghost predicate Releases(s: System, p: Pid, s': System) {
    p < |s.procs| && CanRelease(s, s.procs[p]) && Commits(s, p, DoRelease(s, p, s.procs[p]), s')
  }

  ghost predicate Grabs(s: System, p: Pid, s': System) {
    p < |s.procs| && CanGrab(s, s.procs[p]) && Commits(s, p, DoGrab(s, s.procs[p]), s')
  }

  ghost predicate Publishes(s: System, p: Pid, s': System) {
    p < |s.procs| && CanPublish(s, s.procs[p]) && Commits(s, p, DoPublish(s, p, s.procs[p]), s')
  }

  ghost predicate Wakes(s: System, p: Pid, s': System) {
    p < |s.procs| && CanWake(s, s.procs[p]) && Commits(s, p, DoWake(s, p, s.procs[p]), s')
  }

  /** Time passes. */
  ghost predicate Ticks(s: System, s': System) {
    s'.clock >= s.clock && s' == s.(clock := s'.clock)
  }

  /** A new goroutine appears. */
  ghost predicate Spawns(s: System, s': System) {
    exists call :: KeyFits(call) && s' == s.(procs := s.procs + [Proc(Idle, call, None, false)])
  }

  ghost predicate Acts(s: System, p: Pid, s': System) {
    || MovesOn(s, p, s') || Locks(s, p, s') || (exists at :: Skips(s, p, at, s')) || (exists at :: Takes(s, p, at, s'))
    || Judges(s, p, s') || Admits(s, p, s') || Withdraws(s, p, s') || Enters(s, p, s') || Decides(s, p, s')
    || (exists r :: Hears(s, p, r, s')) || (exists mentions, body :: Reads(s, p, mentions, body, s'))
    || Looks(s, p, s') || Releases(s, p, s') || Grabs(s, p, s') || Publishes(s, p, s') || Wakes(s, p, s')
  }

  ghost predicate Next(s: System, s': System) {
    Ticks(s, s') || Spawns(s, s') || exists p :: Acts(s, p, s')
  }

  ghost predicate IsRun(trace: seq<System>) {
    && |trace| >= 1 && trace[0] == INITIAL
    && forall i :: 0 <= i < |trace| - 1 ==> Next(trace[i], trace[i + 1])
  }
}
