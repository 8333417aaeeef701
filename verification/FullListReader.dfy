/**
 * The coordinator of full list reads: one walk at a time, shared by its readers, and fenced by an
 * epoch that every seed and clear advances. Promise callbacks are steps of their own.
 */
module FullListReader {
  import opened Prelude

  type Items = seq<string>
  type WalkId = nat
  type ReadId = nat

  datatype Progress = Running | Settled(result: Option<Items>) | Finished(result: Option<Items>)

  /** A walk over the whole list, with the epoch in which it was asked for. */
  datatype Walk = Walk(epoch: nat, progress: Progress)

  /** Where a value came from: a seed, named by the epoch that it opened, or a walk. */
  datatype Source = Seeded(epoch: nat) | Walked(walk: WalkId)

  datatype Value = Value(items: Items, source: Source)

  /** A promise that `read` returned. */
  datatype Reply = Sharing(walk: WalkId) | Behind(walk: WalkId) | Again | Resolved(value: Value) | Rejected(walk: WalkId)

  /** A read, with the epoch in which it was issued. */
  datatype Read = Read(issued: nat, force: bool, reply: Reply)

  /** The closure's variables, and the promises and walks that it has made; `seeded` is the last seed still in force. */
  datatype State = State(cached: Option<Value>, epoch: nat, inFlight: Option<WalkId>, walks: seq<Walk>,
                         calls: seq<Read>, seeded: Option<Items>)

  const NEW := State(None, 0, None, [], [], None)

  // The steps.

  predicate HasWalk(s: State, w: Option<WalkId>) {
    w.Some? ==> w.value < |s.walks|
  }

  /** The body of `read`: share the walk of this epoch, wait behind an older one, use the cache, or start a walk. */
  function Attempt(s: State, force: bool): (State, Reply)
    requires HasWalk(s, s.inFlight)
  {
    if s.inFlight.Some? then
      if s.walks[s.inFlight.value].epoch == s.epoch then (s, Sharing(s.inFlight.value)) else (s, Behind(s.inFlight.value))
    else if !force && s.cached.Some? then (s, Resolved(s.cached.value))
    else (s.(inFlight := Some(|s.walks|), walks := s.walks + [Walk(s.epoch, Running)]), Sharing(|s.walks|))
  }

  function DoRead(s: State, force: bool): State
    requires HasWalk(s, s.inFlight)
  {
    var (s', reply) := Attempt(s, force);
    s'.(calls := s.calls + [Read(s.epoch, force, reply)])
  }

  /** The callback of a read that waited behind an older walk. */
  function DoAgain(s: State, r: ReadId): State
    requires HasWalk(s, s.inFlight) && r < |s.calls|
  {
    var (s', reply) := Attempt(s, s.calls[r].force);
    s'.(calls := s.calls[r := s.calls[r].(reply := reply)])
  }

  function DoSeed(s: State, items: Items): State {
    s.(epoch := s.epoch + 1, cached := Some(Value(items, Seeded(s.epoch + 1))), seeded := Some(items))
  }

  function DoClear(s: State): State {
    s.(epoch := s.epoch + 1, cached := None, seeded := None)
  }

  predicate CanSettle(s: State) {
    s.inFlight.Some? && s.inFlight.value < |s.walks| && s.walks[s.inFlight.value].progress.Running?
  }

  /** The walk ends: its result is cached if no seed or clear has come since it was asked for. */
  function DoSettle(s: State, result: Option<Items>): State
    requires CanSettle(s)
  {
    var w := s.inFlight.value;
    var current := result.Some? && s.walks[w].epoch == s.epoch;
    s.(walks := s.walks[w := s.walks[w].(progress := Settled(result))],
       cached := if current then Some(Value(result.value, Walked(w))) else s.cached)
  }

  predicate CanFinish(s: State) {
    s.inFlight.Some? && s.inFlight.value < |s.walks| && s.walks[s.inFlight.value].progress.Settled?
  }

  function Answer(reply: Reply, w: WalkId, result: Option<Items>): Reply {
    if reply == Sharing(w) then if result.Some? then Resolved(Value(result.value, Walked(w))) else Rejected(w)
    else if reply == Behind(w) then Again
    else reply
  }

  /** The walk's promise is settled: the slot is free, its readers are answered, those behind it may try again. */
  function DoFinish(s: State): State
    requires CanFinish(s)
  {
    var w := s.inFlight.value;
    var result := s.walks[w].progress.result;
    s.(inFlight := None, walks := s.walks[w := s.walks[w].(progress := Finished(result))],
       calls := seq(|s.calls|, r requires 0 <= r < |s.calls| => s.calls[r].(reply := Answer(s.calls[r].reply, w, result))))
  }

  class Coordinator {
    var cached: Option<Value>
    var epoch: nat
    var inFlight: Option<WalkId>
    var walks: seq<Walk>
    var calls: seq<Read>
    ghost var seeded: Option<Items>

    ghost function Now(): State
      reads this
    {
      State(cached, epoch, inFlight, walks, calls, seeded)
    }

    constructor ()
      ensures Now() == NEW
    {
      cached, epoch, inFlight, walks, calls, seeded := None, 0, None, [], [], None;
    }

    method Try(force: bool) returns (reply: Reply)
      requires HasWalk(Now(), inFlight)
      modifies this
      ensures (Now(), reply) == Attempt(old(Now()), force)
    {
      if inFlight.Some? {
        if walks[inFlight.value].epoch == epoch {
          return Sharing(inFlight.value);
        }
        return Behind(inFlight.value);
      }
      if !force && cached.Some? {
        return Resolved(cached.value);
      }
      reply := Sharing(|walks|);
      inFlight := Some(|walks|);
      walks := walks + [Walk(epoch, Running)];
    }

    method ReadList(force: bool)
      requires HasWalk(Now(), inFlight)
      modifies this
      ensures Now() == DoRead(old(Now()), force)
    {
      var issued := epoch;
      var reply := Try(force);
      calls := calls + [Read(issued, force, reply)];
    }

    method ReadAgain(r: ReadId)
      requires HasWalk(Now(), inFlight) && r < |calls|
      modifies this
      ensures Now() == DoAgain(old(Now()), r)
    {
      var reply := Try(calls[r].force);
      calls := calls[r := calls[r].(reply := reply)];
    }

    method Seed(items: Items)
      modifies this
      ensures Now() == DoSeed(old(Now()), items)
    {
      epoch := epoch + 1;
      cached := Some(Value(items, Seeded(epoch)));
      seeded := Some(items);
    }

    method Clear()
      modifies this
      ensures Now() == DoClear(old(Now()))
    {
      epoch := epoch + 1;
      cached := None;
      seeded := None;
    }

    method Settle(result: Option<Items>)
      requires CanSettle(Now())
      modifies this
      ensures Now() == DoSettle(old(Now()), result)
    {
      var w := inFlight.value;
      walks := walks[w := walks[w].(progress := Settled(result))];
      if result.Some? && walks[w].epoch == epoch {
        cached := Some(Value(result.value, Walked(w)));
      }
    }

    method Finish()
      requires CanFinish(Now())
      modifies this
      ensures Now() == DoFinish(old(Now()))
    {
      var w := inFlight.value;
      var result := walks[w].progress.result;
      inFlight := None;
      walks := walks[w := walks[w].(progress := Finished(result))];
      for r := 0 to |calls|
        invariant cached == old(cached) && epoch == old(epoch) && inFlight == None && seeded == old(seeded)
        invariant walks == old(walks)[w := old(walks)[w].(progress := Finished(result))]
        invariant |calls| == |old(calls)|
        invariant forall k | 0 <= k < r :: calls[k] == old(calls)[k].(reply := Answer(old(calls)[k].reply, w, result))
        invariant forall k | r <= k < |calls| :: calls[k] == old(calls)[k]
      {
        calls := calls[r := calls[r].(reply := Answer(calls[r].reply, w, result))];
      }
    }
  }

  // Every interleaving of reads, seeds, clears and callbacks.

  ghost predicate Next(s: State, s': State) {
    || (exists force :: HasWalk(s, s.inFlight) && s' == DoRead(s, force))
    || (exists r | 0 <= r < |s.calls| :: s.calls[r].reply.Again? && HasWalk(s, s.inFlight) && s' == DoAgain(s, r))
    || (exists items :: s' == DoSeed(s, items))
    || s' == DoClear(s)
    || (exists result :: CanSettle(s) && s' == DoSettle(s, result))
    || (CanFinish(s) && s' == DoFinish(s))
  }

  ghost predicate IsRun(trace: seq<State>) {
    && |trace| >= 1 && trace[0] == NEW
    && forall i :: 0 <= i < |trace| - 1 ==> Next(trace[i], trace[i + 1])
  }

  function EpochOf(s: State, source: Source): nat {
    match source
    case Seeded(epoch) => epoch
    case Walked(w) => if w < |s.walks| then s.walks[w].epoch else 0
  }

  /** The value is what its walk found. */
  predicate Genuine(s: State, v: Value) {
    v.source.Walked? ==>
      && v.source.walk < |s.walks| && !s.walks[v.source.walk].progress.Running?
      && s.walks[v.source.walk].progress.result == Some(v.items)
  }

  predicate ReadOk(s: State, r: Read) {
    && r.issued <= s.epoch
    && match r.reply
       case Sharing(w) => s.inFlight == Some(w) && w < |s.walks| && s.walks[w].epoch >= r.issued
       case Behind(w) => s.inFlight == Some(w)
       case Resolved(v) => Genuine(s, v) && EpochOf(s, v.source) >= r.issued && (r.force ==> v.source.Walked?)
       case Rejected(w) => w < |s.walks| && s.walks[w].epoch >= r.issued && s.walks[w].progress == Finished(None)
       case Again => true
  }

  ghost predicate Sound(s: State) {
    && HasWalk(s, s.inFlight)
    && (forall w | 0 <= w < |s.walks| :: s.walks[w].epoch <= s.epoch && (s.walks[w].progress.Finished? <==> s.inFlight != Some(w)))
    && (s.cached.Some? ==>
         && Genuine(s, s.cached.value) && EpochOf(s, s.cached.value.source) == s.epoch
         && (s.cached.value.source.Seeded? ==> s.seeded == Some(s.cached.value.items)))
    && (forall r | 0 <= r < |s.calls| :: ReadOk(s, s.calls[r]))
  }

  lemma {:induction false} AttemptSound(s: State, force: bool)
    requires Sound(s)
    ensures var (s', reply) := Attempt(s, force);
      Sound(s') && ReadOk(s', Read(s.epoch, force, reply)) && s'.calls == s.calls && s'.epoch == s.epoch
  {
    var s' := Attempt(s, force).0;
    forall r | 0 <= r < |s.calls| ensures ReadOk(s', s.calls[r]) {
      assert ReadOk(s, s.calls[r]);
    }
  }

  lemma {:induction false} OtherReply(s: State, s': State)
    requires Sound(s) && s' == s.(calls := s'.calls)
    requires forall r | 0 <= r < |s'.calls| :: ReadOk(s, s'.calls[r])
    ensures Sound(s')
  {
    forall r | 0 <= r < |s'.calls| ensures ReadOk(s', s'.calls[r]) {
      assert ReadOk(s, s'.calls[r]);
    }
  }

  lemma {:induction false} ReadSound(s: State, force: bool)
    requires Sound(s)
    ensures Sound(DoRead(s, force))
  {
    AttemptSound(s, force);
    var mid := Attempt(s, force).0;
    OtherReply(mid, DoRead(s, force));
  }

  lemma {:induction false} AgainSound(s: State, r: ReadId)
    requires Sound(s) && r < |s.calls| && s.calls[r].reply.Again?
    ensures Sound(DoAgain(s, r))
  {
    var force := s.calls[r].force;
    AttemptSound(s, force);
    var (mid, reply) := Attempt(s, force);
    assert ReadOk(s, s.calls[r]);
    assert ReadOk(mid, s.calls[r].(reply := reply));
    hide Sound, ReadOk;
    OtherReads(mid, s, r, s.calls[r].(reply := reply));
    OtherReply(mid, DoAgain(s, r));
  }

  lemma {:induction false} OtherReads(mid: State, s: State, r: ReadId, read: Read)
    requires Sound(mid) && mid.calls == s.calls && r < |s.calls| && ReadOk(mid, read)
    ensures var after := s.calls[r := read]; forall k | 0 <= k < |after| :: ReadOk(mid, after[k])
  {
  }

  lemma {:induction false} EpochSound(s: State, s': State)
    requires Sound(s) && s' == s.(epoch := s.epoch + 1, cached := s'.cached, seeded := s'.seeded)
    requires s'.cached.Some? ==> s'.cached.value.source == Seeded(s.epoch + 1) && s'.seeded == Some(s'.cached.value.items)
    ensures Sound(s')
  {
    forall r | 0 <= r < |s'.calls| ensures ReadOk(s', s'.calls[r]) {
      assert ReadOk(s, s.calls[r]);
    }
  }

  lemma {:induction false} SettleSound(s: State, result: Option<Items>)
    requires Sound(s) && CanSettle(s)
    ensures Sound(DoSettle(s, result))
  {
    var s' := DoSettle(s, result);
    forall r | 0 <= r < |s'.calls| ensures ReadOk(s', s'.calls[r]) {
      assert ReadOk(s, s.calls[r]);
    }
  }

  lemma {:induction false} FinishSound(s: State)
    requires Sound(s) && CanFinish(s)
    ensures Sound(DoFinish(s))
  {
    var s' := DoFinish(s);
    forall r | 0 <= r < |s'.calls| ensures ReadOk(s', s'.calls[r]) {
      assert ReadOk(s, s.calls[r]);
    }
  }

  lemma {:induction false} NextSound(s: State, s': State)
    requires Sound(s) && Next(s, s')
    ensures Sound(s')
  {
    hide Sound, DoRead, DoAgain, DoSettle, DoFinish;
    if force :| HasWalk(s, s.inFlight) && s' == DoRead(s, force) {
      ReadSound(s, force);
    } else if r :| 0 <= r < |s.calls| && s.calls[r].reply.Again? && HasWalk(s, s.inFlight) && s' == DoAgain(s, r) {
      AgainSound(s, r);
    } else if items :| s' == DoSeed(s, items) {
      EpochSound(s, s');
    } else if s' == DoClear(s) {
      EpochSound(s, s');
    } else if result :| CanSettle(s) && s' == DoSettle(s, result) {
      SettleSound(s, result);
    } else {
      FinishSound(s);
    }
  }

  lemma {:induction false} RunSound(trace: seq<State>, i: nat)
    requires IsRun(trace) && i < |trace|
    ensures Sound(trace[i])
  {
    if i > 0 {
      RunSound(trace, i - 1);
      NextSound(trace[i - 1], trace[i]);
    }
  }

  // What follows.

  /** At most one full walk is under way at any time. */
  lemma {:induction false} OneWalkAtATime(trace: seq<State>, i: nat, v: WalkId, w: WalkId)
    requires IsRun(trace) && i < |trace| && v < |trace[i].walks| && w < |trace[i].walks|
    requires !trace[i].walks[v].progress.Finished? && !trace[i].walks[w].progress.Finished?
    ensures v == w
  {
    RunSound(trace, i);
  }

  /** The cache holds the last seed, or the result of a walk that was asked for in the current epoch. */
  lemma {:induction false} CacheIsCurrent(trace: seq<State>, i: nat)
    requires IsRun(trace) && i < |trace| && trace[i].cached.Some?
    ensures var s, v := trace[i], trace[i].cached.value;
      match v.source
      case Seeded(_) => s.seeded == Some(v.items)
      case Walked(w) => Genuine(s, v) && s.walks[w].epoch == s.epoch
  {
    RunSound(trace, i);
  }

  /** A read never resolves to a walk, or a seed, from before the epoch in which it was issued; a forced one only to a walk. */
  lemma {:induction false} ReadIsNeverOlder(trace: seq<State>, i: nat, r: ReadId)
    requires IsRun(trace) && i < |trace| && r < |trace[i].calls| && trace[i].calls[r].reply.Resolved?
    ensures var s, v := trace[i], trace[i].calls[r].reply.value;
      && EpochOf(s, v.source) >= s.calls[r].issued
      && Genuine(s, v)
      && (s.calls[r].force ==> v.source.Walked?)
  {
    RunSound(trace, i);
    assert ReadOk(trace[i], trace[i].calls[r]);
  }

  /** Nobody waits for a walk that is over: when no walk is in flight, no read is left sharing or behind one. */
  lemma {:induction false} NoReadIsStranded(trace: seq<State>, i: nat, r: ReadId)
    requires IsRun(trace) && i < |trace| && r < |trace[i].calls| && trace[i].inFlight.None?
    ensures trace[i].calls[r].reply.Again? || trace[i].calls[r].reply.Resolved? || trace[i].calls[r].reply.Rejected?
  {
    RunSound(trace, i);
    assert ReadOk(trace[i], trace[i].calls[r]);
  }

  // What a read is answered with.

  /** A read is rejected only by a walk from its own epoch or later that ended without a result. */
  lemma {:induction false} RejectedByItsWalk(trace: seq<State>, i: nat, r: ReadId)
    requires IsRun(trace) && i < |trace| && r < |trace[i].calls| && trace[i].calls[r].reply.Rejected?
    ensures var s, w := trace[i], trace[i].calls[r].reply.walk;
      w < |s.walks| && s.walks[w].epoch >= s.calls[r].issued && s.walks[w].progress == Finished(None)
  {
    RunSound(trace, i);
    assert ReadOk(trace[i], trace[i].calls[r]);
  }

  /** What a read that shares a walk has once the walk is over: exactly its items, or its failure. */
  predicate Answered(s: State, r: ReadId, w: WalkId) {
    && r < |s.calls| && w < |s.walks|
    && match s.walks[w].progress
       case Finished(Some(items)) => s.calls[r].reply == Resolved(Value(items, Walked(w)))
       case Finished(None) => s.calls[r].reply == Rejected(w)
       case _ => s.calls[r].reply == Sharing(w)
  }

  lemma {:induction false} ReadAnswers(s: State, s': State, force: bool, q: ReadId, r: ReadId, w: WalkId)
    requires Sound(s) && Answered(s, r, w)
    requires s' == DoRead(s, force) || (q < |s.calls| && s.calls[q].reply.Again? && s' == DoAgain(s, q))
    ensures Answered(s', r, w)
  {
    hide Sound, ReadOk;
    AttemptWalks(s, force);
    if q < |s.calls| {
      AttemptWalks(s, s.calls[q].force);
    }
    hide Attempt;
  }

  lemma {:induction false} AttemptWalks(s: State, force: bool)
    requires Sound(s)
    ensures HasWalk(s, s.inFlight)
    ensures Attempt(s, force).0.calls == s.calls && s.walks <= Attempt(s, force).0.walks
  {
  }

  lemma {:induction false} SettleAnswers(s: State, result: Option<Items>, r: ReadId, w: WalkId)
    requires Sound(s) && CanSettle(s) && Answered(s, r, w)
    ensures Answered(DoSettle(s, result), r, w)
  {
    hide ReadOk, Genuine, EpochOf;
  }

  lemma {:induction false} FinishAnswers(s: State, r: ReadId, w: WalkId)
    requires Sound(s) && CanFinish(s) && Answered(s, r, w)
    ensures Answered(DoFinish(s), r, w)
  {
    hide ReadOk, Genuine, EpochOf;
  }

  lemma {:induction false} StepAnswers(s: State, s': State, r: ReadId, w: WalkId)
    requires Sound(s) && Next(s, s') && Answered(s, r, w)
    ensures Answered(s', r, w)
  {
    hide Sound, DoRead, DoAgain, DoSettle, DoFinish, CanSettle, CanFinish;
    if force :| HasWalk(s, s.inFlight) && s' == DoRead(s, force) {
      ReadAnswers(s, s', force, 0, r, w);
    } else if q :| 0 <= q < |s.calls| && s.calls[q].reply.Again? && HasWalk(s, s.inFlight) && s' == DoAgain(s, q) {
      ReadAnswers(s, s', false, q, r, w);
    } else if result :| CanSettle(s) && s' == DoSettle(s, result) {
      SettleAnswers(s, result, r, w);
    } else if CanFinish(s) && s' == DoFinish(s) {
      FinishAnswers(s, r, w);
    }
  }

  /** Every read that shares a walk gets what that walk found, as soon as it is over, and keeps it. */
  lemma {:induction false} SharersGetTheWalk(trace: seq<State>, i: nat, j: nat, r: ReadId, w: WalkId)
    requires IsRun(trace) && i <= j < |trace| && r < |trace[i].calls| && trace[i].calls[r].reply == Sharing(w)
    ensures Answered(trace[j], r, w)
    decreases j
  {
    if i == j {
      RunSound(trace, i);
      assert ReadOk(trace[i], trace[i].calls[r]);
    } else {
      SharersGetTheWalk(trace, i, j - 1, r, w);
      RunSound(trace, j - 1);
      assert Next(trace[j - 1], trace[j - 1 + 1]);
      hide IsRun, Sound, Answered, Next;
      StepAnswers(trace[j - 1], trace[j], r, w);
    }
  }

  /** A read behind an older walk waits for its end, and then tries again: it gets nothing of that walk. */
  lemma {:induction false} BehindTriesAgain(trace: seq<State>, i: nat, r: ReadId, w: WalkId)
    requires IsRun(trace) && i + 1 < |trace| && r < |trace[i].calls| && trace[i].calls[r].reply == Behind(w)
    ensures r < |trace[i + 1].calls| && w < |trace[i].walks| && w < |trace[i + 1].walks|
    ensures trace[i + 1].calls[r].reply == if trace[i + 1].walks[w].progress.Finished? then Again else Behind(w)
  {
    RunSound(trace, i);
    assert ReadOk(trace[i], trace[i].calls[r]) && Next(trace[i], trace[i + 1]);
  }

  /**
   * How a read begins: it shares the walk of its epoch, it waits behind an older one, it is answered from the
   * cache, without a walk, exactly if it is not forced and something is cached, and otherwise it starts the one walk.
   */
  lemma {:induction false} ReadBegins(trace: seq<State>, i: nat, force: bool)
    requires IsRun(trace) && i + 1 < |trace| && HasWalk(trace[i], trace[i].inFlight) && trace[i + 1] == DoRead(trace[i], force)
    ensures var s, s' := trace[i], trace[i + 1];
      && |s'.calls| == |s.calls| + 1
      && var reply := s'.calls[|s.calls|].reply;
         && s'.calls[|s.calls|].issued == s.epoch
         && (s.inFlight.Some? ==>
              && s'.walks == s.walks && s.inFlight.value < |s.walks|
              && (s.walks[s.inFlight.value].epoch == s.epoch ==> reply == Sharing(s.inFlight.value))
              && (s.walks[s.inFlight.value].epoch < s.epoch ==> reply == Behind(s.inFlight.value)))
         && (s.inFlight.None? && !force && s.cached.Some? ==>
              reply == Resolved(s.cached.value) && s'.walks == s.walks && s'.inFlight.None?)
         && (s.inFlight.None? && (force || s.cached.None?) ==>
              && reply == Sharing(|s.walks|) && s'.inFlight == Some(|s.walks|)
              && s'.walks == s.walks + [Walk(s.epoch, Running)])
  {
  }

  /** A walk that succeeds in the epoch in which it was asked for is cached; any other leaves the cache alone. */
  lemma {:induction false} SettledIsCached(trace: seq<State>, i: nat, result: Option<Items>)
    requires IsRun(trace) && i + 1 < |trace| && CanSettle(trace[i]) && trace[i + 1] == DoSettle(trace[i], result)
    ensures var s, s', w := trace[i], trace[i + 1], trace[i].inFlight.value;
      && s'.walks[w].progress == Settled(result) && s'.calls == s.calls
      && (result.Some? && s.walks[w].epoch == s.epoch ==> s'.cached == Some(Value(result.value, Walked(w))))
      && (result.None? || s.walks[w].epoch != s.epoch ==> s'.cached == s.cached)
  {
  }

  /** A seed is what the next unforced read gets, if no walk is in flight; a clear leaves nothing to get. */
  lemma {:induction false} SeedAndClear(s: State, items: Items)
    ensures DoSeed(s, items).cached.Some? && DoSeed(s, items).cached.value.items == items
    ensures DoSeed(s, items).epoch > s.epoch && DoClear(s).epoch > s.epoch
    ensures DoClear(s).cached.None? && DoClear(s).calls == DoSeed(s, items).calls == s.calls
    ensures DoClear(s).inFlight == DoSeed(s, items).inFlight == s.inFlight
  {
  }
}
