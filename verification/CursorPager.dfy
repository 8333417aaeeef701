/** The state of a table that is read page by page with opaque cursors. */
module CursorPager {
  import opened Prelude

  /** A saved cursor: none yet, the first page's null, or a token. */
  datatype Slot = Unsaved | First | Token(token: string)

  type Filters = map<string, string>

  /** `cursor` and `nextCursor` are tokens or null. */
  datatype Pager = Pager(page: nat, pageSize: nat, query: string, filters: Filters, cursor: Option<string>, nextCursor: Option<string>,
                         pageCursors: seq<Slot>, hasNext: bool, total: Option<nat>)

  /** What the server says about a page; absent fields are None. */
  datatype PageInfo = PageInfo(hasNext: Option<bool>, nextCursor: Option<string>, total: Option<int>)

  function SafePage(page: int): nat {
    if page > 0 then page else 1
  }

  function OrElse<T>(change: Option<T>, current: T): T {
    if change.Some? then change.value else current
  }

  function SafeTotal(total: Option<int>): Option<nat> {
    if total.Some? && total.value >= 0 then Some(total.value) else None
  }

  function SlotOf(cursor: Option<string>): Slot {
    if cursor.Some? then Token(cursor.value) else First
  }

  function CursorOf(slot: Slot): Option<string> {
    if slot.Token? then Some(slot.token) else None
  }

  /** A cursor list padded to a length with unsaved entries. */
  function Padded(cursors: seq<Slot>, n: nat): seq<Slot> {
    cursors + seq(if |cursors| < n then n - |cursors| else 0, i => Unsaved)
  }

  method Pad(cursors: seq<Slot>, n: nat) returns (padded: seq<Slot>)
    ensures padded == Padded(cursors, n) && |padded| >= n
  {
    padded := cursors;
    while |padded| < n
      invariant |cursors| <= |padded| && (|padded| <= n || padded == cursors)
      invariant padded == cursors + seq(|padded| - |cursors|, i => Unsaved)
    {
      padded := padded + [Unsaved];
    }
  }

  /** What a table starts from, perhaps restored; a cursor may be given as null or a token. */
  datatype Initial = Initial(page: Option<int>, pageSize: Option<int>, query: Option<string>, filters: Option<Filters>,
                             cursor: Option<Option<string>>, nextCursor: Option<string>, pageCursors: seq<Slot>,
                             hasNext: Option<bool>, total: Option<int>)

  /** The cursor saved for a page, if it is among those restored. */
  function SavedAt(cursors: seq<Slot>, k: nat): Slot {
    if k < |cursors| then cursors[k] else Unsaved
  }

  /** createCursorPager: the restored cursors stay, the given cursor is saved for its page, and page one has one. */
  method CreateCursorPager(initial: Initial) returns (pager: Pager)
    ensures pager.page == SafePage(OrElse(initial.page, 1)) && pager.pageSize == SafePage(OrElse(initial.pageSize, 10))
    ensures pager.query == OrElse(initial.query, "") && pager.filters == OrElse(initial.filters, map[])
    ensures pager.nextCursor == initial.nextCursor && pager.hasNext == OrElse(initial.hasNext, false) && pager.total == SafeTotal(initial.total)
    ensures |pager.pageCursors| == Max(|initial.pageCursors|, pager.page)
    ensures forall k | 0 <= k < |pager.pageCursors| && k != pager.page - 1 :: pager.pageCursors[k] == SavedAt(initial.pageCursors, k)
    ensures pager.cursor == CursorOf(pager.pageCursors[pager.page - 1])
    ensures pager.pageCursors[pager.page - 1] ==
      if initial.cursor.Some? then SlotOf(initial.cursor.value)
      else if pager.page == 1 && SavedAt(initial.pageCursors, 0).Unsaved? then First
      else SavedAt(initial.pageCursors, pager.page - 1)
    ensures initial.page.None? && initial.pageCursors == [] && initial.cursor.None? ==> IsStack(pager)
  {
    var page := SafePage(OrElse(initial.page, 1));
    var cursors := Pad(initial.pageCursors, page);
    if initial.cursor.Some? {
      cursors := cursors[page - 1 := SlotOf(initial.cursor.value)];
    }
    if page == 1 && cursors[0].Unsaved? {
      cursors := cursors[0 := First];
    }
    var cursor := if initial.cursor.Some? && initial.cursor.value.Some? then initial.cursor.value else CursorOf(cursors[page - 1]);
    pager := Pager(page, SafePage(OrElse(initial.pageSize, 10)), OrElse(initial.query, ""), OrElse(initial.filters, map[]),
                   cursor, initial.nextCursor, cursors, OrElse(initial.hasNext, false), SafeTotal(initial.total));
  }

  function Fresh(pageSize: int): Pager {
    Pager(1, SafePage(pageSize), "", map[], None, None, [First], false, None)
  }

  function ResetCursorPager(s: Pager, pageSize: int, query: string, filters: Filters): Pager {
    Pager(1, SafePage(pageSize), query, filters, None, None, [First], false, None)
  }

  function ApplyCursorPage(s: Pager, info: PageInfo): Pager {
    s.(nextCursor := info.nextCursor,
       hasNext := if info.hasNext.Some? then info.hasNext.value else info.nextCursor.Some?,
       total := SafeTotal(info.total))
  }

  predicate CanAdvance(s: Pager) {
    s.hasNext && s.nextCursor.Some?
  }

  predicate CanReturn(s: Pager) {
    s.page > 1 && |s.pageCursors| >= s.page - 1 && !s.pageCursors[s.page - 2].Unsaved?
  }

  /** slice(0, n), then an assignment at index n - 1. */
  function Pushed(cursors: seq<Slot>, n: nat, token: string): seq<Slot>
    requires n > 0
  {
    Padded(cursors[..Min(n, |cursors|)], n)[n - 1 := Token(token)]
  }

  lemma {:induction false} PushedOnTop(cursors: seq<Slot>, token: string)
    ensures Pushed(cursors, |cursors| + 1, token) == cursors + [Token(token)]
  {
  }

  /**
   * nextCursorPager: without both permission and a token nothing changes. Otherwise the token is put on
   * top for the next page, the cursors of the pages before it stay, and any beyond it are dropped.
   */
  method NextCursorPager(s: Pager) returns (r: Pager)
    ensures !CanAdvance(s) ==> r == s
    ensures CanAdvance(s) ==>
      && r.page == s.page + 1 && r.cursor == s.nextCursor && r.nextCursor == None && !r.hasNext
      && |r.pageCursors| == r.page && r.pageCursors[s.page] == Token(s.nextCursor.value)
      && (forall k | 0 <= k < s.page :: r.pageCursors[k] == SavedAt(s.pageCursors, k))
      && r.pageSize == s.pageSize && r.query == s.query && r.filters == s.filters && r.total == s.total
    ensures r == Next(s)
  {
    if !s.hasNext || s.nextCursor.None? {
      return s;
    }
    var page := s.page + 1;
    var pageCursors := Pad(s.pageCursors[..Min(page, |s.pageCursors|)], page);
    pageCursors := pageCursors[page - 1 := Token(s.nextCursor.value)];
    r := s.(page := page, cursor := s.nextCursor, nextCursor := None, pageCursors := pageCursors, hasNext := false);
  }

  function Next(s: Pager): Pager {
    if !CanAdvance(s) then s
    else
      s.(page := s.page + 1, cursor := s.nextCursor, nextCursor := None,
         pageCursors := Pushed(s.pageCursors, s.page + 1, s.nextCursor.value), hasNext := false)
  }

  function PreviousCursorPager(s: Pager): Pager {
    if !CanReturn(s) then s
    else
      var page := s.page - 1;
      s.(page := page, cursor := CursorOf(s.pageCursors[page - 1]), nextCursor := None,
         pageCursors := s.pageCursors[..page], hasNext := false)
  }

  /** A change to a pager; a cursor change holds null or a token. */
  datatype Changes = Changes(page: Option<int>, pageSize: Option<int>, query: Option<string>, filters: Option<Filters>,
                             cursor: Option<Slot>)

  predicate Reshapes(s: Pager, c: Changes) {
    || SafePage(OrElse(c.pageSize, s.pageSize)) != s.pageSize
    || OrElse(c.query, s.query) != s.query
    || OrElse(c.filters, s.filters) != s.filters
  }

  /** The pager at another page, with the cursor given for it or the one saved. */
  function Jumped(s: Pager, page: nat, given: Option<Slot>): Pager
    requires page >= 1
  {
    var cursors := Padded(s.pageCursors, page);
    var cursor := CursorOf(OrElse(given, cursors[page - 1]));
    s.(page := page, cursor := cursor, nextCursor := None, hasNext := false, pageCursors := cursors[page - 1 := SlotOf(cursor)])
  }

  /** updateCursorPager: page size, query and filters reset the cursors; a page or a cursor jumps. */
  method UpdateCursorPager(s: Pager, c: Changes) returns (r: Pager)
    requires s.page >= 1 && s.pageSize >= 1
    ensures Reshapes(s, c) ==>
      r == ResetCursorPager(s, OrElse(c.pageSize, s.pageSize), OrElse(c.query, s.query), OrElse(c.filters, s.filters))
    ensures Reshapes(s, c) ==>
      && r.page == 1 && r.pageSize == SafePage(OrElse(c.pageSize, s.pageSize))
      && r.query == OrElse(c.query, s.query) && r.filters == OrElse(c.filters, s.filters)
      && r.cursor == None && r.nextCursor == None && r.pageCursors == [First] && !r.hasNext && r.total == None
    ensures !Reshapes(s, c) && (c.page.Some? || c.cursor.Some?) ==>
      && r.page == SafePage(OrElse(c.page, s.page)) && r.nextCursor == None && !r.hasNext
      && |r.pageCursors| == Max(|s.pageCursors|, r.page) && r.pageCursors[r.page - 1] == SlotOf(r.cursor)
      && r.cursor == CursorOf(if c.cursor.Some? then c.cursor.value else SavedAt(s.pageCursors, r.page - 1))
      && (forall k | 0 <= k < |r.pageCursors| && k != r.page - 1 :: r.pageCursors[k] == SavedAt(s.pageCursors, k))
      && r.pageSize == s.pageSize && r.query == s.query && r.filters == s.filters && r.total == s.total
    ensures !Reshapes(s, c) ==>
      r == if c.page.None? && c.cursor.None? then s else Jumped(s, SafePage(OrElse(c.page, s.page)), c.cursor)
  {
    var pageSize := SafePage(OrElse(c.pageSize, s.pageSize));
    var query, filters := OrElse(c.query, s.query), OrElse(c.filters, s.filters);
    if pageSize != s.pageSize || query != s.query || filters != s.filters {
      return ResetCursorPager(s, pageSize, query, filters);
    }
    if c.page.None? && c.cursor.None? {
      return s;
    }
    var page := SafePage(OrElse(c.page, s.page));
    var cursors := Pad(s.pageCursors, page);
    var cursor := if c.cursor.None? then CursorOf(cursors[page - 1]) else CursorOf(c.cursor.value);
    cursors := cursors[page - 1 := SlotOf(cursor)];
    r := s.(page := page, cursor := cursor, nextCursor := None, hasNext := false, pageCursors := cursors);
  }

  // Runs of next, previous, apply and reset.

  datatype Op = GoNext | GoPrevious | Apply(info: PageInfo) | Reset(pageSize: int, query: string, filters: Filters)

  /** The saved cursors are a stack: one for each page so far, the current one on top, the first page's null at the bottom. */
  predicate IsStack(s: Pager) {
    && s.page >= 1 && |s.pageCursors| == s.page
    && s.pageCursors[0] == First && s.pageCursors[s.page - 1] == SlotOf(s.cursor)
    && forall k | 1 <= k < s.page :: s.pageCursors[k].Token?
  }

  function Do(s: Pager, op: Op): (r: Pager)
    requires IsStack(s)
    ensures IsStack(r)
  {
    match op
    case GoNext =>
      if CanAdvance(s) then
        PushedOnTop(s.pageCursors, s.nextCursor.value);
        Next(s)
      else s
    case GoPrevious => PreviousCursorPager(s)
    case Apply(info) => ApplyCursorPage(s, info)
    case Reset(pageSize, query, filters) => ResetCursorPager(s, pageSize, query, filters)
  }

  function Run(s: Pager, ops: seq<Op>): (r: Pager)
    requires IsStack(s)
    ensures IsStack(r)
    decreases |ops|
  {
    if ops == [] then s else Run(Do(s, ops[0]), ops[1..])
  }

  /** A plain stack of cursors, with what the last response offered on the side. */
  datatype Trail = Trail(stack: seq<Slot>, offered: Option<string>)

  function Follow(t: Trail, op: Op): Trail {
    match op
    case GoNext => if t.offered.Some? then Trail(t.stack + [Token(t.offered.value)], None) else t
    case GoPrevious => if |t.stack| > 1 then Trail(t.stack[..|t.stack| - 1], None) else t
    case Apply(info) => Trail(t.stack, if info.hasNext == Some(false) then None else info.nextCursor)
    case Reset(_, _, _) => Trail([First], None)
  }

  function FollowAll(t: Trail, ops: seq<Op>): Trail
    decreases |ops|
  {
    if ops == [] then t else FollowAll(Follow(t, ops[0]), ops[1..])
  }

  function TrailOf(s: Pager): Trail {
    Trail(s.pageCursors, if s.hasNext then s.nextCursor else None)
  }

  lemma {:induction false} OneStep(s: Pager, op: Op)
    requires IsStack(s)
    ensures TrailOf(Do(s, op)) == Follow(TrailOf(s), op)
  {
    if op.GoNext? && CanAdvance(s) {
      PushedOnTop(s.pageCursors, s.nextCursor.value);
    }
  }

  /** In every run the saved cursors are that plain stack; the page is its height, the cursor its top. */
  lemma {:induction false} PagerIsStack(s: Pager, ops: seq<Op>)
    requires IsStack(s)
    ensures TrailOf(Run(s, ops)) == FollowAll(TrailOf(s), ops)
    decreases |ops|
  {
    if ops != [] {
      OneStep(s, ops[0]);
      hide IsStack, Do, Follow, TrailOf;
      PagerIsStack(Do(s, ops[0]), ops[1..]);
    }
  }

  lemma {:induction false} FreshIsStack(pageSize: int)
    ensures IsStack(Fresh(pageSize)) && TrailOf(Fresh(pageSize)) == Trail([First], None)
  {
  }

  /** So it is in every run from a fresh pager. */
  lemma {:induction false} FreshRun(pageSize: int, ops: seq<Op>)
    ensures IsStack(Fresh(pageSize))
    ensures TrailOf(Run(Fresh(pageSize), ops)) == FollowAll(Trail([First], None), ops)
  {
    FreshIsStack(pageSize);
    PagerIsStack(Fresh(pageSize), ops);
  }

  /** Returning undoes an advance: the page, its cursor and all saved cursors are as before. */
  lemma {:induction false} ReturnUndoesNext(s: Pager)
    requires IsStack(s) && CanAdvance(s)
    ensures var back := PreviousCursorPager(Next(s));
      back.page == s.page && back.cursor == s.cursor && back.pageCursors == s.pageCursors
  {
    PushedOnTop(s.pageCursors, s.nextCursor.value);
    hide Pushed;
    assert (s.pageCursors + [Token(s.nextCursor.value)])[..s.page] == s.pageCursors;
  }

  /** One advance: a response that offers a token, and the step to it. */
  function Advance(s: Pager, info: PageInfo): (r: Pager)
    requires IsStack(s)
    ensures IsStack(r)
  {
    Do(Do(s, Apply(info)), GoNext)
  }

  predicate Offers(info: PageInfo) {
    info.nextCursor.Some? && info.hasNext != Some(false)
  }

  function AdvanceAll(s: Pager, infos: seq<PageInfo>): (r: Pager)
    requires IsStack(s)
    ensures IsStack(r)
    decreases |infos|
  {
    if infos == [] then s else Advance(AdvanceAll(s, infos[..|infos| - 1]), infos[|infos| - 1])
  }

  function ReturnTimes(s: Pager, n: nat): (r: Pager)
    requires IsStack(s)
    ensures IsStack(r)
    decreases n
  {
    if n == 0 then s else ReturnTimes(Do(s, GoPrevious), n - 1)
  }

  lemma {:induction false} AdvancePushes(s: Pager, infos: seq<PageInfo>)
    requires IsStack(s) && forall k | 0 <= k < |infos| :: Offers(infos[k])
    ensures AdvanceAll(s, infos).pageCursors == s.pageCursors + seq(|infos|, k requires 0 <= k < |infos| => SlotOf(infos[k].nextCursor))
    decreases |infos|
  {
    if infos != [] {
      AdvancePushes(s, infos[..|infos| - 1]);
      var before, last := AdvanceAll(s, infos[..|infos| - 1]), infos[|infos| - 1];
      PushedOnTop(before.pageCursors, last.nextCursor.value);
      hide Pushed;
    }
  }

  lemma {:induction false} ReturnPops(s: Pager, n: nat)
    requires IsStack(s) && n < s.page
    ensures ReturnTimes(s, n).pageCursors == s.pageCursors[..s.page - n]
    decreases n
  {
    if n > 0 {
      ReturnPops(Do(s, GoPrevious), n - 1);
      assert s.pageCursors[..s.page - 1][..s.page - 1 - (n - 1)] == s.pageCursors[..s.page - n];
    }
  }

  /**
   * Advancing n times and returning m times shows the same page, cursor and saved cursors as advancing
   * n - m times: the way back replays the cursors in reverse.
   */
  lemma {:induction false} ReturnReplaysAdvance(s: Pager, infos: seq<PageInfo>, m: nat)
    requires IsStack(s) && (forall k | 0 <= k < |infos| :: Offers(infos[k])) && m <= |infos|
    ensures var back, there := ReturnTimes(AdvanceAll(s, infos), m), AdvanceAll(s, infos[..|infos| - m]);
      back.page == there.page && back.cursor == there.cursor && back.pageCursors == there.pageCursors
  {
    var far := AdvanceAll(s, infos);
    var some := infos[..|infos| - m];
    AdvancePushes(s, infos);
    AdvancePushes(s, some);
    assert far.page == s.page + |infos|;
    ReturnPops(far, m);
    var back, there := ReturnTimes(far, m), AdvanceAll(s, some);
    assert back.pageCursors == there.pageCursors;
    SameTop(back, there);
  }

  lemma {:induction false} SameTop(a: Pager, b: Pager)
    requires IsStack(a) && IsStack(b) && a.pageCursors == b.pageCursors
    ensures a.page == b.page && a.cursor == b.cursor
  {
    assert CursorOf(SlotOf(a.cursor)) == a.cursor && CursorOf(SlotOf(b.cursor)) == b.cursor;
  }

  /**
   * Jumping back to a visited page shows the cursor saved for it and keeps all saved cursors; the next
   * advance from there drops those above it, so the pager is a stack again.
   */
  lemma {:induction false} JumpToVisited(s: Pager, page: nat, info: PageInfo)
    requires IsStack(s) && 1 <= page <= s.page
    ensures var there := Jumped(s, page, None);
      && there.page == page && SlotOf(there.cursor) == s.pageCursors[page - 1] && there.pageCursors == s.pageCursors
      && (Offers(info) ==>
           IsStack(Next(ApplyCursorPage(there, info)))
           && Next(ApplyCursorPage(there, info)).pageCursors == s.pageCursors[..page] + [SlotOf(info.nextCursor)])
  {
    var there := Jumped(s, page, None);
    assert Padded(s.pageCursors, page) == s.pageCursors;
    assert SlotOf(CursorOf(s.pageCursors[page - 1])) == s.pageCursors[page - 1];
    assert there.pageCursors == s.pageCursors;
    if Offers(info) {
      var token := info.nextCursor.value;
      if page == s.page {
        assert s.pageCursors[..page] == s.pageCursors;
        PushedOnTop(s.pageCursors, token);
      } else {
        PushedOver(s.pageCursors, page, token);
      }
    }
  }

  lemma {:induction false} PushedOver(cursors: seq<Slot>, n: nat, token: string)
    requires n < |cursors|
    ensures Pushed(cursors, n + 1, token) == cursors[..n] + [Token(token)]
  {
    assert Padded(cursors[..n + 1], n + 1) == cursors[..n + 1];
  }

  /** A jump with a cursor shows that cursor and saves it for its page; every other saved cursor stays. */
  lemma {:induction false} JumpWithCursor(s: Pager, page: nat, given: Slot)
    requires page >= 1 && !given.Unsaved?
    ensures var there := Jumped(s, page, Some(given));
      && there.page == page && SlotOf(there.cursor) == given && there.pageCursors[page - 1] == given
      && (forall k | 0 <= k < |s.pageCursors| && k != page - 1 :: there.pageCursors[k] == s.pageCursors[k])
      && (page <= s.page && IsStack(s) && page > 1 && given.Token? ==> |there.pageCursors| == s.page)
  {
  }

  /** A response changes what comes next and how many rows there are, and nothing of where the table is. */
  lemma {:induction false} ApplyKeepsPlace(s: Pager, info: PageInfo)
    ensures var r := ApplyCursorPage(s, info);
      && r.page == s.page && r.cursor == s.cursor && r.pageCursors == s.pageCursors
      && r.pageSize == s.pageSize && r.query == s.query && r.filters == s.filters
      && r.nextCursor == info.nextCursor
      && (r.hasNext <==> info.hasNext == Some(true) || (info.hasNext.None? && info.nextCursor.Some?))
      && (r.total.Some? <==> info.total.Some? && info.total.value >= 0) && (r.total.Some? ==> r.total.value == info.total.value)
  {
  }
}
