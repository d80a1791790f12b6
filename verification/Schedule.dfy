/**
 Occurrence arithmetic of flowgency/dispatch/schedule.py and the lateness that
 flowgency/health.py reports. Times are whole microseconds of local time.
 */
module Schedule {
  import opened Wrappers

  const MINUTE := 60 * 1000000
  const DAY := 1440 * MINUTE

  // A routine's rule after parsing; `None` is a value that does not parse.
  datatype Rule = At(minute: Option<int>) | Every(period: Option<int>) | NoRule

  datatype CatchUp = OnTime | Today | Always | Within(period: int)

  function GraceWindow(interval: int): int {
    (interval + 2) * MINUTE
  }

  predicate CatchUpAllows(occurrence: int, now: int, bound: CatchUp, grace: int) {
    match bound
    case Always => true
    case Today => occurrence / DAY == now / DAY
    case Within(period) => now - occurrence <= period
    case OnTime => now - occurrence < grace
  }

  function LastAt(minute: Option<int>, now: int): Option<int> {
    if minute.None? then None
    else
      var today := now / DAY * DAY + minute.value * MINUTE;
      Some(if now >= today then today else today - DAY)
  }

  function LastEvery(anchor: int, period: Option<int>, now: int): Option<int> {
    if period.None? || period.value <= 0 then None
    else if now - anchor < period.value then None
    else Some(anchor + (now - anchor) / period.value * period.value)
  }

  // ---- Newest occurrence -------------------------------------------------

  /** The newest `at` occurrence is the only one in the last 24 hours. */
  lemma LastAtIsNewest(minute: int, now: int, day: int)
    requires 0 <= minute < 1440
    ensures var o := LastAt(Some(minute), now).value;
      && o <= now < o + DAY
      && o % DAY == minute * MINUTE
      && (day * DAY + minute * MINUTE <= now ==> day * DAY + minute * MINUTE <= o)
  {
    var o := LastAt(Some(minute), now).value;
    var today := now / DAY;
    assert o == (if o == today * DAY + minute * MINUTE then today else today - 1) * DAY + minute * MINUTE;
  }

  lemma FloorTimes(n: int, p: int, k: int)
    requires p > 0
    ensures n / p * p <= n < n / p * p + p
    ensures k * p <= n ==> k * p <= n / p * p
    ensures (k * p) % p == 0 && (k * p) / p == k
  {
    assert n == n / p * p + n % p;
    Multiple(k, p);
    if k * p <= n {
      LessThanTimes(k, n / p, p);
    }
  }

  lemma {:induction false} Times(d: int, p: int)
    requires p > 0
    ensures d == 0 ==> d * p == 0
    ensures d >= 1 ==> d * p >= p
    ensures d <= -1 ==> d * p <= -p
  {
    if d >= 1 {
      assert d * p == (d - 1) * p + p && (d - 1) * p >= 0;
    } else if d <= -1 {
      assert d * p == (d + 1) * p - p && (d + 1) * p <= 0;
    }
  }

  lemma Multiple(k: int, p: int)
    requires p > 0
    ensures (k * p) % p == 0 && (k * p) / p == k
  {
    var n := k * p;
    var q := n / p;
    assert n == q * p + n % p;
    assert (k - q) * p == k * p - q * p;
    Times(k - q, p);
  }

  lemma LessThanTimes(k: int, q: int, p: int)
    requires p > 0 && k * p < q * p + p
    ensures k * p <= q * p
  {
    assert (k - q) * p == k * p - q * p;
    Times(k - q, p);
  }

  /** `last_every_occurrence` is the greatest anchor + k*period, k >= 1, that is
      not after `now`, and exists exactly when there is one. */
  lemma LastEveryIsGreatest(anchor: int, period: int, now: int, k: int)
    requires period > 0
    ensures LastEvery(anchor, Some(period), now).Some? <==> anchor + period <= now
    ensures LastEvery(anchor, Some(period), now).Some? ==>
      var o := LastEvery(anchor, Some(period), now).value;
      && o <= now < o + period
      && (o - anchor) % period == 0
      && anchor + period <= o
      && (anchor + k * period <= now ==> anchor + k * period <= o)
  {
    if anchor + period <= now {
      FloorTimes(now - anchor, period, k);
      FloorTimes(now - anchor, period, 1);
      Multiple((now - anchor) / period, period);
    }
  }

  function Advance(anchor: int, period: int, now: int): int {
    match LastEvery(anchor, Some(period), now)
    case Some(o) => o
    case None => anchor
  }

  lemma SameRemainder(a: int, b: int, p: int)
    requires p > 0 && a % p == 0 && b % p == 0
    ensures (a + b) % p == 0 && (a - b) % p == 0
  {
    assert a == a / p * p && b == b / p * p;
    assert a + b == (a / p + b / p) * p;
    assert a - b == (a / p - b / p) * p;
    Multiple(a / p + b / p, p);
    Multiple(a / p - b / p, p);
  }

  /** Multiples of a period that share an open window of one period coincide. */
  lemma SameSlot(a: int, b: int, p: int)
    requires p > 0 && (a - b) % p == 0 && -p < a - b < p
    ensures a == b
  {
    assert a - b == (a - b) / p * p;
    Times((a - b) / p, p);
  }

  /** The window that pins an advanced anchor down. */
  lemma AdvanceWindow(anchor: int, period: int, now: int)
    requires period > 0 && anchor <= now
    ensures var a := Advance(anchor, period, now);
      anchor <= a <= now < a + period && (a - anchor) % period == 0
  {
    LastEveryIsGreatest(anchor, period, now, 1);
  }

  function AdvanceAll(anchor: int, period: int, times: seq<int>): int
    decreases |times|
  {
    if times == [] then anchor else AdvanceAll(Advance(anchor, period, times[0]), period, times[1..])
  }

  ghost predicate Nondecreasing(times: seq<int>) {
    forall i, j :: 0 <= i < j < |times| ==> times[i] <= times[j]
  }

  /** Advancing through any intermediate times is the same as advancing once:
      a late or skipped cycle does not shift later occurrences. */
  lemma {:induction false} NoDrift(anchor: int, period: int, times: seq<int>)
    requires period > 0 && times != [] && Nondecreasing(times) && anchor <= times[0]
    ensures AdvanceAll(anchor, period, times) == Advance(anchor, period, times[|times| - 1])
    decreases |times|
  {
    var last := times[|times| - 1];
    var next := Advance(anchor, period, times[0]);
    AdvanceWindow(anchor, period, times[0]);
    if |times| > 1 {
      NoDrift(next, period, times[1..]);
      assert times[0] <= last;
      AdvanceWindow(next, period, last);
      AdvanceWindow(anchor, period, last);
      var direct, stepped := Advance(anchor, period, last), Advance(next, period, last);
      SameRemainder(stepped - next, next - anchor, period);
      SameRemainder(stepped - anchor, direct - anchor, period);
      SameSlot(stepped, direct, period);
    } else {
      assert times[1..] == [];
    }
  }

  // ---- Lateness ----------------------------------------------------------

  datatype Lateness = InTime | Due | Overdue

  function AsLateness(now: int, dueAt: int, grace: int): Lateness {
    if now < dueAt then InTime else if now > dueAt + grace then Overdue else Due
  }

  /** An enabled, unconditional `every` routine; `None` is a missing marker. */
  function EveryLateness(anchor: Option<int>, period: int, now: int, grace: int): Lateness {
    if anchor.None? then InTime else AsLateness(now, anchor.value + period, grace)
  }

  /** From the due time on a routine is late, beyond the grace overdue. */
  lemma LatenessMeans(anchor: int, period: int, now: int, grace: int)
    requires grace >= 0
    ensures EveryLateness(Some(anchor), period, now, grace).InTime? <==> now < anchor + period
    ensures EveryLateness(Some(anchor), period, now, grace).Overdue? <==> anchor + period + grace < now
    ensures EveryLateness(None, period, now, grace).InTime?
  {
  }

  /** Reported late exactly when the dispatcher finds an occurrence owed. */
  lemma LateIffOwed(anchor: int, period: int, now: int, grace: int)
    requires period > 0
    ensures EveryLateness(Some(anchor), period, now, grace).InTime? <==> LastEvery(anchor, Some(period), now).None?
  {
    LastEveryIsGreatest(anchor, period, now, 1);
  }

  /** The marker after one cycle whose submission succeeds. */
  function CycleAnchor(anchor: Option<int>, period: int, now: int, bound: CatchUp, grace: int): Option<int> {
    var owed := if anchor.None? then Some(now) else LastEvery(anchor.value, Some(period), now);
    if owed.Some? && CatchUpAllows(owed.value, now, bound, grace) then owed else anchor
  }

  function AnchorAfter(period: int, cycles: seq<int>, bound: CatchUp, grace: int): Option<int> {
    if cycles == [] then None
    else CycleAnchor(AnchorAfter(period, cycles[..|cycles| - 1], bound, grace), period, cycles[|cycles| - 1], bound, grace)
  }

  ghost predicate Spaced(cycles: seq<int>, interval: int) {
    forall i :: 0 < i < |cycles| ==> cycles[i - 1] <= cycles[i] <= cycles[i - 1] + interval * MINUTE
  }

  ghost predicate Ascending(cycles: seq<int>) {
    forall i :: 0 < i < |cycles| ==> cycles[i - 1] <= cycles[i]
  }

  lemma {:induction false} FirstIsLeast(cycles: seq<int>, n: nat)
    requires Ascending(cycles) && n < |cycles|
    ensures cycles[0] <= cycles[n]
  {
    if n > 0 {
      FirstIsLeast(cycles, n - 1);
    }
  }

  // ---- Dropped occurrences -----------------------------------------------

  /** The newest occurrence on the grid of whole periods that `first` starts. */
  function Newest(first: int, period: int, now: int): int {
    Advance(first, period, now)
  }

  /** Cycle `i` meets an occurrence that came up since the cycle before, and the
      catch-up bound drops it. */
  predicate DropsAt(period: int, cycles: seq<int>, bound: CatchUp, grace: int, i: nat)
    requires i < |cycles|
  {
    var o := Newest(cycles[0], period, cycles[i]);
    (i == 0 || cycles[i - 1] < o) && !CatchUpAllows(o, cycles[i], bound, grace)
  }

  ghost predicate NoneDropped(period: int, cycles: seq<int>, bound: CatchUp, grace: int) {
    forall i :: 0 <= i < |cycles| ==> !DropsAt(period, cycles, bound, grace, i)
  }

  /** The marker is the newest occurrence up to the last cycle. */
  predicate CaughtUp(period: int, cycles: seq<int>, bound: CatchUp, grace: int) {
    cycles != [] &&
    AnchorAfter(period, cycles, bound, grace) == Some(Newest(cycles[0], period, cycles[|cycles| - 1]))
  }

  ghost predicate AlwaysCaughtUp(period: int, cycles: seq<int>, bound: CatchUp, grace: int) {
    forall n :: 0 < n <= |cycles| ==> CaughtUp(period, cycles[..n], bound, grace)
  }

  /** From a marker on the grid the next newest occurrence is on the same grid. */
  lemma SameGrid(first: int, period: int, before: int, now: int)
    requires period > 0 && first <= before <= now
    ensures var a, o := Newest(first, period, before), Newest(first, period, now);
      a <= o && LastEvery(a, Some(period), now) == (if before < o then Some(o) else None) && (before < o <==> a != o)
  {
    var a, o := Newest(first, period, before), Newest(first, period, now);
    AdvanceWindow(first, period, before);
    AdvanceWindow(first, period, now);
    AdvanceWindow(a, period, now);
    var stepped := Advance(a, period, now);
    SameRemainder(stepped - a, a - first, period);
    SameRemainder(stepped - first, o - first, period);
    SameSlot(stepped, o, period);
    LastEveryIsGreatest(a, period, now, 1);
  }

  /** A cycle that finds the routine caught up leaves it caught up exactly if it
      drops nothing; otherwise the marker stays. */
  lemma OneCycle(period: int, cycles: seq<int>, bound: CatchUp, grace: int)
    requires period > 0 && |cycles| > 1 && Ascending(cycles)
    requires CaughtUp(period, cycles[..|cycles| - 1], bound, grace)
    ensures AnchorAfter(period, cycles, bound, grace)
         == if DropsAt(period, cycles, bound, grace, |cycles| - 1)
            then AnchorAfter(period, cycles[..|cycles| - 1], bound, grace)
            else Some(Newest(cycles[0], period, cycles[|cycles| - 1]))
    ensures CaughtUp(period, cycles, bound, grace) <==> !DropsAt(period, cycles, bound, grace, |cycles| - 1)
  {
    var last := |cycles| - 1;
    FirstIsLeast(cycles, last - 1);
    assert cycles[last - 1] <= cycles[last];
    SameGrid(cycles[0], period, cycles[last - 1], cycles[last]);
  }

  lemma FirstCycle(period: int, cycles: seq<int>, bound: CatchUp, grace: int)
    requires period > 0 && |cycles| == 1
    ensures CaughtUp(period, cycles, bound, grace) <==> !DropsAt(period, cycles, bound, grace, 0)
  {
    AdvanceWindow(cycles[0], period, cycles[0]);
    assert AnchorAfter(period, cycles[..0], bound, grace).None?;
  }

  lemma ShorterFacts(period: int, cycles: seq<int>, bound: CatchUp, grace: int)
    requires cycles != []
    ensures var before := cycles[..|cycles| - 1];
      && (Ascending(cycles) ==> Ascending(before))
      && (NoneDropped(period, cycles, bound, grace) <==>
            NoneDropped(period, before, bound, grace) && !DropsAt(period, cycles, bound, grace, |cycles| - 1))
      && (AlwaysCaughtUp(period, cycles, bound, grace) <==>
            AlwaysCaughtUp(period, before, bound, grace) && CaughtUp(period, cycles, bound, grace))
  {
    var before, last := cycles[..|cycles| - 1], |cycles| - 1;
    assert forall i :: 0 <= i < last ==>
      (DropsAt(period, before, bound, grace, i) <==> DropsAt(period, cycles, bound, grace, i));
    assert forall n :: 0 < n <= last ==> before[..n] == cycles[..n];
    assert cycles[..|cycles|] == cycles;
  }

  /** Exactly when no cycle drops an occurrence, every cycle leaves the routine
      caught up. */
  lemma {:induction false} CaughtUpIffNoneDropped(period: int, cycles: seq<int>, bound: CatchUp, grace: int)
    requires period > 0 && Ascending(cycles)
    ensures AlwaysCaughtUp(period, cycles, bound, grace) <==> NoneDropped(period, cycles, bound, grace)
    decreases |cycles|
  {
    if cycles != [] {
      var before := cycles[..|cycles| - 1];
      ShorterFacts(period, cycles, bound, grace);
      CaughtUpIffNoneDropped(period, before, bound, grace);
      if before == [] {
        FirstCycle(period, cycles, bound, grace);
      } else if AlwaysCaughtUp(period, before, bound, grace) {
        assert before[..|before|] == before;
        OneCycle(period, cycles, bound, grace);
      }
    }
  }

  /** Right after every cycle nothing is owed. */
  lemma CycleCatchesUp(period: int, cycles: seq<int>, bound: CatchUp, grace: int)
    requires period > 0 && cycles != [] && Ascending(cycles) && NoneDropped(period, cycles, bound, grace)
    ensures var a := AnchorAfter(period, cycles, bound, grace);
      && a.Some? && a.value <= cycles[|cycles| - 1] < a.value + period
      && cycles[0] <= a.value && (a.value - cycles[0]) % period == 0
  {
    CaughtUpIffNoneDropped(period, cycles, bound, grace);
    assert cycles[..|cycles|] == cycles;
    assert CaughtUp(period, cycles, bound, grace);
    FirstIsLeast(cycles, |cycles| - 1);
    AdvanceWindow(cycles[0], period, cycles[|cycles| - 1]);
  }

  /** With cycles at most `interval` minutes apart that all submit and drop nothing,
      an `every` routine is never reported overdue from its first cycle on. */
  lemma NeverOverdue(period: int, cycles: seq<int>, bound: CatchUp, interval: int, now: int)
    requires period > 0 && interval >= 0 && NoneDropped(period, cycles, bound, GraceWindow(interval))
    requires cycles != [] && Spaced(cycles, interval)
    requires cycles[|cycles| - 1] <= now <= cycles[|cycles| - 1] + interval * MINUTE
    ensures var grace := GraceWindow(interval);
      var a := AnchorAfter(period, cycles, bound, grace);
      && !EveryLateness(a, period, now, grace).Overdue?
      && a.Some?
      && (EveryLateness(a, period, now, grace).Due? <==> LastEvery(a.value, Some(period), now).Some?)
  {
    var grace := GraceWindow(interval);
    CycleCatchesUp(period, cycles, bound, grace);
    LateIffOwed(AnchorAfter(period, cycles, bound, grace).value, period, now, grace);
  }

  /** What a bound has dropped it keeps dropping. */
  lemma DroppedForGood(o: int, met: int, now: int, bound: CatchUp, grace: int)
    requires o <= met <= now && !CatchUpAllows(o, met, bound, grace)
    ensures !CatchUpAllows(o, now, bound, grace)
  {
  }

  /** The converse, gap by gap: a dropped occurrence leaves the marker where it was
      until the next occurrence is met, and past the grace the routine is overdue. */
  lemma DroppedIsOverdue(period: int, cycles: seq<int>, later: seq<int>, bound: CatchUp, grace: int, now: int)
    requires period > 0 && grace >= 0 && |cycles| > 1 && Ascending(cycles + later)
    requires CaughtUp(period, cycles[..|cycles| - 1], bound, grace) && DropsAt(period, cycles, bound, grace, |cycles| - 1)
    requires later != [] ==> later[|later| - 1] < Newest(cycles[0], period, cycles[|cycles| - 1]) + period
    ensures AnchorAfter(period, cycles + later, bound, grace)
         == AnchorAfter(period, cycles[..|cycles| - 1], bound, grace)
    ensures now > Newest(cycles[0], period, cycles[|cycles| - 1]) + grace ==>
      EveryLateness(AnchorAfter(period, cycles + later, bound, grace), period, now, grace).Overdue?
  {
    var last := |cycles| - 1;
    DroppedStays(period, cycles, later, bound, grace);
    AscendingParts(cycles, later);
    FirstIsLeast(cycles, last - 1);
    assert cycles[last - 1] <= cycles[last];
    SameGrid(cycles[0], period, cycles[last - 1], cycles[last]);
    var a := Newest(cycles[0], period, cycles[last - 1]);
    assert AnchorAfter(period, cycles[..last], bound, grace) == Some(a);
    assert cycles[last - 1] < Newest(cycles[0], period, cycles[last]);
    LastEveryIsGreatest(a, period, cycles[last], 1);
  }

  lemma {:induction false} DroppedStays(period: int, cycles: seq<int>, later: seq<int>, bound: CatchUp, grace: int)
    requires period > 0 && |cycles| > 1 && Ascending(cycles + later)
    requires CaughtUp(period, cycles[..|cycles| - 1], bound, grace) && DropsAt(period, cycles, bound, grace, |cycles| - 1)
    requires later != [] ==> later[|later| - 1] < Newest(cycles[0], period, cycles[|cycles| - 1]) + period
    ensures AnchorAfter(period, cycles + later, bound, grace)
         == AnchorAfter(period, cycles[..|cycles| - 1], bound, grace)
    decreases |later|
  {
    AscendingParts(cycles, later);
    if later == [] {
      assert cycles + later == cycles;
      OneCycle(period, cycles, bound, grace);
    } else {
      var m, shorter := |later| - 1, later[..|later| - 1];
      assert (cycles + later)[..|cycles + later| - 1] == cycles + shorter;
      assert cycles + later == cycles + shorter + [later[m]];
      AscendingParts(cycles + shorter, [later[m]]);
      BetweenOccurrences(period, cycles, later, m);
      DroppedStays(period, cycles, shorter, bound, grace);
      DroppedOnceMore(period, cycles, later[m], bound, grace);
    }
  }

  /** A later cycle before the next occurrence finds and drops the same one. */
  lemma DroppedOnceMore(period: int, cycles: seq<int>, now: int, bound: CatchUp, grace: int)
    requires period > 0 && |cycles| > 1 && Ascending(cycles) && cycles[|cycles| - 1] <= now
    requires CaughtUp(period, cycles[..|cycles| - 1], bound, grace) && DropsAt(period, cycles, bound, grace, |cycles| - 1)
    requires Newest(cycles[0], period, now) == Newest(cycles[0], period, cycles[|cycles| - 1])
    ensures var a := AnchorAfter(period, cycles[..|cycles| - 1], bound, grace);
      CycleAnchor(a, period, now, bound, grace) == a
  {
    var last := |cycles| - 1;
    FirstIsLeast(cycles, last - 1);
    assert cycles[last - 1] <= cycles[last];
    SameGrid(cycles[0], period, cycles[last - 1], now);
    AdvanceWindow(cycles[0], period, cycles[last]);
    DroppedForGood(Newest(cycles[0], period, now), cycles[last], now, bound, grace);
  }

  lemma AscendingParts(xs: seq<int>, ys: seq<int>)
    requires Ascending(xs + ys)
    ensures Ascending(xs) && Ascending(ys)
    ensures xs != [] && ys != [] ==> xs[|xs| - 1] <= ys[0]
  {
    forall i | 0 < i < |xs|
      ensures xs[i - 1] <= xs[i]
    {
      assert (xs + ys)[i - 1] <= (xs + ys)[i];
    }
    forall i | 0 < i < |ys|
      ensures ys[i - 1] <= ys[i]
    {
      assert (xs + ys)[|xs| + i - 1] <= (xs + ys)[|xs| + i];
    }
    if xs != [] && ys != [] {
      assert (xs + ys)[|xs| - 1] <= (xs + ys)[|xs|];
    }
  }

  lemma BetweenOccurrences(period: int, cycles: seq<int>, later: seq<int>, m: nat)
    requires period > 0 && cycles != [] && Ascending(cycles + later) && m < |later|
    requires later[|later| - 1] < Newest(cycles[0], period, cycles[|cycles| - 1]) + period
    requires m == |later| - 1
    ensures cycles[|cycles| - 1] <= later[m] && (m > 0 ==> later[m - 1] <= later[m])
    ensures Newest(cycles[0], period, later[m]) == Newest(cycles[0], period, cycles[|cycles| - 1])
  {
    AscendingParts(cycles, later);
    FirstIsLeast(cycles, |cycles| - 1);
    FirstIsLeast(later, m);
    SameGrid(cycles[0], period, cycles[|cycles| - 1], later[m]);
    AdvanceWindow(cycles[0], period, cycles[|cycles| - 1]);
    AdvanceWindow(cycles[0], period, later[m]);
    var a, b := Newest(cycles[0], period, cycles[|cycles| - 1]), Newest(cycles[0], period, later[m]);
    SameRemainder(b - cycles[0], a - cycles[0], period);
    SameSlot(b, a, period);
  }

  // ---- Which bounds drop what --------------------------------------------

  /** Bounds that accept every occurrence seen within one dispatch interval. */
  predicate Tolerant(bound: CatchUp, interval: int) {
    bound.OnTime? || bound.Always? || (bound.Within? && bound.period >= interval * MINUTE)
  }

  lemma TolerantDropsNothing(period: int, cycles: seq<int>, bound: CatchUp, interval: int)
    requires period > 0 && interval >= 0 && Tolerant(bound, interval) && Spaced(cycles, interval)
    ensures NoneDropped(period, cycles, bound, GraceWindow(interval))
  {
    forall i | 0 <= i < |cycles|
      ensures !DropsAt(period, cycles, bound, GraceWindow(interval), i)
    {
      FirstIsLeast(cycles, i);
      AdvanceWindow(cycles[0], period, cycles[i]);
      assert i > 0 ==> cycles[i - 1] <= cycles[i] <= cycles[i - 1] + interval * MINUTE;
    }
  }

  predicate Midnight(t: int) {
    t % DAY == 0
  }

  ghost predicate MidnightBetween(o: int, now: int) {
    exists m :: Midnight(m) && o < m <= now
  }

  /** `today` drops an occurrence exactly when a midnight lies between it and the
      cycle that meets it. How old the occurrence is does not matter. */
  lemma TodayDropsIff(o: int, now: int, grace: int)
    requires o <= now
    ensures !CatchUpAllows(o, now, Today, grace) <==> MidnightBetween(o, now)
  {
    if o / DAY != now / DAY {
      assert Midnight(now / DAY * DAY) && o < now / DAY * DAY <= now;
    }
    forall m | Midnight(m) && o < m <= now
      ensures o / DAY < m / DAY <= now / DAY
    {
    }
  }

  /** Under `today` nothing is dropped exactly when no new occurrence and the cycle
      that first meets it have a midnight between them. */
  lemma TodayDropsNothingIff(period: int, cycles: seq<int>, grace: int)
    requires period > 0 && Ascending(cycles)
    ensures NoneDropped(period, cycles, Today, grace) <==>
      forall i :: 0 < i < |cycles| && cycles[i - 1] < Newest(cycles[0], period, cycles[i]) ==>
        !MidnightBetween(Newest(cycles[0], period, cycles[i]), cycles[i])
  {
    hide MidnightBetween;
    forall i | 0 <= i < |cycles|
      ensures DropsAt(period, cycles, Today, grace, i) <==>
        i > 0 && cycles[i - 1] < Newest(cycles[0], period, cycles[i])
        && MidnightBetween(Newest(cycles[0], period, cycles[i]), cycles[i])
    {
      FirstIsLeast(cycles, i);
      AdvanceWindow(cycles[0], period, cycles[i]);
      TodayDropsIff(Newest(cycles[0], period, cycles[i]), cycles[i], grace);
    }
  }

  /** An occurrence younger than the grace can be dropped. */
  lemma TodayIgnoresGrace(grace: int)
    ensures !CatchUpAllows(DAY - MINUTE, DAY + 5 * MINUTE, Today, grace)
    ensures DAY + 5 * MINUTE - (DAY - MINUTE) < GraceWindow(15)
  {
    assert (DAY - MINUTE) / DAY == 0 && (DAY + 5 * MINUTE) / DAY == 1;
    assert GraceWindow(15) == 17 * MINUTE;
  }

  /** `today` can drop one: an hourly occurrence at 23:59 met at 00:05 is
      dropped and the routine is overdue at the next cycle, 00:20. */
  lemma TodayCanBeOverdue()
    ensures var cycles := [1379 * MINUTE, 1394 * MINUTE, 1409 * MINUTE, 1424 * MINUTE, 1430 * MINUTE, DAY + 5 * MINUTE];
      && Spaced(cycles, 15)
      && EveryLateness(AnchorAfter(60 * MINUTE, cycles, Today, GraceWindow(15)), 60 * MINUTE,
                       DAY + 20 * MINUTE, GraceWindow(15)).Overdue?
  {
    var c1 := [] + [1379 * MINUTE];
    var c2 := c1 + [1394 * MINUTE];
    var c3 := c2 + [1409 * MINUTE];
    var c4 := c3 + [1424 * MINUTE];
    var c5 := c4 + [1430 * MINUTE];
    var cycles := c5 + [DAY + 5 * MINUTE];
    AnchorStep([], 1379 * MINUTE);
    AnchorStep(c1, 1394 * MINUTE);
    AnchorStep(c2, 1409 * MINUTE);
    AnchorStep(c3, 1424 * MINUTE);
    AnchorStep(c4, 1430 * MINUTE);
    AnchorStep(c5, DAY + 5 * MINUTE);
    assert cycles
      == [1379 * MINUTE, 1394 * MINUTE, 1409 * MINUTE, 1424 * MINUTE, 1430 * MINUTE, DAY + 5 * MINUTE];
  }

  lemma AnchorStep(cycles: seq<int>, now: int)
    ensures AnchorAfter(60 * MINUTE, cycles + [now], Today, GraceWindow(15))
         == CycleAnchor(AnchorAfter(60 * MINUTE, cycles, Today, GraceWindow(15)), 60 * MINUTE, now, Today, GraceWindow(15))
  {
    assert (cycles + [now])[..|cycles|] == cycles;
  }
}
