/** Warm replay: stored observations run through the runner in chunks, with housekeeping ticks on the
    way, exactly as the replay clock runs them one observation at a time. */
module WarmReplay {
  import opened Model

  const SECOND := 1_000_000

  datatype Stored = Stored(receivedAt: int, id: int)

  /** What a run does, observation by observation. */
  datatype Event = Tick(at: int) | Seen(o: Stored)

  /** What the runner is asked to do: a tick, or a batch. */
  datatype Call = TickAt(at: int) | Process(batch: seq<Stored>)

  function SeenAll(batch: seq<Stored>): (events: seq<Event>)
    ensures |events| == |batch|
  {
    seq(|batch|, i requires 0 <= i < |batch| => Seen(batch[i]))
  }

  function Flat(calls: seq<Call>): seq<Event> {
    if calls == [] then []
    else
      Flat(calls[..|calls| - 1]) +
      match calls[|calls| - 1]
      case TickAt(at) => [Tick(at)]
      case Process(batch) => SeenAll(batch)
  }

  // ----- round multiples -----------------------------------------------------------------------

  /** Whole seconds, towards zero. */
  function Truncated(at: int): int {
    if at >= 0 then at / SECOND else -((-at) / SECOND)
  }

  function NextMultiple(at: int, every: int): int
    requires every > 0
  {
    (Truncated(at) / every + 1) * every * SECOND
  }

  ghost predicate Round(at: int, every: int)
    requires every > 0
  {
    exists k :: at == k * every * SECOND
  }

  /** Where whole seconds are cut off upwards, before the epoch, onto a multiple. */
  predicate PassedOver(at: int, every: int)
    requires every > 0
  {
    at < 0 && at % SECOND != 0 && Truncated(at) % every == 0
  }

  lemma TruncatedIs(at: int)
    ensures at >= 0 || at % SECOND == 0 ==> Truncated(at) == at / SECOND
    ensures at < 0 && at % SECOND != 0 ==> Truncated(at) == at / SECOND + 1
  {
    var q := at / SECOND;
    assert at == q * SECOND + at % SECOND;
    if at < 0 {
      assert -at == (-q) * SECOND - at % SECOND;
    }
  }

  /** A round multiple after the instant. It is the first one exactly if no multiple is passed over, which only
      happens within the second before a multiple, before the epoch or at it. */
  lemma NextMultipleExact(at: int, every: int)
    requires every > 0
    ensures Round(NextMultiple(at, every), every) && at < NextMultiple(at, every)
    ensures NextMultiple(at, every) <= at + every * SECOND <==> !PassedOver(at, every)
  {
    TruncatedIs(at);
    var s, q := Truncated(at), at / SECOND;
    var k := s / every;
    assert NextMultiple(at, every) == (k + 1) * every * SECOND;
    assert s == k * every + s % every;
    assert q * SECOND <= at < (q + 1) * SECOND;
    assert (k + 1) * every * SECOND == k * every * SECOND + every * SECOND;
    if s == q {
      assert k * every <= q < (k + 1) * every;
      assert k * every * SECOND <= q * SECOND;
      assert (q + 1) * SECOND <= (k + 1) * every * SECOND;
    } else if s % every == 0 {
      assert k * every * SECOND == s * SECOND > at;
    } else {
      assert k * every <= q;
      assert k * every * SECOND <= q * SECOND;
      assert (s + 1) * SECOND <= (k + 1) * every * SECOND;
    }
  }

  lemma MultiplesStep(k: int, every: int)
    requires every > 0
    ensures NextMultiple(k * every * SECOND, every) == k * every * SECOND + every * SECOND
  {
    var at := k * every * SECOND;
    assert at == (k * every) * SECOND;
    assert Truncated(at) == k * every;
    assert (k * every) / every == k;
    assert (k + 1) * every * SECOND == k * every * SECOND + every * SECOND;
  }

  lemma MultipleAfter(at: int, every: int)
    requires every > 0 && Round(at, every)
    ensures NextMultiple(at, every) == at + every * SECOND > at && Round(NextMultiple(at, every), every)
  {
    var k :| at == k * every * SECOND;
    MultiplesStep(k, every);
  }

  // ----- the replay clock ----------------------------------------------------------------------

  /** The next tick, none before the first observation, and what has run. */
  datatype Clock = Clock(next: Option<int>, log: seq<Event>)

  /** The clock once the ticks due by `at` are run, from `next` on. */
  function Ticked(next: int, log: seq<Event>, at: int, every: int): (r: Clock)
    requires every > 0
    ensures r.next.Some? && r.next.value > at
    decreases if next <= at then at - next + 1 else 0
  {
    if next > at then Clock(Some(next), log) else Ticked(next + every * SECOND, log + [Tick(next)], at, every)
  }

  function Advanced(c: Clock, at: int, every: int): (r: Clock)
    requires every > 0
    ensures r.next.Some? && r.next.value > at
  {
    Ticked(if c.next.Some? then c.next.value else NextMultiple(at, every), c.log, at, every)
  }

  /** The observations run one at a time, each after the ticks due by then. */
  function Ran(c: Clock, stored: seq<Stored>, every: int): Clock
    requires every > 0
  {
    if stored == [] then c
    else
      var last := stored[|stored| - 1];
      var clock := Advanced(Ran(c, stored[..|stored| - 1], every), last.receivedAt, every);
      clock.(log := clock.log + [Seen(last)])
  }

  /** The whole replay, with ticks up to `until`. */
  function Schedule(stored: seq<Stored>, until: int, every: int): seq<Event>
    requires every > 0
  {
    if stored == [] then [] else Advanced(Ran(Clock(None, []), stored, every), until, every).log
  }

  lemma {:induction false} RanOn(c: Clock, a: seq<Stored>, b: seq<Stored>, every: int)
    requires every > 0
    ensures Ran(c, a + b, every) == Ran(Ran(c, a, every), b, every)
  {
    if b == [] {
      assert a + b == a;
    } else {
      RanOn(c, a, b[..|b| - 1], every);
      assert (a + b)[..|a + b| - 1] == a + b[..|b| - 1];
    }
  }

  lemma RanNext(c: Clock, chunk: seq<Stored>, i: int, every: int)
    requires every > 0 && 0 <= i < |chunk|
    ensures var clock := Advanced(Ran(c, chunk[..i], every), chunk[i].receivedAt, every);
            Ran(c, chunk[..i + 1], every) == clock.(log := clock.log + [Seen(chunk[i])])
  {
    assert chunk[..i + 1][..i] == chunk[..i];
  }

  lemma SeenSlice(chunk: seq<Stored>, start: int, i: int)
    requires 0 <= start <= i < |chunk|
    ensures SeenAll(chunk[start..i + 1]) == SeenAll(chunk[start..i]) + [Seen(chunk[i])]
  {
    assert chunk[start..i + 1] == chunk[start..i] + [chunk[i]];
  }

  /** The simulated clock of a replay. */
  class ReplayClock {
    const runner: Runner
    const every: int
    var nextTick: Option<int>

    constructor (runner: Runner, every: int)
      ensures this.runner == runner && this.every == every && nextTick == None
    {
      this.runner, this.every, nextTick := runner, every, None;
    }

    ghost function View(): Clock
      reads this, runner
    {
      Clock(nextTick, Flat(runner.calls))
    }

    method Advance(at: int)
      requires every > 0
      modifies this, runner
      ensures View() == Advanced(old(View()), at, every)
    {
      if nextTick.None? {
        nextTick := Some(NextMultiple(at, every));
      }
      while nextTick.value <= at
        invariant nextTick.Some?
        invariant Ticked(nextTick.value, Flat(runner.calls), at, every) == Advanced(old(View()), at, every)
        decreases at - nextTick.value
      {
        runner.Tick(nextTick.value);
        nextTick := Some(nextTick.value + every * SECOND);
      }
    }

    /** Each observation after the ticks before it. */
    method Replay(stored: seq<Stored>)
      requires every > 0
      modifies this, runner
      ensures View() == Ran(old(View()), stored, every)
    {
      for i := 0 to |stored|
        invariant View() == Ran(old(View()), stored[..i], every)
      {
        assert stored[..i + 1][..i] == stored[..i];
        Advance(stored[i].receivedAt);
        runner.Run([stored[i]]);
        assert SeenAll([stored[i]]) == [Seen(stored[i])];
      }
      assert stored[..|stored|] == stored;
    }
  }

  // ----- warm replay ---------------------------------------------------------------------------

  class Runner {
    var calls: seq<Call>

    constructor ()
      ensures calls == []
    {
      calls := [];
    }

    method Tick(at: int)
      modifies this
      ensures calls == old(calls) + [TickAt(at)] && Flat(calls) == Flat(old(calls)) + [Event.Tick(at)]
    {
      calls := calls + [TickAt(at)];
      assert calls[..|calls| - 1] == old(calls);
    }

    method Run(batch: seq<Stored>)
      modifies this
      ensures calls == old(calls) + [Process(batch)] && Flat(calls) == Flat(old(calls)) + SeenAll(batch)
    {
      calls := calls + [Process(batch)];
      assert calls[..|calls| - 1] == old(calls);
    }
  }

  /** The housekeeping ticks of a warm start. */
  class Ticks {
    const runner: Runner
    const every: int
    var next: Option<int>

    constructor (runner: Runner, every: int)
      ensures this.runner == runner && this.every == every && next == None
    {
      this.runner, this.every, next := runner, every, None;
    }

    ghost predicate Valid()
      reads this
    {
      every > 0 && (next.Some? ==> Round(next.value, every))
    }

    ghost function View(): Clock
      reads this, runner
    {
      Clock(next, Flat(runner.calls))
    }

    predicate Due(at: int)
      reads this
    {
      next.Some? && next.value <= at
    }

    /** Ticks until the next one lies after `at`. */
    method Advance(at: int)
      requires Valid()
      modifies this, runner
      ensures Valid() && View() == Advanced(old(View()), at, every)
    {
      if next.None? {
        next := Some(NextMultiple(at, every));
        assert Round(next.value, every);
      }
      while next.value <= at
        invariant next.Some? && Valid()
        invariant Ticked(next.value, Flat(runner.calls), at, every) == Advanced(old(View()), at, every)
        decreases at - next.value
      {
        MultipleAfter(next.value, every);
        runner.Tick(next.value);
        next := Some(NextMultiple(next.value, every));
      }
    }

    /** Run the chunk in batches between ticks, and the ticks on the way. */
    method Split(chunk: seq<Stored>)
      requires Valid()
      modifies this, runner
      ensures Valid() && View() == Ran(old(View()), chunk, every)
    {
      var start := 0;
      ghost var begun := View();
      for i := 0 to |chunk|
        invariant 0 <= start <= i && Valid()
        invariant Clock(next, Flat(runner.calls) + SeenAll(chunk[start..i])) == Ran(begun, chunk[..i], every)
      {
        start := TakeOne(chunk, start, i, begun);
      }
      assert chunk[..|chunk|] == chunk;
      Flush(chunk, start, |chunk|);
    }

    /** One observation, held until the next tick. */
    method TakeOne(chunk: seq<Stored>, start: int, i: int, ghost begun: Clock) returns (held: int)
      requires Valid() && 0 <= start <= i < |chunk|
      requires Clock(next, Flat(runner.calls) + SeenAll(chunk[start..i])) == Ran(begun, chunk[..i], every)
      modifies this, runner
      ensures Valid() && 0 <= held <= i + 1
      ensures Clock(next, Flat(runner.calls) + SeenAll(chunk[held..i + 1])) == Ran(begun, chunk[..i + 1], every)
    {
      held := TickBefore(chunk, start, i, Ran(begun, chunk[..i], every));
      RanNext(begun, chunk, i, every);
      SeenSlice(chunk, held, i);
      assert Flat(runner.calls) + SeenAll(chunk[held..i + 1]) == (Flat(runner.calls) + SeenAll(chunk[held..i])) + [Seen(chunk[i])];
    }

    /** The ticks due by an observation, once what is held is run. */
    method TickBefore(chunk: seq<Stored>, start: int, i: int, ghost c: Clock) returns (from: int)
      requires Valid() && 0 <= start <= i < |chunk|
      requires Clock(next, Flat(runner.calls) + SeenAll(chunk[start..i])) == c
      modifies this, runner
      ensures Valid() && start <= from <= i
      ensures Clock(next, Flat(runner.calls) + SeenAll(chunk[from..i])) == Advanced(c, chunk[i].receivedAt, every)
    {
      from := start;
      if next.None? || Due(chunk[i].receivedAt) {
        Flush(chunk, start, i);
        Advance(chunk[i].receivedAt);
        from := i;
        assert chunk[i..i] == [] && SeenAll(chunk[i..i]) == [];
      }
    }

    /** Hand what is held to the runner. */
    method Flush(chunk: seq<Stored>, start: int, end: int)
      requires Valid() && 0 <= start <= end <= |chunk|
      modifies runner
      ensures Valid() && Flat(runner.calls) == old(Flat(runner.calls)) + SeenAll(chunk[start..end])
      ensures runner.calls == old(runner.calls) + if start < end then [Process(chunk[start..end])] else []
    {
      if start < end {
        runner.Run(chunk[start..end]);
      } else {
        assert chunk[start..end] == [];
      }
    }
  }

  function Joined(chunks: seq<seq<Stored>>): seq<Stored> {
    if chunks == [] then [] else Joined(chunks[..|chunks| - 1]) + chunks[|chunks| - 1]
  }

  /** Run chunks of stored observations with ticks up to `until`: however they are cut, the run is the
      replay clock's, one observation at a time. */
  method WarmStart(runner: Runner, every: int, chunks: seq<seq<Stored>>, until: int) returns (count: nat)
    requires every > 0 && forall chunk <- chunks :: chunk != []
    modifies runner
    ensures count == |Joined(chunks)|
    ensures old(runner.calls) == [] ==> Flat(runner.calls) == Schedule(Joined(chunks), until, every)
  {
    var ticks := new Ticks(runner, every);
    count := 0;
    ghost var begun := ticks.View();
    for i := 0 to |chunks|
      invariant ticks.runner == runner && ticks.every == every && ticks.Valid() && fresh(ticks)
      invariant ticks.View() == Ran(begun, Joined(chunks[..i]), every)
      invariant count == |Joined(chunks[..i])|
    {
      assert chunks[..i + 1][..i] == chunks[..i];
      RanOn(begun, Joined(chunks[..i]), chunks[i], every);
      ticks.Split(chunks[i]);
      count := count + |chunks[i]|;
    }
    assert chunks[..|chunks|] == chunks;
    if count > 0 {
      ticks.Advance(until);
    }
  }

  // ----- what the schedule is ------------------------------------------------------------------

  function SeenIn(log: seq<Event>): seq<Stored> {
    if log == [] then []
    else
      var front, last := SeenIn(log[..|log| - 1]), log[|log| - 1];
      if last.Seen? then front + [last.o] else front
  }

  function TicksIn(log: seq<Event>): seq<int> {
    if log == [] then []
    else
      var front, last := TicksIn(log[..|log| - 1]), log[|log| - 1];
      if last.Tick? then front + [last.at] else front
  }

  /** A tick comes after what was received before it and before what was received at it or later. */
  predicate Comes(a: Event, b: Event) {
    match a
    case Tick(x) => (match b case Tick(y) => x < y case Seen(o) => x <= o.receivedAt)
    case Seen(o) => (match b case Tick(y) => o.receivedAt < y case Seen(p) => o.receivedAt <= p.receivedAt)
  }

  ghost predicate InOrder(log: seq<Event>) {
    forall i, j | 0 <= i < j < |log| :: Comes(log[i], log[j])
  }

  function Multiples(first: int, count: nat, every: int): (r: seq<int>)
    ensures |r| == count
  {
    seq(count, k => first + k * every * SECOND)
  }

  /** All events so far come before what is at `at` or later, and the next tick is the next multiple. */
  ghost predicate Paced(c: Clock, first: int, count: nat, reached: int, every: int) {
    && c.next == Some(first + count * every * SECOND) && InOrder(c.log)
    && TicksIn(c.log) == Multiples(first, count, every)
    && (forall e <- c.log :: match e case Tick(at) => at <= reached && at < c.next.value case Seen(o) => o.receivedAt <= reached && o.receivedAt < c.next.value)
  }

  ghost predicate Reaches(first: int, count: nat, reached: int, every: int) {
    (count == 0 || first + (count - 1) * every * SECOND <= reached) && reached < first + count * every * SECOND
  }

  lemma LogMore(log: seq<Event>, e: Event)
    ensures TicksIn(log + [e]) == TicksIn(log) + if e.Tick? then [e.at] else []
    ensures SeenIn(log + [e]) == SeenIn(log) + if e.Seen? then [e.o] else []
    ensures InOrder(log) && (forall d <- log :: Comes(d, e)) ==> InOrder(log + [e])
  {
    assert (log + [e])[..|log|] == log;
    if InOrder(log) && forall d <- log :: Comes(d, e) {
      forall i, j | 0 <= i < j < |log + [e]| ensures Comes((log + [e])[i], (log + [e])[j]) {
        assert log[i] in log;
      }
    }
  }

  lemma CountMore(first: int, count: nat, every: int)
    ensures first + (count + 1) * every * SECOND == first + count * every * SECOND + every * SECOND
    ensures Multiples(first, count + 1, every) == Multiples(first, count, every) + [first + count * every * SECOND]
  {
  }

  lemma {:induction false} TickedPaced(next: int, log: seq<Event>, first: int, count: nat, reached: int, at: int, every: int)
    returns (more: nat)
    requires every > 0 && reached <= at && Paced(Clock(Some(next), log), first, count, reached, every)
    requires count == 0 || first + (count - 1) * every * SECOND <= reached
    ensures var c := Ticked(next, log, at, every);
            Paced(c, first, more, at, every) && Reaches(first, more, at, every) && SeenIn(c.log) == SeenIn(log)
    decreases if next <= at then at - next + 1 else 0
  {
    if next > at {
      more := count;
    } else {
      LogMore(log, Tick(next));
      CountMore(first, count, every);
      more := TickedPaced(next + every * SECOND, log + [Tick(next)], first, count + 1, at, at, every);
    }
  }

  /** Observations in the order they were received. */
  ghost predicate Sorted(stored: seq<Stored>) {
    forall i, j | 0 <= i < j < |stored| :: stored[i].receivedAt <= stored[j].receivedAt
  }

  lemma RanFirst(o: Stored, first: int, every: int) returns (count: nat)
    requires every > 0 && first == NextMultiple(o.receivedAt, every)
    ensures var c := Ran(Clock(None, []), [o], every);
            Paced(c, first, count, o.receivedAt, every) && Reaches(first, count, o.receivedAt, every) && SeenIn(c.log) == [o]
  {
    NextMultipleExact(o.receivedAt, every);
    assert Paced(Clock(Some(first), []), first, 0, o.receivedAt, every);
    count := RanOne(Clock(None, []), Clock(Some(first), []), o, first, 0, o.receivedAt, every);
    assert [o][..|[o]| - 1] == [];
  }

  lemma {:induction false} RanPaced(stored: seq<Stored>, every: int) returns (count: nat)
    requires every > 0 && stored != [] && Sorted(stored)
    ensures var c, first, last := Ran(Clock(None, []), stored, every), NextMultiple(stored[0].receivedAt, every), stored[|stored| - 1].receivedAt;
            Paced(c, first, count, last, every) && Reaches(first, count, last, every) && SeenIn(c.log) == stored
  {
    var front, last := stored[..|stored| - 1], stored[|stored| - 1];
    var first := NextMultiple(stored[0].receivedAt, every);
    if front == [] {
      assert stored == [last];
      count := RanFirst(last, first, every);
    } else {
      var c := Ran(Clock(None, []), front, every);
      var before := RanPaced(front, every);
      count := RanOne(c, c, last, first, before, front[|front| - 1].receivedAt, every);
      assert stored == front + [last];
    }
  }

  /** One observation more: the clock `c`, or `primed` where it had no tick yet, advanced and seen. */
  lemma RanOne(c: Clock, primed: Clock, last: Stored, first: int, before: nat, reached: int, every: int) returns (count: nat)
    requires every > 0 && reached <= last.receivedAt
    requires primed == c || (c.next.None? && primed == c.(next := Some(NextMultiple(last.receivedAt, every))))
    requires Paced(primed, first, before, reached, every) && (before == 0 || first + (before - 1) * every * SECOND <= reached)
    ensures var clock := Advanced(c, last.receivedAt, every);
            var after := clock.(log := clock.log + [Seen(last)]);
            && Paced(after, first, count, last.receivedAt, every) && Reaches(first, count, last.receivedAt, every)
            && SeenIn(after.log) == SeenIn(c.log) + [last]
  {
    count := TickedPaced(primed.next.value, primed.log, first, before, reached, last.receivedAt, every);
    var clock := Advanced(c, last.receivedAt, every);
    assert clock == Ticked(primed.next.value, primed.log, last.receivedAt, every);
    LogMore(clock.log, Seen(last));
  }

  /** A replay of observations in the order received sees each of them once, in that order, and runs
      the multiples, from the next one the first of them is given, up to the last of them or `until`, once: after all
      that was received before it and before all that was received at it or later. */
  lemma ScheduleExact(stored: seq<Stored>, until: int, every: int) returns (count: nat)
    requires every > 0 && stored != [] && Sorted(stored)
    ensures var log, first := Schedule(stored, until, every), NextMultiple(stored[0].receivedAt, every);
            var reached := if until < stored[|stored| - 1].receivedAt then stored[|stored| - 1].receivedAt else until;
            && SeenIn(log) == stored
            && InOrder(log)
            && TicksIn(log) == Multiples(first, count, every) && Reaches(first, count, reached, every)
  {
    var c, last := Ran(Clock(None, []), stored, every), stored[|stored| - 1].receivedAt;
    var before := RanPaced(stored, every);
    if until < last {
      count := before;
    } else {
      count := TickedPaced(c.next.value, c.log, NextMultiple(stored[0].receivedAt, every), before, last, until, every);
    }
  }
}
