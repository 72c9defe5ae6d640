/** The real-time replay of a timeline (src/emitter.cpp `Emitter::run`):
    each event is sent when its timestamp has elapsed since the start of the
    replay, and an interrupt flag, polled at least every 100 ms while waiting,
    makes the replay send a TRACK_ABORT and stop.

    The steady clock and the interrupt flag are modelled by `Clock`: time in
    nanoseconds advances only by sleeping, and the flag is raised at a fixed
    instant (if ever) and never cleared. The transport is a sink recording
    what it is sent. */
module Emitter {
  import opened Wrappers
  import opened Envelopes

  /** Nanoseconds per second. */
  const Second: int := 1_000_000_000

  /** The longest single sleep: 100 ms. */
  const PollPeriod: int := 100_000_000

  /** A timestamp converted to clock ticks, truncated toward zero as a
      `duration_cast` to the steady clock's nanoseconds does. */
  function Nanos(t: real): int {
    Trunc(t * Second as real)
  }

  /** Whether the flag raised at `interruptAt` is up at time `now`. */
  predicate Raised(interruptAt: Option<int>, now: int) {
    interruptAt.Some? && now >= interruptAt.value
  }

  function Max(a: int, b: int): int {
    if a < b then b else a
  }

  function Min(a: int, b: int): int {
    if a < b then a else b
  }

  /** `after` extends `before` by sleeps of more than nothing and at most 100 ms each. */
  predicate BriefSleeps(before: seq<int>, after: seq<int>) {
    |before| <= |after| && after[..|before|] == before
    && forall i :: |before| <= i < |after| ==> 0 < after[i] <= PollPeriod
  }

  lemma BriefSleepsTrans(a: seq<int>, b: seq<int>, c: seq<int>)
    requires BriefSleeps(a, b) && BriefSleeps(b, c)
    ensures BriefSleeps(a, c)
  {
    assert c[..|a|] == c[..|b|][..|a|];
    forall i | |a| <= i < |c|
      ensures 0 < c[i] <= PollPeriod
    {
      if i < |b| {
        assert c[i] == c[..|b|][i];
      }
    }
  }

  /** The abort sent in place of an event: its timestamp, the reason "user_interrupt". */
  function AbortOf(e: TimelineEvent): TimelineEvent {
    TimelineEvent(e.timestamp, TrackAbortMsg("user_interrupt"))
  }

  class Clock {
    var now: int
    const interruptAt: Option<int>
    /** Every sleep taken, in order. */
    ghost var sleeps: seq<int>

    constructor(start: int, interruptAt: Option<int>)
      ensures now == start && this.interruptAt == interruptAt && sleeps == []
    {
      now := start;
      this.interruptAt := interruptAt;
      sleeps := [];
    }

    predicate Interrupted()
      reads this
    {
      Raised(interruptAt, now)
    }

    method Sleep(d: int)
      requires d > 0
      modifies this
      ensures now == old(now) + d && sleeps == old(sleeps) + [d]
    {
      now := now + d;
      sleeps := sleeps + [d];
    }
  }

  /** One send of the replay: when, what, and whether it is the abort. */
  datatype Sending = Sending(at: int, event: TimelineEvent, aborting: bool)

  /** The events sent, in order. */
  function EventsOf(r: seq<Sending>): (es: seq<TimelineEvent>)
    ensures |es| == |r|
  {
    if r == [] then [] else [r[0].event] + EventsOf(r[1..])
  }

  class Transport {
    /** The envelopes sent, in order. */
    var sent: seq<TimelineEvent>
    /** Every send with the clock reading at the time and whether it was the abort. */
    ghost var log: seq<Sending>

    /** What was sent is what the log records. */
    ghost predicate Valid()
      reads this
    {
      sent == EventsOf(log)
    }

    constructor()
      ensures Valid() && sent == [] && log == []
    {
      sent := [];
      log := [];
    }

    method Send(e: TimelineEvent, ghost at: int, ghost aborting: bool)
      requires Valid()
      modifies this
      ensures Valid()
      ensures sent == old(sent) + [e] && log == old(log) + [Sending(at, e, aborting)]
    {
      EventsAppend(log, [Sending(at, e, aborting)]);
      sent := sent + [e];
      log := log + [Sending(at, e, aborting)];
    }
  }

  /** The clock reading at which the polling wait for `target` ends, from
      `now`: at once when the target has passed or the flag is up, else after
      one sleep of the remaining time or 100 ms, whichever is less. */
  function WaitEnd(now: int, target: int, interruptAt: Option<int>): int
    decreases target - now
  {
    if now >= target || Raised(interruptAt, now) then now
    else WaitEnd(now + Min(target - now, PollPeriod), target, interruptAt)
  }

  /** The replay from event `k` on, the clock reading `now`, the replay having
      started at `start`. A flag seen before event `k` sends the abort
      stamped with event `k`'s time and ends the replay. Otherwise the wait
      for event `k` lasts until its target; if the flag is up by then, event
      `k` is dropped and the next iteration decides; else event `k` is sent. */
  function Replay(tl: Timeline, k: nat, now: int, interruptAt: Option<int>, start: int): seq<Sending>
    decreases |tl| - k
  {
    if k >= |tl| then []
    else if Raised(interruptAt, now) then [Sending(now, AbortOf(tl[k]), true)]
    else
      var after := WaitEnd(now, start + Nanos(tl[k].timestamp), interruptAt);
      if Raised(interruptAt, after) then Replay(tl, k + 1, after, interruptAt, start)
      else [Sending(after, tl[k], false)] + Replay(tl, k + 1, after, interruptAt, start)
  }

  /** Replays `timeline` through `transport`. */
  method Run(timeline: Timeline, transport: Transport, clock: Clock)
    requires transport.Valid()
    modifies transport, clock
    ensures transport.Valid()
    ensures transport.log == old(transport.log) + Replay(timeline, 0, old(clock.now), clock.interruptAt, old(clock.now))
    ensures BriefSleeps(old(clock.sleeps), clock.sleeps)
  {
    if |timeline| == 0 {
      assert transport.log + [] == transport.log;
      assert clock.sleeps[..|clock.sleeps|] == clock.sleeps;
      return;
    }
    var start := clock.now;
    var k := 0;
    while k < |timeline|
      invariant k <= |timeline| && transport.Valid()
      invariant transport.log + Replay(timeline, k, clock.now, clock.interruptAt, start)
        == old(transport.log) + Replay(timeline, 0, start, clock.interruptAt, start)
      invariant BriefSleeps(old(clock.sleeps), clock.sleeps)
    {
      ghost var sleeps := clock.sleeps;
      ghost var log := transport.log;
      var stop;
      ghost var step;
      stop, step := Turn(timeline, k, start, transport, clock);
      BriefSleepsTrans(old(clock.sleeps), sleeps, clock.sleeps);
      if stop {
        SendingsAssoc(log, step, []);
        return;
      }
      SendingsAssoc(log, step, Replay(timeline, k + 1, clock.now, clock.interruptAt, start));
      k := k + 1;
    }
    assert transport.log + [] == transport.log;
  }

  /** One iteration of the replay loop for event `k`: the abort when the flag
      is already up, else the wait and, unless the flag went up meanwhile,
      the event. */
  method Turn(timeline: Timeline, k: nat, start: int, transport: Transport, clock: Clock)
    returns (stop: bool, ghost step: seq<Sending>)
    requires k < |timeline| && transport.Valid()
    modifies transport, clock
    ensures transport.Valid() && transport.log == old(transport.log) + step
    ensures Replay(timeline, k, old(clock.now), clock.interruptAt, start)
      == step + (if stop then [] else Replay(timeline, k + 1, clock.now, clock.interruptAt, start))
    ensures BriefSleeps(old(clock.sleeps), clock.sleeps)
  {
    if clock.Interrupted() {
      var abort := AbortOf(timeline[k]);
      transport.Send(abort, clock.now, true);
      assert clock.sleeps[..|clock.sleeps|] == clock.sleeps;
      return true, [Sending(clock.now, abort, true)];
    }
    var target := start + Nanos(timeline[k].timestamp);
    ghost var now := clock.now;
    WaitUntil(clock, target);
    ReplayStep(timeline, k, now, clock.interruptAt, start);
    if clock.Interrupted() {
      assert transport.log + [] == transport.log;
      return false, [];
    }
    transport.Send(timeline[k], clock.now, false);
    step := [Sending(clock.now, timeline[k], false)];
    stop := false;
  }

  /** One event of a replay whose flag is not yet up: the wait, then the
      event or, when the flag went up meanwhile, nothing. */
  lemma ReplayStep(tl: Timeline, k: nat, now: int, interruptAt: Option<int>, start: int)
    requires k < |tl| && !Raised(interruptAt, now)
    ensures var after := WaitEnd(now, start + Nanos(tl[k].timestamp), interruptAt);
      Replay(tl, k, now, interruptAt, start)
      == (if Raised(interruptAt, after) then [] else [Sending(after, tl[k], false)])
         + Replay(tl, k + 1, after, interruptAt, start)
  {
  }

  lemma SendingsAssoc(a: seq<Sending>, b: seq<Sending>, c: seq<Sending>)
    ensures (a + b) + c == a + (b + c)
  {
  }

  lemma {:induction false} EventsAppend(a: seq<Sending>, b: seq<Sending>)
    ensures EventsOf(a + b) == EventsOf(a) + EventsOf(b)
    decreases |a|
  {
    if a == [] {
      assert a + b == b;
    } else {
      assert (a + b)[1..] == a[1..] + b;
      EventsAppend(a[1..], b);
    }
  }

  /** The polling wait for one event: sleeps of at most 100 ms until the
      target, given up as soon as the flag is seen. It ends at the target (or
      at once when that has passed) unless the flag was raised by then. */
  method WaitUntil(clock: Clock, target: int)
    modifies clock
    ensures clock.now == WaitEnd(old(clock.now), target, clock.interruptAt)
    ensures BriefSleeps(old(clock.sleeps), clock.sleeps)
  {
    while clock.now < target
      invariant WaitEnd(clock.now, target, clock.interruptAt) == WaitEnd(old(clock.now), target, clock.interruptAt)
      invariant BriefSleeps(old(clock.sleeps), clock.sleeps)
      decreases target - clock.now
    {
      if clock.Interrupted() {
        break;
      }
      var remaining := target - clock.now;
      var sleepTime := Min(remaining, PollPeriod);
      if sleepTime > 0 {
        ghost var before := clock.sleeps;
        clock.Sleep(sleepTime);
        assert BriefSleeps(before, clock.sleeps);
        BriefSleepsTrans(old(clock.sleeps), before, clock.sleeps);
      }
    }
  }

  // ------------------------------------------------------------------ properties

  /** The wait never runs past the target; it reaches the target exactly when
      the flag is not up by then, and a flag raised during the wait is seen
      less than 100 ms after it goes up. */
  lemma {:induction false} WaitEndFacts(now: int, target: int, interruptAt: Option<int>)
    ensures var w := WaitEnd(now, target, interruptAt);
      now <= w <= Max(now, target)
      && (!Raised(interruptAt, w) ==> w == Max(now, target))
      && (Raised(interruptAt, w) <==> Raised(interruptAt, Max(now, target)))
      && (Raised(interruptAt, w) && !Raised(interruptAt, now) ==> w < interruptAt.value + PollPeriod)
    decreases target - now
  {
    if !(now >= target || Raised(interruptAt, now)) {
      WaitEndFacts(now + Min(target - now, PollPeriod), target, interruptAt);
    }
  }

  /** Without an interrupt every event is sent exactly once, unchanged and in
      timeline order. */
  lemma {:induction false} ReplayUninterrupted(tl: Timeline, k: nat, now: int, start: int)
    requires k <= |tl|
    ensures EventsOf(Replay(tl, k, now, None, start)) == tl[k..]
    ensures forall s :: s in Replay(tl, k, now, None, start) ==> !s.aborting
    decreases |tl| - k
  {
    if k < |tl| {
      var after := WaitEnd(now, start + Nanos(tl[k].timestamp), None);
      var rest := Replay(tl, k + 1, after, None, start);
      ReplayUninterrupted(tl, k + 1, after, start);
      assert Replay(tl, k, now, None, start) == [Sending(after, tl[k], false)] + rest;
      assert tl[k..] == [tl[k]] + tl[k + 1..];
    }
  }

  /** An event is never sent before its target, the start of the replay plus
      its timestamp: targets are counted from the fixed start, not from the
      previous event. */
  lemma {:induction false} ReplayNotEarly(tl: Timeline, k: nat, now: int, interruptAt: Option<int>, start: int)
    ensures forall s :: s in Replay(tl, k, now, interruptAt, start) && !s.aborting ==>
      s.at >= start + Nanos(s.event.timestamp)
    decreases |tl| - k
  {
    if k < |tl| && !Raised(interruptAt, now) {
      var target := start + Nanos(tl[k].timestamp);
      var after := WaitEnd(now, target, interruptAt);
      WaitEndFacts(now, target, interruptAt);
      ReplayNotEarly(tl, k + 1, after, interruptAt, start);
    }
  }

  /** The sends of a replay from `k` that stops after event `j`: events `k`
      to `j - 1` in order, then nothing, or the abort stamped with event `j`
      (the flag seen before it), or the abort stamped with event `j + 1` (the
      flag raised while waiting for event `j`, which is dropped). */
  ghost predicate Shaped(r: seq<Sending>, tl: Timeline, k: nat, j: nat)
    requires k <= j <= |tl|
  {
    EventsOf(r) == tl[k..j]
    || (j < |tl| && EventsOf(r) == tl[k..j] + [AbortOf(tl[j])])
    || (j + 1 < |tl| && EventsOf(r) == tl[k..j] + [AbortOf(tl[j + 1])])
  }

  /** The sends `r` of a replay from `k` are shaped as above for some stopping point. */
  ghost predicate ShapedFrom(r: seq<Sending>, tl: Timeline, k: nat)
    requires k <= |tl|
  {
    exists j :: k <= j <= |tl| && Shaped(r, tl, k, j)
  }

  /** A replay sends a prefix of the timeline, then at most one abort. */
  lemma {:induction false} ReplayShape(tl: Timeline, k: nat, now: int, interruptAt: Option<int>, start: int)
    requires k <= |tl|
    ensures ShapedFrom(Replay(tl, k, now, interruptAt, start), tl, k)
    decreases |tl| - k
  {
    var r := Replay(tl, k, now, interruptAt, start);
    if k == |tl| {
      assert Shaped(r, tl, k, k);
    } else if Raised(interruptAt, now) {
      assert EventsOf(r) == tl[k..k] + [AbortOf(tl[k])];
      assert Shaped(r, tl, k, k);
    } else {
      var after := WaitEnd(now, start + Nanos(tl[k].timestamp), interruptAt);
      ReplayShape(tl, k + 1, after, interruptAt, start);
      ShapeStep(tl, k, now, after, interruptAt, start);
    }
  }

  /** One event of the replay keeps its shape: dropped with the flag up, after
      which the next iteration sends at most the abort, or sent in front of
      the rest. */
  lemma ShapeStep(tl: Timeline, k: nat, now: int, after: int, interruptAt: Option<int>, start: int)
    requires k < |tl| && !Raised(interruptAt, now)
    requires after == WaitEnd(now, start + Nanos(tl[k].timestamp), interruptAt)
    requires ShapedFrom(Replay(tl, k + 1, after, interruptAt, start), tl, k + 1)
    ensures ShapedFrom(Replay(tl, k, now, interruptAt, start), tl, k)
  {
    var rest := Replay(tl, k + 1, after, interruptAt, start);
    ReplayStep(tl, k, now, interruptAt, start);
    if Raised(interruptAt, after) {
      assert rest == if k + 1 < |tl| then [Sending(after, AbortOf(tl[k + 1]), true)] else [];
      assert [] + rest == rest;
      assert Shaped(rest, tl, k, k);
    } else {
      var j :| k + 1 <= j <= |tl| && Shaped(rest, tl, k + 1, j);
      ShapedCons(Sending(after, tl[k], false), rest, tl, k, j);
    }
  }

  lemma ShapedCons(s: Sending, rest: seq<Sending>, tl: Timeline, k: nat, j: nat)
    requires k < j <= |tl| && s.event == tl[k] && Shaped(rest, tl, k + 1, j)
    ensures Shaped([s] + rest, tl, k, j)
  {
    assert EventsOf([s] + rest) == [tl[k]] + EventsOf(rest) by {
      assert ([s] + rest)[1..] == rest;
    }
    assert tl[k..j] == [tl[k]] + tl[k + 1..j];
  }

  /** Nothing is sent after an abort. */
  predicate AbortLast(r: seq<Sending>) {
    forall i :: 0 <= i < |r| && r[i].aborting ==> i == |r| - 1
  }

  /** The abort, if a replay sends one, is the last thing it sends. */
  lemma {:induction false} ReplayAbortLast(tl: Timeline, k: nat, now: int, interruptAt: Option<int>, start: int)
    ensures AbortLast(Replay(tl, k, now, interruptAt, start))
    decreases |tl| - k
  {
    if k < |tl| && !Raised(interruptAt, now) {
      var after := WaitEnd(now, start + Nanos(tl[k].timestamp), interruptAt);
      ReplayAbortLast(tl, k + 1, after, interruptAt, start);
      ReplayStep(tl, k, now, interruptAt, start);
      if !Raised(interruptAt, after) {
        AbortLastCons(Sending(after, tl[k], false), Replay(tl, k + 1, after, interruptAt, start));
      }
    }
  }

  lemma AbortLastCons(s: Sending, rest: seq<Sending>)
    requires !s.aborting && AbortLast(rest)
    ensures AbortLast([s] + rest)
  {
    forall i | 0 <= i < |[s] + rest| && ([s] + rest)[i].aborting
      ensures i == |[s] + rest| - 1
    {
      assert ([s] + rest)[i] == rest[i - 1];
    }
  }

  /** A flag seen at the top of an iteration sends exactly one abort, stamped
      with that event's time, and ends the replay. */
  lemma InterruptSeenAtTop(tl: Timeline, k: nat, now: int, interruptAt: Option<int>, start: int)
    requires k < |tl| && Raised(interruptAt, now)
    ensures Replay(tl, k, now, interruptAt, start) == [Sending(now, TimelineEvent(tl[k].timestamp, TrackAbortMsg("user_interrupt")), true)]
  {
  }

  // ------------------------------------------------------------------ the last event

  /** As written: when the flag goes up while waiting for the last event, that
      event is dropped and the loop ends without any abort. */
  lemma LastEventInterruptSendsNothing(tl: Timeline, now: int, interruptAt: Option<int>, start: int)
    requires |tl| > 0 && !Raised(interruptAt, now)
    requires Raised(interruptAt, Max(now, start + Nanos(tl[|tl| - 1].timestamp)))
    ensures Replay(tl, |tl| - 1, now, interruptAt, start) == []
  {
    WaitEndFacts(now, start + Nanos(tl[|tl| - 1].timestamp), interruptAt);
  }

  /** A one-event timeline due at 1 s, replayed from time 0 and interrupted at
      0.5 s: nothing at all is sent, neither the event nor an abort. */
  lemma InterruptedSingleEvent()
    ensures var tl := [TimelineEvent(1.0, TrackEndMsg)];
      Replay(tl, 0, 0, Some(500_000_000), 0) == [] && EventsOf(Replay(tl, 0, 0, Some(500_000_000), 0)) != tl
  {
    var tl := [TimelineEvent(1.0, TrackEndMsg)];
    assert Nanos(1.0) == Second;
    LastEventInterruptSendsNothing(tl, 0, Some(500_000_000), 0);
  }

  /** The replay as the emitter's interface describes it: a flag raised while
      waiting for event `k` sends the abort stamped with event `k` and ends
      the replay, as a flag seen at the top of the loop does. */
  function ReplayIntended(tl: Timeline, k: nat, now: int, interruptAt: Option<int>, start: int): seq<Sending>
    decreases |tl| - k
  {
    if k >= |tl| then []
    else if Raised(interruptAt, now) then [Sending(now, AbortOf(tl[k]), true)]
    else
      var after := WaitEnd(now, start + Nanos(tl[k].timestamp), interruptAt);
      if Raised(interruptAt, after) then [Sending(after, AbortOf(tl[k]), true)]
      else [Sending(after, tl[k], false)] + ReplayIntended(tl, k + 1, after, interruptAt, start)
  }

  /** Corrected: a replay either sends every event, or ends with the abort. */
  lemma {:induction false} IntendedAbortsWhenCut(tl: Timeline, k: nat, now: int, interruptAt: Option<int>, start: int)
    requires k <= |tl|
    ensures var r := ReplayIntended(tl, k, now, interruptAt, start);
      EventsOf(r) == tl[k..] || (|r| > 0 && r[|r| - 1].aborting)
    decreases |tl| - k
  {
    if k < |tl| && !Raised(interruptAt, now) {
      var after := WaitEnd(now, start + Nanos(tl[k].timestamp), interruptAt);
      if !Raised(interruptAt, after) {
        var rest := ReplayIntended(tl, k + 1, after, interruptAt, start);
        IntendedAbortsWhenCut(tl, k + 1, after, interruptAt, start);
        assert ReplayIntended(tl, k, now, interruptAt, start) == [Sending(after, tl[k], false)] + rest;
        assert EventsOf([Sending(after, tl[k], false)] + rest) == [tl[k]] + EventsOf(rest);
        assert tl[k..] == [tl[k]] + tl[k + 1..];
      }
    }
  }
}
