/**
 * Properties of the generator: what one allocation does, what one call of
 * `next()` can do, and that a generator read under a non-decreasing clock
 * issues strictly increasing IDs.
 */
module CamflakeProofs {
  import opened Errors
  import opened IdLayout
  import opened Camflake

  // ---- getSequence ----------------------------------------------------------

  /**
   * An allocation never moves the stored elapsed time back: it becomes the
   * larger of the stored and the given one.  The sequence handed out is the
   * counter before its increment: 0 after a reset, the old counter otherwise.
   * Base time and machine id are untouched.
   */
  lemma AllocateSequenceSpec(g: Generator, elapsed: int)
    ensures var (g', s) := AllocateSequence(g, elapsed);
      && g'.baseTime == g.baseTime && g'.machineId == g.machineId
      && g'.elapsedTime >= g.elapsedTime && g'.elapsedTime >= elapsed
      && (g'.elapsedTime == g.elapsedTime || g'.elapsedTime == elapsed)
      && g'.counter == s + 1
      && (g.elapsedTime < elapsed ==> s == 0 && g'.elapsedTime == elapsed)
      && (elapsed <= g.elapsedTime ==> s == g.counter && g'.elapsedTime == g.elapsedTime)
  {
  }

  /** The sequences handed out by allocations at the given elapsed times, in order. */
  function Allocations(g: Generator, es: seq<int>): (r: (Generator, seq<nat>))
    ensures |r.1| == |es|
    decreases |es|
  {
    if es == [] then (g, [])
    else
      var (g1, s) := AllocateSequence(g, es[0]);
      var (g', ss) := Allocations(g1, es[1..]);
      (g', [s] + ss)
  }

  /**
   * Allocations at elapsed times not after the stored one keep counting from
   * the stored counter, and leave the stored elapsed time alone.  This is also
   * what happens when the clock has moved backward.
   */
  lemma {:induction false} AllocationsWithinMillisecond(g: Generator, es: seq<int>)
    requires forall i :: 0 <= i < |es| ==> es[i] <= g.elapsedTime
    ensures forall i :: 0 <= i < |es| ==> Allocations(g, es).1[i] == g.counter + i
    ensures Allocations(g, es).0 == g.(counter := g.counter + |es|)
    decreases |es|
  {
    if es != [] {
      var g1 := AllocateSequence(g, es[0]).0;
      AllocationsWithinMillisecond(g1, es[1..]);
    }
  }

  /**
   * N callers allocating in a millisecond later than the stored one receive
   * the sequences 0 .. N-1, in the order their allocations are serialised.
   */
  lemma AllocationsInNewMillisecond(g: Generator, e: int, es: seq<int>)
    requires g.elapsedTime < e
    requires forall i :: 0 <= i < |es| ==> es[i] == e
    ensures forall i :: 0 <= i < |es| ==> Allocations(g, es).1[i] == i
  {
    if es != [] {
      var g1 := AllocateSequence(g, e).0;
      assert g1.elapsedTime == e && g1.counter == 1;
      AllocationsWithinMillisecond(g1, es[1..]);
      assert forall i :: 1 <= i < |es| ==> Allocations(g, es).1[i] == Allocations(g1, es[1..]).1[i - 1];
    }
  }

  // ---- next() ---------------------------------------------------------------

  /**
   * A call never moves the stored elapsed time back, never changes base time
   * or machine id, and keeps `Valid`.
   */
  lemma StepMonotone(g: Generator, c: Call)
    ensures Step(g, c).0.elapsedTime >= g.elapsedTime
    ensures Step(g, c).0.baseTime == g.baseTime && Step(g, c).0.machineId == g.machineId
    ensures Valid(g) ==> Valid(Step(g, c).0)
  {
  }

  /**
   * A call performs at most two allocations: none when the first clock
   * reading is out of range, one at the first reading, or that one followed
   * by one at the reading after the sleep.
   */
  lemma StepRetriesAtMostOnce(g: Generator, c: Call)
    ensures var e1, e2 := c.now - g.baseTime, c.nowAfterSleep - g.baseTime;
      || Step(g, c).0 == g
      || Step(g, c).0 == AllocateSequence(g, e1).0
      || Step(g, c).0 == AllocateSequence(AllocateSequence(g, e1).0, e2).0
  {
  }

  /**
   * When the first attempt yields a sequence within range, the call does not
   * sleep: its outcome does not depend on the sleep or the later reading.
   */
  lemma StepWithoutRetry(g: Generator, now: int, i1: bool, t1: int, i2: bool, t2: int)
    requires now - g.baseTime <= TIME_MAX
    requires AllocateSequence(g, now - g.baseTime).1 <= SEQUENCE_MAX
    ensures Step(g, Call(now, i1, t1)) == Step(g, Call(now, i2, t2))
    ensures Step(g, Call(now, i1, t1)).1 == Ok(Slot(now - g.baseTime, AllocateSequence(g, now - g.baseTime).1))
  {
  }

  /**
   * When the first attempt runs out of sequences and the reading after the
   * sleep falls in a later millisecond, the retry succeeds with sequence 0 in
   * that millisecond and leaves the counter at 1.
   */
  lemma StepRetryInNewMillisecond(g: Generator, c: Call)
    requires Valid(g)
    requires c.now - g.baseTime <= g.elapsedTime && g.counter > SEQUENCE_MAX
    requires !c.interrupted
    requires g.elapsedTime < c.nowAfterSleep - g.baseTime <= TIME_MAX
    ensures Step(g, c).1 == Ok(Slot(c.nowAfterSleep - g.baseTime, 0))
    ensures Step(g, c).0 == g.(elapsedTime := c.nowAfterSleep - g.baseTime, counter := 1)
  {
  }

  /**
   * A successful call yields a sequence within 0..SEQUENCE_MAX and an elapsed
   * time within the timestamp field, taken from one of its two clock readings.
   */
  lemma StepSuccess(g: Generator, c: Call)
    requires Step(g, c).1.Ok?
    ensures var s := Step(g, c).1.value;
      && 0 <= s.sequence <= SEQUENCE_MAX && s.elapsed <= TIME_MAX
      && (s.elapsed == c.now - g.baseTime || s.elapsed == c.nowAfterSleep - g.baseTime)
  {
  }

  /**
   * Each failure of a call, and exactly when it happens.  No ID is returned
   * in any of these cases.
   */
  lemma StepFailures(g: Generator, c: Call)
    ensures var e1 := c.now - g.baseTime;
      var (g1, s1) := AllocateSequence(g, e1);
      var e2 := c.nowAfterSleep - g.baseTime;
      var s2 := AllocateSequence(g1, e2).1;
      && (Step(g, c).1 == Err(TimeLimitExceeded) <==>
            e1 > TIME_MAX || (s1 > SEQUENCE_MAX && !c.interrupted && e2 > TIME_MAX))
      && (Step(g, c).1 == Err(Interrupted) <==>
            e1 <= TIME_MAX && s1 > SEQUENCE_MAX && c.interrupted)
      && (Step(g, c).1 == Err(SequenceExhausted) <==>
            e1 <= TIME_MAX && s1 > SEQUENCE_MAX && !c.interrupted && e2 <= TIME_MAX && s2 > SEQUENCE_MAX)
      && (Step(g, c).1.Err? ==> Step(g, c).1.error in {TimeLimitExceeded, Interrupted, SequenceExhausted})
  {
  }

  /**
   * A clock reading before the stored elapsed time is not special-cased: the
   * ID takes the older reading as its timestamp while the counter goes on
   * from its stored value.
   */
  lemma StepBackwardClock(g: Generator, c: Call)
    requires Valid(g)
    requires c.now - g.baseTime < g.elapsedTime && g.counter <= SEQUENCE_MAX
    ensures Step(g, c).1 == Ok(Slot(c.now - g.baseTime, g.counter))
    ensures Step(g, c).0 == g.(counter := g.counter + 1)
  {
  }

  // ---- ordering -------------------------------------------------------------

  /** The position of a slot in (elapsed, sequence) order. */
  function Rank(s: Slot): int
  {
    s.elapsed * 64 + s.sequence
  }

  /** The lowest rank a generator can still issue while its clock does not go back. */
  function Frontier(g: Generator): int
  {
    g.elapsedTime * 64 + (if g.counter < 64 then g.counter else 64)
  }

  /** Allocation only ever raises the frontier. */
  lemma AllocateRaisesFrontier(g: Generator, elapsed: int)
    ensures Frontier(AllocateSequence(g, elapsed).0) > Frontier(g) || Frontier(g) == g.elapsedTime * 64 + 64
    ensures Frontier(AllocateSequence(g, elapsed).0) >= Frontier(g)
  {
  }

  /** A call, successful or not, never lowers the frontier. */
  lemma StepRaisesFrontier(g: Generator, c: Call)
    ensures Frontier(Step(g, c).0) >= Frontier(g)
  {
    var e1 := c.now - g.baseTime;
    AllocateRaisesFrontier(g, e1);
    AllocateRaisesFrontier(AllocateSequence(g, e1).0, c.nowAfterSleep - g.baseTime);
  }

  /** A slot a call issues lies below the frontier the call leaves behind. */
  lemma StepIssuesBelowNewFrontier(g: Generator, c: Call)
    requires Step(g, c).1.Ok?
    ensures Rank(Step(g, c).1.value) < Frontier(Step(g, c).0)
  {
  }

  /** The clock readings the generator has consumed lie at or before `t`. */
  predicate ClockReached(g: Generator, t: int)
  {
    g.baseTime + g.elapsedTime <= t
  }

  /**
   * Under a clock that does not go back, a call issues a slot at the
   * frontier or above it, and its readings are not below the stored time.
   */
  lemma StepIssuesAboveFrontier(g: Generator, c: Call)
    requires Valid(g) && ClockReached(g, c.now) && c.now <= c.nowAfterSleep
    ensures ClockReached(Step(g, c).0, c.nowAfterSleep)
    ensures Step(g, c).1.Ok? ==>
      var s := Step(g, c).1.value;
      Frontier(g) <= Rank(s) && 0 <= s.elapsed <= TIME_MAX && 0 <= s.sequence <= SEQUENCE_MAX
  {
  }

  /** A sequence of calls of `next()` on one generator. */
  function Run(g: Generator, calls: seq<Call>): (r: (Generator, seq<Result<Slot>>))
    ensures |r.1| == |calls|
    decreases |calls|
  {
    if calls == [] then (g, [])
    else
      var (g1, r1) := Step(g, calls[0]);
      var (g', rs) := Run(g1, calls[1..]);
      (g', [r1] + rs)
  }

  /** Over any run, successful or not, the stored elapsed time never decreases. */
  lemma {:induction false} RunElapsedNeverDecreases(g: Generator, calls: seq<Call>)
    ensures Run(g, calls).0.elapsedTime >= g.elapsedTime
    ensures Run(g, calls).0.baseTime == g.baseTime && Run(g, calls).0.machineId == g.machineId
    decreases |calls|
  {
    if calls != [] {
      StepMonotone(g, calls[0]);
      RunElapsedNeverDecreases(Step(g, calls[0]).0, calls[1..]);
    }
  }

  /** The IDs a run returns. */
  function RunIds(g: Generator, calls: seq<Call>): (ids: seq<Result<int>>)
    ensures |ids| == |calls|
  {
    var rs := Run(g, calls).1;
    seq(|rs|, i requires 0 <= i < |rs| => IdOf(g.machineId, rs[i]))
  }

  /** Clock readings, from `t` on, that never go back. */
  predicate ClockFrom(t: int, calls: seq<Call>)
    decreases |calls|
  {
    calls == [] ||
    (t <= calls[0].now <= calls[0].nowAfterSleep && ClockFrom(calls[0].nowAfterSleep, calls[1..]))
  }

  /** Every slot issued lies at rank `f` or above, within the ID layout's field ranges. */
  predicate IssuedFrom(f: int, rs: seq<Result<Slot>>)
  {
    forall i :: 0 <= i < |rs| && rs[i].Ok? ==>
      f <= Rank(rs[i].value)
      && 0 <= rs[i].value.elapsed <= TIME_MAX && 0 <= rs[i].value.sequence <= SEQUENCE_MAX
  }

  /** Issued slots come in strictly increasing rank. */
  predicate RanksIncrease(rs: seq<Result<Slot>>)
  {
    forall i, j :: 0 <= i < j < |rs| && rs[i].Ok? && rs[j].Ok? ==> Rank(rs[i].value) < Rank(rs[j].value)
  }

  /** Returned IDs are non-negative `long`s in strictly increasing order. */
  predicate IdsIncrease(ids: seq<Result<int>>)
  {
    && (forall i :: 0 <= i < |ids| && ids[i].Ok? ==> 0 <= ids[i].value < 0x8000_0000_0000_0000)
    && (forall i, j :: 0 <= i < j < |ids| && ids[i].Ok? && ids[j].Ok? ==> ids[i].value < ids[j].value)
  }

  /** Under a clock that does not go back, successful calls issue slots of strictly increasing rank. */
  lemma {:induction false} RunRanksIncrease(g: Generator, t: int, calls: seq<Call>)
    requires Valid(g) && ClockReached(g, t) && ClockFrom(t, calls)
    ensures IssuedFrom(Frontier(g), Run(g, calls).1)
    ensures RanksIncrease(Run(g, calls).1)
    decreases |calls|
  {
    if calls != [] {
      var c := calls[0];
      var g1 := Step(g, c).0;
      var r1 := Step(g, c).1;
      StepIssuesAboveFrontier(g, c);
      StepRaisesFrontier(g, c);
      StepMonotone(g, c);
      if r1.Ok? {
        StepIssuesBelowNewFrontier(g, c);
      }
      RunRanksIncrease(g1, c.nowAfterSleep, calls[1..]);
      var rs := Run(g, calls).1;
      var rest := Run(g1, calls[1..]).1;
      assert rs == [r1] + rest;
      assert IssuedFrom(Frontier(g1), rest) && RanksIncrease(rest);
      forall i | 0 <= i < |rs| && rs[i].Ok?
        ensures Frontier(g) <= Rank(rs[i].value)
        ensures 0 <= rs[i].value.elapsed <= TIME_MAX && 0 <= rs[i].value.sequence <= SEQUENCE_MAX
      {
        if i > 0 {
          assert rs[i] == rest[i - 1];
        }
      }
      forall i, j | 0 <= i < j < |rs| && rs[i].Ok? && rs[j].Ok?
        ensures Rank(rs[i].value) < Rank(rs[j].value)
      {
        assert rs[j] == rest[j - 1];
        if i > 0 {
          assert rs[i] == rest[i - 1];
        } else {
          assert Rank(r1.value) < Frontier(g1) <= Rank(rest[j - 1].value);
        }
      }
    }
  }

  /**
   * Under a clock that does not go back, with a machine id in the low 16
   * bits, every successful `next()` returns an ID larger than every earlier
   * one; all of them are non-negative `long`s.
   */
  lemma RunIdsIncrease(g: Generator, t: int, calls: seq<Call>)
    requires Valid(g) && ClockReached(g, t) && ClockFrom(t, calls)
    requires 0 <= g.machineId < 0x1_0000
    ensures IdsIncrease(RunIds(g, calls))
  {
    RunRanksIncrease(g, t, calls);
    var rs := Run(g, calls).1;
    var ids := RunIds(g, calls);
    assert IssuedFrom(Frontier(g), rs) && RanksIncrease(rs);
    forall i | 0 <= i < |ids| && ids[i].Ok?
      ensures 0 <= ids[i].value < 0x8000_0000_0000_0000
    {
      var a := rs[i].value;
      PackLayout(a.elapsed, a.sequence, g.machineId);
      assert ids[i] == Ok(Pack(a.elapsed, a.sequence, g.machineId));
    }
    forall i, j | 0 <= i < j < |ids| && ids[i].Ok? && ids[j].Ok?
      ensures ids[i].value < ids[j].value
    {
      var a, b := rs[i].value, rs[j].value;
      assert Rank(a) < Rank(b);
      PackMonotone(a.elapsed, a.sequence, b.elapsed, b.sequence, g.machineId);
      assert ids[i] == Ok(Pack(a.elapsed, a.sequence, g.machineId));
      assert ids[j] == Ok(Pack(b.elapsed, b.sequence, g.machineId));
    }
  }

  /**
   * A freshly constructed generator whose clock never goes back issues
   * strictly increasing IDs.
   */
  lemma ConstructedIdsIncrease(machineId: int, baseTime: int, now: int, calls: seq<Call>)
    requires Construct(Ok(machineId), baseTime, now).Ok?
    requires 0 <= machineId < 0x1_0000
    requires ClockFrom(now, calls)
    ensures IdsIncrease(RunIds(Construct(Ok(machineId), baseTime, now).value, calls))
  {
    RunIdsIncrease(Construct(Ok(machineId), baseTime, now).value, now, calls);
  }

  /**
   * The machine-id bound of `RunIdsIncrease` cannot be dropped: a generator
   * with machine id 65536, called twice in the millisecond it was built in,
   * returns the same ID twice.
   */
  lemma WideMachineIdRepeatsIdInOneMillisecond(g: Generator, c: Call)
    requires Valid(g) && g.machineId == 0x1_0000 && g.counter == 0
    requires c.now - g.baseTime == g.elapsedTime
    ensures var (g1, r1) := Step(g, c);
            var r2 := Step(g1, c).1;
            r1.Ok? && r2.Ok? && IdOf(g.machineId, r1) == IdOf(g.machineId, r2)
  {
    var (g1, r1) := Step(g, c);
    assert r1 == Ok(Slot(g.elapsedTime, 0));
    assert Step(g1, c).1 == Ok(Slot(g.elapsedTime, 1));
    WideMachineIdRepeatsId(g.elapsedTime);
  }

  /**
   * A backward clock can re-issue an ID: constructed at millisecond 5, two
   * IDs at 5, one at 6, and the clock back at 5 gives (5, 1) again.
   */
  lemma BackwardClockRepeatsId(g: Generator, calls: seq<Call>)
    requires g == Construct(Ok(1), EPOCH, 5).value
    requires calls == [Call(5, false, 5), Call(5, false, 5), Call(6, false, 6), Call(5, false, 5)]
    ensures RunIds(g, calls)[1].Ok? && RunIds(g, calls)[1] == RunIds(g, calls)[3]
  {
    assert g == Generator(0, 1, 5, 0);
    BackwardClockRun(g, calls);
    RunIdsFollowSlots(g, calls, 1, 3);
  }

  /** Two calls of a run that allocate the same slot return the same ID. */
  lemma RunIdsFollowSlots(g: Generator, calls: seq<Call>, i: nat, j: nat)
    requires i < |calls| && j < |calls|
    requires Run(g, calls).1[i] == Run(g, calls).1[j]
    ensures RunIds(g, calls)[i] == RunIds(g, calls)[j]
    ensures RunIds(g, calls)[i].Ok? <==> Run(g, calls).1[i].Ok?
  {
  }

  /** The slots the four calls of the scenario above allocate. */
  lemma BackwardClockRun(g: Generator, calls: seq<Call>)
    requires g == Generator(0, 1, 5, 0)
    requires calls == [Call(5, false, 5), Call(5, false, 5), Call(6, false, 6), Call(5, false, 5)]
    ensures Run(g, calls).1 == [Ok(Slot(5, 0)), Ok(Slot(5, 1)), Ok(Slot(6, 0)), Ok(Slot(5, 1))]
  {
    BackwardClockSteps(g);
    var gA, gB, gC := g.(counter := 1), g.(counter := 2), g.(elapsedTime := 6, counter := 1);
    var c1, c2, c3 := calls[1..], calls[2..], calls[3..];
    assert c1[1..] == c2 && c2[1..] == c3 && c3[1..] == [];
    assert Run(gC, c3).1 == [Ok(Slot(5, 1))];
    assert Run(gB, c2).1 == [Ok(Slot(6, 0))] + Run(gC, c3).1;
    assert Run(gA, c1).1 == [Ok(Slot(5, 1))] + Run(gB, c2).1;
    assert Run(g, calls).1 == [Ok(Slot(5, 0))] + Run(gA, c1).1;
  }

  /** The four calls of the scenario above, one at a time. */
  lemma BackwardClockSteps(g: Generator)
    requires g == Generator(0, 1, 5, 0)
    ensures Step(g, Call(5, false, 5)) == (g.(counter := 1), Ok(Slot(5, 0)))
    ensures Step(g.(counter := 1), Call(5, false, 5)) == (g.(counter := 2), Ok(Slot(5, 1)))
    ensures Step(g.(counter := 2), Call(6, false, 6)) == (g.(elapsedTime := 6, counter := 1), Ok(Slot(6, 0)))
    ensures Step(g.(elapsedTime := 6, counter := 1), Call(5, false, 5)) == (g.(elapsedTime := 6, counter := 2), Ok(Slot(5, 1)))
  {
  }



  // ---- the source's unit tests, as facts of the model ----------------------

  /** Base time before the epoch (1969-12-31T23:59:59Z): configuration error. */
  lemma ConstructBeforeEpochFails(now: int)
    ensures Construct(Ok(1), -1000, now) == Err(ConfigurationError)
  {
  }

  /** Base time after now (9999-12-31T23:59:59Z): configuration error. */
  lemma ConstructInFutureFails(now: int)
    requires now < 253_402_300_799_000
    ensures Construct(Ok(1), 253_402_300_799_000, now) == Err(ConfigurationError)
  {
  }

  /** Construction at 2^41 ms with the epoch as base time: time limit exceeded. */
  lemma ConstructPastTimeLimitFails()
    ensures Construct(Ok(1), EPOCH, 0x200_0000_0000) == Err(TimeLimitExceeded)
  {
  }

  /** Machine 1, constructed at the base time, called 1000 ms later: 4194304001. */
  lemma NextReturnsExpectedValue(g: Generator, nowAfterSleep: int)
    requires g == Construct(Ok(1), DEFAULT_BASE_TIME, DEFAULT_BASE_TIME).value
    ensures IdOf(g.machineId, Step(g, Call(DEFAULT_BASE_TIME + 1000, false, nowAfterSleep)).1) == Ok(4194304001)
  {
    assert g == Generator(DEFAULT_BASE_TIME, 1, 0, 0);
    assert Step(g, Call(DEFAULT_BASE_TIME + 1000, false, nowAfterSleep)).1 == Ok(Slot(1000, 0));
    PackLayout(1000, 0, 1);
  }

  /** A call at 2^41 ms after the base time fails with time limit exceeded. */
  lemma NextPastTimeLimitFails(interrupted: bool, nowAfterSleep: int)
    ensures var g := Construct(Ok(1), EPOCH, EPOCH).value;
      Step(g, Call(0x200_0000_0000, interrupted, nowAfterSleep)).1 == Err(TimeLimitExceeded)
  {
  }

  /** The generator at 1 ms with its counter set to 64 (the test's forced exhaustion). */
  function Exhausted(): Generator
  {
    Construct(Ok(1), EPOCH, 1).value.(counter := 64)
  }

  /** Exhausted at 1 ms, the retry at 3 ms starts a new millisecond: 12582913. */
  lemma NextRetriesOnce(g: Generator)
    requires g == Exhausted()
    ensures Step(g, Call(1, false, 3)).1 == Ok(Slot(3, 0))
    ensures IdOf(g.machineId, Step(g, Call(1, false, 3)).1) == Ok(12582913)
  {
    assert g == Generator(0, 1, 1, 64);
    assert Step(g, Call(1, false, 3)).1 == Ok(Slot(3, 0));
    PackLayout(3, 0, 1);
  }

  /** Exhausted at 1 ms, an interrupted sleep ends the call with Interrupted. */
  lemma NextInterruptedFails(nowAfterSleep: int)
    ensures Step(Exhausted(), Call(1, true, nowAfterSleep)).1 == Err(Interrupted)
  {
  }

  /** A retry still within the exhausted millisecond fails with SequenceExhausted. */
  lemma NextRetryExhaustedFails()
    ensures Step(Exhausted(), Call(1, false, 1)).1 == Err(SequenceExhausted)
  {
  }

  /** The retry scenario run on the class itself. */
  method RetryOnceScenario() returns (id: Result<int>)
    ensures id == Ok(12582913)
  {
    var r := Camflake.Create(Ok(1), EPOCH, 1);
    var c := r.value;
    c.counter := 64;
    var g := c.Model();
    assert g == Exhausted();
    NextRetriesOnce(g);
    StepMonotone(g, Call(1, false, 3));
    id := c.Next(1, false, 3);
    assert c.machineId == g.machineId;
  }
}
