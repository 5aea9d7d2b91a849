/**
 * The ID generator.  A `Camflake` holds the base time, the machine id and the
 * allocation state: the elapsed time of the last allocation and the counter
 * of sequences handed out in that millisecond.  `Next` reads the clock,
 * allocates a sequence, retries once after a short sleep when the millisecond
 * is used up, and packs the ID.
 *
 * The clock is an input: each operation is given the readings it takes.  The
 * sleep before the retry is a step that either passes or is interrupted; its
 * duration is not assumed to advance the clock.
 */
module Camflake {
  import opened Errors
  import opened IdLayout
  import DefaultMachineId

  /** The largest elapsed time the 41-bit timestamp field holds: 2^41 - 1 ms. */
  const TIME_MAX: int := 0x1FF_FFFF_FFFF
  /** The largest sequence number per millisecond: 2^6 - 1. */
  const SEQUENCE_MAX: int := 63
  /** 1970-01-01T00:00:00Z in epoch milliseconds. */
  const EPOCH: int := 0
  /** 2017-06-01T00:00:00Z in epoch milliseconds, the default base time. */
  const DEFAULT_BASE_TIME: int := 1_496_275_200_000
  /** How long `Next` sleeps before its one retry. */
  const RETRY_SLEEP_MILLIS: int := 2

  /** The state of a generator, as a value. */
  datatype Generator = Generator(baseTime: int, machineId: int, elapsedTime: int, counter: nat)

  /** An allocated (elapsed, sequence) pair, before packing. */
  datatype Slot = Slot(elapsed: int, sequence: int)

  /** The clock readings and sleep outcome one call of `Next` meets. */
  datatype Call = Call(now: int, interrupted: bool, nowAfterSleep: int)

  /** What holds of every constructed generator and is kept by every call. */
  predicate Valid(g: Generator)
  {
    EPOCH <= g.baseTime && 0 <= g.elapsedTime <= TIME_MAX
  }

  /** `getElapsedTime`: milliseconds since the base time, if they fit the timestamp field. */
  function ElapsedTime(baseTime: int, now: int): (r: Result<int>)
    ensures r.Ok? <==> now - baseTime <= TIME_MAX
    ensures r.Ok? ==> r.value == now - baseTime
    ensures r.Err? ==> r.error == TimeLimitExceeded
  {
    var elapsed := now - baseTime;
    if elapsed > TIME_MAX then Err(TimeLimitExceeded) else Ok(elapsed)
  }

  /**
   * The checks of the constructor, in its order: the base time must lie
   * between the epoch and now, the elapsed time must fit the timestamp field,
   * and then the machine id is obtained.  A new generator starts at the
   * construction's elapsed time with counter 0.
   */
  function Construct(machineId: Result<int>, baseTime: int, now: int): (r: Result<Generator>)
    ensures r.Ok? <==> EPOCH <= baseTime <= now && now - baseTime <= TIME_MAX && machineId.Ok?
    ensures !(EPOCH <= baseTime <= now) ==> r == Err(ConfigurationError)
    ensures EPOCH <= baseTime <= now && now - baseTime > TIME_MAX ==> r == Err(TimeLimitExceeded)
    ensures EPOCH <= baseTime <= now && now - baseTime <= TIME_MAX && machineId.Err? ==>
              r == Err(machineId.error)
    ensures r.Ok? ==> r.value == Generator(baseTime, machineId.value, now - baseTime, 0)
    ensures r.Ok? ==> Valid(r.value)
  {
    if baseTime < EPOCH || baseTime > now then Err(ConfigurationError)
    else if now - baseTime > TIME_MAX then Err(TimeLimitExceeded)
    else match machineId
      case Err(e) => Err(e)
      case Ok(m) => Ok(Generator(baseTime, m, now - baseTime, 0))
  }

  /**
   * `getSequence`: when time has advanced past the stored elapsed time, store
   * it and restart the counter; then hand out the counter and increment it.
   * Yields the new state and the sequence handed out.
   */
  function AllocateSequence(g: Generator, elapsed: int): (r: (Generator, nat))
    ensures r.0.baseTime == g.baseTime && r.0.machineId == g.machineId
    ensures r.0.elapsedTime >= g.elapsedTime && r.0.elapsedTime >= elapsed
    ensures r.0.counter == r.1 + 1
  {
    var g0 := if g.elapsedTime < elapsed then g.(elapsedTime := elapsed, counter := 0) else g;
    (g0.(counter := g0.counter + 1), g0.counter)
  }

  /**
   * `next()` up to the packing: one allocation, and when its sequence is
   * above SEQUENCE_MAX a sleep and one more allocation.  The ID is packed from
   * the elapsed time read by the attempt that succeeded.
   */
  function Step(g: Generator, c: Call): (r: (Generator, Result<Slot>))
    ensures r.0.baseTime == g.baseTime && r.0.machineId == g.machineId
    ensures r.0.elapsedTime >= g.elapsedTime
    ensures r.1.Ok? ==> 0 <= r.1.value.sequence <= SEQUENCE_MAX && r.1.value.elapsed <= TIME_MAX
  {
    match ElapsedTime(g.baseTime, c.now)
    case Err(e) => (g, Err(e))
    case Ok(e1) =>
      var (g1, s1) := AllocateSequence(g, e1);
      if s1 <= SEQUENCE_MAX then (g1, Ok(Slot(e1, s1)))
      else if c.interrupted then (g1, Err(Interrupted))
      else match ElapsedTime(g.baseTime, c.nowAfterSleep)
        case Err(e) => (g1, Err(e))
        case Ok(e2) =>
          var (g2, s2) := AllocateSequence(g1, e2);
          if s2 <= SEQUENCE_MAX then (g2, Ok(Slot(e2, s2))) else (g2, Err(SequenceExhausted))
  }

  /** The ID `next()` returns for an allocation outcome. */
  function IdOf(machineId: int, r: Result<Slot>): Result<int>
  {
    match r
    case Err(e) => Err(e)
    case Ok(s) => Ok(Pack(s.elapsed, s.sequence, machineId))
  }

  class Camflake {
    var baseTime: int
    var machineId: int
    var elapsedTime: int
    var counter: nat

    function Model(): Generator
      reads this
    {
      Generator(baseTime, machineId, elapsedTime, counter)
    }

    /** Stores the validated fields; the counter starts at 0. */
    constructor (machineId: int, baseTime: int, elapsed: int)
      requires Valid(Generator(baseTime, machineId, elapsed, 0))
      ensures Model() == Generator(baseTime, machineId, elapsed, 0)
    {
      this.machineId := machineId;
      this.baseTime := baseTime;
      this.elapsedTime := elapsed;
      this.counter := 0;
    }

    /**
     * `Camflake(MachineId, Instant)`: validates the base time against the
     * construction's clock reading, obtains the machine id and builds the
     * generator, or reports why it cannot.
     */
    static method Create(machineId: Result<int>, baseTime: int, now: int) returns (r: Result<Camflake>)
      ensures r.Ok? == Construct(machineId, baseTime, now).Ok?
      ensures r.Ok? ==> fresh(r.value) && r.value.Model() == Construct(machineId, baseTime, now).value
      ensures r.Err? ==> Construct(machineId, baseTime, now) == Err(r.error)
    {
      if baseTime < EPOCH || baseTime > now {
        return Err(ConfigurationError);
      }
      var elapsed := now - baseTime;
      if elapsed > TIME_MAX {
        return Err(TimeLimitExceeded);
      }
      if machineId.Err? {
        return Err(machineId.error);
      }
      var c := new Camflake(machineId.value, baseTime, elapsed);
      return Ok(c);
    }

    /** `Camflake(MachineId)`: the base time defaults to 2017-06-01T00:00:00Z. */
    static method CreateWithDefaultBaseTime(machineId: Result<int>, now: int) returns (r: Result<Camflake>)
      ensures r.Ok? == Construct(machineId, DEFAULT_BASE_TIME, now).Ok?
      ensures r.Ok? ==> fresh(r.value) && r.value.Model() == Construct(machineId, DEFAULT_BASE_TIME, now).value
      ensures r.Err? ==> Construct(machineId, DEFAULT_BASE_TIME, now) == Err(r.error)
    {
      r := Create(machineId, DEFAULT_BASE_TIME, now);
    }

    /** `Camflake()`: the machine id comes from the local host's address. */
    static method CreateDefault(lookup: DefaultMachineId.HostLookup, now: int) returns (r: Result<Camflake>)
      requires lookup.Address? ==> |lookup.bytes| >= 4
      ensures r.Ok? == Construct(DefaultMachineId.GetId(lookup), DEFAULT_BASE_TIME, now).Ok?
      ensures r.Ok? ==> fresh(r.value)
      ensures r.Ok? ==> r.value.Model() == Construct(DefaultMachineId.GetId(lookup), DEFAULT_BASE_TIME, now).value
      ensures r.Err? ==> Construct(DefaultMachineId.GetId(lookup), DEFAULT_BASE_TIME, now) == Err(r.error)
    {
      r := CreateWithDefaultBaseTime(DefaultMachineId.GetId(lookup), now);
    }

    /** `getSequence(elapsed)`, one atomic step on the allocation state. */
    method GetSequence(elapsed: int) returns (sequence: nat)
      modifies this
      ensures (Model(), sequence) == AllocateSequence(old(Model()), elapsed)
    {
      if elapsedTime < elapsed {
        elapsedTime := elapsed;
        counter := 0;
      }
      sequence := counter;
      counter := counter + 1;
    }

    /** `sleep(durationMillis)`: passes, or fails when the sleep is interrupted. */
    static method Sleep(durationMillis: int, interrupted: bool) returns (o: Outcome)
      ensures o.Fail? <==> interrupted
      ensures o.Fail? ==> o.error == Interrupted
    {
      if interrupted {
        return Fail(Interrupted);
      }
      return Pass;
    }

    /**
     * `next()` up to the packing (lines of the elapsed-time reads, the
     * allocations, the sleep and the retry): the slot the ID is packed from.
     */
    method NextSlot(now: int, interrupted: bool, nowAfterSleep: int) returns (r: Result<Slot>)
      modifies this
      ensures (Model(), r) == Step(old(Model()), Call(now, interrupted, nowAfterSleep))
    {
      var t := ElapsedTime(baseTime, now);
      if t.Err? {
        return Err(t.error);
      }
      var elapsed := t.value;
      var sequence := GetSequence(elapsed);
      if sequence > SEQUENCE_MAX {
        var slept := Sleep(RETRY_SLEEP_MILLIS, interrupted);
        if slept.Fail? {
          return Err(slept.error);
        }
        t := ElapsedTime(baseTime, nowAfterSleep);
        if t.Err? {
          return Err(t.error);
        }
        elapsed := t.value;
        sequence := GetSequence(elapsed);
        if sequence > SEQUENCE_MAX {
          return Err(SequenceExhausted);
        }
      }
      r := Ok(Slot(elapsed, sequence));
    }

    /** `next()`: the slot of `Step`, packed with this generator's machine id. */
    method Next(now: int, interrupted: bool, nowAfterSleep: int) returns (id: Result<int>)
      modifies this
      ensures Model() == Step(old(Model()), Call(now, interrupted, nowAfterSleep)).0
      ensures id == IdOf(machineId, Step(old(Model()), Call(now, interrupted, nowAfterSleep)).1)
    {
      var slot := NextSlot(now, interrupted, nowAfterSleep);
      if slot.Err? {
        return Err(slot.error);
      }
      id := Ok(Pack(slot.value.elapsed, slot.value.sequence, machineId));
    }
  }
}
