# Camflake in Dafny

Camflake hands out 64-bit, roughly time-ordered unique IDs, in the style of
Snowflake. A generator is built from a base time and a machine id. Each
call of `next()` works as follows:

- It reads the clock and takes the milliseconds elapsed since the base time.
  These must fit in 41 bits: `TIME_MAX = 2^41 - 1 = 2199023255551`.
- It allocates a per-millisecond sequence number. The counter restarts at 0
  whenever a later millisecond is seen.
- When more than `SEQUENCE_MAX = 63` sequences were already handed out in
  that millisecond, it sleeps 2 ms and tries exactly once more.
- It packs the ID as `(elapsed << 22) | (sequence << 16) | machineId`.

The default machine id is bytes 2 and 3 of the local host's address,
`(unsigned(a[2]) << 8) | unsigned(a[3])`. For an IPv4 address these are its
low 16 bits. For a 16-byte IPv6 address they lie inside the routing prefix,
so hosts that share a /32 prefix share a machine id.

The model has six modules:

- `JavaBits` (`bits.dfy`): Java's `<<` and `|` on `int` and `long`, in
  two's complement over unbounded integers. These are written out bit by bit.
- `Errors` (`errors.dfy`): the failure kinds the source raises as
  `CamflakeException`:
  - `ConfigurationError`: an invalid base time, or a failed host lookup;
  - `TimeLimitExceeded`;
  - `SequenceExhausted`;
  - `Interrupted`.
- `IdLayout` (`layout.dfy`): the packing expression, and its decoding by
  `id >> 22`, `(id >> 16) & 63` and `id & 0xFFFF`.
- `DefaultMachineId` (`machine_id.dfy`): `getId()`. The result of the host
  lookup is an input: either the address bytes or `UnknownHost`.
- `Camflake` (`camflake.dfy`): the generator itself.
  - The state machine is a set of functions on a `Generator` value:
    `Construct`, `ElapsedTime`, `AllocateSequence` and `Step`.
  - These are also written as the class `Camflake`. Its fields are
    `baseTime`, `machineId`, `elapsedTime` and `counter`. Its methods are
    `Create` (the constructor with its checks), `GetSequence`, `Sleep`,
    `NextSlot` and `Next`. Each method is proved to change the object
    exactly as the matching function says.
- `CamflakeProofs` (`camflake_proofs.dfy`): the properties, and the unit
  tests of the source restated as lemmas about the model.

Clock readings are inputs. A call of `next()` is a `Call` with three fields:

- the first clock reading;
- whether the retry's sleep is interrupted;
- the clock reading after that sleep.

Times are whole milliseconds since 1970-01-01T00:00:00Z. The default base
time 2017-06-01T00:00:00Z is `1_496_275_200_000`.

Two behaviours of the code are modelled as written:

- **A clock moving backward can re-issue an ID.** `next()` packs the elapsed
  time it has just read, not the stored one. When the clock goes back, the
  counter goes on from its stored value while the timestamp field takes the
  older reading. So an ID issued earlier can come back:
  `CamflakeProofs.BackwardClockRepeatsId` shows one.
  - A generator might be expected never to re-issue an (elapsed, sequence)
    pair when its clock goes back. The code does not ensure this, and the
    model follows the code.
  - Strictly increasing IDs are proved only for clock readings that never go
    back. That is `CamflakeProofs.RunIdsIncrease`.
- **Machine ids of 2^16 or more (17 bits or more) overlap the sequence field.** The
  machine-id field is documented as accepting 0-262143, but only bits 0-15
  are reserved for it. Machine id 65536 at sequence 0 and machine id 0 at
  sequence 1 give the same ID (`IdLayout.MachineIdOverlapsSequence`).
  - Ordering fails even within one generator. With machine id 65536,
    sequences 0 and 1 of one millisecond give the same ID
    (`IdLayout.WideMachineIdRepeatsId`). A generator with that machine id
    returns the same ID from two calls in one millisecond
    (`CamflakeProofs.WideMachineIdRepeatsIdInOneMillisecond`).
  - So the bound `machineId < 2^16` of `RunIdsIncrease` is needed for the
    result to hold; it is not there to ease the proof. Decoding and ordering
    are proved for machine ids below 2^16. Those are the only values
    `DefaultMachineId` produces.

## Model

| member | source | states |
|---|---|---|
| Camflake.ElapsedTime | camflake/src/main/java/com/camobile/camflake/Camflake.java:147-159 | `getElapsedTime` succeeds exactly when `now - baseTime <= TIME_MAX` (2^41 - 1) and then yields `now - baseTime`; otherwise it fails with TimeLimitExceeded. |
| Camflake.Construct | camflake/src/main/java/com/camobile/camflake/Camflake.java:69-83 | Construction succeeds iff `EPOCH <= baseTime <= now`, `now - baseTime <= TIME_MAX` and the machine id is obtained. A base time outside [epoch, now] is a ConfigurationError. An elapsed time over the limit is TimeLimitExceeded. A machine-id failure propagates, and is checked only after the time checks. On success `elapsedTime = now - baseTime`, `counter = 0`, and the state is Valid. |
| Camflake.Camflake.constructor | camflake/src/main/java/com/camobile/camflake/Camflake.java:80-82 | Called only with values that passed the constructor's checks (base time not before the epoch, elapsed time within 0..TIME_MAX). The new object holds the given machine id, base time and elapsed time, with counter 0 (the field initialiser at line 58). |
| Camflake.Camflake.Create | camflake/src/main/java/com/camobile/camflake/Camflake.java:69-83 | The constructor returns a fresh generator exactly when `Construct` succeeds, and its state is `Construct`'s state. Otherwise it returns `Construct`'s error. |
| Camflake.Camflake.CreateWithDefaultBaseTime | camflake/src/main/java/com/camobile/camflake/Camflake.java:93-98 | The same, with the base time 2017-06-01T00:00:00Z. |
| Camflake.Camflake.CreateDefault | camflake/src/main/java/com/camobile/camflake/Camflake.java:107-109 | The same, with the default base time and the machine id `DefaultMachineId.GetId` derives from the host lookup. |
| Camflake.AllocateSequence | camflake/src/main/java/com/camobile/camflake/Camflake.java:170-179 | `getSequence` on the state as a value: it restarts the counter when the given elapsed time is later than the stored one, then hands out the counter and increments it. Its contract: base time and machine id unchanged, the stored elapsed time is at least both the old one and the given one, and the new counter is the handed-out sequence plus 1. Both branches are stated in full by `AllocateSequenceSpec`. |
| Camflake.Camflake.GetSequence | camflake/src/main/java/com/camobile/camflake/Camflake.java:170-179 | The new object state and the returned sequence are exactly `AllocateSequence` of the old state. |
| CamflakeProofs.AllocateSequenceSpec | camflake/src/main/java/com/camobile/camflake/Camflake.java:170-179 | If the stored elapsed time is below the given one, an allocation stores the given one, returns 0 and leaves the counter at 1. Otherwise it returns the old counter, increments it and keeps the stored elapsed time. The stored elapsed time never decreases, and base time and machine id are untouched. |
| CamflakeProofs.AllocationsWithinMillisecond | camflake/src/main/java/com/camobile/camflake/Camflake.java:173-177 | N allocations at or before the stored elapsed time hand out `counter, counter+1, ..., counter+N-1` and leave the counter at `counter + N`. |
| CamflakeProofs.AllocationsInNewMillisecond | camflake/src/main/java/com/camobile/camflake/Camflake.java:173-177 | N allocations in a millisecond later than the stored one hand out 0, 1, ..., N-1. |
| Camflake.Camflake.Sleep | camflake/src/main/java/com/camobile/camflake/Camflake.java:187-195 | The sleep fails exactly when interrupted, and then with Interrupted. |
| Camflake.Step | camflake/src/main/java/com/camobile/camflake/Camflake.java:117-133 | `next()` up to the packing, on the state as a value: the first reading and allocation, and, if that sequence is above 63, the sleep, the second reading and one more allocation. Its contract: base time and machine id unchanged, the stored elapsed time never lowered, and a returned slot has sequence 0..63 and elapsed at most TIME_MAX. Exact conditions for each error are in `StepFailures`, and success is described by `StepSuccess`, `StepWithoutRetry` and `StepRetryInNewMillisecond`. |
| Camflake.Camflake.NextSlot | camflake/src/main/java/com/camobile/camflake/Camflake.java:117-133 | The reads, allocations, sleep and retry of `next()` change the object to `Step`'s new state and yield `Step`'s slot or error. |
| Camflake.Camflake.Next | camflake/src/main/java/com/camobile/camflake/Camflake.java:117-139 | `next()` leaves the object in `Step`'s new state. It returns the slot packed with the machine id, or `Step`'s error. |
| CamflakeProofs.StepMonotone | camflake/src/main/java/com/camobile/camflake/Camflake.java:173-176 | A call never lowers the stored elapsed time, never changes base time or machine id, and keeps Valid. |
| CamflakeProofs.RunElapsedNeverDecreases | camflake/src/main/java/com/camobile/camflake/Camflake.java:173-176 | Across any sequence of calls the stored elapsed time never decreases. |
| CamflakeProofs.StepRetriesAtMostOnce | camflake/src/main/java/com/camobile/camflake/Camflake.java:125-133 | A call performs no allocation, one allocation, or one followed by exactly one retry allocation. |
| CamflakeProofs.StepWithoutRetry | camflake/src/main/java/com/camobile/camflake/Camflake.java:120-125 | A first sequence within 0..63 is used directly. The outcome does not depend on the sleep or the second reading. |
| CamflakeProofs.StepRetryInNewMillisecond | camflake/src/main/java/com/camobile/camflake/Camflake.java:125-133 | After an exhausted first attempt, an uninterrupted sleep and a second reading in a later millisecond give sequence 0 in that millisecond, with counter 1. |
| CamflakeProofs.StepSuccess | camflake/src/main/java/com/camobile/camflake/Camflake.java:125-135 | A successful call's sequence lies in 0..63 and its elapsed time is at most TIME_MAX. The elapsed time is one of the two readings. |
| CamflakeProofs.StepFailures | camflake/src/main/java/com/camobile/camflake/Camflake.java:117-133 | Each failure occurs exactly when stated (an iff for each). TimeLimitExceeded: the first reading is over the limit, or the retry reading is. Interrupted: first attempt exhausted and the sleep interrupted. SequenceExhausted: the retry is exhausted too. No other error occurs. |
| CamflakeProofs.StepBackwardClock | camflake/src/main/java/com/camobile/camflake/Camflake.java:170-177 | A reading before the stored elapsed time is packed as is, with the stored counter as sequence. The counter goes on from there. |
| CamflakeProofs.AllocateRaisesFrontier | camflake/src/main/java/com/camobile/camflake/Camflake.java:170-179 | An allocation raises the frontier, the lowest (elapsed, sequence) rank still available, or finds it already at the top of its millisecond. |
| CamflakeProofs.StepRaisesFrontier | camflake/src/main/java/com/camobile/camflake/Camflake.java:117-133 | A call, successful or not, never lowers the frontier. |
| CamflakeProofs.StepIssuesBelowNewFrontier | camflake/src/main/java/com/camobile/camflake/Camflake.java:117-133 | The slot a call issues ranks below the frontier it leaves behind. |
| CamflakeProofs.StepIssuesAboveFrontier | camflake/src/main/java/com/camobile/camflake/Camflake.java:117-133 | Under a clock that does not go back, an issued slot ranks at or above the frontier before the call, and lies within the field ranges. |
| CamflakeProofs.RunRanksIncrease | camflake/src/main/java/com/camobile/camflake/Camflake.java:117-135 | Under non-decreasing clock readings, successful calls issue (elapsed, sequence) slots in strictly increasing lexicographic order, all within the field ranges. |
| CamflakeProofs.RunIdsIncrease | camflake/src/test/java/com/camobile/camflake/CamflakeTest.java:81-90 | Under non-decreasing clock readings and a machine id below 2^16, every successful `next()` returns a non-negative `long` larger than every earlier one. |
| CamflakeProofs.ConstructedIdsIncrease | camflake/src/test/java/com/camobile/camflake/CamflakeTest.java:81-90 | The same for a freshly constructed generator and clock readings from its construction time on. |
| CamflakeProofs.RunIdsFollowSlots | camflake/src/main/java/com/camobile/camflake/Camflake.java:135 | Two calls of a run with the same slot return the same ID, and a call returns an ID exactly when it obtained a slot. |
| CamflakeProofs.WideMachineIdRepeatsIdInOneMillisecond | camflake/src/main/java/com/camobile/camflake/Camflake.java:120-135 | A generator with machine id 65536, counter 0, called twice at the millisecond it stores, returns the same ID both times. The machine-id bound of `RunIdsIncrease` is therefore needed. |
| CamflakeProofs.BackwardClockRepeatsId | camflake/src/main/java/com/camobile/camflake/Camflake.java:120-135 | Constructed at 5 ms, then called at 5, 5, 6 and again 5 ms: the second and the fourth call return the same ID. |
| CamflakeProofs.BackwardClockRun | camflake/src/main/java/com/camobile/camflake/Camflake.java:120-135 | The four calls of that scenario allocate (5,0), (5,1), (6,0) and (5,1). |
| CamflakeProofs.BackwardClockSteps | camflake/src/main/java/com/camobile/camflake/Camflake.java:170-177 | The state after each call of that scenario: the counter keeps counting after the clock went back from 6 to 5. |
| IdLayout.Pack | camflake/src/main/java/com/camobile/camflake/Camflake.java:135 | The Java `long` value of `(elapsed << 22) \| (sequence << 16) \| machineId`: `elapsed` shifted as a `long`, `sequence` shifted as an `int` and widened with its sign, the machine id widened with its sign, then ORed. It has no contract of its own; its properties are `PackLayout`, `PackSum`, `PackInjective`, `PackMonotone` and `PackWideMachineId`. |
| IdLayout.Decode | camflake/src/main/java/com/camobile/camflake/Camflake.java:135 | The inverse of the packing: `id >> 22`, `(id >> 16) & 63` and `id & 0xFFFF`. Its contract: the sequence lies in 0..63 and the machine id in 0..65535 for every id. `PackLayout` and `DecodeRoundTrip` state the two round trips. |
| IdLayout.DecodeRoundTrip | camflake/src/main/java/com/camobile/camflake/Camflake.java:135 | Every non-negative `long` decodes to fields within the layout, and packing those fields gives the same id back. |
| IdLayout.PackLayout | camflake/src/main/java/com/camobile/camflake/Camflake.java:135 | For elapsed < 2^41, sequence < 64 and machine id < 2^16, the packed ID is `elapsed*2^22 + sequence*2^16 + machineId`. It lies in [0, 2^63). `id >> 22`, `(id >> 16) & 63` and `id & 0xFFFF` give the three fields back. |
| IdLayout.PackSum | camflake/src/main/java/com/camobile/camflake/Camflake.java:135 | Within those ranges, the Java shifts and ORs equal the sum of the shifted fields. |
| IdLayout.DecodeSum | camflake/src/main/java/com/camobile/camflake/Camflake.java:135 | Decoding the sum of the shifted fields returns the fields. |
| IdLayout.PackInjective | camflake/src/main/java/com/camobile/camflake/Camflake.java:135 | Within the layout, distinct field triples give distinct IDs. |
| IdLayout.PackMonotone | camflake/src/main/java/com/camobile/camflake/Camflake.java:135 | For one machine id, IDs are ordered like the (elapsed, sequence) pairs in lexicographic order. |
| IdLayout.PackWideMachineId | camflake/src/main/java/com/camobile/camflake/Camflake.java:135 | At sequence 0, a machine id of up to 22 bits is added unchanged to the shifted elapsed time, its bits 16-21 included. |
| IdLayout.MachineIdOverlapsSequence | camflake/src/main/java/com/camobile/camflake/Camflake.java:42-46 | Machine id 65536 at sequence 0 packs to the same ID as machine id 0 at sequence 1, and decodes as sequence 1, machine id 0. |
| IdLayout.WideMachineIdRepeatsId | camflake/src/main/java/com/camobile/camflake/Camflake.java:42-46 | With machine id 65536, sequence 0 and sequence 1 of the same millisecond pack to the same ID: the machine id already sets bit 16, the one bit sequence 1 adds. |
| JavaBits.Shl | camflake/src/main/java/com/camobile/camflake/Camflake.java:135 | Java's `x << k` on a `w`-bit value: the low `w` bits of `x * 2^k`, read as a signed `w`-bit number. It has no contract of its own; `ShlExact` gives its value when no bit reaches the sign bit. |
| JavaBits.BitOr | camflake/src/main/java/com/camobile/camflake/Camflake.java:135 | Java's `a \| b` on `w`-bit values: the OR of the two's complement bits, read as a signed `w`-bit number. It has no contract of its own; `BitOrDisjoint` gives its value for disjoint fields. |
| JavaBits.ShlExact | camflake/src/main/java/com/camobile/camflake/Camflake.java:135 | A Java left shift that pushes no bit into the sign bit multiplies by 2^k. |
| JavaBits.BitOrDisjoint | camflake/src/main/java/com/camobile/camflake/Camflake.java:135 | A Java OR of non-negative values with disjoint bits below the sign bit is their sum. |
| JavaBits.BitOrAlreadySet | camflake/src/main/java/com/camobile/camflake/Camflake.java:135 | A Java OR with a non-negative value below 2^k whose bits are already set in the other operand, below the sign bit, returns that operand unchanged. |
| DefaultMachineId.ToUnsignedInt | camflake/src/main/java/com/camobile/camflake/DefaultMachineId.java:26 | `Byte.toUnsignedInt` gives 0..255 with the byte's bit pattern (equal modulo 256). |
| DefaultMachineId.ToUnsignedIntInjective | camflake/src/main/java/com/camobile/camflake/DefaultMachineId.java:26 | Distinct bytes read as distinct unsigned values. |
| DefaultMachineId.GetId | camflake/src/main/java/com/camobile/camflake/DefaultMachineId.java:21-33 | `getId()` given the host lookup's result: `(unsigned(a[2]) << 8) \| unsigned(a[3])` as a Java `int`, or a ConfigurationError when the host is unknown. Its contract: an id exactly when the lookup returned an address, and otherwise ConfigurationError. Its value is `GetIdValue`. |
| DefaultMachineId.GetIdValue | camflake/src/main/java/com/camobile/camflake/DefaultMachineId.java:21-28 | For an address of at least 4 bytes, the id is `unsigned(a[2]) * 256 + unsigned(a[3])`. It lies in [0, 65535], so it never reaches the sequence bits. Dividing by 256 and taking the remainder give the two bytes back. |
| DefaultMachineId.GetIdUsesOnlyBytes2And3 | camflake/src/main/java/com/camobile/camflake/DefaultMachineId.java:26 | Addresses that agree on bytes 2 and 3 give the same id: bytes 0, 1 and any later bytes play no part. |
| DefaultMachineId.GetIdDistinguishesLowBytes | camflake/src/main/java/com/camobile/camflake/DefaultMachineId.java:26 | Addresses that differ in byte 2 or byte 3 give different ids. |
| DefaultMachineId.GetIdUnknownHost | camflake/src/main/java/com/camobile/camflake/DefaultMachineId.java:30-33 | A failed host lookup gives a ConfigurationError and no id. |
| DefaultMachineId.GetIdEndingZeroOne | camflake/src/test/java/com/camobile/camflake/DefaultMachineIdTest.java:21-35 | Every address whose bytes 2 and 3 are 0 and 1 gives machine id 1: every IPv4 address ending in .0.1, 127.0.0.1 among them. |
| CamflakeProofs.ConstructBeforeEpochFails | camflake/src/test/java/com/camobile/camflake/CamflakeTest.java:39-47 | A base time of 1969-12-31T23:59:59Z fails with a ConfigurationError. |
| CamflakeProofs.ConstructInFutureFails | camflake/src/test/java/com/camobile/camflake/CamflakeTest.java:52-59 | A base time of 9999-12-31T23:59:59Z, after now, fails with a ConfigurationError. |
| CamflakeProofs.ConstructPastTimeLimitFails | camflake/src/test/java/com/camobile/camflake/CamflakeTest.java:64-76 | Constructing at 2^41 ms after the epoch base time fails with TimeLimitExceeded. |
| CamflakeProofs.NextReturnsExpectedValue | camflake/src/test/java/com/camobile/camflake/CamflakeTest.java:95-119 | Machine 1, constructed at the default base time and called 1000 ms later, returns 4194304001. |
| CamflakeProofs.NextPastTimeLimitFails | camflake/src/test/java/com/camobile/camflake/CamflakeTest.java:124-139 | A call at 2^41 ms after the base time fails with TimeLimitExceeded. |
| CamflakeProofs.NextRetriesOnce | camflake/src/test/java/com/camobile/camflake/CamflakeTest.java:144-167 | With the counter set to 64 at 1 ms, a call reading 1 ms and then 3 ms after the sleep issues slot (3, 0), which is ID 12582913. |
| CamflakeProofs.RetryOnceScenario | camflake/src/test/java/com/camobile/camflake/CamflakeTest.java:144-167 | The same scenario run on the class: `Create`, counter forced to 64, then `Next`, returns 12582913. |
| CamflakeProofs.NextRetryExhaustedFails | camflake/src/test/java/com/camobile/camflake/CamflakeTest.java:172-183 | When the retry still finds the sequences exhausted, the call fails with SequenceExhausted. |
| CamflakeProofs.NextInterruptedFails | camflake/src/test/java/com/camobile/camflake/CamflakeTest.java:188-211 | With the counter set to 64, an interrupted sleep fails the call with Interrupted. |

## Left out

- Concurrency is not modelled: the static `LOCK` shared by all instances, the
  `volatile` field and the `AtomicInteger`. `GetSequence` is one atomic step
  on a single-threaded object.
- `Instant.now()` and `Thread.sleep` are not called. Each clock reading is an
  input, the sleep's interruption is a flag, and the 2 ms sleep is not
  assumed to advance the clock. Setting the thread's interrupt flag again
  after an interruption is not modelled.
- Times are whole milliseconds. The sub-millisecond precision of `Instant` in
  the constructor's `isBefore`/`isAfter` checks is not modelled, and the
  `ZonedDateTime` default base time is a constant.
- `InetAddress.getLocalHost()` is I/O. Its result, the address bytes or an
  unknown host, is an input to `GetId`.
- Null arguments are not modelled: no value in the model can be null, so the
  `NullPointerException` the constructors document for a null machine id or
  base time cannot arise.
- Logging through slf4j is left out.
- The HTTP sample `IdResource.java` is left out: it only wraps `next()`.
- `MachineId` is not modelled as an interface. A machine id is a
  `Result<int>`, the value `getId()` returned or the error it raised.
- `CamflakeException` is not modelled as a type. Each of its uses is one
  constructor of `Error`.
- The older copies of `MachineId.java` and `DefaultMachineIdTest.java` under
  the top-level `src/` are not part of this model.
- Camflake.Camflake.GetSequence: the counter is an unbounded `nat`. The
  `int` wrap-around of `AtomicInteger` after 2^31 increments within one
  millisecond is not modelled.
- IdLayout.Pack: the machine id is an unbounded integer. `Pack` equals the
  Java expression only while the machine id lies in the 32-bit `int` range,
  as every value `getId()` returns does; the model does not restrict the
  type by itself.
- Camflake.ElapsedTime: `now - baseTime` is unbounded subtraction. A 64-bit
  overflow would need clock readings near the ends of the `long` range, and
  such readings are not modelled.
- Decoding uses `/` and `%` by powers of two. For
  non-negative IDs these are Java's `>>` and `&`, and decoding is stated only
  for IDs within the layout, which are non-negative.
