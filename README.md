# Benchmark controller model

This project models the core of a message-driven-bean throughput benchmark, and proves properties of it.

- **TestState** is an immutable snapshot of one run. It holds the start time, the completion time (0 means "not stopped"), the total number of messages and the number processed. `start`, `incrementMessagesProcessed` and `stop` each build a new snapshot. `remaining`, `complete` and `getTimeElapsed` are queries on it. It is modelled as the datatype `TestStates.TestState` with functions and lemmas.
- **Controller** is a singleton. It holds the fields `startTime`, `endTime`, `startMessageCount`, `running` and a countdown latch. The latch is absent until a `start` whose queue-depth read succeeds. Each such `start` resets it to 1,000,000, and it counts down from there and never goes below 0. A `start` whose queue-depth read throws keeps the previous latch, or none. `start`, `stop` and `countDown` update those fields in place. `stats` derives the processed count, the elapsed nanoseconds, the whole seconds and the rate. It is modelled as the class `Controllers.Controller`. Each method's postcondition ties the new field values (`State()`) to a step function on a `ControllerState` value. The lemmas state the properties of those step functions.

The clock (`System.nanoTime()`) is an explicit `now` argument. The broker's queue depth is an `Option<int>`, with `None` when the management-server lookup throws. Each endpoint start or stop is a success flag. `Outcome` and `Result` record which call threw. `Controller` never uses `TestState`, and the model keeps them unrelated.

The model follows the code as written, including behaviour a reader might not expect:
- increments are not clamped, so `remaining` can go negative;
- `stop` overwrites the completion time every time;
- there is no compare-and-swap and no exactly-once finalisation;
- `Controller.start` is not atomic. The timestamps and `running` are written before the queue depth is read, and the latch is installed before the endpoint is started. A failure leaves the earlier writes in place.
- `countDown` lowers the latch before `stop` runs, so the lower count stays even when `stop` throws.

## Model

| member | source | states |
|---|---|---|
| `TestStates.StartState` | src/main/java/org/superbiz/TestState.java:17-19 | start at `now` gives startTime `now`, completionTime 0 (not stopped), no messages processed, the given total, so `total` remain |
| `TestStates.IncrementAddsOne` | src/main/java/org/superbiz/TestState.java:21-23 | an increment adds exactly 1 to messagesProcessed, leaves the other three fields alone and lowers remaining by exactly 1 |
| `TestStates.IncrementPastTotal` | src/main/java/org/superbiz/TestState.java:21-23 | incrementing a complete run gives remaining -1 and no longer complete: there is no clamp |
| `TestStates.IncrementTimes` | src/main/java/org/superbiz/TestState.java:21-23 | k increments add k to messagesProcessed, lower remaining by k, and change no other field |
| `TestStates.StopStamps` | src/main/java/org/superbiz/TestState.java:25-27 | stop at `now` sets completionTime to `now` and keeps the other three fields |
| `TestStates.StopOverwrites` | src/main/java/org/superbiz/TestState.java:25-27 | stop is not idempotent: a second stop replaces the first completion time |
| `TestStates.StopAtZeroLooksRunning` | src/main/java/org/superbiz/TestState.java:25-27 | a stop at clock value 0 stores the "not stopped" sentinel, so the elapsed time keeps following the clock |
| `TestStates.RemainingCounts` | src/main/java/org/superbiz/TestState.java:45-51 | remaining is total minus processed; complete holds iff processed equals total |
| `TestStates.IncrementsAfterStart` | src/main/java/org/superbiz/TestState.java:17-23 | after start(n) and k increments, n - k remain, and the run is complete iff k == n; it is still not stopped |
| `TestStates.ElapsedCases` | src/main/java/org/superbiz/TestState.java:53-55 | elapsed is completionTime - startTime when stopped, for any clock, and now - startTime otherwise |
| `TestStates.ElapsedFrozenAfterStop` | src/main/java/org/superbiz/TestState.java:25-27 | after stop(t) with t != 0, elapsed equals t - startTime for any later clock, and later increments leave it unchanged |
| `TestStates.ElapsedMonotoneWhileRunning` | src/main/java/org/superbiz/TestState.java:53-55 | while not stopped, elapsed grows exactly as much as the clock |
| `Controllers.Controller.constructor` | src/main/java/org/superbiz/Controller.java:49-53 | a new controller has both timestamps 0, is not running and has no latch |
| `Controllers.Controller.Start` | src/main/java/org/superbiz/Controller.java:58-66 | the fields and the outcome are those of StartStep, with failing calls leaving the earlier writes in place |
| `Controllers.Controller.Stop` | src/main/java/org/superbiz/Controller.java:70-74 | the fields and the outcome are those of StopStep |
| `Controllers.Controller.CountDown` | src/main/java/org/superbiz/Controller.java:87-95 | the fields and the outcome are those of CountDownStep; the implementation calls Stop when the latch reads 0 |
| `Controllers.Controller.Stats` | src/main/java/org/superbiz/Controller.java:77-85 | fails iff the queue lookup fails; processed plus queue depth equals 1,000,000; elapsed runs to the clock while running and to endTime otherwise; the rate is zero iff the elapsed time is under one whole second either way, and otherwise is processed over the truncated seconds, which are nonzero |
| `Controllers.NanosToSeconds` | src/main/java/org/superbiz/Controller.java:81 | whole seconds truncated toward zero: bounded by the nanoseconds on the side of zero, within one second of them, and 0 iff the magnitude is under one second |
| `Controllers.StartArms` | src/main/java/org/superbiz/Controller.java:58-66 | start sets startTime to `now`, endTime to 0 and running to true; with a queue depth, it records that depth and installs a latch of 1,000,000; without one, it keeps the old latch and fails with QueueUnavailable; with one but a failed endpoint start it fails with EndpointUnavailable; it succeeds iff both calls succeed |
| `Controllers.StopHalts` | src/main/java/org/superbiz/Controller.java:70-74 | a successful stop sets endTime to `now` and running to false and changes nothing else; a failed endpoint call changes nothing |
| `Controllers.CountDownWithoutLatch` | src/main/java/org/superbiz/Controller.java:87-88 | countDown before any start changes nothing and returns normally |
| `Controllers.CountDownLowers` | src/main/java/org/superbiz/Controller.java:87-95 | countDown lowers a positive latch by 1 and leaves 0 at 0; above 0 afterwards nothing else changes; at 0 the step is exactly stop on the lowered state, again on every later call: it returns normally and refreshes endTime, or fails with EndpointUnavailable with nothing but the latch changed |
| `Controllers.CountDownsWithoutLatch` | src/main/java/org/superbiz/Controller.java:87-88 | any number of countDown calls without a latch change nothing |
| `Controllers.CountDownsFromLatch` | src/main/java/org/superbiz/Controller.java:87-95 | k countDowns on a latch at c leave it at max(c - k, 0). running and endTime are unchanged while k < c or while every stop fails. Once k >= c > 0 with stops succeeding, the run is stopped and endTime is the last call's clock |
| `Controllers.RunStopsAfterLatchCount` | src/main/java/org/superbiz/Controller.java:58-95 | after a start whose queue lookup succeeded, and with every endpoint stop succeeding, any number of countDowns leave the run running iff fewer than 1,000,000 were made; after 1,000,000 or more, endTime is the last call's clock |
| `Controllers.StatsFrozenWhenStopped` | src/main/java/org/superbiz/Controller.java:80 | when not running, stats do not depend on the clock |
| `Controllers.StatsElapsedMonotone` | src/main/java/org/superbiz/Controller.java:80 | while running, the reported elapsed time does not decrease as the clock advances |

## Left out

- Java `long` overflow: timestamps, counters and differences are unbounded integers. The model does not capture wrap-around in `totalMessages - messagesProcessed`, `now - startTime` or `1000000 - queueDepth`.
- The `double` rate is not computed. `Rate` records either zero, when the whole seconds are 0, or the exact quotient's operands. Floating-point rounding is not modelled.
- `Controllers.Controller.Stats`: the instance count and limit are not reported. The source passes them to a six-argument `Stats` constructor that `Stats.java` does not declare, and both getters always return 0.
- The management-server plumbing is not modelled: endpoint and instance-statistics lookup, the queue-depth attribute read, and the operation names invoked on the endpoint. Only whether each call succeeds is modelled, plus the depth it returns.
- Concurrency is not modelled: the `@Lock(READ/WRITE)` container locks, the `AtomicBoolean` and the thread safety of `CountDownLatch`. The controller is a single-threaded object, and the latch is represented by its count alone.
- `SimpleMessageProcessor.java` is not part of this model. Its only behaviour is one `countDown` per message with exceptions printed. `Controllers.CountDowns` reflects that: it keeps going after a failed call.
- `Controllers.CountDowns` and the lemmas about it use one endpoint-stop result for the whole sequence of calls. The model does not state what happens when some stop calls succeed and others fail.
- `Stats.java` is not part of this model beyond the fields of the `StatsReport` record. It is a plain bean with getters and setters.
- The `TestState` getters are not modelled as separate members. They are the datatype's fields.
