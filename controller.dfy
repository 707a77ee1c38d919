/** The benchmark controller (Controller.java) run sequentially.
    Its state is the start and end timestamps, the queue depth seen at start,
    the running flag and the countdown latch (absent until a start whose
    queue-depth read succeeds; each such start resets it to LatchCount).
    The clock is the parameter `now`; the management-server calls are given
    as their results: the queue depth as an Option (None when the lookup
    throws) and each endpoint start or stop as a success flag. */
module Controllers {
  import opened Results

  /** The latch installed by every start, and the message count stats assume. */
  const LatchCount: nat := 1000000
  const NanosPerSecond: int := 1000000000

  /** A snapshot of the controller's fields. */
  datatype ControllerState = ControllerState(
    startTime: int,
    endTime: int,
    startMessageCount: int,
    running: bool,
    latch: Option<nat>)

  /** The state after an operation and how the operation returned. */
  datatype Step = Step(next: ControllerState, outcome: Outcome)

  /** The field initialisers: both timestamps 0, not running, no latch. */
  const Initial := ControllerState(0, 0, 0, false, None)

  /** start(): the timestamps and the flag are written before the queue depth
      is read, and the latch is installed before the endpoint is started, so a
      failing call leaves the writes before it in place. */
  function StartStep(s: ControllerState, now: int, depth: Option<int>, endpointStarted: bool): Step {
    var begun := s.(startTime := now, endTime := 0, running := true);
    match depth
    case None => Step(begun, Fail(QueueUnavailable))
    case Some(d) =>
      var armed := begun.(startMessageCount := d, latch := Some(LatchCount));
      Step(armed, if endpointStarted then Pass else Fail(EndpointUnavailable))
  }

  /** stop(): the endpoint call comes first; when it throws nothing is written. */
  function StopStep(s: ControllerState, now: int, endpointStopped: bool): Step {
    if endpointStopped then Step(s.(endTime := now, running := false), Pass)
    else Step(s, Fail(EndpointUnavailable))
  }

  /** countDown(): nothing without a latch; otherwise the latch is lowered
      (never below 0) and, if it reads 0, stop() runs. */
  function CountDownStep(s: ControllerState, now: int, endpointStopped: bool): Step {
    match s.latch
    case None => Step(s, Pass)
    case Some(c) =>
      var lowered := s.(latch := Some(if c > 0 then c - 1 else 0));
      if c <= 1 then StopStep(lowered, now, endpointStopped) else Step(lowered, Pass)
  }

  /** One countDown per clock value in `clocks`, every endpoint stop
      succeeding or every one failing as `endpointStopped` says. A failing
      countDown is reported and the next one still runs. */
  function CountDowns(s: ControllerState, clocks: seq<int>, endpointStopped: bool): ControllerState
    decreases |clocks|
  {
    if clocks == [] then s
    else CountDowns(CountDownStep(s, clocks[0], endpointStopped).next, clocks[1..], endpointStopped)
  }

  /** The integer part of TimeUnit.SECONDS.convert on nanoseconds: Java's
      long division, which truncates toward zero. */
  function NanosToSeconds(nanos: int): (seconds: int)
    ensures nanos >= 0 ==> 0 <= seconds && seconds * NanosPerSecond <= nanos < seconds * NanosPerSecond + NanosPerSecond
    ensures nanos < 0 ==> seconds <= 0 && seconds * NanosPerSecond - NanosPerSecond < nanos <= seconds * NanosPerSecond
    ensures seconds == 0 <==> -NanosPerSecond < nanos < NanosPerSecond
  {
    if nanos >= 0 then nanos / NanosPerSecond else -((-nanos) / NanosPerSecond)
  }

  /** The rate stats() reports, without floating point: zero when the whole
      seconds are 0 (no division happens), else processed over seconds. */
  datatype Rate = Zero | Quotient(processed: int, seconds: int)

  datatype StatsReport = StatsReport(timeElapsed: int, messagesProcessed: int, queueDepth: int, rate: Rate)

  class Controller {
    var startTime: int
    var endTime: int
    var startMessageCount: int
    var running: bool
    var latch: Option<nat>

    function State(): ControllerState
      reads this
    {
      ControllerState(startTime, endTime, startMessageCount, running, latch)
    }

    constructor ()
      ensures State() == Initial
    {
      startTime := 0;
      endTime := 0;
      startMessageCount := 0;
      running := false;
      latch := None;
    }

    method Start(now: int, depth: Option<int>, endpointStarted: bool) returns (outcome: Outcome)
      modifies this
      ensures State() == StartStep(old(State()), now, depth, endpointStarted).next
      ensures outcome == StartStep(old(State()), now, depth, endpointStarted).outcome
    {
      startTime := now;
      endTime := 0;
      running := true;
      if depth.None? {
        return Fail(QueueUnavailable);
      }
      startMessageCount := depth.value;
      latch := Some(LatchCount);
      if !endpointStarted {
        return Fail(EndpointUnavailable);
      }
      outcome := Pass;
    }

    method Stop(now: int, endpointStopped: bool) returns (outcome: Outcome)
      modifies this
      ensures State() == StopStep(old(State()), now, endpointStopped).next
      ensures outcome == StopStep(old(State()), now, endpointStopped).outcome
    {
      if !endpointStopped {
        return Fail(EndpointUnavailable);
      }
      endTime := now;
      running := false;
      outcome := Pass;
    }

    method CountDown(now: int, endpointStopped: bool) returns (outcome: Outcome)
      modifies this
      ensures State() == CountDownStep(old(State()), now, endpointStopped).next
      ensures outcome == CountDownStep(old(State()), now, endpointStopped).outcome
    {
      outcome := Pass;
      if latch.Some? {
        var count := latch.value;
        latch := Some(if count > 0 then count - 1 else 0);
        if latch.value == 0 {
          outcome := Stop(now, endpointStopped);
        }
      }
    }

    /** stats(): the queue depth is read first, and its failure is the only
        failure; processed messages are the latch size minus the depth, the
        elapsed time runs to the clock while running and to endTime after. */
    function Stats(now: int, depth: Option<int>): (r: Result<StatsReport>)
      reads this
      ensures r.Failure? <==> depth.None?
      ensures r.Failure? ==> r.fault == QueueUnavailable
      ensures r.Success? ==> r.value.queueDepth == depth.value
      ensures r.Success? ==> r.value.messagesProcessed + r.value.queueDepth == LatchCount
      ensures r.Success? ==> r.value.timeElapsed == (if running then now else endTime) - startTime
      ensures r.Success? ==> (r.value.rate == Zero <==> -NanosPerSecond < r.value.timeElapsed < NanosPerSecond)
      ensures r.Success? && r.value.rate.Quotient? ==>
        r.value.rate.processed == r.value.messagesProcessed &&
        r.value.rate.seconds != 0 &&
        r.value.rate.seconds == NanosToSeconds(r.value.timeElapsed)
    {
      match depth
      case None => Failure(QueueUnavailable)
      case Some(queueDepth) =>
        var messagesProcessed := LatchCount - queueDepth;
        var timeElapsed := if running then now - startTime else endTime - startTime;
        var seconds := NanosToSeconds(timeElapsed);
        var rate := if seconds == 0 then Zero else Quotient(messagesProcessed, seconds);
        Success(StatsReport(timeElapsed, messagesProcessed, queueDepth, rate))
    }
  }

  lemma StartArms(s: ControllerState, now: int, depth: Option<int>, endpointStarted: bool)
    ensures StartStep(s, now, depth, endpointStarted).next.startTime == now
    ensures StartStep(s, now, depth, endpointStarted).next.endTime == 0
    ensures StartStep(s, now, depth, endpointStarted).next.running
    ensures depth.Some? ==>
      StartStep(s, now, depth, endpointStarted).next.latch == Some(LatchCount) &&
      StartStep(s, now, depth, endpointStarted).next.startMessageCount == depth.value
    ensures depth.None? ==>
      StartStep(s, now, depth, endpointStarted).next.latch == s.latch &&
      StartStep(s, now, depth, endpointStarted).next.startMessageCount == s.startMessageCount
    ensures StartStep(s, now, depth, endpointStarted).outcome == Pass <==> depth.Some? && endpointStarted
    ensures depth.None? ==> StartStep(s, now, depth, endpointStarted).outcome == Fail(QueueUnavailable)
    ensures depth.Some? && !endpointStarted ==>
      StartStep(s, now, depth, endpointStarted).outcome == Fail(EndpointUnavailable)
  {
  }

  lemma StopHalts(s: ControllerState, now: int, endpointStopped: bool)
    ensures endpointStopped ==>
      StopStep(s, now, endpointStopped).next == s.(endTime := now, running := false) &&
      StopStep(s, now, endpointStopped).outcome == Pass
    ensures !endpointStopped ==>
      StopStep(s, now, endpointStopped).next == s &&
      StopStep(s, now, endpointStopped).outcome == Fail(EndpointUnavailable)
  {
  }

  lemma CountDownWithoutLatch(s: ControllerState, now: int, endpointStopped: bool)
    requires s.latch.None?
    ensures CountDownStep(s, now, endpointStopped) == Step(s, Pass)
  {
  }

  /** The latch drops by one while positive and stays at 0; stop() runs
      exactly when the lowered count is 0, again on every later call. */
  lemma CountDownLowers(s: ControllerState, now: int, endpointStopped: bool)
    requires s.latch.Some?
    ensures var c := s.latch.value;
      CountDownStep(s, now, endpointStopped).next.latch == Some(if c > 0 then c - 1 else 0)
    ensures s.latch.value > 1 ==>
      CountDownStep(s, now, endpointStopped) == Step(s.(latch := Some(s.latch.value - 1)), Pass)
    ensures s.latch.value <= 1 ==>
      CountDownStep(s, now, endpointStopped) == StopStep(s.(latch := Some(0)), now, endpointStopped)
    ensures s.latch.value <= 1 && endpointStopped ==>
      !CountDownStep(s, now, endpointStopped).next.running &&
      CountDownStep(s, now, endpointStopped).next.endTime == now
    ensures s.latch.value <= 1 && !endpointStopped ==>
      CountDownStep(s, now, endpointStopped).next.running == s.running &&
      CountDownStep(s, now, endpointStopped).next.endTime == s.endTime &&
      CountDownStep(s, now, endpointStopped).outcome == Fail(EndpointUnavailable)
  {
  }

  /** Without a latch, any number of countDown calls change nothing. */
  lemma {:induction false} CountDownsWithoutLatch(s: ControllerState, clocks: seq<int>, endpointStopped: bool)
    requires s.latch.None?
    ensures CountDowns(s, clocks, endpointStopped) == s
    decreases |clocks|
  {
    if clocks != [] {
      CountDownsWithoutLatch(s, clocks[1..], endpointStopped);
    }
  }

  /** `k` countDown calls on a latch at `c`: the latch reads `c - k`, floored
      at 0; the start time and start message count never change; the run is
      untouched while `k < c` or while every endpoint stop fails; once
      `k >= c` (and `k > 0`) with stops succeeding, the run is stopped and
      its end time is the clock of the last call. */
  lemma {:induction false} CountDownsFromLatch(s: ControllerState, clocks: seq<int>, endpointStopped: bool)
    requires s.latch.Some?
    ensures var r := CountDowns(s, clocks, endpointStopped);
      r.latch == Some(if |clocks| <= s.latch.value then s.latch.value - |clocks| else 0) &&
      r.startTime == s.startTime &&
      r.startMessageCount == s.startMessageCount
    ensures var r := CountDowns(s, clocks, endpointStopped);
      (|clocks| < s.latch.value || !endpointStopped) ==> r.running == s.running && r.endTime == s.endTime
    ensures var r := CountDowns(s, clocks, endpointStopped);
      (|clocks| >= s.latch.value && |clocks| > 0 && endpointStopped) ==>
        !r.running && r.endTime == clocks[|clocks| - 1]
    decreases |clocks|
  {
    if clocks != [] {
      var next := CountDownStep(s, clocks[0], endpointStopped).next;
      CountDownsFromLatch(next, clocks[1..], endpointStopped);
    }
  }

  /** After a start whose queue lookup succeeded, the run stays running for
      fewer than LatchCount countDown calls and is stopped after LatchCount
      or more of them, provided the endpoint stop succeeds. */
  lemma RunStopsAfterLatchCount(s: ControllerState, now: int, depth: int, endpointStarted: bool, clocks: seq<int>)
    ensures var started := StartStep(s, now, Some(depth), endpointStarted).next;
      CountDowns(started, clocks, true).running <==> |clocks| < LatchCount
    ensures var started := StartStep(s, now, Some(depth), endpointStarted).next;
      |clocks| >= LatchCount ==> CountDowns(started, clocks, true).endTime == clocks[|clocks| - 1]
  {
    CountDownsFromLatch(StartStep(s, now, Some(depth), endpointStarted).next, clocks, true);
  }

  /** After stop, stats() no longer depends on the clock. */
  lemma StatsFrozenWhenStopped(c: Controller, earlier: int, later: int, depth: Option<int>)
    requires !c.running
    ensures c.Stats(earlier, depth) == c.Stats(later, depth)
  {
  }

  /** While running, the elapsed time reported by stats() follows the clock. */
  lemma StatsElapsedMonotone(c: Controller, earlier: int, later: int, d: int)
    requires c.running && earlier <= later
    ensures c.Stats(earlier, Some(d)).value.timeElapsed <= c.Stats(later, Some(d)).value.timeElapsed
  {
  }
}
