/** An immutable snapshot of one benchmark run (TestState.java).
    Every transition builds a new snapshot; the clock (System.nanoTime) is the
    explicit parameter `now`. Timestamps and counters are Java longs; the model
    uses unbounded integers. */
module TestStates {

  /** `completionTime == 0` means "not stopped yet". */
  datatype TestState = TestState(
    startTime: int,
    completionTime: int,
    totalMessages: int,
    messagesProcessed: int)
  {
    /** One more message processed. There is no upper bound: past
        `totalMessages` the count keeps growing and Remaining() goes negative. */
    function IncrementMessagesProcessed(): TestState {
      this.(messagesProcessed := messagesProcessed + 1)
    }

    /** Stamps the completion time with the clock, whether or not the run was
        already stopped. */
    function Stop(now: int): TestState {
      this.(completionTime := now)
    }

    function Remaining(): int {
      totalMessages - messagesProcessed
    }

    predicate Complete() {
      Remaining() == 0
    }

    /** Nanoseconds from start to completion, or to `now` while not stopped. */
    function TimeElapsed(now: int): int {
      if completionTime != 0 then completionTime - startTime else now - startTime
    }

    predicate Stopped() {
      completionTime != 0
    }
  }

  /** A fresh run of `totalMessages` messages started at `now`. */
  function Start(totalMessages: int, now: int): TestState {
    TestState(now, 0, totalMessages, 0)
  }

  /** `k` successive calls of IncrementMessagesProcessed. */
  function IncrementTimes(s: TestState, k: nat): (r: TestState)
    ensures r.messagesProcessed == s.messagesProcessed + k
    ensures r.startTime == s.startTime
    ensures r.completionTime == s.completionTime
    ensures r.totalMessages == s.totalMessages
    ensures r.Remaining() == s.Remaining() - k
  {
    if k == 0 then s else IncrementTimes(s, k - 1).IncrementMessagesProcessed()
  }

  lemma StartState(totalMessages: int, now: int)
    ensures Start(totalMessages, now).startTime == now
    ensures Start(totalMessages, now).completionTime == 0
    ensures !Start(totalMessages, now).Stopped()
    ensures Start(totalMessages, now).messagesProcessed == 0
    ensures Start(totalMessages, now).totalMessages == totalMessages
    ensures Start(totalMessages, now).Remaining() == totalMessages
  {
  }

  lemma IncrementAddsOne(s: TestState)
    ensures s.IncrementMessagesProcessed().messagesProcessed == s.messagesProcessed + 1
    ensures s.IncrementMessagesProcessed().startTime == s.startTime
    ensures s.IncrementMessagesProcessed().completionTime == s.completionTime
    ensures s.IncrementMessagesProcessed().totalMessages == s.totalMessages
    ensures s.IncrementMessagesProcessed().Remaining() == s.Remaining() - 1
  {
  }

  /** Incrementing a complete run makes Remaining() negative: nothing clamps. */
  lemma IncrementPastTotal(s: TestState)
    requires s.Complete()
    ensures s.IncrementMessagesProcessed().Remaining() == -1
    ensures !s.IncrementMessagesProcessed().Complete()
  {
  }

  lemma StopStamps(s: TestState, now: int)
    ensures s.Stop(now).completionTime == now
    ensures s.Stop(now).startTime == s.startTime
    ensures s.Stop(now).totalMessages == s.totalMessages
    ensures s.Stop(now).messagesProcessed == s.messagesProcessed
  {
  }

  /** Stop is not idempotent: a second Stop overwrites the first completion time. */
  lemma StopOverwrites(s: TestState, first: int, second: int)
    ensures s.Stop(first).Stop(second) == s.Stop(second)
    ensures first != second ==> s.Stop(first).Stop(second) != s.Stop(first)
  {
  }

  /** Stopping at clock value 0 stores the "not stopped" sentinel: the
      snapshot still reports a running elapsed time afterwards. */
  lemma StopAtZeroLooksRunning(s: TestState, later: int)
    ensures !s.Stop(0).Stopped()
    ensures s.Stop(0).TimeElapsed(later) == later - s.startTime
  {
  }

  lemma RemainingCounts(s: TestState)
    ensures s.Remaining() == s.totalMessages - s.messagesProcessed
    ensures s.Complete() <==> s.messagesProcessed == s.totalMessages
  {
  }

  /** After `start(n)` and `k` increments, `n - k` messages remain, and the run
      is complete exactly when `k == n`. */
  lemma IncrementsAfterStart(n: int, now: int, k: nat)
    ensures IncrementTimes(Start(n, now), k).Remaining() == n - k
    ensures IncrementTimes(Start(n, now), k).Complete() <==> k == n
    ensures IncrementTimes(Start(n, now), k).startTime == now
    ensures !IncrementTimes(Start(n, now), k).Stopped()
  {
  }

  lemma ElapsedCases(s: TestState, now: int)
    ensures s.Stopped() ==> s.TimeElapsed(now) == s.completionTime - s.startTime
    ensures !s.Stopped() ==> s.TimeElapsed(now) == now - s.startTime
  {
  }

  /** Once stopped at a nonzero time `t`, the elapsed time is `t - startTime`
      whatever the clock says later, and increments do not change it. */
  lemma ElapsedFrozenAfterStop(s: TestState, t: int, later: int, k: nat)
    requires t != 0
    ensures s.Stop(t).TimeElapsed(later) == t - s.startTime
    ensures IncrementTimes(s.Stop(t), k).TimeElapsed(later) == t - s.startTime
  {
  }

  /** While not stopped, the elapsed time grows with the clock. */
  lemma ElapsedMonotoneWhileRunning(s: TestState, earlier: int, later: int)
    requires !s.Stopped() && earlier <= later
    ensures s.TimeElapsed(earlier) <= s.TimeElapsed(later)
    ensures s.TimeElapsed(later) - s.TimeElapsed(earlier) == later - earlier
  {
  }
}
