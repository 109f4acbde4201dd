// main.go StreamIsActive: a polling loop with capped doubling backoff and a limit on consecutive failures.
// Durations are int64 nanoseconds that wrap, as time.Duration does.
module Stream {
  import opened Wrappers
  import C = Config

  const TWO_59 := 0x0800_0000_0000_0000
  const TWO_60 := 0x1000_0000_0000_0000
  const TWO_63 := 0x8000_0000_0000_0000
  const TWO_64 := 0x1_0000_0000_0000_0000

  const MAX_MULTIPLIER := 8

  // The int64 an exact integer is stored as.
  function Wrap(x: int): (w: int)
    ensures -TWO_63 <= w < TWO_63
    ensures (w - x) % TWO_64 == 0
    ensures -TWO_63 <= x < TWO_63 ==> w == x
  {
    (x + TWO_63) % TWO_64 - TWO_63
  }

  function NextStreamBackoff(current: int, base: int): int {
    var next, capped := Wrap(current * 2), Wrap(base * MAX_MULTIPLIER);
    if next > capped then capped else next
  }

  // The backoff held after k consecutive failures.
  function Backoff(base: int, k: nat): int {
    if k == 0 then base else NextStreamBackoff(Backoff(base, k - 1), base)
  }

  lemma BackoffStep(base: int, k: nat)
    requires k > 0
    ensures Backoff(base, k) == NextStreamBackoff(Backoff(base, k - 1), base)
  {
  }

  // What the timer is set to before event j.
  function WaitBefore(base: int, events: seq<Event>, j: nat): int
    requires j <= |events|
  {
    Backoff(base, Streak(events, j))
  }

  /******* The loop *******/

  datatype Poll = Active(result: bool) | PollError(reason: string)

  // What the select sees next: the stream's context done, or the timer, with how the poll went and
  // whether the peer would accept a message.
  datatype Event = ContextDone | TimerFired(poll: Poll, sendOk: bool)

  datatype Exit = StillOpen | Closed | SendFailed | GaveUp(failures: nat)

  predicate Failed(e: Event) {
    e.TimerFired? && e.poll.PollError?
  }

  // The length of the run of failures the first n events end with.
  function Streak(events: seq<Event>, n: nat): (k: nat)
    requires n <= |events|
    ensures k <= n
  {
    if n == 0 || !Failed(events[n - 1]) then 0 else 1 + Streak(events, n - 1)
  }

  // Event i ends a stream that tolerates fewer than `limit` consecutive failures.
  predicate Ends(events: seq<Event>, i: nat, limit: int)
    requires i < |events|
  {
    || events[i].ContextDone?
    || (events[i].TimerFired? && events[i].poll.Active? && !events[i].sendOk)
    || (Failed(events[i]) && Streak(events, i + 1) >= limit)
  }

  // The results of the successful polls among the first n events, in order.
  function Results(events: seq<Event>, n: nat): seq<bool>
    requires n <= |events|
  {
    if n == 0 then []
    else if events[n - 1].TimerFired? && events[n - 1].poll.Active?
      then Results(events, n - 1) + [events[n - 1].poll.result]
    else Results(events, n - 1)
  }

  // How many polls among the first n events succeeded.
  function Polls(events: seq<Event>, n: nat): nat
    requires n <= |events|
  {
    if n == 0 then 0
    else Polls(events, n - 1) + (if events[n - 1].TimerFired? && events[n - 1].poll.Active? then 1 else 0)
  }

  function Failures(events: seq<Event>, n: nat): nat
    requires n <= |events|
  {
    if n == 0 then 0 else Failures(events, n - 1) + (if Failed(events[n - 1]) then 1 else 0)
  }

  // `consumed` events are processed; `sent` is every message offered to the peer; `waits[j]` is what the timer
  // was set to before event j.
  method StreamIsActive(pollInterval: int, limit: int, events: seq<Event>)
    returns (consumed: nat, exit: Exit, sent: seq<bool>, waits: seq<int>, streamErrors: nat)
    requires 0 < pollInterval < TWO_63 && limit >= 1
    // It runs to the first event that ends it, or through all of them.
    ensures consumed <= |events|
    ensures exit.StillOpen? ==> consumed == |events| && forall i :: 0 <= i < |events| ==> !Ends(events, i, limit)
    ensures !exit.StillOpen? ==> consumed > 0 && Ends(events, consumed - 1, limit)
    ensures !exit.StillOpen? ==> forall i :: 0 <= i < consumed - 1 ==> !Ends(events, i, limit)
    // And says why.
    ensures exit.Closed? <==> consumed > 0 && events[consumed - 1].ContextDone?
    ensures exit.SendFailed? <==>
      consumed > 0 && events[consumed - 1].TimerFired? && events[consumed - 1].poll.Active?
      && !events[consumed - 1].sendOk
    ensures exit.GaveUp? <==> Streak(events, consumed) >= limit
    ensures exit.GaveUp? ==> exit.failures == Streak(events, consumed) == limit
    ensures sent == Results(events, consumed)
    ensures streamErrors == Failures(events, consumed)
    ensures |waits| == (if exit.StillOpen? then consumed + 1 else consumed)
    ensures forall j :: 0 <= j < |waits| ==> waits[j] == WaitBefore(pollInterval, events, j)
  {
    waits := [pollInterval];
    var backoff, consecutiveFailures := pollInterval, 0;
    consumed, sent, streamErrors := 0, [], 0;
    while consumed < |events|
      invariant consumed <= |events|
      invariant consecutiveFailures == Streak(events, consumed) < limit
      invariant backoff == Backoff(pollInterval, consecutiveFailures)
      invariant consumed > 0 ==> !Ends(events, consumed - 1, limit)
      invariant sent == Results(events, consumed) && streamErrors == Failures(events, consumed)
      invariant |waits| == consumed + 1
      invariant forall j :: 0 <= j < |waits| ==> waits[j] == WaitBefore(pollInterval, events, j)
      invariant forall i :: 0 <= i < consumed ==> !Ends(events, i, limit)
    {
      var e := events[consumed];
      consumed := consumed + 1;
      match e
      case ContextDone =>
        exit := Closed;
        return;
      case TimerFired(poll, sendOk) =>
        if poll.PollError? {
          consecutiveFailures := consecutiveFailures + 1;
          streamErrors := streamErrors + 1;
          if consecutiveFailures >= limit {
            exit := GaveUp(consecutiveFailures);
            return;
          }
          BackoffStep(pollInterval, consecutiveFailures);
          backoff := NextStreamBackoff(backoff, pollInterval);
          waits := waits + [backoff];
        } else {
          consecutiveFailures := 0;
          backoff := pollInterval;
          sent := sent + [poll.result];
          if !sendOk {
            exit := SendFailed;
            return;
          }
          waits := waits + [pollInterval];
        }
    }
    exit := StillOpen;
  }

  /******* What was sent and counted *******/

  // The messages are the results of the successful polls themselves, one each and in their order.
  lemma {:induction false} MessagesAreTheResults(events: seq<Event>, n: nat, i: nat)
    requires n <= |events|
    ensures |Results(events, n)| == Polls(events, n)
    ensures i < n && events[i].TimerFired? && events[i].poll.Active? ==>
      Polls(events, i) < |Results(events, n)| && Results(events, n)[Polls(events, i)] == events[i].poll.result
  {
    if n > 0 {
      MessagesAreTheResults(events, n - 1, i);
    }
  }

  // Every event counts as exactly one thing.
  lemma {:induction false} CountsAreSizes(events: seq<Event>, n: nat)
    requires n <= |events|
    ensures Polls(events, n) == |set i: nat | i < n && events[i].TimerFired? && events[i].poll.Active?|
    ensures Failures(events, n) == |set i: nat | i < n && events[i].TimerFired? && events[i].poll.PollError?|
  {
    if n > 0 {
      CountsAreSizes(events, n - 1);
      var a := set i: nat | i < n - 1 && events[i].TimerFired? && events[i].poll.Active?;
      var b := set i: nat | i < n - 1 && events[i].TimerFired? && events[i].poll.PollError?;
      var e := events[n - 1];
      assert (set i: nat | i < n && events[i].TimerFired? && events[i].poll.Active?)
          == if e.TimerFired? && e.poll.Active? then a + {n - 1} else a;
      assert (set i: nat | i < n && events[i].TimerFired? && events[i].poll.PollError?)
          == if e.TimerFired? && e.poll.PollError? then b + {n - 1} else b;
    }
  }

  // A streak is the longest run of failed polls the events end with.
  lemma {:induction false} StreakIsTheTail(events: seq<Event>, n: nat, k: nat)
    requires k <= n <= |events|
    ensures Streak(events, n) >= k <==>
      forall i :: n - k <= i < n ==> events[i].TimerFired? && events[i].poll.PollError?
  {
    if k > 0 {
      StreakIsTheTail(events, n - 1, k - 1);
    }
  }

  /******* The documented backoff *******/

  function Pow2(k: nat): (p: nat)
    ensures p >= 1
  {
    if k == 0 then 1 else 2 * Pow2(k - 1)
  }

  // min(2^k, 8)
  function Multiplier(k: nat): nat {
    if Pow2(k) < MAX_MULTIPLIER then Pow2(k) else MAX_MULTIPLIER
  }

  lemma {:induction false} MultiplierValues(k: nat)
    ensures Multiplier(k) == if k == 0 then 1 else if k == 1 then 2 else if k == 2 then 4 else 8
  {
    assert Pow2(1) == 2 * Pow2(0) && Pow2(2) == 2 * Pow2(1) && Pow2(3) == 2 * Pow2(2);
    if k > 3 { MultiplierValues(k - 1); }
  }

  // Below 2^59 ns nothing wraps: interval, 2x, 4x, then 8x for ever.
  lemma {:induction false} BackoffIsCappedDoubling(base: int, k: nat)
    requires 0 < base < TWO_59
    ensures Backoff(base, k) == base * Multiplier(k)
    ensures base <= Backoff(base, k) <= 8 * base
  {
    MultiplierValues(k);
    if k > 0 {
      MultiplierValues(k - 1);
      BackoffIsCappedDoubling(base, k - 1);
    }
  }

  // All waits a stream with this limit can ever use are the documented ones.
  ghost predicate WaitsAsDocumented(base: int, limit: int) {
    forall k: nat :: k < limit ==> Backoff(base, k) == base * Multiplier(k)
  }

  lemma FirstBackoffs(base: int)
    requires 0 < base < TWO_63
    ensures Backoff(base, 0) == base * Multiplier(0)
    ensures Backoff(base, 1) == base * Multiplier(1) <==> (2 * base < TWO_63 && Wrap(8 * base) >= 2 * base)
    ensures base < TWO_60 ==>
      Backoff(base, 1) == 2 * base && Backoff(base, 2) == 4 * base && Backoff(base, 3) == 8 * base
    ensures base < TWO_60 ==> Multiplier(1) == 2 && Multiplier(2) == 4 && Multiplier(3) == 8
  {
    MultiplierValues(0); MultiplierValues(1); MultiplierValues(2); MultiplierValues(3);
    assert Backoff(base, 1) == NextStreamBackoff(Backoff(base, 0), base);
    assert Backoff(base, 2) == NextStreamBackoff(Backoff(base, 1), base);
    assert Backoff(base, 3) == NextStreamBackoff(Backoff(base, 2), base);
  }

  // From 2^59 up to 2^60 ns the fourth failure doubles past int64.
  lemma FourthBackoffWraps(base: int)
    requires TWO_59 <= base < TWO_60
    ensures Backoff(base, 4) < 0
  {
    FirstBackoffs(base);
    assert Backoff(base, 4) == NextStreamBackoff(Backoff(base, 3), base);
  }

  // From 2^60 ns on, the cap itself wraps; the first failure may survive that, the second does not.
  lemma SecondBackoffIsWrong(base: int)
    requires TWO_60 <= base < TWO_63
    ensures Backoff(base, 1) != 2 * base || Backoff(base, 2) != 4 * base
  {
    assert Backoff(base, 1) == NextStreamBackoff(Backoff(base, 0), base);
    assert Backoff(base, 2) == NextStreamBackoff(Backoff(base, 1), base);
  }

  lemma WrappedCapStillCovers(base: int)
    requires TWO_60 <= base < TWO_63
    ensures 2 * base < TWO_63 && Wrap(8 * base) >= 2 * base <==> TWO_64 <= 6 * base && base < 3 * TWO_60
  {
    if base < 3 * TWO_60 && base >= 2 * TWO_60 {
      assert Wrap(8 * base) == 8 * base - TWO_64;
    }
  }

  // Exactly which intervals and limits give the documented waits.
  lemma WaitsAsDocumentedIff(base: int, limit: int)
    requires 0 < base < TWO_63 && limit >= 1
    ensures WaitsAsDocumented(base, limit)
       <==> limit == 1 || base < TWO_59 || (limit <= 4 && base < TWO_60)
            || (limit == 2 && TWO_64 <= 6 * base && base < 3 * TWO_60)
  {
    FirstBackoffs(base);
    if base < TWO_59 {
      forall k: nat | k < limit ensures Backoff(base, k) == base * Multiplier(k) { BackoffIsCappedDoubling(base, k); }
    } else if base < TWO_60 {
      FourthBackoffWraps(base);
      if limit > 4 { assert Backoff(base, 4) != base * Multiplier(4); }
    } else {
      MultiplierValues(1); MultiplierValues(2);
      SecondBackoffIsWrong(base);
      WrappedCapStillCovers(base);
      if limit > 2 { assert Backoff(base, 1) != base * Multiplier(1) || Backoff(base, 2) != base * Multiplier(2); }
    }
  }

  // The configuration parser keeps the interval and the limit positive but does not keep the interval below that bound:
  // with an interval of 2^59 ns and the default limit, the wait after the fourth failure is negative.
  lemma ParsedIntervalCanWrap(p: C.Parsers, addr: string, interval: string)
    requires addr != "" && interval != "" && p.duration(interval) == Some(TWO_59 as C.int64)
    ensures var r := C.Parse(p, map["prometheusAddress" := addr, "streamPollInterval" := interval]);
      && r.Ok? && !WaitsAsDocumented(r.config.streamPollInterval as int, r.config.streamMaxConsecutiveFailures as int)
      && 4 < r.config.streamMaxConsecutiveFailures && Backoff(r.config.streamPollInterval as int, 4) < 0
  {
    FourthBackoffWraps(TWO_59);
    WaitsAsDocumentedIff(TWO_59, 5);
  }

  // Every parsed configuration meets the loop's preconditions, and one whose interval is below 2^59 ns
  // (18 years) backs off as documented whatever its limit.
  lemma ParsedConfigDrivesTheLoop(p: C.Parsers, m: map<string, string>)
    requires C.Parse(p, m).Ok?
    ensures var c := C.Parse(p, m).config;
      && 0 < c.streamPollInterval as int < TWO_63 && c.streamMaxConsecutiveFailures as int >= 1
      && (c.streamPollInterval as int < TWO_59 ==>
            WaitsAsDocumented(c.streamPollInterval as int, c.streamMaxConsecutiveFailures as int))
  {
    var c := C.Parse(p, m).config;
    WaitsAsDocumentedIff(c.streamPollInterval as int, c.streamMaxConsecutiveFailures as int);
  }

  /******* How long a losing streak lasts *******/

  // The time the timer was set to before events lo up to hi.
  function WaitTime(base: int, events: seq<Event>, lo: nat, hi: nat): int
    requires lo <= hi <= |events|
    decreases hi
  {
    if lo == hi then 0 else WaitTime(base, events, lo, hi - 1) + WaitBefore(base, events, hi - 1)
  }

  // 2^n - 1 up to the cap, then 8 more for every failure.
  function StreakFactor(n: nat): int {
    if n <= 4 then Pow2(n) - 1 else 15 + 8 * (n - 4)
  }

  lemma StreakFactorStep(n: nat)
    requires n > 0
    ensures StreakFactor(n) == StreakFactor(n - 1) + Multiplier(n - 1)
  {
    MultiplierValues(n - 1);
    assert Pow2(0) == 1 && Pow2(1) == 2 && Pow2(2) == 4 && Pow2(3) == 8 && Pow2(4) == 16;
  }

  function SumOfBackoffs(base: int, n: nat): int {
    if n == 0 then 0 else SumOfBackoffs(base, n - 1) + Backoff(base, n - 1)
  }

  lemma {:induction false} SumOfBackoffsClosedForm(base: int, n: nat)
    requires 0 < base < TWO_59
    ensures SumOfBackoffs(base, n) == base * StreakFactor(n)
  {
    if n > 0 {
      SumOfBackoffsClosedForm(base, n - 1);
      BackoffIsCappedDoubling(base, n - 1);
      StreakFactorStep(n);
      Distribute(base, StreakFactor(n - 1), Multiplier(n - 1));
    }
  }

  lemma Distribute(b: int, x: int, y: int)
    ensures b * (x + y) == b * x + b * y
  {
  }

  lemma {:induction false} StreakSumsBackoffs(base: int, events: seq<Event>, m: nat, n: nat)
    requires m <= |events| && Streak(events, m) == n
    ensures WaitTime(base, events, m - n, m) == SumOfBackoffs(base, n)
    decreases n
  {
    if n > 0 { StreakSumsBackoffs(base, events, m - 1, n - 1); }
  }

  // The n failures of a streak of exactly n: before them the timer spent base * (2^n - 1) for
  // n <= 4, and base * (15 + 8 * (n - 4)) from there on.
  lemma StreakWaitTime(base: int, events: seq<Event>, m: nat, n: nat)
    requires 0 < base < TWO_59 && m <= |events| && Streak(events, m) == n
    ensures WaitTime(base, events, m - n, m) == base * (if n <= 4 then Pow2(n) - 1 else 15 + 8 * (n - 4))
  {
    StreakSumsBackoffs(base, events, m, n);
    SumOfBackoffsClosedForm(base, n);
  }
}
