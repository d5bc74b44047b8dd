/**
 The counters of the one debug hook of a VM: how often it checks for a
 cancel, how long a check may be put off, and when user callbacks run.
 Counters are 32 bits wide and wrap.
 */
module Hub {
  const U32: nat := 0x1_0000_0000
  const CANCEL_CHECK_INTERVAL: nat := 1000
  const MAX_DEFERRED: nat := 16

  function CeilDiv(a: nat, b: nat): (r: nat)
    requires b > 0
  {
    (a + b - 1) / b
  }

  lemma CeilDivBounds(a: nat, b: nat)
    requires b > 0
    ensures a <= CeilDiv(a, b) * b < a + b
  {
    var n := a + b - 1;
    assert n == b * (n / b) + n % b;
  }

  /** How many count events there are for each cancel check, with a count event every `step` instructions. */
  function CancelEvery(step: nat): (r: nat)
    requires step > 0
    ensures r >= 1
  {
    var r := CeilDiv(CANCEL_CHECK_INTERVAL, step);
    if r < 1 then 1 else r
  }

  datatype Counters = Counters(checks: nat, deferred: nat)

  predicate CountersOk(c: Counters) {
    c.checks < U32 && c.deferred <= MAX_DEFERRED
  }

  /** `checks.wrapping_add(1)`. */
  function Next(checks: nat): nat {
    (checks + 1) % U32
  }

  /** The cancel part of one count event: the counters after it, and whether it raises. */
  function Check(c: Counters, every: nat, cancelled: bool, inPoll: bool): (r: (Counters, bool))
    requires every > 0
  {
    var checks := Next(c.checks);
    if checks % every != 0 || !cancelled then (c.(checks := checks), false)
    else if c.deferred < MAX_DEFERRED && inPoll then (Counters(checks, c.deferred + 1), false)
    else (Counters(checks, 0), true)
  }

  /** Whether a cancelled token raises within the events of `polls` (each: whether it lands in the poll chunk). */
  predicate RaisedBy(c: Counters, every: nat, polls: seq<bool>)
    requires every > 0
    decreases |polls|
  {
    polls != [] &&
    var (c1, raised) := Check(c, every, true, polls[0]);
    raised || RaisedBy(c1, every, polls[1..])
  }

  // ---- latency ----------------------------------------------------------------------

  /** How many count events until the next check at the latest: a multiple of `every`, or the wrap to zero. */
  function ToCheck(checks: nat, every: nat): (r: int)
    requires every > 0
  {
    var toMultiple := every - checks % every;
    if toMultiple < U32 - checks then toMultiple else U32 - checks
  }

  lemma NextMod(x: nat, m: nat)
    requires m > 0 && (x + 1) % m != 0
    ensures (x + 1) % m == x % m + 1
  {
    var q, r := x / m, x % m;
    assert x == m * q + r;
    if r + 1 < m {
      ModOf(x + 1, m, q, r + 1);
    } else {
      ModOf(x + 1, m, q + 1, 0);
    }
  }

  lemma Distinct(m: nat, q: nat, r: nat, q': nat, r': nat)
    requires r < m && r' < m && q < q'
    ensures m * q + r < m * q' + r'
  {
    MulGrows(m, q, q');
  }

  lemma {:induction false} MulGrows(m: nat, q: nat, q': nat)
    requires q < q'
    ensures m * q + m <= m * q'
    decreases q'
  {
    assert m * (q' - 1) + m == m * q';
    if q < q' - 1 { MulGrows(m, q, q' - 1); }
  }

  lemma ModOf(x: nat, m: nat, q: nat, r: nat)
    requires m > 0 && x == m * q + r && r < m
    ensures x % m == r
  {
    var q', r' := x / m, x % m;
    if q < q' { Distinct(m, q, r, q', r'); }
    if q' < q { Distinct(m, q', r', q, r); }
  }

  /** A count event that does not check brings the next check one event closer. */
  lemma Closer(checks: nat, every: nat)
    requires every > 0 && checks < U32 && Next(checks) % every != 0
    ensures Next(checks) == checks + 1 && ToCheck(Next(checks), every) == ToCheck(checks, every) - 1
  {
    ModOf(0, every, 0, 0);
    if checks + 1 < U32 {
      ModOf(checks + 1, U32, 0, checks + 1);
      NextMod(checks, every);
    }
  }

  lemma {:induction false} RaisedWithin(c: Counters, every: nat, polls: seq<bool>)
    requires every > 0 && CountersOk(c)
    requires |polls| >= (MAX_DEFERRED - c.deferred) * every + ToCheck(c.checks, every)
    ensures RaisedBy(c, every, polls)
    decreases |polls|
  {
    OneCheckLeft(c, every);
    var (c1, raised) := Check(c, every, true, polls[0]);
    if !raised {
      EventCloser(c, every, polls[0]);
      RaisedWithin(c1, every, polls[1..]);
    }
  }

  lemma OneCheckLeft(c: Counters, every: nat)
    requires every > 0 && CountersOk(c)
    ensures 0 < ToCheck(c.checks, every) <= every
    ensures 0 <= (MAX_DEFERRED - c.deferred) * every <= MAX_DEFERRED * every
  {
  }

  /** An event of a cancelled token raises, or leaves fewer events to wait for. */
  lemma EventCloser(c: Counters, every: nat, inPoll: bool)
    requires every > 0 && CountersOk(c) && !Check(c, every, true, inPoll).1
    ensures var c1 := Check(c, every, true, inPoll).0;
      CountersOk(c1) && (MAX_DEFERRED - c1.deferred) * every + ToCheck(c1.checks, every)
        < (MAX_DEFERRED - c.deferred) * every + ToCheck(c.checks, every)
  {
    hide ToCheck;
    var c1 := Check(c, every, true, inPoll).0;
    OneCheckLeft(c, every);
    if Next(c.checks) % every != 0 {
      Closer(c.checks, every);
    } else {
      OneCheckLeft(c1, every);
      assert (MAX_DEFERRED - c.deferred) * every == (MAX_DEFERRED - c1.deferred) * every + every;
    }
  }

  /**
   Bounded cancel latency: from any state of the counters, also across the
   wrap, a cancelled token raises within 17 checks' worth of count events,
   wherever the checks land.
   */
  lemma CancelLatency(c: Counters, every: nat, polls: seq<bool>)
    requires every > 0 && CountersOk(c) && |polls| >= (MAX_DEFERRED + 1) * every
    ensures RaisedBy(c, every, polls)
  {
    OneCheckLeft(c, every);
    RaisedWithin(c, every, polls);
  }

  /** ... and within one check's worth when no check lands in the poll chunk. */
  lemma {:induction false} PromptElsewhere(c: Counters, every: nat, polls: seq<bool>)
    requires every > 0 && CountersOk(c)
    requires |polls| >= ToCheck(c.checks, every) && forall k :: 0 <= k < |polls| ==> !polls[k]
    ensures RaisedBy(c, every, polls)
    decreases |polls|
  {
    if Next(c.checks) % every != 0 {
      Closer(c.checks, every);
      PromptElsewhere(Check(c, every, true, polls[0]).0, every, polls[1..]);
    }
  }

  /** In instructions: 17 checks take at most 17 * (1000 + step - 1). */
  lemma LatencyInInstructions(c: Counters, step: nat, polls: seq<bool>)
    requires 0 < step <= CANCEL_CHECK_INTERVAL && CountersOk(c)
    requires |polls| == (MAX_DEFERRED + 1) * CancelEvery(step)
    ensures RaisedBy(c, CancelEvery(step), polls)
    ensures |polls| * step <= (MAX_DEFERRED + 1) * (CANCEL_CHECK_INTERVAL + step - 1)
  {
    CeilDivBounds(CANCEL_CHECK_INTERVAL, step);
    CancelLatency(c, CancelEvery(step), polls);
    var every := CancelEvery(step);
    assert |polls| * step == (MAX_DEFERRED + 1) * (every * step);
  }

  /** How many count events make a check: just enough for 1000 instructions. */
  lemma EveryThousand(step: nat)
    requires 0 < step <= CANCEL_CHECK_INTERVAL
    ensures (CancelEvery(step) - 1) * step < CANCEL_CHECK_INTERVAL <= CancelEvery(step) * step
  {
    CeilDivBounds(CANCEL_CHECK_INTERVAL, step);
    assert (CancelEvery(step) - 1) * step == CancelEvery(step) * step - step;
  }

  // ---- tokens that come and go ------------------------------------------------------------

  /** A count event: whether the current token is cancelled then, and whether it lands in the poll chunk. */
  datatype Event = Event(cancelled: bool, inPoll: bool)

  function CountersAfter(c: Counters, every: nat, events: seq<Event>): Counters
    requires every > 0
  {
    if events == [] then c
    else
      var last := events[|events| - 1];
      Check(CountersAfter(c, every, events[..|events| - 1]), every, last.cancelled, last.inPoll).0
  }

  predicate RaisedAt(c: Counters, every: nat, events: seq<Event>, k: nat)
    requires every > 0 && k < |events|
  {
    Check(CountersAfter(c, every, events[..k]), every, events[k].cancelled, events[k].inPoll).1
  }

  lemma {:induction false} ChecksAdvance(c: Counters, every: nat, events: seq<Event>)
    requires every > 0 && CountersOk(c)
    ensures var c1 := CountersAfter(c, every, events); CountersOk(c1) && c1.checks == (c.checks + |events|) % U32
  {
    if events == [] {
      ModOf(c.checks, U32, 0, c.checks);
    } else {
      var front := events[..|events| - 1];
      ChecksAdvance(c, every, front);
      NextWraps(c.checks + |front|);
    }
  }

  lemma NextWraps(n: nat)
    ensures Next(n % U32) == (n + 1) % U32
  {
    var q, r := n / U32, n % U32;
    if r + 1 < U32 {
      ModOf(n + 1, U32, q, r + 1);
      ModOf(r + 1, U32, 0, r + 1);
    } else {
      ModOf(n + 1, U32, q + 1, 0);
      ModOf(r + 1, U32, 1, 0);
    }
  }

  /**
   Over any events, with tokens cancelled or not at each of them, one raises
   if and only if its own token is cancelled, its check is due, and it can no
   longer be put off.  An event of a token that is not cancelled leaves the
   count of deferrals as it was; one put off adds one, and one that raises
   starts it anew.
   */
  lemma RaisedForCause(c: Counters, every: nat, events: seq<Event>, k: nat)
    requires every > 0 && CountersOk(c) && k < |events|
    ensures var before, after := CountersAfter(c, every, events[..k]), CountersAfter(c, every, events[..k + 1]);
      var due := (c.checks + k + 1) % U32 % every == 0;
      && (RaisedAt(c, every, events, k) <==>
            events[k].cancelled && due && (!events[k].inPoll || before.deferred == MAX_DEFERRED))
      && (!events[k].cancelled || !due ==> after.deferred == before.deferred)
      && (events[k].cancelled && due ==>
            after.deferred == if RaisedAt(c, every, events, k) then 0 else before.deferred + 1)
  {
    ChecksAdvance(c, every, events[..k]);
    NextWraps(c.checks + k);
    assert events[..k + 1][..k] == events[..k];
  }

  // ---- exactly when a check raises ------------------------------------------------------

  /** How many of the next `n` count events check for a cancel. */
  function ChecksIn(checks: nat, every: nat, n: nat): nat
    requires every > 0
    decreases n
  {
    if n == 0 then 0
    else (if Next(checks) % every == 0 then 1 else 0) + ChecksIn(Next(checks), every, n - 1)
  }

  /** One of the events of `polls` checks for a cancel outside the poll chunk. */
  predicate ChecksOutside(checks: nat, every: nat, polls: seq<bool>)
    requires every > 0
    decreases |polls|
  {
    polls != [] &&
    ((Next(checks) % every == 0 && !polls[0]) || ChecksOutside(Next(checks), every, polls[1..]))
  }

  /**
   A cancelled token raises within the events of `polls` if and only if one of
   the checks is outside the poll chunk, or they are more than may be put off.
   */
  lemma {:induction false} RaisedExactly(c: Counters, every: nat, polls: seq<bool>)
    requires every > 0 && CountersOk(c)
    ensures RaisedBy(c, every, polls) <==>
      ChecksOutside(c.checks, every, polls) || ChecksIn(c.checks, every, |polls|) > MAX_DEFERRED - c.deferred
    decreases |polls|
  {
    if polls != [] {
      var (c1, raised) := Check(c, every, true, polls[0]);
      if !raised { RaisedExactly(c1, every, polls[1..]); }
    }
  }

  // ---- user callbacks ------------------------------------------------------------------

  /** One count event for an entry that wants every `n`-th instruction: its count, and whether it runs. */
  function CountEntry(counted: nat, n: nat, step: nat): (nat, bool) {
    var c := (counted + step) % U32;
    if c >= n then (0, true) else (c, false)
  }

  /** The count of an entry `k` events after it last ran, if it did not run since. */
  function CountAfter(n: nat, step: nat, k: nat): nat {
    if k == 0 then 0 else CountEntry(CountAfter(n, step, k - 1), n, step).0
  }

  /** Count events between two runs of an entry. */
  function Period(n: nat, step: nat): (r: nat)
    requires step > 0
    ensures r >= 1
  {
    var r := CeilDiv(n, step);
    if r < 1 then 1 else r
  }

  lemma BelowPeriod(n: nat, step: nat, k: nat)
    requires 0 < step && 0 < k < Period(n, step)
    ensures k * step < n
  {
    PeriodBounds(n, step);
    if k < Period(n, step) - 1 { MulGrows(step, k, Period(n, step) - 1); }
    assert step * k == k * step && step * (Period(n, step) - 1) == (Period(n, step) - 1) * step;
  }

  /** Until its period is over, an entry adds up the instructions and does not run. */
  lemma {:induction false} CountsUp(n: nat, step: nat, k: nat)
    requires 0 < step < U32 && n < U32 && k < Period(n, step)
    ensures CountAfter(n, step, k) == k * step
    ensures k > 0 ==> !CountEntry(CountAfter(n, step, k - 1), n, step).1
  {
    if k > 0 {
      CountsUp(n, step, k - 1);
      BelowPeriod(n, step, k);
      assert (k - 1) * step + step == k * step;
      ModOf(k * step, U32, 0, k * step);
    }
  }

  lemma PeriodBounds(n: nat, step: nat)
    requires step > 0
    ensures n > 0 ==> n <= Period(n, step) * step && (Period(n, step) - 1) * step < n
  {
    CeilDivBounds(n, step);
    assert (CeilDiv(n, step) - 1) * step == CeilDiv(n, step) * step - step;
  }

  /**
   A callback for every `n`-th instruction runs at its `Period`-th count
   event and not before, exactly when the count up to there fits 32 bits.
   */
  lemma CallbackPeriod(n: nat, step: nat)
    requires 0 < step <= CANCEL_CHECK_INTERVAL && n < U32
    ensures Period(n, step) >= 1 && (n > 0 ==> (Period(n, step) - 1) * step < n <= Period(n, step) * step)
    ensures forall j :: 0 <= j < Period(n, step) - 1 ==> !CountEntry(CountAfter(n, step, j), n, step).1
    ensures CountEntry(CountAfter(n, step, Period(n, step) - 1), n, step).1
      <==> n == 0 || Period(n, step) * step < U32
  {
    var m := Period(n, step);
    PeriodBounds(n, step);
    CountsUp(n, step, m - 1);
    forall j | 0 <= j < m - 1 ensures !CountEntry(CountAfter(n, step, j), n, step).1 { CountsUp(n, step, j + 1); }
    LastEvent(n, step);
  }

  /** The event at which the count reaches `n`: it runs the callback unless the count wraps. */
  lemma LastEvent(n: nat, step: nat)
    requires 0 < step <= CANCEL_CHECK_INTERVAL && n < U32
    ensures CountEntry((Period(n, step) - 1) * step, n, step).1 <==> n == 0 || Period(n, step) * step < U32
  {
    var m := Period(n, step);
    PeriodBounds(n, step);
    var sum := (m - 1) * step + step;
    assert sum == m * step;
    if n > 0 { WrapAt(sum); }
  }

  lemma WrapAt(sum: nat)
    requires sum < 2 * U32
    ensures sum % U32 == if sum < U32 then sum else sum - U32
  {
    if sum < U32 { ModOf(sum, U32, 0, sum); } else { ModOf(sum, U32, 1, sum - U32); }
  }

  /** When the count fits, the callback runs again and again: at each multiple of its period and at no other event. */
  lemma CallbackEvery(n: nat, step: nat, k: nat)
    requires 0 < step <= CANCEL_CHECK_INTERVAL && n < U32 && k > 0
    requires n == 0 || Period(n, step) * step < U32
    ensures CountEntry(CountAfter(n, step, k - 1), n, step).1 <==> k % Period(n, step) == 0
  {
    hide Period, CountEntry, CountAfter;
    var m := Period(n, step);
    var q, r := Split(k - 1, m);
    CountRepeats(n, step, q, r, k - 1);
    CallbackPeriod(n, step);
    NextMultiple(k, m, q, r);
  }

  lemma Split(x: nat, m: nat) returns (q: nat, r: nat)
    requires m > 0
    ensures x == m * q + r && r < m
  {
    q, r := x / m, x % m;
  }

  lemma NextMultiple(k: nat, m: nat, q: nat, r: nat)
    requires k > 0 && k - 1 == m * q + r && r < m
    ensures k % m == 0 <==> r == m - 1
  {
    if r < m - 1 {
      ModOf(k, m, q, r + 1);
    } else {
      assert m * (q + 1) == m * q + m;
      ModOf(k, m, q + 1, 0);
    }
  }

  lemma RunResets(counted: nat, n: nat, step: nat)
    requires CountEntry(counted, n, step).1
    ensures CountEntry(counted, n, step).0 == 0
  {
  }

  lemma {:induction false} CountRepeats(n: nat, step: nat, q: nat, r: nat, k: nat)
    requires 0 < step <= CANCEL_CHECK_INTERVAL && n < U32 && r < Period(n, step)
    requires n == 0 || Period(n, step) * step < U32
    requires k == Period(n, step) * q + r
    ensures CountAfter(n, step, k) == CountAfter(n, step, r)
    decreases q, r
  {
    hide Period, CountEntry;
    var m := Period(n, step);
    if r > 0 {
      Below(m, q, k - r);
      CountRepeats(n, step, q, r - 1, k - 1);
    } else if q > 0 {
      Below(m, q, k);
      CountRepeats(n, step, q - 1, m - 1, k - 1);
      CallbackPeriod(n, step);
      RunResets(CountAfter(n, step, m - 1), n, step);
    } else {
      assert m * 0 == 0;
    }
  }

  lemma Below(m: nat, q: nat, k: int)
    requires k == m * q
    ensures k >= 0 && (q > 0 ==> k == m * (q - 1) + m)
  {
  }

  /** A failing input: with the largest trigger and the longest step, the count wraps just before it gets there. */
  lemma MissedCallback()
    ensures var n, step := U32 - 1, CANCEL_CHECK_INTERVAL;
      Period(n, step) == 4294968 && !CountEntry(CountAfter(n, step, Period(n, step) - 1), n, step).1
  {
    CallbackPeriod(U32 - 1, CANCEL_CHECK_INTERVAL);
  }
}
