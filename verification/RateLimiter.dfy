/** The token bucket of the read loop, over exact reals. Times are integer
    nanoseconds; nothing is assumed about their order unless stated. */
module RateLimiter {

  // ---------- One limiter ----------

  datatype Bucket = Bucket(tokens: real, last: int)

  /** The configured limit and interval; a limiter with a non-positive setting is off. */
  datatype Settings = Settings(limit: int, interval: int) {
    predicate On() {
      limit > 0 && interval > 0
    }
  }

  /** Tokens earned in `elapsed` time; negative if the clock went back. */
  function Refill(p: Settings, elapsed: int): real
    requires p.On()
  {
    p.limit as real * (elapsed as real / p.interval as real)
  }

  function Min(a: real, b: real): real {
    if a > b then b else a
  }

  /** The level that a call at `now` finds. */
  function Level(p: Settings, b: Bucket, now: int): real
    requires p.On()
  {
    Min(p.limit as real, b.tokens + Refill(p, now - b.last))
  }

  predicate Admits(p: Settings, b: Bucket, now: int) {
    p.On() ==> Level(p, b, now) >= 1.0
  }

  function Next(p: Settings, b: Bucket, now: int): Bucket {
    if !p.On() then b
    else Bucket(Level(p, b, now) - (if Admits(p, b, now) then 1.0 else 0.0), now)
  }

  function Fresh(p: Settings, start: int): Bucket {
    Bucket(p.limit as real, start)
  }

  class Limiter {
    const settings: Settings
    var tokens: real
    var lastRefreshed: int

    function State(): Bucket
      reads this
    {
      Bucket(tokens, lastRefreshed)
    }

    constructor (limit: int, interval: int, now: int)
      ensures settings == Settings(limit, interval) && State() == Fresh(settings, now)
    {
      settings := Settings(limit, interval);
      tokens := limit as real;
      lastRefreshed := now;
    }

    method AllowAt(now: int) returns (ok: bool)
      modifies this
      ensures ok == Admits(settings, old(State()), now)
      ensures State() == Next(settings, old(State()), now)
      ensures settings.limit <= 0 || settings.interval <= 0 ==> ok && State() == old(State())
    {
      if settings.limit <= 0 || settings.interval <= 0 {
        return true;
      }
      var elapsed := now - lastRefreshed;
      lastRefreshed := now;
      tokens := tokens + settings.limit as real * (elapsed as real / settings.interval as real);
      if tokens > settings.limit as real {
        tokens := settings.limit as real;
      }
      if tokens >= 1.0 {
        tokens := tokens - 1.0;
        return true;
      }
      return false;
    }
  }

  // ---------- A whole trace of calls ----------

  /** The bucket after the calls at `times`. */
  function After(p: Settings, start: int, times: seq<int>): Bucket {
    if times == [] then Fresh(p, start)
    else Next(p, After(p, start, times[..|times| - 1]), times[|times| - 1])
  }

  /** The verdict on call `i` of the trace. */
  predicate Verdict(p: Settings, start: int, times: seq<int>, i: nat)
    requires i < |times|
  {
    Admits(p, After(p, start, times[..i]), times[i])
  }

  /** How many of the calls numbered from `lo` up to, but not including, `hi` were admitted. */
  function Admitted(p: Settings, start: int, times: seq<int>, lo: nat, hi: nat): nat
    requires lo <= hi <= |times|
  {
    if lo == hi then 0
    else Admitted(p, start, times, lo, hi - 1) + (if Verdict(p, start, times, hi - 1) then 1 else 0)
  }

  /** What a window of length `span` allows in total. */
  function Allowance(p: Settings, span: int): real
    requires p.On()
  {
    p.limit as real + Refill(p, span)
  }

  /** The time at which window `j` starts: construction for window 0, otherwise
      call number j - 1. */
  function WindowStart(start: int, times: seq<int>, j: nat): int
    requires j <= |times|
  {
    if j == 0 then start else times[j - 1]
  }

  /** Window `j` holds the calls from its start on: all of them for window 0. */
  function WindowFirst(j: nat): nat {
    if j == 0 then 0 else j - 1
  }

  /** What window `j` still has to spend when call `n` arrives. */
  function Headroom(p: Settings, start: int, times: seq<int>, n: nat, j: nat): real
    requires p.On() && n < |times| && j <= n + 1
  {
    Allowance(p, times[n] - WindowStart(start, times, j)) - Admitted(p, start, times, WindowFirst(j), n) as real
  }

  lemma RefillAdds(p: Settings, a: int, b: int)
    requires p.On()
    ensures Refill(p, a + b) == Refill(p, a) + Refill(p, b)
    ensures Refill(p, 0) == 0.0
  {
    var l, t := p.limit as real, p.interval as real;
    assert (a as real + b as real) / t == a as real / t + b as real / t;
  }

  lemma RefillMonotone(p: Settings, a: int, b: int)
    requires p.On() && a <= b
    ensures Refill(p, a) <= Refill(p, b)
  {
    RefillAdds(p, a, b - a);
    assert (b - a) as real / p.interval as real >= 0.0;
  }

  /** `spent` calls are no more than a window of length `span` allows. */
  predicate Within(p: Settings, spent: int, span: int)
    requires p.On()
  {
    spent as real <= Allowance(p, span)
  }

  /** That is limit + limit * span / interval, without fractions. */
  lemma WithinInIntegers(p: Settings, spent: int, span: int)
    requires p.limit > 0 && p.interval > 0
    ensures Within(p, spent, span) <==> spent * p.interval <= p.limit * p.interval + p.limit * span
  {
    var a, l, g, t := spent as real, p.limit as real, span as real, p.interval as real;
    assert (l + l * (g / t)) * t == l * t + l * g;
    assert a <= l + l * (g / t) <==> a * t <= (l + l * (g / t)) * t;
    assert a * t == (spent * p.interval) as real;
    assert l * t + l * g == (p.limit * p.interval + p.limit * span) as real;
  }

  /** The level is the smallest headroom of all windows: no window has less. */
  lemma {:induction false} LevelBelowHeadroom(p: Settings, start: int, times: seq<int>, n: nat, j: nat)
    requires p.On() && n < |times| && j <= n + 1
    ensures Level(p, After(p, start, times[..n]), times[n]) <= Headroom(p, start, times, n, j)
    decreases n
  {
    if j == n + 1 {
      RefillAdds(p, 0, 0);
    } else if n == 0 {
    } else {
      LevelBelowHeadroom(p, start, times, n - 1, j);
      StepHeadroom(p, start, times, n, j);
    }
  }

  /** Between two calls every window's headroom moves exactly as the bucket does. */
  lemma StepHeadroom(p: Settings, start: int, times: seq<int>, n: nat, j: nat)
    requires p.On() && 0 < n < |times| && j <= n
    ensures Headroom(p, start, times, n, j)
         == Headroom(p, start, times, n - 1, j) - (if Verdict(p, start, times, n - 1) then 1.0 else 0.0)
            + Refill(p, times[n] - times[n - 1])
    ensures var b := After(p, start, times[..n]);
            && b.last == times[n - 1]
            && b.tokens == Level(p, After(p, start, times[..n - 1]), times[n - 1])
                             - (if Verdict(p, start, times, n - 1) then 1.0 else 0.0)
  {
    assert times[..n][..n - 1] == times[..n - 1];
    RefillAdds(p, times[n - 1] - WindowStart(start, times, j), times[n] - times[n - 1]);
  }

  /** ... and some window has exactly that. */
  lemma {:induction false} LevelIsSomeHeadroom(p: Settings, start: int, times: seq<int>, n: nat) returns (j: nat)
    requires p.On() && n < |times|
    ensures j <= n + 1
    ensures Level(p, After(p, start, times[..n]), times[n]) == Headroom(p, start, times, n, j)
    decreases n
  {
    var b := After(p, start, times[..n]);
    if b.tokens + Refill(p, times[n] - b.last) > p.limit as real {
      RefillAdds(p, 0, 0);
      j := n + 1;
    } else if n == 0 {
      j := 0;
    } else {
      j := LevelIsSomeHeadroom(p, start, times, n - 1);
      StepHeadroom(p, start, times, n, j);
    }
  }

  /** Call `n` fits into window `j` together with the calls already admitted there. */
  ghost predicate FitsWindow(p: Settings, start: int, times: seq<int>, n: nat, j: nat)
    requires p.On() && n < |times| && j <= n + 1
  {
    Within(p, Admitted(p, start, times, WindowFirst(j), n) + 1, times[n] - WindowStart(start, times, j))
  }

  lemma AdmittedIffFits(p: Settings, start: int, times: seq<int>, n: nat)
    requires p.On() && n < |times|
    ensures Verdict(p, start, times, n) <==> forall j: nat :: j <= n + 1 ==> FitsWindow(p, start, times, n, j)
  {
    forall j: nat | j <= n + 1 && Verdict(p, start, times, n) ensures FitsWindow(p, start, times, n, j) {
      LevelBelowHeadroom(p, start, times, n, j);
    }
    var j := LevelIsSomeHeadroom(p, start, times, n);
    assert FitsWindow(p, start, times, n, j) ==> Verdict(p, start, times, n);
  }

  /** Call `n` fits into the window that starts with call `j`. */
  ghost predicate FitsSince(p: Settings, start: int, times: seq<int>, n: nat, j: nat)
    requires p.On() && j <= n < |times|
  {
    Within(p, Admitted(p, start, times, j, n) + 1, times[n] - times[j])
  }

  /** AllowAt is the greedy limiter: for every trace of call times, a call is
      admitted exactly when, in the window since construction and in the window
      since every call up to and including this one, it and the calls already
      admitted there are no more than limit + limit * length / interval. */
  lemma AllowIsGreedy(p: Settings, start: int, times: seq<int>, n: nat)
    requires p.limit > 0 && p.interval > 0 && n < |times|
    ensures Verdict(p, start, times, n) <==>
            && Within(p, Admitted(p, start, times, 0, n) + 1, times[n] - start)
            && forall j: nat :: j <= n ==> FitsSince(p, start, times, n, j)
  {
    AdmittedIffFits(p, start, times, n);
    WindowsAreCalls(p, start, times, n);
  }

  lemma WindowsAreCalls(p: Settings, start: int, times: seq<int>, n: nat)
    requires p.On() && n < |times|
    ensures (forall j: nat :: j <= n + 1 ==> FitsWindow(p, start, times, n, j)) <==>
            && Within(p, Admitted(p, start, times, 0, n) + 1, times[n] - start)
            && forall j: nat :: j <= n ==> FitsSince(p, start, times, n, j)
  {
    FirstWindow(p, start, times, n);
    forall j: nat | j <= n ensures FitsWindow(p, start, times, n, j + 1) <==> FitsSince(p, start, times, n, j) {
      LaterWindow(p, start, times, n, j);
    }
    if forall j: nat :: j <= n ==> FitsSince(p, start, times, n, j) {
      forall j: nat | 0 < j <= n + 1 ensures FitsWindow(p, start, times, n, j) {
        assert FitsSince(p, start, times, n, j - 1);
        LaterWindow(p, start, times, n, j - 1);
      }
    }
  }

  lemma FirstWindow(p: Settings, start: int, times: seq<int>, n: nat)
    requires p.On() && n < |times|
    ensures FitsWindow(p, start, times, n, 0) <==> Within(p, Admitted(p, start, times, 0, n) + 1, times[n] - start)
  {}

  lemma LaterWindow(p: Settings, start: int, times: seq<int>, n: nat, j: nat)
    requires p.On() && j <= n < |times|
    ensures FitsWindow(p, start, times, n, j + 1) <==> FitsSince(p, start, times, n, j)
  {}

  // ---------- Consequences under a clock that never goes back ----------

  ghost predicate Ordered(start: int, times: seq<int>) {
    && (forall i :: 0 <= i < |times| ==> start <= times[i])
    && (forall i, j :: 0 <= i <= j < |times| ==> times[i] <= times[j])
  }

  /** No window, wherever it starts and ends, holds more admissions than
      limit + limit * length / interval. */
  lemma {:induction false} NoWindowExceedsAllowance(p: Settings, start: int, times: seq<int>, lo: nat, hi: nat)
    requires p.limit > 0 && p.interval > 0 && lo < hi <= |times| && Ordered(start, times)
    ensures Within(p, Admitted(p, start, times, lo, hi), times[hi - 1] - times[lo])
    decreases hi
  {
    if Verdict(p, start, times, hi - 1) {
      AllowIsGreedy(p, start, times, hi - 1);
      assert FitsSince(p, start, times, hi - 1, lo);
    } else if lo + 1 < hi {
      NoWindowExceedsAllowance(p, start, times, lo, hi - 1);
      RefillMonotone(p, times[hi - 2] - times[lo], times[hi - 1] - times[lo]);
    } else {
      RefillAdds(p, 0, 0);
    }
  }

  lemma {:induction false} TokensStayInRange(p: Settings, start: int, times: seq<int>)
    requires p.limit > 0 && p.interval > 0 && Ordered(start, times)
    ensures 0.0 <= After(p, start, times).tokens <= p.limit as real
    ensures start <= After(p, start, times).last
    ensures times != [] ==> After(p, start, times).last == times[|times| - 1]
  {
    if times != [] {
      var n := |times| - 1;
      TokensStayInRange(p, start, times[..n]);
      var b := After(p, start, times[..n]);
      assert n > 0 ==> times[..n][n - 1] == times[n - 1];
      RefillAdds(p, 0, 0);
      RefillMonotone(p, 0, times[n] - b.last);
    }
  }

  /** A caller that leaves interval/limit between its calls is never denied. */
  lemma SpacedCallsAreNeverDenied(p: Settings, start: int, times: seq<int>, n: nat)
    requires p.limit > 0 && p.interval > 0 && Ordered(start, times) && n < |times|
    requires forall i :: 0 < i < |times| ==> p.limit * (times[i] - times[i - 1]) >= p.interval
    ensures Verdict(p, start, times, n)
  {
    TokensStayInRange(p, start, times[..n]);
    var b := After(p, start, times[..n]);
    if n == 0 {
      RefillAdds(p, 0, 0);
      RefillMonotone(p, 0, times[0] - start);
    } else {
      assert b.last == times[n - 1];
      EarnedToken(p, times[n] - times[n - 1]);
    }
  }

  lemma EarnedToken(p: Settings, gap: int)
    requires p.On() && p.limit * gap >= p.interval
    ensures Refill(p, gap) >= 1.0
  {
    var l, t, g := p.limit as real, p.interval as real, gap as real;
    assert l * g == (p.limit * gap) as real;
    assert l * (g / t) == (l * g) / t;
    assert (l * g) / t >= t / t;
  }

  // ---------- A clock that goes back ----------

  /** A call overdraws the bucket, whatever it holds, exactly if the clock went
      back by more than the time in which those tokens were earned. */
  lemma OverdrawnIffClockWentBack(p: Settings, b: Bucket, now: int)
    requires p.limit > 0 && p.interval > 0
    ensures Next(p, b, now).tokens < 0.0 <==> p.limit as real * (b.last - now) as real > b.tokens * p.interval as real
  {
    var l, t, g := p.limit as real, p.interval as real, (now - b.last) as real;
    assert Refill(p, now - b.last) == (l * g) / t;
    assert (l * g) / t * t == l * g;
    assert b.tokens + (l * g) / t < 0.0 <==> (b.tokens + (l * g) / t) * t < 0.0;
    assert (b.tokens + (l * g) / t) * t == b.tokens * t + l * g;
  }

  /** A fresh limiter is overdrawn by its first call exactly if that call reads
      a clock more than one interval before construction. */
  lemma BackwardClockOverdraws(p: Settings, start: int, now: int)
    requires p.limit > 0 && p.interval > 0
    ensures After(p, start, [now]).tokens < 0.0 <==> now < start - p.interval
  {
    assert [now][..0] == [];
    OverdrawnIffClockWentBack(p, Fresh(p, start), now);
    var l, d, t := p.limit as real, (start - now) as real, p.interval as real;
    assert l * d > l * t <==> d > t;
  }

  /** In every trace, call `n` leaves the bucket overdrawn exactly if reading the
      clock back made some window, since construction or since a call up to this
      one, shorter than the calls admitted in it need. */
  lemma OverdrawnIffWindowOverspent(p: Settings, start: int, times: seq<int>, n: nat)
    requires p.limit > 0 && p.interval > 0 && n < |times|
    ensures After(p, start, times[..n + 1]).tokens < 0.0 <==>
            || !Within(p, Admitted(p, start, times, 0, n), times[n] - start)
            || exists j: nat :: j <= n && !Within(p, Admitted(p, start, times, j, n), times[n] - times[j])
  {
    assert times[..n + 1][..n] == times[..n];
    OverspentWindow(p, start, times, n, 0);
    forall j: nat | j <= n && !Within(p, Admitted(p, start, times, j, n), times[n] - times[j])
      ensures After(p, start, times[..n + 1]).tokens < 0.0
    {
      OverspentWindow(p, start, times, n, j + 1);
    }
    var j := LevelIsSomeHeadroom(p, start, times, n);
    OverspentWindow(p, start, times, n, j);
    assert j > 0 ==> Within(p, Admitted(p, start, times, j - 1, n), times[n] - times[j - 1])
                     || After(p, start, times[..n + 1]).tokens < 0.0;
  }

  lemma OverspentWindow(p: Settings, start: int, times: seq<int>, n: nat, j: nat)
    requires p.On() && n < |times| && j <= n + 1
    ensures var spent, span := Admitted(p, start, times, WindowFirst(j), n), times[n] - WindowStart(start, times, j);
            var within := Within(p, spent, span);
            && (within <==> Headroom(p, start, times, n, j) >= 0.0)
            && (!within ==> Level(p, After(p, start, times[..n]), times[n]) < 0.0)
  {
    LevelBelowHeadroom(p, start, times, n, j);
  }

  // ---------- A burst ----------

  /** The bucket after `n` calls at one instant. */
  lemma {:induction false} AfterBurst(p: Settings, start: int, now: int, n: nat)
    requires p.On() && start <= now
    ensures var b := After(p, start, seq(n, _ => now));
            && b.last == (if n == 0 then start else now)
            && b.tokens == (p.limit - if n < p.limit then n else p.limit) as real
  {
    if n > 0 {
      AfterBurst(p, start, now, n - 1);
      assert seq(n, _ => now)[..n - 1] == seq(n - 1, _ => now);
      RefillAdds(p, 0, 0);
      RefillMonotone(p, 0, now - start);
    }
  }

  /** Of any number of calls at one instant exactly the first `limit` are
      admitted, for every positive limit and interval. */
  lemma BurstAdmitsLimit(p: Settings, start: int, now: int, n: nat, i: nat)
    requires p.limit > 0 && p.interval > 0 && start <= now && i < n
    ensures Verdict(p, start, seq(n, _ => now), i) <==> i < p.limit
  {
    assert seq(n, _ => now)[..i] == seq(i, _ => now);
    AfterBurst(p, start, now, i);
    RefillAdds(p, 0, 0);
    RefillMonotone(p, 0, now - start);
  }

  // ---------- Denied calls leave no trace ----------

  function Kept<T>(xs: seq<T>, keep: seq<bool>): seq<T>
    requires |xs| == |keep|
  {
    if xs == [] then []
    else
      var n := |xs| - 1;
      Kept(xs[..n], keep[..n]) + if keep[n] then [xs[n]] else []
  }

  function Verdicts(p: Settings, start: int, times: seq<int>): seq<bool> {
    if times == [] then []
    else
      var n := |times| - 1;
      Verdicts(p, start, times[..n]) + [Admits(p, After(p, start, times[..n]), times[n])]
  }

  lemma {:induction false} VerdictsAreVerdicts(p: Settings, start: int, times: seq<int>)
    ensures |Verdicts(p, start, times)| == |times|
    ensures forall i :: 0 <= i < |times| ==> Verdicts(p, start, times)[i] == Verdict(p, start, times, i)
  {
    if times != [] {
      var n := |times| - 1;
      VerdictsAreVerdicts(p, start, times[..n]);
      forall i | 0 <= i < |times| ensures Verdicts(p, start, times)[i] == Verdict(p, start, times, i) {
        if i < n {
          assert Verdict(p, start, times[..n], i) == Verdicts(p, start, times[..n])[i];
          assert times[..n][..i] == times[..i];
        }
      }
    }
  }

  /** Two buckets that every future call finds at the same level. */
  ghost predicate SameFuture(p: Settings, a: Bucket, b: Bucket)
    requires p.On()
  {
    a.tokens - Refill(p, a.last) == b.tokens - Refill(p, b.last)
  }

  lemma SameFutureSameStep(p: Settings, a: Bucket, b: Bucket, now: int)
    requires p.On() && SameFuture(p, a, b)
    ensures Admits(p, a, now) == Admits(p, b, now)
    ensures Next(p, a, now) == Next(p, b, now)
  {
    RefillAdds(p, a.last, now - a.last);
    RefillAdds(p, b.last, now - b.last);
  }

  lemma DenialKeepsFuture(p: Settings, b: Bucket, now: int)
    requires p.On() && !Admits(p, b, now)
    ensures SameFuture(p, Next(p, b, now), b)
  {
    RefillAdds(p, b.last, now - b.last);
  }

  /** The calls that `keep` leaves out were all denied. */
  ghost predicate OnlyDenied(p: Settings, start: int, times: seq<int>, keep: seq<bool>) {
    && |times| == |keep|
    && forall i :: 0 <= i < |times| && !keep[i] ==> !Verdict(p, start, times, i)
  }

  lemma OnlyDeniedPrefix(p: Settings, start: int, times: seq<int>, keep: seq<bool>)
    requires times != [] && OnlyDenied(p, start, times, keep)
    ensures OnlyDenied(p, start, times[..|times| - 1], keep[..|times| - 1])
  {
    var n := |times| - 1;
    forall i | 0 <= i < n && !keep[..n][i] ensures !Verdict(p, start, times[..n], i) {
      assert !Verdict(p, start, times, i);
      assert times[..n][..i] == times[..i];
    }
  }

  lemma {:induction false} DeniedCallsKeepFuture(p: Settings, start: int, times: seq<int>, keep: seq<bool>)
    requires p.On() && OnlyDenied(p, start, times, keep)
    ensures SameFuture(p, After(p, start, Kept(times, keep)), After(p, start, times))
  {
    if times != [] {
      var n := |times| - 1;
      OnlyDeniedPrefix(p, start, times, keep);
      DeniedCallsKeepFuture(p, start, times[..n], keep[..n]);
      var kept := Kept(times[..n], keep[..n]);
      if keep[n] {
        SameFutureSameStep(p, After(p, start, kept), After(p, start, times[..n]), times[n]);
        OneMoreCall(p, start, kept, times[n]);
      } else {
        assert !Verdict(p, start, times, n);
        DenialKeepsFuture(p, After(p, start, times[..n]), times[n]);
        assert Kept(times, keep) == kept;
      }
    }
  }

  /** Deleting any set of denied calls changes no other verdict, for every
      trace of times. */
  lemma {:induction false} DeniedCallsLeaveNoTrace(p: Settings, start: int, times: seq<int>, keep: seq<bool>)
    requires p.limit > 0 && p.interval > 0 && OnlyDenied(p, start, times, keep)
    ensures |Verdicts(p, start, times)| == |keep|
    ensures Verdicts(p, start, Kept(times, keep)) == Kept(Verdicts(p, start, times), keep)
  {
    VerdictsAreVerdicts(p, start, times);
    if times != [] {
      var n := |times| - 1;
      var past := times[..n];
      OnlyDeniedPrefix(p, start, times, keep);
      DeniedCallsLeaveNoTrace(p, start, past, keep[..n]);
      assert Verdicts(p, start, times)[..n] == Verdicts(p, start, past);
      if keep[n] {
        var kept := Kept(past, keep[..n]);
        OneMoreCall(p, start, kept, times[n]);
        DeniedCallsKeepFuture(p, start, past, keep[..n]);
        SameFutureSameStep(p, After(p, start, kept), After(p, start, past), times[n]);
      } else {
        assert Kept(times, keep) == Kept(past, keep[..n]);
      }
    }
  }

  /** How many of the first `i` calls are kept. */
  function KeptBefore(keep: seq<bool>, i: nat): nat
    requires i <= |keep|
  {
    if i == 0 then 0 else KeptBefore(keep, i - 1) + if keep[i - 1] then 1 else 0
  }

  lemma {:induction false} KeptBeforePrefix(keep: seq<bool>, m: nat, i: nat)
    requires i <= m <= |keep|
    ensures KeptBefore(keep[..m], i) == KeptBefore(keep, i)
  {
    if i > 0 {
      KeptBeforePrefix(keep, m, i - 1);
    }
  }

  /** What is kept keeps its order and loses nothing else. */
  lemma {:induction false} KeptPlaces<T>(xs: seq<T>, keep: seq<bool>, i: nat)
    requires |xs| == |keep| && i <= |keep|
    ensures |Kept(xs, keep)| == KeptBefore(keep, |keep|)
    ensures i < |keep| && keep[i] ==>
              KeptBefore(keep, i) < |Kept(xs, keep)| && Kept(xs, keep)[KeptBefore(keep, i)] == xs[i]
  {
    if xs != [] {
      var n := |xs| - 1;
      KeptPlaces(xs[..n], keep[..n], if i < n then i else n);
      KeptBeforePrefix(keep, n, n);
      KeptBeforePrefix(keep, n, if i < n then i else n);
    }
  }

  /** Call by call: every call that is kept stays in the thinned trace, at its
      place among the kept ones, and gets the same verdict there. */
  lemma KeptCallsKeepTheirVerdicts(p: Settings, start: int, times: seq<int>, keep: seq<bool>, i: nat)
    requires p.limit > 0 && p.interval > 0 && OnlyDenied(p, start, times, keep) && i < |times| && keep[i]
    ensures var kept, j := Kept(times, keep), KeptBefore(keep, i);
            j < |kept| && kept[j] == times[i] && Verdict(p, start, kept, j) == Verdict(p, start, times, i)
  {
    DeniedCallsLeaveNoTrace(p, start, times, keep);
    KeptPlaces(times, keep, i);
    KeptPlaces(Verdicts(p, start, times), keep, i);
    VerdictsAreVerdicts(p, start, times);
    VerdictsAreVerdicts(p, start, Kept(times, keep));
  }

  lemma OneMoreCall(p: Settings, start: int, times: seq<int>, now: int)
    ensures Verdicts(p, start, times + [now]) == Verdicts(p, start, times) + [Admits(p, After(p, start, times), now)]
    ensures After(p, start, times + [now]) == Next(p, After(p, start, times), now)
  {
    assert (times + [now])[..|times|] == times;
  }
}
