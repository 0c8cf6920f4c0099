/** The durations that the server derives from its settings, in 64-bit integer
    nanoseconds with wrap-around, and the heartbeat that they drive. */
module Timing {

  const MAX_INT64: int := 0x7FFF_FFFF_FFFF_FFFF
  const TWO_TO_64: int := 0x1_0000_0000_0000_0000
  const SECOND: int := 1_000_000_000

  function Wrap64(x: int): int {
    (x + MAX_INT64 + 1) % TWO_TO_64 - MAX_INT64 - 1
  }

  /** Integer division that truncates toward zero. */
  function Quotient(a: int, b: int): int
    requires b > 0
  {
    if a >= 0 then a / b else -((-a) / b)
  }

  /** The quotient is rounded toward zero: the remainder has the sign of `a`. */
  lemma QuotientTruncates(a: int, b: int)
    requires b > 0
    ensures var r := a - Quotient(a, b) * b; -b < r < b && (a >= 0 ==> r >= 0) && (a <= 0 ==> r <= 0)
  {
    if a >= 0 {
      assert a == a / b * b + a % b;
    } else {
      assert -a == (-a) / b * b + (-a) % b;
    }
  }

  lemma WrapFits(x: int)
    ensures -MAX_INT64 - 1 <= Wrap64(x) <= MAX_INT64
    ensures -MAX_INT64 - 1 <= x <= MAX_INT64 <==> Wrap64(x) == x
  {}

  /** A product that does not fit is off by at least one whole range. */
  lemma WrapMisses(x: int)
    requires x > MAX_INT64
    ensures Wrap64(x) <= x - TWO_TO_64
  {
    var y := x + MAX_INT64 + 1;
    assert y >= TWO_TO_64;
    assert y == y / TWO_TO_64 * TWO_TO_64 + y % TWO_TO_64;
    assert y / TWO_TO_64 >= 1;
  }

  // ---------- Shutdown ----------

  function DrainTimeout(shutdown: int): int {
    Quotient(Wrap64(shutdown * 8), 10)
  }

  function RemainingTimeout(shutdown: int): int {
    var rest := Wrap64(shutdown - DrainTimeout(shutdown));
    if rest <= 0 then SECOND else rest
  }

  lemma WrapSubtracts(x: int) returns (k: int)
    requires 0 <= x <= 8 * MAX_INT64
    ensures 0 <= k <= 4 && Wrap64(x) == x - k * TWO_TO_64
  {
    k := (x + MAX_INT64 + 1) / TWO_TO_64;
  }

  /** For every positive timeout, also where the product wraps, the drain and the
      remaining part add up to it and the one-second fallback is not taken; the
      drain is not negative as long as the product fits. */
  lemma ShutdownSplitsExactly(shutdown: int)
    requires 1 <= shutdown <= MAX_INT64
    ensures DrainTimeout(shutdown) + RemainingTimeout(shutdown) == shutdown
    ensures DrainTimeout(shutdown) < shutdown
    ensures Wrap64(shutdown - DrainTimeout(shutdown)) > 0
    ensures shutdown <= MAX_INT64 / 8 ==> DrainTimeout(shutdown) >= 0
  {
    var k := WrapSubtracts(shutdown * 8);
    WrapFits(shutdown * 8);
    WrapFits(shutdown - DrainTimeout(shutdown));
  }

  /** The drain is four fifths of the timeout, rounded down, exactly as long as
      the product fits; beyond that it is far too short or negative. */
  lemma DrainIsFourFifthsIffItFits(shutdown: int)
    requires 1 <= shutdown <= MAX_INT64
    ensures DrainTimeout(shutdown) == shutdown * 8 / 10 <==> shutdown <= MAX_INT64 / 8
  {
    if shutdown <= MAX_INT64 / 8 {
      WrapFits(shutdown * 8);
    } else {
      WrapMisses(shutdown * 8);
      QuotientBelow(Wrap64(shutdown * 8), shutdown * 8);
    }
  }

  lemma QuotientBelow(a: int, b: int)
    requires b > 0 && a <= b - TWO_TO_64
    ensures Quotient(a, 10) < b / 10
  {}

  // ---------- Heartbeat ----------

  function PingInterval(readTimeout: int): int {
    Quotient(Wrap64(readTimeout * 9), 10)
  }

  /** Pings come strictly faster than the read deadline for every timeout, and
      come at all exactly if the product, cut to 64 bits, is at least ten and
      not negative: for timeouts whose product fits, from two nanoseconds on. */
  lemma PingsBeatTheDeadline(readTimeout: int)
    requires 1 <= readTimeout <= MAX_INT64
    ensures PingInterval(readTimeout) < readTimeout
    ensures 0 < PingInterval(readTimeout) <==> 10 <= readTimeout * 9 % TWO_TO_64 <= MAX_INT64
    ensures readTimeout <= MAX_INT64 / 9 ==> (0 < PingInterval(readTimeout) <==> readTimeout >= 2)
  {
    WrapFits(readTimeout * 9);
    WrapIsResidue(readTimeout * 9);
  }

  lemma WrapIsResidue(x: int)
    ensures Wrap64(x) == if x % TWO_TO_64 <= MAX_INT64 then x % TWO_TO_64 else x % TWO_TO_64 - TWO_TO_64
  {
    var q, m := x / TWO_TO_64, x % TWO_TO_64;
    var y := m + MAX_INT64 + 1;
    assert x + MAX_INT64 + 1 == q * TWO_TO_64 + y;
    ModuloShift(q, y);
    if m > MAX_INT64 {
      ModuloShift(1, y - TWO_TO_64);
    }
  }

  lemma ModuloShift(q: int, y: int)
    ensures (q * TWO_TO_64 + y) % TWO_TO_64 == y % TWO_TO_64
  {
    var a, b := q * TWO_TO_64 + y, y;
    assert a == a / TWO_TO_64 * TWO_TO_64 + a % TWO_TO_64;
    assert b == b / TWO_TO_64 * TWO_TO_64 + b % TWO_TO_64;
    var d := a / TWO_TO_64 - q - b / TWO_TO_64;
    assert d * TWO_TO_64 == b % TWO_TO_64 - a % TWO_TO_64;
  }

  lemma PingIsNineTenthsIffItFits(readTimeout: int)
    requires 1 <= readTimeout <= MAX_INT64
    ensures PingInterval(readTimeout) == readTimeout * 9 / 10 <==> readTimeout <= MAX_INT64 / 9
  {
    if readTimeout <= MAX_INT64 / 9 {
      WrapFits(readTimeout * 9);
    } else {
      WrapMisses(readTimeout * 9);
      QuotientBelow(Wrap64(readTimeout * 9), readTimeout * 9);
    }
  }

  /** The read deadline at time t: every frame processed, data or pong, moves it
      to one read timeout later. The loop starts at time 0. */
  function Deadline(readTimeout: int, frames: seq<int>, t: int): int {
    if frames == [] then readTimeout
    else
      var earlier := Deadline(readTimeout, frames[..|frames| - 1], t);
      var last := frames[|frames| - 1];
      if last <= t && last + readTimeout > earlier then last + readTimeout else earlier
  }

  lemma {:induction false} FrameMovesDeadline(readTimeout: int, frames: seq<int>, t: int, i: nat)
    requires i < |frames| && frames[i] <= t
    ensures Deadline(readTimeout, frames, t) >= frames[i] + readTimeout
  {
    if i < |frames| - 1 {
      FrameMovesDeadline(readTimeout, frames[..|frames| - 1], t, i);
    }
  }

  /** The deadline is one read timeout after the last frame processed so far, or
      after the start if there was none. */
  lemma {:induction false} DeadlineFollowsLastFrame(readTimeout: int, frames: seq<int>, t: int)
    requires readTimeout > 0
    ensures var d := Deadline(readTimeout, frames, t);
            && (d == readTimeout || exists i :: 0 <= i < |frames| && frames[i] <= t && d == frames[i] + readTimeout)
            && d >= readTimeout
            && (forall i :: 0 <= i < |frames| && frames[i] <= t ==> frames[i] + readTimeout <= d)
  {
    if frames != [] {
      var before := frames[..|frames| - 1];
      DeadlineFollowsLastFrame(readTimeout, before, t);
      if i :| 0 <= i < |before| && before[i] <= t && Deadline(readTimeout, before, t) == before[i] + readTimeout {
        assert frames[i] == before[i];
      }
      assert frames[|frames| - 1] <= t ==>
          exists i :: 0 <= i < |frames| && frames[i] <= t && frames[i] == frames[|frames| - 1];
      forall i | 0 <= i < |frames| && frames[i] <= t
        ensures frames[i] + readTimeout <= Deadline(readTimeout, frames, t)
      {
        assert i < |before| ==> before[i] == frames[i];
      }
    }
  }

  /** The pong to ping number k, sent at k times the interval, is processed less
      than the slack after it. */
  ghost predicate PongIn(ping: int, slack: int, frames: seq<int>, k: int) {
    exists i :: 0 <= i < |frames| && k * ping <= frames[i] < k * ping + slack
  }

  /** A peer whose pongs are processed within the slack between ping interval
      and read timeout never lets the read deadline pass. */
  lemma ResponsivePeerNeverTimesOut(readTimeout: int, frames: seq<int>, t: int)
    requires 1 <= readTimeout <= MAX_INT64 && PingInterval(readTimeout) > 0 && t >= 0
    requires var ping := PingInterval(readTimeout);
             forall k :: 1 <= k && k * ping <= t ==> PongIn(ping, readTimeout - ping, frames, k)
    ensures t < Deadline(readTimeout, frames, t)
  {
    PingsBeatTheDeadline(readTimeout);
    PongsKeepDeadlineAhead(readTimeout, PingInterval(readTimeout), frames, t);
  }

  lemma PongsKeepDeadlineAhead(readTimeout: int, ping: int, frames: seq<int>, t: int)
    requires 0 < ping < readTimeout && t >= 0
    requires forall k :: 1 <= k && k * ping <= t ==> PongIn(ping, readTimeout - ping, frames, k)
    ensures t < Deadline(readTimeout, frames, t)
  {
    var slack := readTimeout - ping;
    DeadlineStartsLate(readTimeout, frames, t);
    if t >= readTimeout {
      var k := LastPingAnswered(t - slack, ping);
      assert PongIn(ping, slack, frames, k);
      var i :| 0 <= i < |frames| && k * ping <= frames[i] < k * ping + slack;
      FrameMovesDeadline(readTimeout, frames, t, i);
    }
  }

  lemma LastPingAnswered(t: int, ping: int) returns (k: int)
    requires t >= ping > 0
    ensures k >= 1 && k * ping <= t < k * ping + ping
  {
    k := t / ping;
  }

  lemma {:induction false} DeadlineStartsLate(readTimeout: int, frames: seq<int>, t: int)
    ensures Deadline(readTimeout, frames, t) >= readTimeout
  {
    if frames != [] {
      DeadlineStartsLate(readTimeout, frames[..|frames| - 1], t);
    }
  }
}
