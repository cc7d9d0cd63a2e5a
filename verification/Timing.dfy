/** Timer values, deadlines on a virtual clock, and the retransmission schedules. */
module Timing {
  import opened Text
  import opened Wrappers

  /** T1, T2 and T4 in nanoseconds, and whether the transport resends by itself. */
  datatype Timers = Timers(t1: nat, t2: nat, t4: nat, reliable: bool)

  predicate Sane(c: Timers) { 0 < c.t1 <= c.t2 }

  /** The values the package starts with: 500 ms, 4 s and 5 s. */
  const MILLISECOND: nat := 1_000_000
  const TIMER_D: nat := 32_000 * MILLISECOND

  predicate IsReliable(proto: string) { ToUpper(proto) in {"TCP", "SCTP", "TLS"} }

  function DefaultTimers(proto: string): Timers {
    Timers(500 * MILLISECOND, 4_000 * MILLISECOND, 5_000 * MILLISECOND, IsReliable(proto))
  }

  /** A retransmission timer: when it fires next and the interval its callback remembers. */
  datatype Pulse = Pulse(due: nat, interval: nat)

  /** Why a message was written. */
  datatype Cause = First | User | Replay | Timer | Ack

  /** One write to the transport. */
  datatype Sent<T> = Sent(at: nat, msg: T, cause: Cause)

  predicate Clear(deadline: Option<nat>, to: nat) { deadline.Some? ==> to <= deadline.value }

  predicate PulseClear(p: Option<Pulse>, to: nat) { p.Some? ==> to <= p.value.due }

  predicate Due(deadline: Option<nat>, now: nat) { deadline.Some? && deadline.value <= now }

  predicate PulseDue(p: Option<Pulse>, now: nat) { p.Some? && p.value.due <= now }

  function Min(a: nat, b: nat): nat { if a <= b then a else b }

  /** Interval after `n` expiries when the interval doubles up to T2. */
  function CappedInterval(c: Timers, n: nat): nat {
    if n == 0 then c.t1 else Min(2 * CappedInterval(c, n - 1), c.t2)
  }

  /** Offset of the `n`-th expiry of such a timer. */
  function CappedOffset(c: Timers, n: nat): nat {
    if n == 0 then 0 else CappedOffset(c, n - 1) + CappedInterval(c, n - 1)
  }

  function Pow2(n: nat): (r: nat)
    ensures r >= 1
  {
    if n == 0 then 1 else 2 * Pow2(n - 1)
  }

  /** The same for an interval that doubles without a cap. */
  function DoubledInterval(c: Timers, n: nat): nat {
    if n == 0 then c.t1 else 2 * DoubledInterval(c, n - 1)
  }

  function DoubledOffset(c: Timers, n: nat): nat {
    if n == 0 then 0 else DoubledOffset(c, n - 1) + DoubledInterval(c, n - 1)
  }

  lemma {:induction false} DoubledClosedForm(c: Timers, n: nat)
    ensures DoubledInterval(c, n) == Pow2(n) * c.t1 && DoubledOffset(c, n) == (Pow2(n) - 1) * c.t1
  {
    if n > 0 {
      DoubledClosedForm(c, n - 1);
      Doubling(Pow2(n - 1), c.t1);
    }
  }

  lemma Doubling(a: int, b: int)
    ensures 2 * (a * b) == 2 * a * b && (a - 1) * b + a * b == (2 * a - 1) * b
  {}

  lemma {:induction false} DoubledGrows(c: Timers, n: nat, m: nat)
    requires n <= m
    ensures DoubledOffset(c, n) <= DoubledOffset(c, m)
    decreases m
  {
    if n < m { DoubledGrows(c, n, m - 1); }
  }

  /** 64*T1 leaves room for exactly six doubling expiries. */
  lemma SixFit(c: Timers, n: nat)
    requires c.t1 > 0
    ensures if n <= 6 then DoubledOffset(c, n) <= 63 * c.t1 else 127 * c.t1 <= DoubledOffset(c, n)
  {
    DoubledClosedForm(c, 6);
    DoubledClosedForm(c, 7);
    assert Pow2(6) == 64 && Pow2(7) == 128 by { assert Pow2(3) == 8; assert Pow2(5) == 32; }
    if n <= 6 { DoubledGrows(c, n, 6); } else { DoubledGrows(c, 7, n); }
  }

  lemma {:induction false} OffsetGrows(c: Timers, n: nat, m: nat)
    requires n <= m
    ensures CappedOffset(c, n) <= CappedOffset(c, m)
    decreases m
  {
    if n < m { OffsetGrows(c, n, m - 1); }
  }

  lemma FirstThree(c: Timers)
    requires Sane(c) && c.t2 == 8 * c.t1
    ensures CappedInterval(c, 3) == 8 * c.t1 && CappedOffset(c, 3) == 7 * c.t1
  {
    assert CappedInterval(c, 0) == c.t1 && CappedInterval(c, 1) == 2 * c.t1 && CappedInterval(c, 2) == 4 * c.t1;
    assert CappedOffset(c, 1) == c.t1;
    assert CappedOffset(c, 2) == 3 * c.t1;
  }

  lemma {:induction false} OffsetFromThree(c: Timers, n: nat)
    requires Sane(c) && c.t2 == 8 * c.t1 && n >= 3
    ensures CappedInterval(c, n) == 8 * c.t1 && CappedOffset(c, n) == 8 * (n - 3) * c.t1 + 7 * c.t1
  {
    if n == 3 {
      FirstThree(c);
    } else {
      OffsetFromThree(c, n - 1);
      NextEight(n - 3, c.t1);
    }
  }

  lemma NextEight(m: int, t: int)
    ensures 8 * m * t == 8 * (m - 1) * t + 8 * t
  {}

  /** With T2 = 8*T1 the tenth expiry comes at 63*T1 and the eleventh at 71*T1. */
  lemma OffsetsAtEight(c: Timers)
    requires Sane(c) && c.t2 == 8 * c.t1
    ensures CappedOffset(c, 10) == 63 * c.t1 && CappedOffset(c, 11) == 71 * c.t1
  {
    OffsetFromThree(c, 10);
    OffsetFromThree(c, 11);
  }

  /** So 64*T1 leaves room for exactly ten expiries. */
  lemma TenFit(c: Timers, n: nat)
    requires Sane(c) && c.t2 == 8 * c.t1
    ensures if n <= 10 then CappedOffset(c, n) <= 63 * c.t1 else 71 * c.t1 <= CappedOffset(c, n)
  {
    OffsetsAtEight(c);
    if n <= 10 { OffsetGrows(c, n, 10); } else { OffsetGrows(c, 11, n); }
  }
}
