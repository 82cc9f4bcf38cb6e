/**
  The pip counter: an eight-bit global that the Timer0 overflow interrupt
  advances on every overflow, wrapping from 5 back to 0.  The main loop only
  reads it, so what matters is where it stands after some number of
  overflows.
 */
module PipCounter {

  /** An eight-bit unsigned value held as an integer; wrap-around is written
      out where the firmware's arithmetic can wrap. */
  newtype UInt8 = x: int | 0 <= x < 0x100

  /** What one Timer0 overflow does to the counter: an eight-bit pre-increment,
      then back to 0 if that passed 5.  Whatever the start value (even one
      the firmware never produces), the counter lands in 0..5. */
  function Next(pips: UInt8): (next: UInt8)
    ensures next <= 5
    ensures pips < 5 ==> next == pips + 1
    ensures pips >= 5 ==> next == 0
  {
    var incremented := ((pips as int + 1) % 0x100) as UInt8;
    if incremented > 5 then 0 else incremented
  }

  /** The counter after `n` overflows. */
  function Ticks(pips: UInt8, n: nat): (after: UInt8)
    ensures pips <= 5 || n > 0 ==> after <= 5
  {
    if n == 0 then pips else Next(Ticks(pips, n - 1))
  }

  /** From a value in 0..5, `n` overflows move the counter `n` steps round
      the cycle 0, 1, ..., 5, 0, ... */
  lemma {:induction false} TicksModSix(pips: UInt8, n: nat)
    requires pips <= 5
    ensures Ticks(pips, n) as int == (pips as int + n) % 6
  {
    if n > 0 {
      TicksModSix(pips, n - 1);
      ModSixStep(pips as int + n - 1);
    }
  }

  lemma ModSixStep(x: nat)
    ensures (x + 1) % 6 == if x % 6 < 5 then x % 6 + 1 else 0
  {
  }

  /** Started at 0, as the firmware starts it, the counter holds n mod 6
      after n overflows. */
  lemma {:induction false} TicksFromZero(n: nat)
    ensures Ticks(0, n) as int == n % 6
  {
    TicksModSix(0, n);
  }

  /** Six overflows bring the counter back to where it was. */
  lemma {:induction false} SixTicksCycle(pips: UInt8)
    requires pips <= 5
    ensures Ticks(pips, 6) == pips
  {
    TicksModSix(pips, 6);
  }

  /** Overflows compose: m overflows followed by n more are m + n overflows. */
  lemma {:induction false} TicksAdd(pips: UInt8, m: nat, n: nat)
    ensures Ticks(Ticks(pips, m), n) == Ticks(pips, m + n)
  {
    if n > 0 {
      TicksAdd(pips, m, n - 1);
    }
  }
}
