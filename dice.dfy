/**
  The firmware's main loop around the pip counter and the face table.
  Interrupts are not modelled as preemption: the Timer0 overflows that happen
  before each face of a roll is shown are given as an explicit list of counts,
  and each overflow is one call of `Tick`.  The button is given as the PINB
  values the loop reads, and `_delay_ms` adds to a millisecond counter.
 */
module TinyDice {
  import opened Faces
  import opened PipCounter
  import opened RollTiming

  /** PINB bit of the button, PB4.  The button pulls it low when pressed. */
  const ButtonBit: bv8 := 0x10

  /** The main loop's button test: the complement of PINB masked with the
      button bit, which is non-zero exactly when PB4 reads low. */
  function ButtonPressed(pinb: bv8): (pressed: bool)
    ensures pressed <==> pinb & ButtonBit == 0
  {
    (!pinb) & ButtonBit != 0
  }

  /** Total number of overflows in a list of counts. */
  function Sum(ticks: seq<nat>): (total: nat)
  {
    if ticks == [] then 0 else Sum(ticks[..|ticks| - 1]) + ticks[|ticks| - 1]
  }

  /** The faces a roll shows, in order, when `ticks[j]` overflows happen
      before the j-th face is read off the pip counter. */
  function Shows(pips: UInt8, ticks: seq<nat>): (faces: seq<bv8>)
    requires pips <= 5
    ensures |faces| == |ticks|
  {
    if ticks == [] then []
    else Shows(pips, ticks[..|ticks| - 1]) + [Face(Ticks(pips, Sum(ticks)))]
  }

  /** One more step of a roll: the counter moves on by that step's
      overflows, and one face, that of the counter then, is added to those
      shown. */
  lemma Snoc(pips: UInt8, ticks: seq<nat>, next: nat)
    requires pips <= 5
    ensures Ticks(Ticks(pips, Sum(ticks)), next) == Ticks(pips, Sum(ticks + [next]))
    ensures Shows(pips, ticks + [next]) == Shows(pips, ticks) + [Face(Ticks(pips, Sum(ticks + [next])))]
  {
    var all, sum := ticks + [next], Sum(ticks);
    assert all[..|all| - 1] == ticks;
    assert Sum(all) == sum + next;
    TicksAdd(pips, sum, next);
  }

  lemma PrefixNext(ticks: seq<nat>, i: nat)
    requires i < |ticks|
    ensures ticks[..i] + [ticks[i]] == ticks[..i + 1]
  {
  }

  lemma WholePrefix(ticks: seq<nat>)
    ensures ticks[..|ticks|] == ticks
  {
  }

  /** The j-th face of a roll is the face of the counter after all the
      overflows counted up to and including step j. */
  lemma {:induction false} ShowsAt(pips: UInt8, ticks: seq<nat>, j: nat)
    requires pips <= 5
    requires j < |ticks|
    ensures Shows(pips, ticks)[j] == Face(Ticks(pips, Sum(ticks[..j + 1])))
  {
    var init := ticks[..|ticks| - 1];
    if j < |init| {
      ShowsAt(pips, init, j);
      assert init[..j + 1] == ticks[..j + 1];
    } else {
      WholePrefix(ticks);
    }
  }

  /** Every face a roll shows is an entry of the table. */
  lemma {:induction false} ShowsAreFaces(pips: UInt8, ticks: seq<nat>)
    requires pips <= 5
    ensures forall j :: 0 <= j < |ticks| ==> Shows(pips, ticks)[j] in Matrix
  {
    forall j | 0 <= j < |ticks|
      ensures Shows(pips, ticks)[j] in Matrix
    {
      ShowsAt(pips, ticks, j);
    }
  }

  /** The face a roll settles on depends only on where the counter started
      and on how many overflows happened in all, counted modulo 6. */
  lemma {:induction false} RollOutcome(pips: UInt8, ticks: seq<nat>)
    requires pips <= 5
    requires ticks != []
    ensures Shows(pips, ticks)[|ticks| - 1] == Matrix[(pips as int + Sum(ticks)) % 6]
  {
    var last := Ticks(pips, Sum(ticks));
    assert Shows(pips, ticks)[|ticks| - 1] == Face(last);
    TicksModSix(pips, Sum(ticks));
  }

  /** The busy wait after a roll: polls PINB until the button reads
      released.  `pinb` holds the successive reads; `polls` is how many of
      them still read pressed.  If all of them do, the wait has not ended
      within them. */
  method WaitForRelease(pinb: seq<bv8>) returns (released: bool, polls: nat)
    ensures polls <= |pinb|
    ensures forall k :: 0 <= k < polls ==> ButtonPressed(pinb[k])
    ensures released <==> polls < |pinb|
    ensures released ==> !ButtonPressed(pinb[polls])
  {
    polls := 0;
    while polls < |pinb| && ButtonPressed(pinb[polls])
      invariant polls <= |pinb|
      invariant forall k :: 0 <= k < polls ==> ButtonPressed(pinb[k])
    {
      polls := polls + 1;
    }
    released := polls < |pinb|;
  }

  /** Contact-bounce delay after the button is released, in milliseconds. */
  const DebounceMs: nat := 10

  /** Decrementing a non-zero eight-bit value does not wrap. */
  lemma Decrement(d: bv8)
    requires d != 0
    ensures (d - 1) as int == d as int - 1
  {
  }

  /** How one pass of the main loop ended: the wake-up was not a press; the
      button was still held at the last PINB read; or it was released, the
      debounce delay passed and the loop is ready for the next press. */
  datatype PassEnd = NotPressed | StillHeld | Rearmed

  /** The firmware's state: the pip counter, the PORTB output register, every
      value written to PORTB since power-on (the setup write included), and
      the milliseconds spent in `_delay_ms`. */
  class Die {
    var pips: UInt8
    var portb: bv8
    ghost var shown: seq<bv8>
    var elapsed: nat

    /** The counter is in 0..5 and PORTB shows a face. */
    ghost predicate Valid()
      reads this
    {
      pips <= 5 && portb in Matrix
    }

    /** Power-on: the counter starts at 0 and PORTB at 0x31, which is the
        pattern of face 1 (the centre LED lit, pull-ups on). */
    constructor ()
      ensures Valid()
      ensures pips == 0 && portb == 0x31 && portb == Face(0)
      ensures shown == [0x31] && elapsed == 0
    {
      pips := 0;
      portb := 0x31;
      shown := [portb];
      elapsed := 0;
    }

    /** The Timer0 overflow interrupt. */
    method Tick()
      modifies this`pips
      ensures pips == Next(old(pips))
    {
      pips := ((pips as int + 1) % 0x100) as UInt8;
      if pips > 5 {
        pips := 0;
      }
    }

    /** `n` Timer0 overflows in a row. */
    method Interrupts(n: nat)
      modifies this`pips
      ensures pips == Ticks(old(pips), n)
    {
      var k := 0;
      while k < n
        invariant k <= n
        invariant pips == Ticks(old(pips), k)
      {
        Tick();
        k := k + 1;
      }
    }

    /** A busy-wait of `ms` milliseconds. */
    method DelayMs(ms: nat)
      modifies this`elapsed
      ensures elapsed == old(elapsed) + ms
    {
      elapsed := elapsed + ms;
    }

    /** The countdown of a roll step: tests `del`, decrements it (after the
        test, wrapping at the final test) and waits one millisecond while the
        tested value was non-zero; this makes exactly `del` waits. */
    method CountDown(del: bv8)
      modifies this`elapsed
      ensures elapsed == old(elapsed) + del as int
    {
      var d := del;
      while d != 0
        invariant d <= del
        invariant elapsed + d as int == old(elapsed) + del as int
      {
        Decrement(d);
        d := d - 1;
        DelayMs(1);
      }
      // The post-decrement of the test that ends the loop wraps `d` to 255;
      // `d` is not read again.
    }

    /** One step of a roll: `ticks` overflows happen, the step's delay is
        counted down, and PORTB is set to the face of the counter as it then
        stands. */
    method RollStep(i: nat, ticks: nat)
      requires pips <= 5
      requires i < Steps
      modifies this
      ensures pips == Ticks(old(pips), ticks)
      ensures portb == Face(pips)
      ensures shown == old(shown) + [portb]
      ensures elapsed == old(elapsed) + 16 * i
    {
      Interrupts(ticks);
      var del := StepDelay(i as bv8);
      StepDelayAt(i);
      CountDown(del);
      portb := Matrix[pips];
      shown := shown + [portb];
    }

    /** Rolls the die: sixteen steps of growing delay, each showing the face
        of the counter as it stands after `ticksBefore[i]` more overflows.
        PORTB is written sixteen times and keeps the face the counter held at
        the last step. */
    method Roll(ticksBefore: seq<nat>)
      requires Valid()
      requires |ticksBefore| == Steps
      modifies this
      ensures Valid()
      ensures pips == Ticks(old(pips), Sum(ticksBefore))
      ensures shown == old(shown) + Shows(old(pips), ticksBefore)
      ensures portb == Face(pips)
      ensures elapsed == old(elapsed) + 1920
    {
      ghost var start, shownBefore, elapsedBefore := pips, shown, elapsed;
      ghost var done: seq<nat> := [];
      for i := 0 to Steps
        invariant done == ticksBefore[..i]
        invariant Valid()
        invariant pips == Ticks(start, Sum(done))
        invariant shown == shownBefore + Shows(start, done)
        invariant i > 0 ==> portb == Face(pips)
        invariant elapsed == elapsedBefore + TotalDelay(i)
      {
        RollStep(i, ticksBefore[i]);
        Snoc(start, done, ticksBefore[i]);
        assert shown == shownBefore + (Shows(start, done) + [portb]);
        TotalDelayStep(i);
        PrefixNext(ticksBefore, i);
        done := done + [ticksBefore[i]];
      }
      WholePrefix(ticksBefore);
      RollDuration();
    }

    /** One pass of the main loop after the processor wakes: `wake` is the
        PINB value read on waking, `ticksBefore` the overflows before each
        step of the roll, and `pinb` the PINB values the release wait reads.
        A roll runs only on a press; after it nothing writes PORTB, the loop
        stays in the release wait while the button reads pressed, and the
        debounce delay follows the first released read. */
    method Pass(wake: bv8, ticksBefore: seq<nat>, pinb: seq<bv8>) returns (end: PassEnd)
      requires Valid()
      requires |ticksBefore| == Steps
      modifies this
      ensures Valid()
      ensures end == NotPressed <==> !ButtonPressed(wake)
      ensures end == NotPressed ==>
                pips == old(pips) && portb == old(portb) && shown == old(shown) && elapsed == old(elapsed)
      ensures end != NotPressed ==>
                && pips == Ticks(old(pips), Sum(ticksBefore))
                && shown == old(shown) + Shows(old(pips), ticksBefore)
                && portb == Face(pips)
      ensures end == StillHeld <==>
                ButtonPressed(wake) && forall k :: 0 <= k < |pinb| ==> ButtonPressed(pinb[k])
      ensures end == StillHeld ==> elapsed == old(elapsed) + 1920
      ensures end == Rearmed ==> elapsed == old(elapsed) + 1920 + DebounceMs
    {
      if ButtonPressed(wake) {
        Roll(ticksBefore);
        var released, polls := WaitForRelease(pinb);
        if released {
          DelayMs(DebounceMs);
          end := Rearmed;
        } else {
          end := StillHeld;
        }
      } else {
        end := NotPressed;
      }
    }
  }

  /** While the firmware's state is valid, PORTB keeps the pull-up of the
      button input on. */
  lemma PullUpKept(die: Die)
    requires die.Valid()
    ensures die.portb & PullUps == PullUps
  {
    var k :| 0 <= k < |Matrix| && Matrix[k] == die.portb;
    assert Face(k as UInt8) == die.portb;
  }
}
