/**
  The face table of the die and the wiring that turns a PORTB value into lit
  LEDs.  Four output pins drive seven LEDs: PB0 drives the centre LED alone,
  and each of PB1, PB2 and PB3 drives a pair of LEDs that sit opposite each
  other on the die.
 */
module Faces {
  import opened PipCounter

  /** PORTB values that show the faces 1 to 6, indexed by the pip counter
      (face value minus one). */
  const Matrix: seq<bv8> := [0x31, 0x34, 0x33, 0x36, 0x37, 0x3E]

  /** Bits 4 and 5 of PORTB: the pull-up of the button input PB4, and of PB5. */
  const PullUps: bv8 := 0x30

  /** The pattern shown for a pip counter value.  The counter never leaves
      0..5, so the lookup is always in bounds. */
  function Face(pips: UInt8): (pattern: bv8)
    requires pips <= 5
    ensures pattern in Matrix
    ensures pattern & PullUps == PullUps
    ensures pattern & 0xC0 == 0
  {
    Matrix[pips]
  }

  /** The LEDs (numbered 1 to 7 as on the board) wired to output pin PB<pin>. */
  function PinLeds(pin: nat): (leds: set<nat>)
  {
    if pin == 0 then {7}
    else if pin == 1 then {3, 6}
    else if pin == 2 then {1, 4}
    else if pin == 3 then {2, 5}
    else {}
  }

  /** The LEDs lit while PORTB holds `portb`.  Only PB0 to PB3 are outputs;
      the upper bits are pull-ups or unused and light nothing. */
  function LedsLit(portb: bv8): (leds: set<nat>)
    ensures leds <= {1, 2, 3, 4, 5, 6, 7}
    ensures 7 in leds <==> portb & 0x01 != 0
  {
    (if portb & 0x01 != 0 then PinLeds(0) else {}) +
    (if portb & 0x02 != 0 then PinLeds(1) else {}) +
    (if portb & 0x04 != 0 then PinLeds(2) else {}) +
    (if portb & 0x08 != 0 then PinLeds(3) else {})
  }

  /** A place on the 3 x 3 grid of the die, row 0 at the top, column 0 at the left. */
  datatype Spot = Spot(row: int, col: int)

  const Centre: Spot := Spot(1, 1)

  /** Where each LED sits on the die, as the board drawing shows:
      LED1 and LED6 in the top row, LED2, LED7 and LED5 in the middle row,
      LED3 and LED4 in the bottom row. */
  function Place(led: nat): (spot: Spot)
  {
    match led
    case 1 => Spot(0, 0)
    case 6 => Spot(0, 2)
    case 2 => Spot(1, 0)
    case 5 => Spot(1, 2)
    case 3 => Spot(2, 0)
    case 4 => Spot(2, 2)
    case _ => Centre
  }

  /** The same place after turning the die by half a turn. */
  function HalfTurn(s: Spot): (turned: Spot)
  {
    Spot(2 - s.row, 2 - s.col)
  }

  function Spots(leds: set<nat>): (spots: set<Spot>)
  {
    set led | led in leds :: Place(led)
  }

  /** Only PB0 to PB3 drive LEDs, PB0 alone drives the centre LED, and each
      of the seven LEDs is driven by exactly one pin. */
  lemma PinWiring(pin: nat, led: nat)
    requires 1 <= led <= 7
    ensures PinLeds(pin) <= {1, 2, 3, 4, 5, 6, 7}
    ensures pin > 3 ==> PinLeds(pin) == {}
    ensures 7 in PinLeds(pin) <==> pin == 0
    ensures exists p :: p <= 3 && led in PinLeds(p)
    ensures forall p, q :: led in PinLeds(p) && led in PinLeds(q) ==> p == q
  {
    if led == 7 {
      assert led in PinLeds(0);
    } else if led == 3 || led == 6 {
      assert led in PinLeds(1);
    } else if led == 1 || led == 4 {
      assert led in PinLeds(2);
    } else {
      assert led in PinLeds(3);
    }
  }

  /** No two LEDs of the board share a place on the die. */
  lemma LedPlacesDistinct(a: nat, b: nat)
    requires 1 <= a <= 7 && 1 <= b <= 7
    ensures Place(a) == Place(b) <==> a == b
  {
  }

  /** Each of PB1, PB2 and PB3 drives two LEDs that sit opposite each other,
      off the centre. */
  lemma PinPairOpposite(pin: nat)
    requires 1 <= pin <= 3
    ensures |PinLeds(pin)| == 2
    ensures forall led :: led in PinLeds(pin) ==>
              Place(led) != Centre && HalfTurn(Place(led)) in Spots(PinLeds(pin))
  {
  }

  /** What a face showing `n` pips looks like on a real die: `n` spots, the
      centre spot exactly when `n` is odd, and the same picture after half a
      turn. */
  ghost predicate IsDieFace(spots: set<Spot>, n: nat)
  {
    && |spots| == n
    && (Centre in spots <==> n % 2 == 1)
    && (forall s :: s in spots ==> HalfTurn(s) in spots)
  }

  /** The LEDs each table entry lights, spelled out pin by pin. */
  lemma {:induction false} FaceLeds(k: nat)
    requires k < |Matrix|
    ensures k == 0 ==> LedsLit(Matrix[k]) == {7}
    ensures k == 1 ==> LedsLit(Matrix[k]) == {1, 4}
    ensures k == 2 ==> LedsLit(Matrix[k]) == {3, 6, 7}
    ensures k == 3 ==> LedsLit(Matrix[k]) == {1, 3, 4, 6}
    ensures k == 4 ==> LedsLit(Matrix[k]) == {1, 3, 4, 6, 7}
    ensures k == 5 ==> LedsLit(Matrix[k]) == {1, 2, 3, 4, 5, 6}
  {
    if k == 0 {
      assert LedsLit(0x31) == PinLeds(0);
    } else if k == 1 {
      assert LedsLit(0x34) == PinLeds(2);
    } else if k == 2 {
      assert LedsLit(0x33) == PinLeds(0) + PinLeds(1);
    } else if k == 3 {
      assert LedsLit(0x36) == PinLeds(1) + PinLeds(2);
    } else if k == 4 {
      assert LedsLit(0x37) == PinLeds(0) + PinLeds(1) + PinLeds(2);
    } else {
      assert LedsLit(0x3E) == PinLeds(1) + PinLeds(2) + PinLeds(3);
    }
  }

  /** Entry k of the table lights exactly k + 1 LEDs. */
  lemma {:induction false} FaceLedCount(k: nat)
    requires k < |Matrix|
    ensures |LedsLit(Matrix[k])| == k + 1
  {
    FaceLeds(k);
    LedSetSizes(LedsLit(Matrix[k]), k);
  }

  lemma LedSetSizes(leds: set<nat>, k: nat)
    requires k < 6
    requires k == 0 ==> leds == {7}
    requires k == 1 ==> leds == {1, 4}
    requires k == 2 ==> leds == {3, 6, 7}
    requires k == 3 ==> leds == {1, 3, 4, 6}
    requires k == 4 ==> leds == {1, 3, 4, 6, 7}
    requires k == 5 ==> leds == {1, 2, 3, 4, 5, 6}
    ensures |leds| == k + 1
  {
  }

  /** The spots each table entry lights on the die. */
  lemma {:induction false} FaceSpots(k: nat)
    requires k < |Matrix|
    ensures k == 0 ==> Spots(LedsLit(Matrix[k])) == {Centre}
    ensures k == 1 ==> Spots(LedsLit(Matrix[k])) == {Spot(0, 0), Spot(2, 2)}
    ensures k == 2 ==> Spots(LedsLit(Matrix[k])) == {Spot(2, 0), Spot(0, 2), Centre}
    ensures k == 3 ==> Spots(LedsLit(Matrix[k])) == {Spot(0, 0), Spot(2, 0), Spot(2, 2), Spot(0, 2)}
    ensures k == 4 ==> Spots(LedsLit(Matrix[k])) == {Spot(0, 0), Spot(2, 0), Spot(2, 2), Spot(0, 2), Centre}
    ensures k == 5 ==> Spots(LedsLit(Matrix[k])) ==
                       {Spot(0, 0), Spot(1, 0), Spot(2, 0), Spot(2, 2), Spot(1, 2), Spot(0, 2)}
  {
    FaceLeds(k);
  }

  /** Entry k of the table shows the picture of face k + 1 of a die. */
  lemma {:induction false} FaceIsDieFace(k: nat)
    requires k < |Matrix|
    ensures IsDieFace(Spots(LedsLit(Matrix[k])), k + 1)
  {
    FaceSpots(k);
    if k == 0 {
      DieFaceOne();
    } else if k == 1 {
      DieFaceTwo();
    } else if k == 2 {
      DieFaceThree();
    } else if k == 3 {
      DieFaceFour();
    } else if k == 4 {
      DieFaceFive();
    } else {
      DieFaceSix();
    }
  }

  lemma DieFaceOne() ensures IsDieFace({Centre}, 1) {}
  lemma DieFaceTwo() ensures IsDieFace({Spot(0, 0), Spot(2, 2)}, 2) {}
  lemma DieFaceThree() ensures IsDieFace({Spot(2, 0), Spot(0, 2), Centre}, 3) {}
  lemma DieFaceFour() ensures IsDieFace({Spot(0, 0), Spot(2, 0), Spot(2, 2), Spot(0, 2)}, 4) {}
  lemma DieFaceFive() ensures IsDieFace({Spot(0, 0), Spot(2, 0), Spot(2, 2), Spot(0, 2), Centre}, 5) {}
  lemma DieFaceSix() ensures IsDieFace({Spot(0, 0), Spot(1, 0), Spot(2, 0), Spot(2, 2), Spot(1, 2), Spot(0, 2)}, 6) {}
}
