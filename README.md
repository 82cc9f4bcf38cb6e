# tinyDice: a model of the electronic die firmware

The firmware runs on an ATtiny13A. It drives seven LEDs, laid out as a die
face, from four output pins. A Timer0 overflow interrupt keeps advancing a
pip counter round 0..5, fast enough that a user cannot predict it. When the
button on PB4 is pressed, the main loop rolls the die. A roll shows the
counter's current face sixteen times, with a longer delay before each step,
and the face shown last stays lit. The loop then waits for the button to be
released and waits 10 ms against contact bounce.

The model has four modules:

- `PipCounter` (`pip_counter.dfy`): the interrupt's effect on the counter as
  the function `Next`, `n` overflows as `Ticks`, and lemmas saying where the
  counter stands after any number of overflows.
- `Faces` (`faces.dfy`): the six-entry face table, the pinout (which LEDs
  each output pin lights), and the die layout (where each LED sits). Lemmas
  prove that entry k lights k + 1 LEDs and that each entry looks like a real
  die face.
- `RollTiming` (`roll_timing.dfy`): the eight-bit delay `i << 4` of each roll
  step and the total time a roll waits.
- `TinyDice` (`dice.dfy`): the class `Die`, whose fields are the counter,
  PORTB, a ghost history of every PORTB write from power-on, and a
  millisecond counter.
  Its methods are the interrupt (`Tick`), the delay countdown, the roll, the
  release wait and one pass of the main loop. The functions `Sum` and
  `Shows` specify what a roll shows.

Interrupts are not modelled as preemption. A roll takes a list
`ticksBefore`: entry i is how many Timer0 overflows happen before step i
reads the counter. Each overflow is one call of `Tick`. The button is
modelled by the PINB values the loop reads. `_delay_ms` adds to a
millisecond counter.

A roll's delays add up to 16 · (0 + 1 + … + 15) = 1920 ms
(`RollTiming.RollDuration`).

## Model

| member | source | states |
|---|---|---|
| `PipCounter.Next` | software/sources/main.c:86 | one overflow leaves the counter in 0..5: one higher if it was below 5, otherwise 0 (this includes values the eight-bit increment would wrap) |
| `PipCounter.Ticks` | software/sources/main.c:85-87 | after at least one overflow, or from a value in 0..5, the counter is in 0..5 |
| `PipCounter.TicksModSix` | software/sources/main.c:86 | from p in 0..5, n overflows leave the counter at (p + n) mod 6 |
| `PipCounter.TicksFromZero` | software/sources/main.c:38 | from the initial 0, n overflows leave the counter at n mod 6 |
| `PipCounter.SixTicksCycle` | software/sources/main.c:86 | six overflows bring the counter back to its start value |
| `PipCounter.TicksAdd` | software/sources/main.c:85-87 | m overflows then n more leave the counter where m + n overflows do |
| `Faces.Face` | software/sources/main.c:43-48 | for a counter value in 0..5 the lookup is in bounds; the pattern is a table entry; it has the PB4/PB5 pull-up bits (0x30) set and bits 6-7 clear |
| `Faces.PinWiring` | software/sources/main.c:9-11 | the wiring `PinLeds` encodes (PB0 LED7, PB1 LED3/6, PB2 LED1/4, PB3 LED2/5): only PB0-PB3 drive LEDs, only PB0 drives LED7, and each LED is driven by exactly one pin |
| `Faces.LedsLit` | software/sources/main.c:9-11 | the union of `PinLeds` over the set bits PB0-PB3: only PB0-PB3 light LEDs, all of them among LED1-LED7; LED7 is lit exactly when PB0 is set |
| `Faces.FaceLeds` | software/sources/main.c:43-48 | the LED set each table entry lights, derived from the pinout |
| `Faces.FaceLedCount` | software/sources/main.c:43-48 | entry k of the table lights exactly k + 1 LEDs |
| `Faces.LedPlacesDistinct` | software/sources/main.c:14-20 | `Place` puts the seven LEDs of the board drawing (LED1 and LED6 top, LED2, LED7 and LED5 middle, LED3 and LED4 bottom) on seven different spots of the 3 x 3 grid |
| `Faces.PinPairOpposite` | software/sources/main.c:9-20 | each of PB1, PB2 and PB3 drives two LEDs, both off the centre and opposite each other under a half turn |
| `Faces.FaceSpots` | software/sources/main.c:14-20 | the spots each table entry lights, through `PinLeds` and `Place` |
| `Faces.FaceIsDieFace` | software/sources/main.c:43-48 | entry k shows a die face with k + 1 spots: the centre spot exactly when k + 1 is odd, and the same picture after a half turn |
| `RollTiming.StepDelay` | software/sources/main.c:74 | `i << 4` is 16 · i in wrapping eight-bit arithmetic, and for every step i < 16 it does not wrap |
| `RollTiming.DelaysIncrease` | software/sources/main.c:73-74 | the step delays strictly increase with the step |
| `RollTiming.DelayEnds` | software/sources/main.c:73-74 | the first step waits 0 ms and the last 240 ms |
| `RollTiming.StepDelayAt` | software/sources/main.c:74 | step m, m < 16, waits 16 · m ms |
| `RollTiming.TotalDelayStep` | software/sources/main.c:73-75 | each step adds 16 · i ms to the roll's total wait |
| `RollTiming.TotalDelayClosedForm` | software/sources/main.c:73-75 | the first n steps wait 8 · n · (n - 1) ms in total |
| `RollTiming.RollDuration` | software/sources/main.c:73-75 | a whole roll waits 1920 ms |
| `TinyDice.ButtonPressed` | software/sources/main.c:72 | the button test is true exactly when PINB bit 4 reads low (active low) |
| `TinyDice.Shows` | software/sources/main.c:73-77 | a roll shows one face per step |
| `TinyDice.Snoc` | software/sources/main.c:73-77 | one more step moves the counter by that step's overflows and adds the face it then holds |
| `TinyDice.ShowsAt` | software/sources/main.c:76 | step j shows the face of the counter after all overflows up to and including step j |
| `TinyDice.ShowsAreFaces` | software/sources/main.c:76 | every face a roll writes to PORTB is a table entry |
| `TinyDice.RollOutcome` | software/sources/main.c:73-77 | the last face shown is entry (start + total overflows) mod 6 |
| `TinyDice.WaitForRelease` | software/sources/main.c:78 | the wait ends at the first read with PB4 high; every earlier read had PB4 low; if every read has PB4 low, it has not ended |
| `TinyDice.Die.constructor` | software/sources/main.c:52 | at power-on the counter is 0 and PORTB is 0x31, the pattern of face 1; that write is the first entry of the PORTB history |
| `TinyDice.Die.Tick` | software/sources/main.c:85-87 | the interrupt leaves the counter at `Next` of its old value |
| `TinyDice.Die.Interrupts` | software/sources/main.c:85-87 | n overflows leave the counter at `Ticks(old, n)` |
| `TinyDice.Die.DelayMs` | software/sources/main.c:79 | a delay of ms milliseconds adds ms to the elapsed time and changes nothing else |
| `TinyDice.Die.CountDown` | software/sources/main.c:75 | the countdown performs exactly `del` one-millisecond waits |
| `TinyDice.Die.RollStep` | software/sources/main.c:74-76 | one step: the counter moves by the step's overflows, PORTB is written once with the face it then holds, and the wait is 16 · i ms |
| `TinyDice.Die.Roll` | software/sources/main.c:73-77 | exactly the 16 faces of `Shows` are written; the final PORTB is the face of the counter at the last step; the roll takes 1920 ms; the state stays valid |
| `TinyDice.Die.Pass` | software/sources/main.c:70-80 | a roll runs exactly when the wake-up read has PB4 low, otherwise nothing changes; after the roll PORTB is not written again; the pass stays in the release wait while every read has PB4 low; 10 ms of debounce follow the first released read |
| `TinyDice.PullUpKept` | software/sources/main.c:52 | in every valid state PORTB keeps the PB4 and PB5 pull-ups on |

## Left out

- Register setup: DDRB, TCCR0A/B, TIMSK0, GIMSK, PCMSK, SREG, ACSR and PRR (main.c:51, 55-66) are bit-level hardware writes. Only the initial PORTB value, 0x31, is modelled (`Die.constructor`). DDRB's choice of PB0-PB3 as outputs appears only as `LedsLit` ignoring the upper bits.
- Sleep and wake-up: `set_sleep_mode`, `sleep_mode` and the empty pin-change interrupt (main.c:67, 71, 90) are power management. A pass of the main loop starts from the PINB value read after any wake-up, whichever interrupt caused it.
- Interrupt preemption and the unsynchronised `volatile` counter: overflows are an explicit count before each PORTB write of a roll. That is the only place where the counter is read. Overflows outside a roll are not modelled because nothing observes them; they act like extra overflows before the next roll's first step.
- `Die.Interrupts`: the firmware has no such loop. It stands for the interrupt firing n times in a row.
- Timing: the 1.2 MHz clock, the prescaler of 64 and the cycles of the loops themselves (main.c:23, 56) are not modelled. Elapsed time counts only the milliseconds passed to `_delay_ms`.
- The endless `while(1)` loop (main.c:70) is modelled one pass at a time (`Die.Pass`), not as a loop that never ends.
- `WaitForRelease`: the source spins for ever if the button is never released. The model reads a finite list of PINB values and reports that the wait has not ended.
- `Die.Roll`: the loop index is an integer converted to eight bits for the shift. It never exceeds 16, so nothing differs from the source's `uint8_t`.
- `Die.CountDown`: the last post-decrement wraps `del` to 255 after the loop. This is not kept because `del` is never read again.
- The AVR library headers (main.c:32-35) are not part of this model.
