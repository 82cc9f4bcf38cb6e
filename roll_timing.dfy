/**
  The delay schedule of a roll: sixteen steps, step i waiting i shifted left
  by four bits, held in an eight-bit variable, milliseconds before the face is
  shown.
 */
module RollTiming {

  /** Number of faces a roll shows. */
  const Steps: nat := 16

  /** The delay of step i, an eight-bit left shift by four: sixteen times i
      in wrapping eight-bit arithmetic.  For every step
      of a roll (i < 16) nothing wraps. */
  function StepDelay(i: bv8): (del: bv8)
    ensures del == i * 16
    ensures i < 16 ==> del as int == i as int * 16
  {
    i << 4
  }

  /** The delays grow strictly from step to step. */
  lemma DelaysIncrease(i: bv8, j: bv8)
    requires i < j < 16
    ensures StepDelay(i) < StepDelay(j)
  {
  }

  /** The first step waits 0 ms and the last 240 ms. */
  lemma DelayEnds()
    ensures StepDelay(0) == 0
    ensures StepDelay(15) == 240
  {
  }

  /** The delay of step m, for a step counted as a plain number. */
  lemma StepDelayAt(m: nat)
    requires m < Steps
    ensures StepDelay(m as bv8) as int == 16 * m
  {
    assert (m as bv8) as int == m;
  }

  /** Milliseconds waited over the first n steps. */
  function TotalDelay(n: nat): (ms: nat)
    requires n <= Steps
  {
    if n == 0 then 0 else TotalDelay(n - 1) + StepDelay((n - 1) as bv8) as int
  }

  /** Each step adds its own delay, sixteen times its index, to the total. */
  lemma TotalDelayStep(n: nat)
    requires n < Steps
    ensures TotalDelay(n + 1) == TotalDelay(n) + 16 * n
  {
    StepDelayAt(n);
  }

  /** The first n steps wait 16 * (0 + 1 + ... + (n - 1)) = 8 n (n - 1) ms. */
  lemma {:induction false} TotalDelayClosedForm(n: nat)
    requires n <= Steps
    ensures TotalDelay(n) == 8 * n * (n - 1)
  {
    if n > 0 {
      var m := n - 1;
      TotalDelayClosedForm(m);
      StepDelayAt(m);
      assert TotalDelay(n) == 8 * m * (m - 1) + 16 * m;
      TriangleStep(m);
    }
  }

  lemma TriangleStep(m: int)
    ensures 8 * m * (m - 1) + 16 * m == 8 * (m + 1) * m
  {
  }

  /** A whole roll waits 1920 ms. */
  lemma {:induction false} RollDuration()
    ensures TotalDelay(Steps) == 1920
  {
    TotalDelayClosedForm(Steps);
  }
}
