/**
 * The LED decision of main.c:181-201. The thresholds are doubles in C
 * (GRAVITY * 0.8, GRAVITY * 1.1, GRAVITY * 0.15 * COLLISION_THRESHOLD); every
 * operand compared with them is an integer magnitude, so each comparison is
 * written here as an exact integer comparison scaled by ten or a hundred.
 */
module Led {
  import opened Sensor

  const GRAVITY: int := 16384
  const COLLISION_THRESHOLD: int := 12

  /** Values written to GPIO_PORTF_DATA_R: PF3, PF1, PF2, PF1 + PF2, all off. */
  const GREEN: int := 0x08
  const RED: int := 0x02
  const BLUE: int := 0x04
  const BLINK: int := 0x06
  const OFF: int := 0x00

  const BLINKS: nat := 5

  function Abs(a: int): (r: nat)
    ensures r == a || r == -a
  {
    if a < 0 then -a else a
  }

  /** `abs(a) > GRAVITY * 0.8` */
  predicate AboveLow(a: Int16) {
    10 * Abs(a) > 8 * GRAVITY
  }

  /** `abs(a) < GRAVITY * 0.8` */
  predicate BelowLow(a: Int16) {
    10 * Abs(a) < 8 * GRAVITY
  }

  /** `abs(a) < GRAVITY * 1.1` */
  predicate BelowHigh(a: Int16) {
    10 * Abs(a) < 11 * GRAVITY
  }

  /** `abs(a) > GRAVITY * 0.15 * COLLISION_THRESHOLD` */
  predicate AboveCollision(a: Int16) {
    100 * Abs(a) > 15 * COLLISION_THRESHOLD * GRAVITY
  }

  /** Gravity lies along axis a and the other two axes are low. */
  predicate Along(a: Int16, b: Int16, c: Int16) {
    AboveLow(a) && BelowHigh(a) && BelowLow(b) && BelowLow(c)
  }

  /** The orientation colour of main.c:181-192. */
  function Orientation(ax: Int16, ay: Int16, az: Int16): (led: int)
    ensures led in {GREEN, RED, BLUE, OFF}
    ensures led == GREEN <==> Along(ax, ay, az)
    ensures led == RED <==> Along(ay, ax, az)
    ensures led == BLUE <==> Along(az, ax, ay)
  {
    if Along(ax, ay, az) then GREEN
    else if Along(ay, ax, az) then RED
    else if Along(az, ax, ay) then BLUE
    else OFF
  }

  /** The condition of main.c:193: some axis reaches 29492, about 1.8 g. */
  predicate Collision(ax: Int16, ay: Int16, az: Int16): (c: bool)
    ensures c <==> Abs(ax) >= 29492 || Abs(ay) >= 29492 || Abs(az) >= 29492
  {
    AboveCollision(ax) || AboveCollision(ay) || AboveCollision(az)
  }

  /** The integer bounds the scaled comparisons stand for. */
  lemma ThresholdBounds(a: Int16)
    ensures AboveLow(a) <==> Abs(a) >= 13108
    ensures BelowLow(a) <==> Abs(a) <= 13107
    ensures BelowHigh(a) <==> Abs(a) <= 18022
    ensures AboveCollision(a) <==> Abs(a) >= 29492
  {
  }

  /** The scaled comparisons agree with the exact real thresholds. */
  lemma ThresholdsExact(a: Int16)
    ensures AboveLow(a) <==> Abs(a) as real > GRAVITY as real * 0.8
    ensures BelowLow(a) <==> Abs(a) as real < GRAVITY as real * 0.8
    ensures BelowHigh(a) <==> Abs(a) as real < GRAVITY as real * 1.1
    ensures AboveCollision(a) <==> Abs(a) as real > GRAVITY as real * 0.15 * COLLISION_THRESHOLD as real
  {
  }

  /** At most one axis can carry gravity, so the order of the three tests does not matter. */
  lemma AlongExclusive(ax: Int16, ay: Int16, az: Int16)
    ensures !(Along(ax, ay, az) && Along(ay, ax, az))
    ensures !(Along(ax, ay, az) && Along(az, ax, ay))
    ensures !(Along(ay, ax, az) && Along(az, ax, ay))
    ensures Orientation(ax, ay, az) ==
      if Along(az, ax, ay) then BLUE else if Along(ay, ax, az) then RED else if Along(ax, ay, az) then GREEN else OFF
  {
  }

  /** A collision rules out every orientation colour. */
  lemma CollisionHasNoOrientation(ax: Int16, ay: Int16, az: Int16)
    requires Collision(ax, ay, az)
    ensures Orientation(ax, ay, az) == OFF
  {
  }

  /** n on/off pairs: BLINK then OFF, n times. */
  function Blinks(n: nat): (w: seq<int>)
    ensures |w| == 2 * n
  {
    if n == 0 then [] else Blinks(n - 1) + [BLINK, OFF]
  }

  /** Blinks(n) alternates BLINK and OFF, starting with BLINK. */
  lemma {:induction false} BlinksAt(n: nat)
    ensures forall k :: 0 <= k < 2 * n ==> Blinks(n)[k] == if k % 2 == 0 then BLINK else OFF
  {
    if n > 0 {
      BlinksAt(n - 1);
      assert forall k :: 0 <= k < 2 * n - 2 ==> Blinks(n)[k] == Blinks(n - 1)[k];
    }
  }

  lemma BlinkStep(before: seq<int>, i: nat)
    ensures before + Blinks(i) + [BLINK] + [OFF] == before + Blinks(i + 1)
  {
    assert Blinks(i + 1) == Blinks(i) + [BLINK, OFF];
  }

  /** Every value one pass writes to GPIO_PORTF_DATA_R, in order (main.c:181-201). */
  function LedWrites(ax: Int16, ay: Int16, az: Int16): (w: seq<int>)
    ensures |w| > 0 && w[0] == Orientation(ax, ay, az)
    ensures Collision(ax, ay, az) <==> |w| == 1 + 2 * BLINKS
    ensures !Collision(ax, ay, az) <==> |w| == 1
  {
    [Orientation(ax, ay, az)] + (if Collision(ax, ay, az) then Blinks(BLINKS) else [])
  }

  /** How many times v occurs in w. */
  function Count(w: seq<int>, v: int): (c: nat)
    ensures c <= |w|
  {
    if w == [] then 0 else Count(w[..|w| - 1], v) + (if w[|w| - 1] == v then 1 else 0)
  }

  lemma {:induction false} CountBlinks(n: nat)
    ensures Count(Blinks(n), BLINK) == n && Count(Blinks(n), OFF) == n
  {
    if n > 0 {
      var w := Blinks(n);
      assert w[..|w| - 1] == Blinks(n - 1) + [BLINK];
      assert (Blinks(n - 1) + [BLINK])[..2 * n - 2] == Blinks(n - 1);
      CountBlinks(n - 1);
    }
  }

  /**
   * One pass writes its orientation colour, and on a collision exactly five
   * BLINK writes each followed by OFF, leaving the LEDs off (main.c:181-201).
   */
  lemma LedWritesShape(ax: Int16, ay: Int16, az: Int16)
    ensures var w := LedWrites(ax, ay, az);
      && (forall k :: 0 <= k < |w| ==> w[k] in {GREEN, RED, BLUE, BLINK, OFF})
      && w[0] == Orientation(ax, ay, az)
      && (Collision(ax, ay, az) ==> |w| == 1 + 2 * BLINKS && Count(w, BLINK) == BLINKS && w[|w| - 1] == OFF)
      && (!Collision(ax, ay, az) ==> |w| == 1)
  {
    var w := LedWrites(ax, ay, az);
    if Collision(ax, ay, az) {
      BlinksAt(BLINKS);
      CountBlinks(BLINKS);
      CountPrefix([Orientation(ax, ay, az)], Blinks(BLINKS), BLINK);
    }
  }

  lemma {:induction false} CountPrefix(u: seq<int>, w: seq<int>, v: int)
    ensures Count(u + w, v) == Count(u, v) + Count(w, v)
    decreases |w|
  {
    if w != [] {
      assert (u + w)[..|u + w| - 1] == u + w[..|w| - 1];
      CountPrefix(u, w[..|w| - 1], v);
    } else {
      assert u + w == u;
    }
  }

  /** Port F's data register, with every value written to it. */
  class PortF {
    var data: int
    ghost var writes: seq<int>

    constructor ()
      ensures data == OFF && writes == []
    {
      data := OFF;
      writes := [];
    }

    method Write(v: int)
      modifies this
      ensures data == v && writes == old(writes) + [v]
    {
      data := v;
      writes := writes + [v];
    }

    /** The orientation colour, then five blinks on a collision (main.c:181-201). */
    method Indicate(ax: Int16, ay: Int16, az: Int16)
      modifies this
      ensures writes == old(writes) + LedWrites(ax, ay, az)
      ensures data == if Collision(ax, ay, az) then OFF else Orientation(ax, ay, az)
    {
      ShowOrientation(ax, ay, az);
      if AboveCollision(ax) || AboveCollision(ay) || AboveCollision(az) {
        BlinkCollision();
      }
    }

    /** The if-chain of main.c:181-192: one colour, or all off. */
    method ShowOrientation(ax: Int16, ay: Int16, az: Int16)
      modifies this
      ensures writes == old(writes) + [Orientation(ax, ay, az)] && data == Orientation(ax, ay, az)
    {
      if AboveLow(ax) && BelowHigh(ax) && BelowLow(ay) && BelowLow(az) {
        Write(GREEN);
      } else if AboveLow(ay) && BelowHigh(ay) && BelowLow(ax) && BelowLow(az) {
        Write(RED);
      } else if AboveLow(az) && BelowHigh(az) && BelowLow(ax) && BelowLow(ay) {
        Write(BLUE);
      } else {
        Write(OFF);
      }
    }

    /** The loop of main.c:195-200: five times BLINK, then OFF. */
    method BlinkCollision()
      modifies this
      ensures writes == old(writes) + Blinks(BLINKS) && data == OFF
    {
      for i := 0 to BLINKS
        invariant writes == old(writes) + Blinks(i)
        invariant i > 0 ==> data == OFF
      {
        BlinkStep(old(writes), i);
        Write(BLINK);
        Write(OFF);
      }
    }
  }
}
