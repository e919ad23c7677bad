/**
 * The pick-up protocol of `maskbot/actions.py`: an absolute move above the
 * target with the pump on, a wait until the arm stops, a fixed relative drop,
 * then a bounded descent in small steps that ends at the first limit-switch
 * contact, and a final ascent. The limit switch is supplied as the sequence of
 * readings it gives, one per descent iteration.
 */
module Actions {
  import opened Wrappers
  import opened Arm

  const DefaultMaxDownDistance: int := 100
  const DefaultDownIncrement: int := -3

  /** Python's `a // b` on integers: the floor of the exact quotient. */
  function FloorDiv(a: int, b: int): (q: int)
    requires b != 0
    ensures b > 0 ==> b * q <= a < b * q + b
    ensures b < 0 ==> b * q >= a > b * q + b
  {
    if b > 0 then a / b else (-a) / (-b)
  }

  function Abs(n: int): (m: nat)
    ensures m == n || m == -n
  {
    if n < 0 then -n else n
  }

  /** `abs(max_down_distance // down_increment)`: how many descent iterations the loop may run. */
  function DescentBound(maxDown: int, downIncrement: int): (n: nat)
    requires downIncrement != 0
    // going down: the fewest steps of |down_increment| that cover max_down
    ensures maxDown >= 0 && downIncrement < 0 ==>
      n * -downIncrement >= maxDown > (n - 1) * -downIncrement
    // going up: the most whole steps that fit in max_down
    ensures maxDown >= 0 && downIncrement > 0 ==>
      n * downIncrement <= maxDown < (n + 1) * downIncrement
  {
    var q := FloorDiv(maxDown, downIncrement);
    StepCover(maxDown, downIncrement, q);
    Abs(q)
  }

  /** The floor quotient read as a number of steps, for a non-negative distance. */
  lemma StepCover(m: int, d: int, q: int)
    requires d != 0
    requires d > 0 ==> d * q <= m < d * q + d
    requires d < 0 ==> d * q >= m > d * q + d
    ensures m >= 0 && d < 0 ==> q <= 0 && -q * -d >= m > (-q - 1) * -d
    ensures m >= 0 && d > 0 ==> q >= 0 && q * d <= m < (q + 1) * d
  {
    ProductSign(d, q);
    if d < 0 {
      assert -q * -d == d * q;
      assert (-q - 1) * -d == d * q + d;
    } else {
      BelowMinusOne(d, q);
      assert q * d == d * q;
      assert (q + 1) * d == d * q + d;
    }
  }

  /** A positive `d` times a `q` of at most -1 is at most `-d`. */
  lemma BelowMinusOne(d: int, q: int)
    requires d > 0
    ensures q <= -1 ==> d * q <= -d
  {
    if q <= -1 {
      MulMonotone(d, q, -1);
    }
  }

  /** A product of non-zero `d` and `q` is negative exactly when their signs differ. */
  lemma ProductSign(d: int, q: int)
    requires d != 0
    ensures d * q < 0 <==> (d < 0 && q > 0) || (d > 0 && q < 0)
  {
    if d < 0 && q > 0 {
      MulMonotone(q, d, -1);
    } else if d > 0 && q < 0 {
      MulMonotone(d, q, -1);
    } else if d < 0 && q <= 0 {
      MulMonotone(-d, q, 0);
      assert -d * q == -(d * q);
    } else {
      MulMonotone(d, 0, q);
    }
  }

  /** Multiplying by a positive number keeps the order. */
  lemma MulMonotone(k: int, a: int, b: int)
    requires k > 0 && a <= b
    ensures k * a <= k * b
  {
    assert k * b - k * a == k * (b - a);
  }

  /** `[2, -2][i % 2 == 0]`: a Python bool indexes the list as 0 or 1. */
  function Wiggle(i: nat): (s: int)
    ensures i % 2 == 0 <==> s == -2
    ensures i % 2 == 1 <==> s == 2
  {
    [2, -2][if i % 2 == 0 then 1 else 0]
  }

  /**
   * The iteration at which the loop breaks: the index of the first true reading
   * among the first `bound`, or `bound` when none of them is true.
   */
  function FirstContact(readings: seq<bool>, bound: nat): (k: nat)
    requires bound <= |readings|
    ensures k <= bound
    ensures forall j :: 0 <= j < k ==> !readings[j]
    ensures k < bound ==> readings[k]
  {
    if bound == 0 then 0
    else if readings[0] then 0
    else 1 + FirstContact(readings[1..], bound - 1)
  }

  /** The setup moves, in the order the source issues them. */
  function Setup(pos: Position): (cmds: seq<Command>)
  {
    [ MoveTo(pos, 25.0, false, false),
      SetPump(true),
      WaitWhileMoving,
      SetPosition(None, None, Some(-100.0), 150.0, true, true) ]
  }

  /** The `set_polar` call of descent iteration `i`. */
  function DescentStep(downIncrement: int, i: nat): (c: Command)
  {
    SetPolar(0.0, downIncrement as real, Wiggle(i) as real, 150.0, true, true)
  }

  /** The descent steps of the first `k` iterations. */
  function Descent(downIncrement: int, k: nat): (steps: seq<Command>)
    ensures |steps| == k
    ensures forall i :: 0 <= i < k ==> steps[i] == DescentStep(downIncrement, i)
  {
    if k == 0 then [] else Descent(downIncrement, k - 1) + [DescentStep(downIncrement, k - 1)]
  }

  /** `set_position(x, y, 165, speed=150, relative=False, wait=True)`. */
  function Ascent(pos: Position): (c: Command)
  {
    SetPosition(Some(pos.0), Some(pos.1), Some(165.0), 150.0, false, true)
  }

  /** Everything `pickup` issues, given the limit-switch readings the loop will see. */
  function PickupScript(pos: Position, readings: seq<bool>, maxDown: int, downIncrement: int): (cmds: seq<Command>)
    requires downIncrement != 0
    requires DescentBound(maxDown, downIncrement) <= |readings|
  {
    Setup(pos)
    + Descent(downIncrement, FirstContact(readings, DescentBound(maxDown, downIncrement)))
    + [Sleep(0.5), Ascent(pos)]
  }

  /**
   * `pickup`. The result `neverHit` is true when the `for` loop ran to its end
   * without a `break`, which is when its `else` branch reports that the limit
   * switch was never hit; nothing is raised and the ascent follows either way.
   */
  method Pickup(bot: Bot, pos: Position, readings: seq<bool>, maxDown: int, downIncrement: int)
    returns (neverHit: bool)
    requires downIncrement != 0
    requires DescentBound(maxDown, downIncrement) <= |readings|
    modifies bot
    ensures bot.log == old(bot.log) + PickupScript(pos, readings, maxDown, downIncrement)
    ensures neverHit <==> forall j :: 0 <= j < DescentBound(maxDown, downIncrement) ==> !readings[j]
  {
    bot.Issue(MoveTo(pos, 25.0, false, false));
    bot.Issue(SetPump(true));
    bot.Issue(WaitWhileMoving);
    bot.Issue(SetPosition(None, None, Some(-100.0), 150.0, true, true));
    var bound := DescentBound(maxDown, downIncrement);
    var i := 0;
    var hit := false;
    while i < bound
      invariant 0 <= i <= bound
      invariant forall j :: 0 <= j < i ==> !readings[j]
      invariant bot.log == old(bot.log) + Setup(pos) + Descent(downIncrement, i)
    {
      if readings[i] {
        hit := true;
        break;
      }
      bot.Issue(DescentStep(downIncrement, i));
      i := i + 1;
    }
    assert hit ==> i < bound && readings[i];
    assert i == FirstContact(readings, bound);
    neverHit := !hit;
    bot.Issue(Sleep(0.5));
    bot.Issue(Ascent(pos));
  }

  /** The default parameters give 34 iterations: `100 // -3` is -34 in Python. */
  lemma DefaultDescentBound()
    ensures FloorDiv(DefaultMaxDownDistance, DefaultDownIncrement) == -34
    ensures DescentBound(DefaultMaxDownDistance, DefaultDownIncrement) == 34
  {
  }

  /** Consecutive iterations wiggle in opposite directions. */
  lemma WiggleAlternates(i: nat)
    ensures Wiggle(i + 1) == -Wiggle(i)
  {
  }

  predicate IsPolar(c: Command) { c.SetPolar? }

  /** The number of `set_polar` calls equals the number of false readings before the first true one, capped by the bound. */
  lemma {:induction false} PickupPolarCount(pos: Position, readings: seq<bool>, maxDown: int, downIncrement: int)
    requires downIncrement != 0
    requires DescentBound(maxDown, downIncrement) <= |readings|
    ensures CountWhere(PickupScript(pos, readings, maxDown, downIncrement), IsPolar)
         == FirstContact(readings, DescentBound(maxDown, downIncrement))
  {
    var k := FirstContact(readings, DescentBound(maxDown, downIncrement));
    DescentPolarCount(downIncrement, k);
    CountWhereAppend(Setup(pos), Descent(downIncrement, k), IsPolar);
    CountWhereAppend(Setup(pos) + Descent(downIncrement, k), [Sleep(0.5), Ascent(pos)], IsPolar);
    CountWhereNone(Setup(pos), IsPolar);
    CountWhereNone([Sleep(0.5), Ascent(pos)], IsPolar);
  }

  lemma {:induction false} DescentPolarCount(downIncrement: int, k: nat)
    ensures CountWhere(Descent(downIncrement, k), IsPolar) == k
  {
    if k > 0 {
      DescentPolarCount(downIncrement, k - 1);
      assert Descent(downIncrement, k)[..k - 1] == Descent(downIncrement, k - 1);
    }
  }

  /**
   * The shape of every pickup: the four setup commands first, then only
   * `set_polar(r=0, h=down_increment, s=wiggle, speed=150, relative=True, wait=True)`
   * steps, then the pause and the ascent to height 165, whether or not contact occurred.
   */
  lemma PickupShape(pos: Position, readings: seq<bool>, maxDown: int, downIncrement: int)
    requires downIncrement != 0
    requires DescentBound(maxDown, downIncrement) <= |readings|
    ensures var script := PickupScript(pos, readings, maxDown, downIncrement);
      && var k := FirstContact(readings, DescentBound(maxDown, downIncrement));
      && |script| == k + 6
      && script[0] == SetPosition(Some(pos.0), Some(pos.1), Some(pos.2), 25.0, false, false)
      && script[1] == SetPump(true)
      && script[2] == WaitWhileMoving
      && script[3] == SetPosition(None, None, Some(-100.0), 150.0, true, true)
      && (forall i :: 4 <= i < 4 + k ==>
            script[i] == SetPolar(0.0, downIncrement as real, Wiggle(i - 4) as real, 150.0, true, true))
      && script[|script| - 2] == Sleep(0.5)
      && script[|script| - 1] == SetPosition(Some(pos.0), Some(pos.1), Some(165.0), 150.0, false, true)
  {
  }

  /** With `max_down_distance=9`, `down_increment=-3` and a switch that never fires, exactly three steps are taken and the ascent still follows. */
  lemma NeverHitShortDescent(pos: Position, readings: seq<bool>)
    requires |readings| >= 3
    requires forall j :: 0 <= j < |readings| ==> !readings[j]
    ensures DescentBound(9, -3) == 3
    ensures PickupScript(pos, readings, 9, -3)
         == Setup(pos)
          + [DescentStep(-3, 0), DescentStep(-3, 1), DescentStep(-3, 2)]
          + [Sleep(0.5), Ascent(pos)]
  {
    assert FirstContact(readings, 3) == 3;
    assert Descent(-3, 3) == [DescentStep(-3, 0), DescentStep(-3, 1), DescentStep(-3, 2)];
  }
}
