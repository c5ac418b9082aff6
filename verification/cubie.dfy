/**
 * The persistent position of one cubie and the quarter turns that
 * `Cubie.applyRotation` (src/cubeDisplay.ts) commits to it.
 *
 * Coordinates are integers in hundredths of a scene unit, so the source's
 * grid values -2.25, 0 and 2.25 become -225, 0 and 225. A rotation by a
 * multiple of 90 degrees about a coordinate axis is an exact permutation and
 * negation of coordinates; the source's re-rounding to two decimals after
 * each rotation is what makes its floating-point result agree with this exact
 * one, and on integer hundredths that rounding is the identity.
 */
module Cubie {

  /** The three coordinate axes that `getSideRotationAxes` hands out. */
  datatype Axis = X | Y | Z

  /** A cubie position in hundredths. */
  datatype Pos = Pos(x: int, y: int, z: int)

  /** The grid step: 2.25 scene units. */
  const GridStep: int := 225

  function Coord(p: Pos, ax: Axis): int
  {
    match ax
    case X => p.x
    case Y => p.y
    case Z => p.z
  }

  /** One of the three values a coordinate takes on the cube's grid. */
  predicate OnGridCoord(c: int)
  {
    c == -GridStep || c == 0 || c == GridStep
  }

  predicate OnGrid(p: Pos)
  {
    OnGridCoord(p.x) && OnGridCoord(p.y) && OnGridCoord(p.z)
  }

  /** A right-handed rotation by +90 degrees about `ax`. */
  function QuarterTurn(p: Pos, ax: Axis): Pos
  {
    match ax
    case X => Pos(p.x, -p.z, p.y)
    case Y => Pos(p.z, p.y, -p.x)
    case Z => Pos(-p.y, p.x, p.z)
  }

  /** `n` successive +90 degree rotations about `ax`. */
  function QuarterTurns(p: Pos, ax: Axis, n: nat): Pos
    decreases n
  {
    if n == 0 then p else QuarterTurn(QuarterTurns(p, ax, n - 1), ax)
  }

  /**
   * The position `applyRotation(turns * 90, axis)` leaves behind: a rotation
   * by `turns` quarter turns, where -1 is -90 degrees and 2 is 180 degrees.
   */
  function Turn(p: Pos, ax: Axis, turns: int): (r: Pos)
    ensures Coord(r, ax) == Coord(p, ax)
    ensures OnGrid(p) ==> OnGrid(r)
  {
    QuarterTurnsKeep(p, ax, turns % 4);
    QuarterTurns(p, ax, turns % 4)
  }

  lemma {:induction false} QuarterTurnsKeep(p: Pos, ax: Axis, n: nat)
    ensures Coord(QuarterTurns(p, ax, n), ax) == Coord(p, ax)
    ensures OnGrid(p) ==> OnGrid(QuarterTurns(p, ax, n))
  {
    if n > 0 {
      QuarterTurnsKeep(p, ax, n - 1);
    }
  }

  /** Four quarter turns are the identity. */
  lemma FourQuarterTurns(p: Pos, ax: Axis)
    ensures QuarterTurns(p, ax, 4) == p
  {
  }

  lemma {:induction false} QuarterTurnsAdd(p: Pos, ax: Axis, a: nat, b: nat)
    ensures QuarterTurns(QuarterTurns(p, ax, a), ax, b) == QuarterTurns(p, ax, a + b)
    decreases b
  {
    if b > 0 {
      QuarterTurnsAdd(p, ax, a, b - 1);
    }
  }

  lemma {:induction false} QuarterTurnsMod(p: Pos, ax: Axis, n: nat)
    ensures QuarterTurns(p, ax, n) == QuarterTurns(p, ax, n % 4)
    decreases n
  {
    if n >= 4 {
      var m: nat := n - 4;
      QuarterTurnsAdd(p, ax, 4, m);
      FourQuarterTurns(p, ax);
      assert QuarterTurns(p, ax, n) == QuarterTurns(p, ax, m);
      QuarterTurnsMod(p, ax, m);
      assert m % 4 == n % 4;
    }
  }

  lemma ModFourAdd(a: int, b: int)
    ensures (a % 4 + b % 4) % 4 == (a + b) % 4
  {
  }

  /** Turning by `a` and then by `b` is turning by `a + b`. */
  lemma TurnAdd(p: Pos, ax: Axis, a: int, b: int)
    ensures Turn(Turn(p, ax, a), ax, b) == Turn(p, ax, a + b)
  {
    var q := Turn(p, ax, a);
    assert q == QuarterTurns(p, ax, a % 4);
    assert Turn(q, ax, b) == QuarterTurns(q, ax, b % 4);
    QuarterTurnsAdd(p, ax, a % 4, b % 4);
    QuarterTurnsMod(p, ax, a % 4 + b % 4);
    ModFourAdd(a, b);
  }

  /** A whole number of full revolutions leaves a position where it was. */
  lemma TurnFullRevolution(p: Pos, ax: Axis, turns: int)
    requires turns % 4 == 0
    ensures Turn(p, ax, turns) == p
  {
  }

  /** A turn is undone by the opposite turn, so it is injective. */
  lemma TurnInverse(p: Pos, ax: Axis, turns: int)
    ensures Turn(Turn(p, ax, turns), ax, -turns) == p
  {
    TurnAdd(p, ax, turns, -turns);
  }

  lemma TurnInjective(p: Pos, q: Pos, ax: Axis, turns: int)
    requires Turn(p, ax, turns) == Turn(q, ax, turns)
    ensures p == q
  {
    TurnInverse(p, ax, turns);
    TurnInverse(q, ax, turns);
  }

  /** Four clockwise (-90 degree) turns about one axis restore every position. */
  lemma FourClockwiseTurns(p: Pos, ax: Axis)
    ensures Turn(Turn(Turn(Turn(p, ax, -1), ax, -1), ax, -1), ax, -1) == p
  {
    var one := Turn(p, ax, -1);
    TurnAdd(p, ax, -1, -1);
    var two := Turn(one, ax, -1);
    assert two == Turn(p, ax, -2);
    TurnAdd(p, ax, -2, -1);
    var three := Turn(two, ax, -1);
    assert three == Turn(p, ax, -3);
    TurnAdd(p, ax, -3, -1);
    assert Turn(three, ax, -1) == Turn(p, ax, -4);
    TurnFullRevolution(p, ax, -4);
  }

  /** A clockwise turn followed by a counter-clockwise turn is the identity. */
  lemma ClockwiseThenCounterClockwise(p: Pos, ax: Axis)
    ensures Turn(Turn(p, ax, -1), ax, 1) == p
  {
    TurnInverse(p, ax, -1);
  }
}
