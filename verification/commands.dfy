/**
 * Rotation commands as `rotate` (src/cubeDisplay.ts) accepts them, and the
 * direction -> signed turn count mapping the frame loop applies when it
 * dequeues one.
 */
module Commands {
  import opened Wrappers
  import opened Layers

  /** A direction argument is either a string or a number. */
  datatype Direction = Text(s: string) | Number(n: real)

  const Clockwise: Direction := Text("CW")
  const CounterClockwise: Direction := Text("CCW")
  const HalfTurn: Direction := Number(2.0)

  /** Membership in the whitelist `["CW", "CCW", 2]`. */
  predicate ValidDirection(d: Direction)
  {
    d == Clockwise || d == CounterClockwise || d == HalfTurn
  }

  /**
   * The whitelist compares by value and type: only the strings "CW" and
   * "CCW" and the number 2 pass, so neither the string "2" nor "cw" does.
   */
  lemma DirectionWhitelist(d: Direction)
    ensures ValidDirection(d) <==>
      (d.Text? && (d.s == "CW" || d.s == "CCW")) || (d.Number? && d.n == 2.0)
  {
  }

  /** A queued command: the layer and the direction exactly as submitted. */
  datatype Command = Command(layer: Layer, direction: Direction)

  /** Why `rotate` rejected its arguments. */
  datatype RotateError = InvalidLayer | InvalidDirection

  /**
   * The checks of `rotate`: the layer first, then the direction. A command is
   * built exactly when both pass.
   */
  function Validate(layer: string, direction: Direction): (r: Result<Command, RotateError>)
    ensures r.Ok? <==> (exists l :: LayerName(l) == layer) && ValidDirection(direction)
    ensures r.Ok? ==> LayerName(r.value.layer) == layer && r.value.direction == direction
    ensures r == Err(InvalidLayer) <==> forall l :: LayerName(l) != layer
  {
    match ParseLayer(layer)
    case None => Err(InvalidLayer)
    case Some(l) =>
      if ValidDirection(direction) then Ok(Command(l, direction)) else Err(InvalidDirection)
  }

  /**
   * The signed turn count of a direction: clockwise is -1, counter-clockwise
   * +1, the half turn +2 and anything else 0 (no rotation).
   */
  function TurnsOf(d: Direction): (t: int)
    ensures d == Clockwise ==> t == -1
    ensures d == CounterClockwise ==> t == 1
    ensures d == HalfTurn ==> t == 2
    ensures t != 0 <==> ValidDirection(d)
  {
    if d == Text("CW") then -1
    else if d == Text("CCW") then 1
    else if d == Number(2.0) then 2
    else 0
  }
}
