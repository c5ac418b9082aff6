/**
 * The rotation engine of src/cubeDisplay.ts as the source keeps it: mutable
 * state updated in place. `rotate` appends to the command queue; one call of
 * `Step` is one `renderScene` frame with the drawing removed. `Rotate` and
 * `Step` keep the engine invariant; each helper method is proved to do
 * exactly what its pure counterpart in module Animation says.
 */
module Display {
  import opened Wrappers
  import opened Cubie
  import opened Layers
  import opened Commands
  import opened Animation

  class Cube {
    /** The cubie positions, by cubie index (`cubies[i].positionVec`). */
    var cubies: array<Pos>
    /** The nine layer lists, rebuilt after each committed turn. */
    var sideIndices: SideIndices
    /** Commands submitted and not yet started, oldest first. */
    var queue: seq<Command>
    /** Signed quarter turns of the running rotation; 0 when idle. */
    var turns: int
    /** Progress of the running rotation, in tenths of a degree. */
    var angle: int
    /** The layer of the current or last rotation. */
    var layerToRotate: Option<Layer>
    /** The snapshot of that layer's members that the commit turns. */
    var cubiesToRotate: seq<nat>

    /** The fields as a value of the pure model. */
    function State(): Engine
      reads this, cubies
    {
      Engine(cubies[..], sideIndices, queue, turns, angle, layerToRotate, cubiesToRotate)
    }

    predicate Valid()
      reads this, cubies
    {
      Inv(State())
    }

    /**
     * `createCubies` followed by the initial state of `loadScene`: 27 cubies
     * on the grid, their layer index, nothing queued, nothing running.
     */
    constructor ()
      ensures fresh(cubies)
      ensures Valid()
      ensures State() == Initial()
    {
      var positions := CreateCubies();
      cubies := positions;
      sideIndices := NoIndices;
      queue := [];
      turns := 0;
      angle := 0;
      layerToRotate := None;
      cubiesToRotate := [];
      new;
      UpdateSideIndices();
      ghost var ps := InitialPositions();
      assert cubies[..] == ps && sideIndices == Index(ps);
      assert State() == Initial();
    }

    /**
     * `updateSideIndices`: empty all nine lists, then push each cubie's index
     * onto one layer per axis by the sign of its rounded coordinate.
     */
    method UpdateSideIndices()
      modifies this`sideIndices
      ensures sideIndices == Index(cubies[..])
    {
      ghost var ps := cubies[..];
      sideIndices := NoIndices;
      assert ps[..0] == [];
      for i := 0 to cubies.Length
        invariant sideIndices == Index(ps[..i])
      {
        var p := cubies[i];
        ghost var before := sideIndices;
        var x, y, z := RoundUnits(p.x), RoundUnits(p.y), RoundUnits(p.z);
        if x < 0 {
          assert Classify(p, X) == Left;
          sideIndices := sideIndices.Push(Left, i);
        } else if x == 0 {
          assert Classify(p, X) == Middle;
          sideIndices := sideIndices.Push(Middle, i);
        } else {
          assert Classify(p, X) == Right;
          sideIndices := sideIndices.Push(Right, i);
        }
        if y < 0 {
          assert Classify(p, Y) == Bottom;
          sideIndices := sideIndices.Push(Bottom, i);
        } else if y == 0 {
          assert Classify(p, Y) == Equator;
          sideIndices := sideIndices.Push(Equator, i);
        } else {
          assert Classify(p, Y) == Top;
          sideIndices := sideIndices.Push(Top, i);
        }
        if z < 0 {
          assert Classify(p, Z) == Back;
          sideIndices := sideIndices.Push(Back, i);
        } else if z == 0 {
          assert Classify(p, Z) == Standing;
          sideIndices := sideIndices.Push(Standing, i);
        } else {
          assert Classify(p, Z) == Front;
          sideIndices := sideIndices.Push(Front, i);
        }
        assert sideIndices == PushCubie(before, p, i);
        assert ps[..i + 1] == ps[..i] + [p];
        IndexSnoc(ps[..i], p);
      }
      assert ps[..cubies.Length] == ps;
    }

    /** `applyRotation` on cubie `index`: its position turned, every other cubie unchanged. */
    method ApplyRotation(index: nat, ax: Axis, quarter: int)
      requires index < cubies.Length
      modifies cubies
      ensures cubies[..] == old(cubies[..])[index := Turn(old(cubies[index]), ax, quarter)]
    {
      cubies[index] := Turn(cubies[index], ax, quarter);
    }

    /**
     * The commit of `renderScene`: every index in the snapshot gets the
     * rotation once, about the axis of the rotating layer.
     */
    method CommitTurn()
      requires layerToRotate.Some?
      requires cubiesToRotate == Members(cubies[..], layerToRotate.value)
      modifies cubies
      ensures cubies[..] == ApplyTurn(old(cubies[..]), cubiesToRotate, AxisOf(layerToRotate.value), turns)
    {
      var ax := AxisOf(layerToRotate.value);
      ghost var before := cubies[..];
      MembersSpec(before, layerToRotate.value);
      for k := 0 to |cubiesToRotate|
        invariant forall i :: 0 <= i < cubies.Length ==>
          cubies[i] == if i in cubiesToRotate[..k] then Turn(before[i], ax, turns) else before[i]
      {
        var index := cubiesToRotate[k];
        assert index !in cubiesToRotate[..k];
        ApplyRotation(index, ax, turns);
        assert cubiesToRotate[..k + 1] == cubiesToRotate[..k] + [index];
      }
      assert cubiesToRotate[..|cubiesToRotate|] == cubiesToRotate;
    }

    /**
     * `rotate`: a command with a known layer name and a whitelisted direction
     * is appended to the queue; otherwise the queue is left alone and the
     * first failed check is reported.
     */
    method Rotate(layer: string, direction: Direction) returns (error: Option<RotateError>)
      requires Valid()
      modifies this`queue
      ensures Valid()
      ensures Validate(layer, direction).Ok? ==>
        error == None && queue == old(queue) + [Validate(layer, direction).value]
      ensures Validate(layer, direction).Err? ==>
        error == Some(Validate(layer, direction).error) && queue == old(queue)
    {
      var l := ParseLayer(layer);
      if l.None? {
        return Some(InvalidLayer);
      }
      if !ValidDirection(direction) {
        return Some(InvalidDirection);
      }
      queue := queue + [Command(l.value, direction)];
      error := None;
    }

    /**
     * The first block of `renderScene`: advance the running turn, clamped at
     * 90 degrees, or else start the command at the head of the queue.
     */
    method Advance()
      requires Shaped(State())
      modifies this`angle, this`queue, this`turns, this`layerToRotate
      ensures State() == Advanced(old(State()))
    {
      if turns != 0 {
        angle := angle + Speed;
        if angle >= FullAngle {
          angle := FullAngle;
        }
      } else if |queue| > 0 {
        var c := queue[0];
        queue := queue[1..];
        turns := TurnsOf(c.direction);
        layerToRotate := Some(c.layer);
      }
    }

    /** The snapshot `renderScene` reads while drawing a running turn. */
    method TakeSnapshot()
      requires turns != 0 ==> layerToRotate.Some?
      modifies this`cubiesToRotate
      ensures State() == Snapshotted(old(State()))
    {
      if turns != 0 {
        cubiesToRotate := sideIndices.Get(layerToRotate.value);
      }
    }

    /**
     * The commit at 90 degrees: turn the snapshot's cubies, go idle and
     * rebuild the layer index.
     */
    method CommitAndReset()
      requires layerToRotate.Some?
      requires cubiesToRotate == Members(cubies[..], layerToRotate.value)
      modifies cubies, this`angle, this`turns, this`sideIndices
      ensures State() == Commit(old(State()))
    {
      CommitTurn();
      angle := 0;
      turns := 0;
      UpdateSideIndices();
    }

    /** The last block of `renderScene`: commit once the angle has reached 90 degrees. */
    method Settle()
      requires angle >= FullAngle ==>
        layerToRotate.Some? && cubiesToRotate == Members(cubies[..], layerToRotate.value)
      modifies cubies, this`angle, this`turns, this`sideIndices
      ensures State() == Settled(old(State()))
    {
      if angle >= FullAngle {
        CommitAndReset();
      }
    }

    /**
     * One frame of `renderScene` without the drawing: advance the running
     * turn or start the next command, refresh the snapshot, and commit the
     * turn once the angle has reached 90 degrees.
     */
    method Step()
      requires Valid()
      modifies this, cubies
      ensures cubies == old(cubies)
      ensures Valid()
      ensures State() == Frame(old(State()))
    {
      ghost var e := State();
      StepFacts(e);
      Advance();
      TakeSnapshot();
      Settle();
    }
  }

  /**
   * `createCubies`' nested loops: cubie `9 * ix + 3 * iy + iz` at the grid
   * point with coordinate indices `ix`, `iy`, `iz`.
   */
  method CreateCubies() returns (a: array<Pos>)
    ensures fresh(a)
    ensures a[..] == InitialPositions()
  {
    ghost var init := InitialPositions();
    a := new Pos[CubieCount](_ => Pos(0, 0, 0));
    var index := 0;
    for ix := 0 to 3
      invariant index == 9 * ix
      invariant a[..index] == init[..index]
    {
      for iy := 0 to 3
        invariant index == 9 * ix + 3 * iy
        invariant a[..index] == init[..index]
      {
        for iz := 0 to 3
          invariant index == 9 * ix + 3 * iy + iz
          invariant a[..index] == init[..index]
        {
          InitialAt(ix, iy, iz);
          a[index] := Pos(Coordinates[ix], Coordinates[iy], Coordinates[iz]);
          assert a[..index + 1] == a[..index] + [a[index]];
          assert init[..index + 1] == init[..index] + [init[index]];
          index := index + 1;
        }
      }
    }
    assert a[..] == a[..index];
  }
}
