/**
 * The rotation engine's state and one animation frame of `renderScene`
 * (src/cubeDisplay.ts) with all drawing removed, as pure values. The class
 * Cube in module Display keeps the same state in fields and is proved to step
 * exactly as `Frame` does.
 *
 * `angle` is in tenths of a degree: the source's speed of 1.5 degrees per
 * frame is 15 and the full quarter of 90 degrees is 900, so a turn advances
 * for exactly 60 frames.
 */
module Animation {
  import opened Wrappers
  import opened Cubie
  import opened Layers
  import opened Commands

  const Speed: int := 15
  const FullAngle: int := 900
  const CubieCount: int := 27

  /** The rotation engine's state between two frames. */
  datatype Engine = Engine(
    cubies: seq<Pos>,
    sideIndices: SideIndices,
    queue: seq<Command>,
    turns: int,
    angle: int,
    layerToRotate: Option<Layer>,
    cubiesToRotate: seq<nat>)

  /** 27 cubies on distinct grid points. */
  predicate CubeInv(ps: seq<Pos>)
  {
    |ps| == CubieCount && Distinct(ps) && forall i :: 0 <= i < |ps| ==> OnGrid(ps[i])
  }

  /**
   * The engine invariant: 27 cubies on distinct grid points, the layer index
   * derived from their positions, a valid queue and a consistent progress.
   */
  predicate Inv(e: Engine)
  {
    && Shaped(e)
    && CubeInv(e.cubies)
    && e.sideIndices == Index(e.cubies)
    && QueueValid(e.queue)
    && Progress(e)
  }

  /** Only whitelisted directions are queued. */
  predicate QueueValid(q: seq<Command>)
  {
    forall c :: c in q ==> ValidDirection(c.direction)
  }

  /**
   * Idle means angle 0; while rotating the turn count is one of the three
   * valid ones, the angle is a multiple of the speed below 90 degrees, and
   * the snapshot of the rotating layer is its current member list.
   */
  predicate Progress(e: Engine)
  {
    && (e.turns == 0 ==> e.angle == 0)
    && (e.turns != 0 ==>
          && (e.turns == -1 || e.turns == 1 || e.turns == 2)
          && e.layerToRotate.Some?
          && 0 <= e.angle < FullAngle
          && e.angle % Speed == 0
          && e.cubiesToRotate == Members(e.cubies, e.layerToRotate.value))
  }

  /**
   * The little a frame needs in order to be defined: a layer has been
   * chosen whenever a turn may be running.
   */
  predicate Shaped(e: Engine)
  {
    e.layerToRotate.None? ==> e.turns == 0 && e.angle < FullAngle
  }

  /**
   * A turn in progress whose snapshot is the current member list of its
   * layer, as recorded in the index.
   */
  predicate Running(e: Engine)
  {
    && e.turns != 0
    && e.layerToRotate.Some?
    && e.cubiesToRotate == Members(e.cubies, e.layerToRotate.value)
    && e.sideIndices.Get(e.layerToRotate.value) == e.cubiesToRotate
  }

  /** Idle, with an up-to-date index and only whitelisted directions queued. */
  predicate Ready(e: Engine)
  {
    && e.turns == 0
    && e.angle == 0
    && e.sideIndices == Index(e.cubies)
    && QueueValid(e.queue)
  }

  lemma InvRunning(e: Engine)
    requires Inv(e) && e.turns != 0
    ensures Running(e)
  {
    IndexGet(e.cubies, e.layerToRotate.value);
  }

  /**
   * Every cubie whose index is in `chosen` turned by `turns` quarter turns
   * about `ax`; the others unchanged.
   */
  function ApplyTurn(ps: seq<Pos>, chosen: seq<nat>, ax: Axis, turns: int): (r: seq<Pos>)
    ensures |r| == |ps|
  {
    seq(|ps|, i requires 0 <= i < |ps| => if i in chosen then Turn(ps[i], ax, turns) else ps[i])
  }

  /** The positions after one committed turn of layer `l`. */
  function TurnLayer(ps: seq<Pos>, l: Layer, turns: int): seq<Pos>
  {
    ApplyTurn(ps, Members(ps, l), AxisOf(l), turns)
  }

  /**
   * Only the chosen cubies move, and each of them keeps its coordinate along
   * the axis and stays on the grid.
   */
  lemma ApplyTurnMovesChosen(ps: seq<Pos>, chosen: seq<nat>, ax: Axis, turns: int)
    ensures var r := ApplyTurn(ps, chosen, ax, turns);
      && (forall i :: 0 <= i < |ps| && i !in chosen ==> r[i] == ps[i])
      && (forall i :: 0 <= i < |ps| && i in chosen ==>
            Coord(r[i], ax) == Coord(ps[i], ax) && (OnGrid(ps[i]) ==> OnGrid(r[i])))
  {
  }

  /** A layer turn moves no cubie outside the layer. */
  lemma TurnLayerMovesLayer(ps: seq<Pos>, l: Layer, turns: int)
    ensures |TurnLayer(ps, l, turns)| == |ps|
    ensures forall i :: 0 <= i < |ps| && !InLayer(ps[i], l) ==> TurnLayer(ps, l, turns)[i] == ps[i]
  {
    MembersSpec(ps, l);
  }

  /** Turning a layer keeps its own cubies in it and every other cubie out. */
  lemma TurnLayerKeepsMembers(ps: seq<Pos>, l: Layer, turns: int)
    ensures Members(TurnLayer(ps, l, turns), l) == Members(ps, l)
  {
    var qs := TurnLayer(ps, l, turns);
    MembersSpec(ps, l);
    forall i | 0 <= i < |ps| ensures InLayer(ps[i], l) <==> InLayer(qs[i], l) {
    }
    MembersAgree(ps, qs, l);
  }

  /** A committed turn keeps 27 cubies on distinct grid points. */
  lemma TurnLayerKeepsCube(ps: seq<Pos>, l: Layer, turns: int)
    requires CubeInv(ps)
    ensures CubeInv(TurnLayer(ps, l, turns))
  {
    var qs := TurnLayer(ps, l, turns);
    var ax := AxisOf(l);
    MembersSpec(ps, l);
    forall i, j | 0 <= i < j < |qs| ensures qs[i] != qs[j] {
      var ini, inj := i in Members(ps, l), j in Members(ps, l);
      if ini && inj {
        if qs[i] == qs[j] {
          TurnInjective(ps[i], ps[j], ax, turns);
        }
      } else if ini && !inj {
        assert InLayer(qs[i], l) && !InLayer(qs[j], l);
      } else if !ini && inj {
        assert !InLayer(qs[i], l) && InLayer(qs[j], l);
      }
    }
  }

  /** Turning a layer by `a` and then by `b` is turning it by `a + b`. */
  lemma TurnLayerAdd(ps: seq<Pos>, l: Layer, a: int, b: int)
    ensures TurnLayer(TurnLayer(ps, l, a), l, b) == TurnLayer(ps, l, a + b)
  {
    TurnLayerKeepsMembers(ps, l, a);
    var m := Members(ps, l);
    forall i | 0 <= i < |ps| && i in m
      ensures Turn(Turn(ps[i], AxisOf(l), a), AxisOf(l), b) == Turn(ps[i], AxisOf(l), a + b)
    {
      TurnAdd(ps[i], AxisOf(l), a, b);
    }
  }

  /** A whole number of revolutions of a layer changes nothing. */
  lemma TurnLayerFull(ps: seq<Pos>, l: Layer, turns: int)
    requires turns % 4 == 0
    ensures TurnLayer(ps, l, turns) == ps
  {
    forall i | 0 <= i < |ps| ensures TurnLayer(ps, l, turns)[i] == ps[i] {
      TurnFullRevolution(ps[i], AxisOf(l), turns);
    }
  }

  /** Four clockwise turns of one layer restore every position. */
  lemma FourClockwiseLayerTurns(ps: seq<Pos>, l: Layer)
    ensures TurnLayer(TurnLayer(TurnLayer(TurnLayer(ps, l, -1), l, -1), l, -1), l, -1) == ps
  {
    TurnLayerAdd(ps, l, -1, -1);
    TurnLayerAdd(ps, l, -2, -1);
    TurnLayerAdd(ps, l, -3, -1);
    TurnLayerFull(ps, l, -4);
  }

  /** A clockwise turn of a layer followed by a counter-clockwise one is the identity. */
  lemma ClockwiseThenCounterClockwiseLayer(ps: seq<Pos>, l: Layer)
    ensures TurnLayer(TurnLayer(ps, l, -1), l, 1) == ps
  {
    TurnLayerAdd(ps, l, -1, 1);
    TurnLayerFull(ps, l, 0);
  }

  /** The end of a turn: positions committed, engine idle, index rebuilt. */
  function Commit(e: Engine): Engine
    requires e.layerToRotate.Some?
  {
    var ps := ApplyTurn(e.cubies, e.cubiesToRotate, AxisOf(e.layerToRotate.value), e.turns);
    e.(cubies := ps, angle := 0, turns := 0, sideIndices := Index(ps))
  }

  /**
   * A commit leaves the engine idle with the index rebuilt from the new
   * positions, moves no cubie outside the snapshot, and leaves the queue,
   * the layer and the snapshot alone.
   */
  lemma CommitIdle(e: Engine)
    requires e.layerToRotate.Some?
    ensures Commit(e).turns == 0 && Commit(e).angle == 0
    ensures Commit(e).sideIndices == Index(Commit(e).cubies)
    ensures |Commit(e).cubies| == |e.cubies|
    ensures forall i :: 0 <= i < |e.cubies| && i !in e.cubiesToRotate ==> Commit(e).cubies[i] == e.cubies[i]
    ensures Commit(e).queue == e.queue && Commit(e).layerToRotate == e.layerToRotate
    ensures Commit(e).cubiesToRotate == e.cubiesToRotate
  {
  }

  /**
   * The first part of a frame: a running turn advances by `Speed`, clamped
   * at 90 degrees; an idle engine with a non-empty queue dequeues the head
   * and maps its direction to a turn count, without advancing the angle.
   */
  function Advanced(e: Engine): (r: Engine)
    requires Shaped(e)
    ensures r.turns != 0 || r.angle >= FullAngle ==> r.layerToRotate.Some?
  {
    if e.turns != 0 then
      var next := e.angle + Speed;
      e.(angle := if next >= FullAngle then FullAngle else next)
    else if |e.queue| > 0 then
      e.(queue := e.queue[1..],
         turns := TurnsOf(e.queue[0].direction),
         layerToRotate := Some(e.queue[0].layer))
    else e
  }

  /** While a turn runs, the snapshot of its layer is re-read from the index. */
  function Snapshotted(e: Engine): (r: Engine)
    requires e.turns != 0 ==> e.layerToRotate.Some?
  {
    if e.turns != 0 then e.(cubiesToRotate := e.sideIndices.Get(e.layerToRotate.value)) else e
  }

  /**
   * Advancing never moves a cubie or touches the index; it leaves the queue
   * alone while a turn runs and otherwise takes at most its head.
   */
  lemma AdvancedQueue(e: Engine)
    requires Shaped(e)
    ensures Advanced(e).cubies == e.cubies && Advanced(e).sideIndices == e.sideIndices
    ensures e.turns != 0 ==> Advanced(e).queue == e.queue && Advanced(e).angle <= FullAngle
    ensures e.turns == 0 && |e.queue| > 0 ==> Advanced(e).queue == e.queue[1..] && Advanced(e).angle == e.angle
    ensures e.turns == 0 && |e.queue| == 0 ==> Advanced(e) == e
  {
  }

  /**
   * The snapshot is the only thing refreshed, and with an up-to-date index it
   * is the rotating layer's current member list.
   */
  lemma SnapshotIsMembers(e: Engine)
    requires e.turns != 0 ==> e.layerToRotate.Some?
    ensures Snapshotted(e) == e.(cubiesToRotate := Snapshotted(e).cubiesToRotate)
    ensures e.turns != 0 && e.sideIndices == Index(e.cubies) ==>
      Snapshotted(e).cubiesToRotate == Members(e.cubies, e.layerToRotate.value)
  {
    if e.turns != 0 {
      IndexGet(e.cubies, e.layerToRotate.value);
    }
  }

  /** Once the angle has reached 90 degrees, the turn is committed. */
  function Settled(e: Engine): (r: Engine)
    requires e.angle >= FullAngle ==> e.layerToRotate.Some?
  {
    if e.angle >= FullAngle then Commit(e) else e
  }

  /**
   * After the last part of a frame the angle is below 90 degrees; a frame
   * that has not reached it changes nothing here.
   */
  lemma SettledBelowFull(e: Engine)
    requires e.angle >= FullAngle ==> e.layerToRotate.Some?
    ensures Settled(e).angle < FullAngle
    ensures e.angle < FullAngle ==> Settled(e) == e
    ensures Settled(e).queue == e.queue
  {
  }

  /**
   * One frame of `renderScene`, drawing removed: `Settled(Snapshotted(Advanced(e)))`,
   * written out inline because the proofs about long runs of frames unfold
   * it many times; `FrameInParts` proves the two forms equal.
   */
  function Frame(e: Engine): (r: Engine)
    requires Shaped(e)
    ensures Shaped(r)
  {
    var a :=
      if e.turns != 0 then
        var next := e.angle + Speed;
        e.(angle := if next >= FullAngle then FullAngle else next)
      else if |e.queue| > 0 then
        e.(queue := e.queue[1..],
           turns := TurnsOf(e.queue[0].direction),
           layerToRotate := Some(e.queue[0].layer))
      else e;
    var b :=
      if a.turns != 0 then
        a.(cubiesToRotate := a.sideIndices.Get(a.layerToRotate.value))
      else a;
    if b.angle >= FullAngle then Commit(b) else b
  }

  /** A frame is the advance, then the snapshot, then the commit. */
  lemma FrameInParts(e: Engine)
    requires Shaped(e)
    ensures Frame(e) == Settled(Snapshotted(Advanced(e)))
  {
  }

  /**
   * When a frame reaches 90 degrees, the snapshot it commits is the current
   * member list of the rotating layer.
   */
  lemma CommitsCurrentMembers(e: Engine)
    requires Shaped(e)
    ensures var b := Snapshotted(Advanced(e));
      Inv(e) && b.angle >= FullAngle ==>
        b.layerToRotate.Some? && b.cubiesToRotate == Members(b.cubies, b.layerToRotate.value)
  {
    if Inv(e) && e.turns != 0 {
      IndexGet(e.cubies, e.layerToRotate.value);
    }
  }

  /**
   * What one step of the class needs to know about a frame from a valid
   * state: it keeps the invariant, it is the three parts in order, and
   * whatever its last part commits is the current member list.
   */
  lemma StepFacts(e: Engine)
    requires Inv(e)
    ensures Inv(Frame(e))
    ensures Frame(e) == Settled(Snapshotted(Advanced(e)))
    ensures var b := Snapshotted(Advanced(e));
      b.angle >= FullAngle ==>
        b.layerToRotate.Some? && b.cubiesToRotate == Members(b.cubies, b.layerToRotate.value)
  {
    FramePreservesInv(e);
    CommitsCurrentMembers(e);
    FrameInParts(e);
  }

  /** Frames leave a running turn alone except for its angle, until it commits. */
  lemma FrameWhileRotating(e: Engine)
    requires Running(e)
    ensures e.angle + Speed < FullAngle ==> Frame(e) == e.(angle := e.angle + Speed)
    ensures e.angle + Speed >= FullAngle ==> Frame(e) == Commit(e)
  {
  }

  /**
   * An idle frame with a non-empty queue dequeues the head and nothing else:
   * the head's layer and turn count become current, the angle stays 0 and
   * the layer's current members are the snapshot.
   */
  lemma FrameStartsHead(e: Engine)
    requires Ready(e) && |e.queue| > 0
    ensures Frame(e) == e.(queue := e.queue[1..],
                           turns := TurnsOf(e.queue[0].direction),
                           layerToRotate := Some(e.queue[0].layer),
                           cubiesToRotate := Members(e.cubies, e.queue[0].layer))
    ensures Frame(e).turns != 0
  {
    assert e.queue[0] in e.queue;
    IndexGet(e.cubies, e.queue[0].layer);
  }

  /** An idle frame with an empty queue changes nothing. */
  lemma FrameIdle(e: Engine)
    requires e.turns == 0 && e.angle == 0 && |e.queue| == 0
    ensures Frame(e) == e
  {
  }

  /**
   * Commands leave the queue only from the front, one per idle frame; while
   * a turn runs the queue is untouched.
   */
  lemma FrameQueue(e: Engine)
    requires Inv(e)
    ensures e.turns != 0 ==> Frame(e).queue == e.queue
    ensures e.turns == 0 && |e.queue| > 0 ==> Frame(e).queue == e.queue[1..]
    ensures |Frame(e).queue| >= |e.queue| - 1
  {
    if e.turns != 0 {
      InvRunning(e);
      FrameWhileRotating(e);
    } else if |e.queue| > 0 {
      FrameStartsHead(e);
    }
  }

  /** Committing a turn keeps the engine invariant. */
  lemma CommitInv(e: Engine)
    requires Inv(e) && e.turns != 0
    ensures Inv(Commit(e))
  {
    var ps := TurnLayer(e.cubies, e.layerToRotate.value, e.turns);
    TurnLayerKeepsCube(e.cubies, e.layerToRotate.value, e.turns);
  }

  /** Starting the head command keeps the engine invariant. */
  lemma StartInv(e: Engine)
    requires Inv(e) && e.turns == 0 && |e.queue| > 0
    ensures Inv(e.(queue := e.queue[1..],
                   turns := TurnsOf(e.queue[0].direction),
                   layerToRotate := Some(e.queue[0].layer),
                   cubiesToRotate := Members(e.cubies, e.queue[0].layer)))
  {
    assert e.queue[0] in e.queue;
    forall c | c in e.queue[1..] ensures ValidDirection(c.direction) {
      assert c in e.queue;
    }
  }

  /** Each frame keeps the engine invariant. */
  lemma FramePreservesInv(e: Engine)
    requires Shaped(e)
    ensures Inv(e) ==> Inv(Frame(e))
  {
    if !Inv(e) {
    } else if e.turns != 0 {
      InvRunning(e);
      FrameWhileRotating(e);
      if e.angle + Speed >= FullAngle {
        CommitInv(e);
      }
    } else if |e.queue| > 0 {
      FrameStartsHead(e);
      StartInv(e);
    } else {
      FrameIdle(e);
    }
  }

  /** `n` successive frames. */
  function Frames(e: Engine, n: nat): (r: Engine)
    requires Shaped(e)
    ensures Shaped(r)
    decreases n
  {
    if n == 0 then e else Frames(Frame(e), n - 1)
  }

  /** Any number of frames keeps the engine invariant. */
  lemma {:induction false} FramesPreserveInv(e: Engine, n: nat)
    requires Inv(e)
    ensures Inv(Frames(e, n))
    decreases n
  {
    if n > 0 {
      FramePreservesInv(e);
      FramesPreserveInv(Frame(e), n - 1);
    }
  }

  lemma {:induction false} FramesAdd(e: Engine, a: nat, b: nat)
    requires Shaped(e)
    ensures Frames(Frames(e, a), b) == Frames(e, a + b)
    decreases a
  {
    if a > 0 {
      var f := Frame(e);
      calc {
        Frames(Frames(e, a), b);
        Frames(Frames(f, a - 1), b);
        { FramesAdd(f, a - 1, b); }
        Frames(f, a - 1 + b);
        Frames(e, a + b);
      }
    }
  }

  /**
   * A running turn at angle `FullAngle - Speed * k` commits after exactly
   * `k` more frames and stays in progress, with the queue untouched, before.
   */
  lemma {:induction false} RotationFinishes(e: Engine, k: nat)
    requires Running(e)
    requires 1 <= k && e.angle == FullAngle - Speed * k
    ensures Frames(e, k) == Commit(e)
    ensures forall j :: 0 <= j < k ==> Frames(e, j).turns != 0 && Frames(e, j).queue == e.queue
    decreases k
  {
    FrameWhileRotating(e);
    var f := Frame(e);
    assert Frames(e, k) == Frames(f, k - 1);
    if k > 1 {
      assert f == e.(angle := e.angle + Speed);
      RotationFinishes(f, k - 1);
      assert Commit(f) == Commit(e);
      forall j | 0 < j < k ensures Frames(e, j).turns != 0 && Frames(e, j).queue == e.queue {
        assert Frames(e, j) == Frames(f, j - 1);
      }
    }
  }

  /** Frames an idle engine needs to carry out the command at the head of its queue. */
  const CommandFrames: nat := 1 + 60

  /**
   * The state an idle engine reaches by carrying out the command at the head
   * of its queue: that layer turned, the index rebuilt, the head dequeued,
   * idle again. The last layer and snapshot stay behind in their fields.
   */
  function AfterCommand(e: Engine): Engine
    requires |e.queue| > 0
  {
    var c := e.queue[0];
    var ps := TurnLayer(e.cubies, c.layer, TurnsOf(c.direction));
    e.(cubies := ps, sideIndices := Index(ps), queue := e.queue[1..], turns := 0, angle := 0,
       layerToRotate := Some(c.layer), cubiesToRotate := Members(e.cubies, c.layer))
  }

  /**
   * From idle, the head command is carried out in exactly `CommandFrames`
   * frames: one frame dequeues it and sixty more turn its layer.
   */
  lemma RunHeadCommand(e: Engine)
    requires Ready(e) && |e.queue| > 0
    ensures Frames(e, CommandFrames) == AfterCommand(e)
    ensures Ready(AfterCommand(e))
  {
    FrameStartsHead(e);
    var f := Frame(e);
    IndexGet(e.cubies, e.queue[0].layer);
    RotationFinishes(f, 60);
    FramesAdd(e, 1, 60);
    assert Commit(f) == AfterCommand(e);
    forall c | c in e.queue[1..] ensures ValidDirection(c.direction) {
      assert c in e.queue;
    }
  }

  /** Carrying out a command keeps the engine invariant. */
  lemma AfterCommandInv(e: Engine)
    requires Inv(e) && e.turns == 0 && |e.queue| > 0
    ensures Inv(AfterCommand(e))
  {
    RunHeadCommand(e);
    FramesPreserveInv(e, CommandFrames);
  }

  /** While the head command runs, no other command starts. */
  lemma HeadCommandRunsAlone(e: Engine, j: nat)
    requires Ready(e) && |e.queue| > 0
    requires 1 <= j < CommandFrames
    ensures Frames(e, j).turns != 0 && Frames(e, j).queue == e.queue[1..]
  {
    FrameStartsHead(e);
    var f := Frame(e);
    IndexGet(e.cubies, e.queue[0].layer);
    RotationFinishes(f, 60);
    assert Frames(e, j) == Frames(f, j - 1);
  }

  /** The positions after carrying out `cmds` one after another. */
  function RunAll(ps: seq<Pos>, cmds: seq<Command>): seq<Pos>
    decreases |cmds|
  {
    if cmds == [] then ps
    else RunAll(TurnLayer(ps, cmds[0].layer, TurnsOf(cmds[0].direction)), cmds[1..])
  }

  /** The state after carrying out the first `n` queued commands in turn. */
  function RunCommands(e: Engine, n: nat): Engine
    requires n <= |e.queue|
    decreases n
  {
    if n == 0 then e else RunCommands(AfterCommand(e), n - 1)
  }

  /**
   * Carrying out `n` commands takes them from the front of the queue and
   * applies their turns in submission order.
   */
  lemma {:induction false} RunCommandsInOrder(e: Engine, n: nat)
    requires n <= |e.queue|
    ensures RunCommands(e, n).queue == e.queue[n..]
    ensures RunCommands(e, n).cubies == RunAll(e.cubies, e.queue[..n])
    ensures n > 0 ==> RunCommands(e, n).turns == 0
    decreases n
  {
    if n == 0 {
      assert e.queue[..0] == [];
    } else {
      var f := AfterCommand(e);
      RunCommandsInOrder(f, n - 1);
      assert f.queue[n - 1..] == e.queue[n..];
      assert e.queue[..n][1..] == f.queue[..n - 1];
    }
  }

  /** Frames needed to carry out `n` queued commands from idle. */
  function CommandsFrames(n: nat): nat
  {
    if n == 0 then 0 else CommandFrames + CommandsFrames(n - 1)
  }

  lemma {:induction false} CommandsFramesCount(n: nat)
    ensures CommandsFrames(n) == n * CommandFrames
  {
    if n > 0 {
      CommandsFramesCount(n - 1);
    }
  }

  /** Frames compose: reaching `a` in `k` frames and then `r` in `m` frames reaches `r` in `k + m`. */
  lemma FramesThen(e: Engine, k: nat, a: Engine, m: nat, r: Engine)
    requires Shaped(e) && Frames(e, k) == a && Shaped(a) && Frames(a, m) == r
    ensures Frames(e, k + m) == r
  {
    FramesAdd(e, k, m);
  }

  /** From idle, the frames carry out queued commands one at a time. */
  lemma {:induction false} FramesRunCommands(e: Engine, n: nat)
    requires Ready(e) && n <= |e.queue|
    ensures Frames(e, CommandsFrames(n)) == RunCommands(e, n)
    decreases n
  {
    if n > 0 {
      var f, k, m := AfterCommand(e), CommandFrames, CommandsFrames(n - 1);
      RunHeadCommand(e);
      FramesRunCommands(f, n - 1);
      FramesThen(e, k, f, m, RunCommands(f, n - 1));
      assert CommandsFrames(n) == k + m;
    }
  }

  /**
   * From idle, `n` queued commands are carried out strictly one at a time in
   * submission order, `CommandFrames` frames each; the rest stay queued.
   */
  lemma RunInOrder(e: Engine, n: nat)
    requires Ready(e) && n <= |e.queue|
    ensures Frames(e, n * CommandFrames).turns == 0
    ensures Frames(e, n * CommandFrames).queue == e.queue[n..]
    ensures Frames(e, n * CommandFrames).cubies == RunAll(e.cubies, e.queue[..n])
  {
    FramesRunCommands(e, n);
    RunCommandsInOrder(e, n);
    CommandsFramesCount(n);
  }

  lemma RunAllCons(ps: seq<Pos>, c: Command, rest: seq<Command>)
    ensures RunAll(ps, [c] + rest) == RunAll(TurnLayer(ps, c.layer, TurnsOf(c.direction)), rest)
  {
    assert ([c] + rest)[1..] == rest;
  }

  /** Running four clockwise commands on one layer restores every position. */
  lemma RunFourClockwise(ps: seq<Pos>, l: Layer)
    ensures var c := Command(l, Clockwise); RunAll(ps, [c, c, c, c]) == ps
  {
    var c := Command(l, Clockwise);
    assert [c, c, c, c] == [c] + ([c] + ([c] + ([c] + [])));
    var p1 := TurnLayer(ps, l, -1);
    var p2 := TurnLayer(p1, l, -1);
    var p3 := TurnLayer(p2, l, -1);
    RunAllCons(ps, c, [c] + ([c] + ([c] + [])));
    RunAllCons(p1, c, [c] + ([c] + []));
    RunAllCons(p2, c, [c] + []);
    RunAllCons(p3, c, []);
    FourClockwiseLayerTurns(ps, l);
  }

  /**
   * Four queued clockwise turns of one layer, carried out from idle, bring
   * every cubie back to where it started.
   */
  lemma FourClockwiseCommands(e: Engine, l: Layer)
    requires Ready(e) && |e.queue| >= 4
    requires forall i :: 0 <= i < 4 ==> e.queue[i] == Command(l, Clockwise)
    ensures Frames(e, 4 * CommandFrames).cubies == e.cubies
    ensures Frames(e, 4 * CommandFrames).queue == e.queue[4..]
  {
    RunInOrder(e, 4);
    var c := Command(l, Clockwise);
    assert e.queue[..4] == [c, c, c, c];
    RunFourClockwise(e.cubies, l);
  }

  /** Running a clockwise then a counter-clockwise command on one layer restores every position. */
  lemma RunClockwiseThenCounterClockwise(ps: seq<Pos>, l: Layer)
    ensures RunAll(ps, [Command(l, Clockwise), Command(l, CounterClockwise)]) == ps
  {
    var cw, ccw := Command(l, Clockwise), Command(l, CounterClockwise);
    assert [cw, ccw] == [cw] + ([ccw] + []);
    RunAllCons(ps, cw, [ccw] + []);
    RunAllCons(TurnLayer(ps, l, -1), ccw, []);
    ClockwiseThenCounterClockwiseLayer(ps, l);
  }

  /**
   * A queued clockwise turn followed by a counter-clockwise turn of the same
   * layer, carried out from idle, brings every cubie back.
   */
  lemma ClockwiseThenCounterClockwiseCommands(e: Engine, l: Layer)
    requires Ready(e) && |e.queue| >= 2
    requires e.queue[0] == Command(l, Clockwise) && e.queue[1] == Command(l, CounterClockwise)
    ensures Frames(e, 2 * CommandFrames).cubies == e.cubies
    ensures Frames(e, 2 * CommandFrames).queue == e.queue[2..]
  {
    RunInOrder(e, 2);
    assert e.queue[..2] == [Command(l, Clockwise), Command(l, CounterClockwise)];
    RunClockwiseThenCounterClockwise(e.cubies, l);
  }

  /** The grid values -2.25, 0 and 2.25, in hundredths. */
  const Coordinates: seq<int> := [-GridStep, 0, GridStep]

  /** Cubie `9 * ix + 3 * iy + iz` starts at the grid point with those coordinate indices. */
  function InitialPositions(): (ps: seq<Pos>)
    ensures |ps| == CubieCount
  {
    seq(CubieCount, i requires 0 <= i < CubieCount =>
      Pos(Coordinates[i / 9], Coordinates[i / 3 % 3], Coordinates[i % 3]))
  }

  lemma InitialAt(ix: nat, iy: nat, iz: nat)
    requires ix < 3 && iy < 3 && iz < 3
    ensures 9 * ix + 3 * iy + iz < CubieCount
    ensures InitialPositions()[9 * ix + 3 * iy + iz] == Pos(Coordinates[ix], Coordinates[iy], Coordinates[iz])
  {
    var i := 9 * ix + 3 * iy + iz;
    assert i / 9 == ix && i / 3 % 3 == iy && i % 3 == iz;
  }

  /** Where a grid coordinate sits in `Coordinates`. */
  function CoordIndex(c: int): nat
  {
    if c < 0 then 0 else if c == 0 then 1 else 2
  }

  /** The initial numbering read back from a position. */
  function InitialIndex(p: Pos): nat
  {
    9 * CoordIndex(p.x) + 3 * CoordIndex(p.y) + CoordIndex(p.z)
  }

  lemma BaseThreeDigits(i: nat)
    requires i < CubieCount
    ensures i / 9 < 3 && i / 3 % 3 < 3 && i % 3 < 3
    ensures 9 * (i / 9) + 3 * (i / 3 % 3) + i % 3 == i
  {
  }

  lemma InitialIndexInverse(i: nat)
    requires i < CubieCount
    ensures InitialIndex(InitialPositions()[i]) == i
    ensures OnGrid(InitialPositions()[i])
  {
    BaseThreeDigits(i);
    var ix, iy, iz := i / 9, i / 3 % 3, i % 3;
    assert InitialPositions()[i] == Pos(Coordinates[ix], Coordinates[iy], Coordinates[iz]);
    assert CoordIndex(Coordinates[ix]) == ix;
    assert CoordIndex(Coordinates[iy]) == iy;
    assert CoordIndex(Coordinates[iz]) == iz;
  }

  /** The initial cube: 27 distinct grid points. */
  lemma InitialCube()
    ensures CubeInv(InitialPositions())
  {
    var ps := InitialPositions();
    forall i | 0 <= i < |ps|
      ensures InitialIndex(ps[i]) == i && OnGrid(ps[i])
    {
      InitialIndexInverse(i);
    }
  }

  /** The engine as the page loads: initial grid, its index, nothing queued or running. */
  function Initial(): (e: Engine)
    ensures Inv(e)
  {
    InitialCube();
    var ps := InitialPositions();
    Engine(ps, Index(ps), [], 0, 0, None, [])
  }

  /** Initially the right layer is exactly the last nine cubies (x = 2.25). */
  lemma InitialRightLayer()
    ensures forall i :: i in Members(InitialPositions(), Right) <==> 18 <= i < CubieCount
  {
    var ps := InitialPositions();
    MembersSpec(ps, Right);
    forall i | 0 <= i < CubieCount ensures InLayer(ps[i], Right) <==> 18 <= i {
    }
  }

  /** Every layer of a valid engine lists exactly nine cubies. */
  lemma LayerIndexSizes(e: Engine, l: Layer)
    requires Inv(e)
    ensures |e.sideIndices.Get(l)| == 9
  {
    LayerSizes(e.cubies, l);
  }
}
