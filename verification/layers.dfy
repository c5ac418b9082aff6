/**
 * The nine named layers, the layer -> rotation axis table of
 * `getSideRotationAxes`, and the layer index that `updateSideIndices`
 * derives from cubie positions (src/cubeDisplay.ts).
 */
module Layers {
  import opened Wrappers
  import opened Cubie

  datatype Layer =
    | Left | Middle | Right      // classified on X
    | Bottom | Equator | Top     // classified on Y
    | Back | Standing | Front    // classified on Z

  /** The layer's name in the command language. */
  function LayerName(l: Layer): string
  {
    match l
    case Left => "left"
    case Middle => "middle"
    case Right => "right"
    case Bottom => "bottom"
    case Equator => "equator"
    case Top => "top"
    case Back => "back"
    case Standing => "standing"
    case Front => "front"
  }

  /** Membership in the whitelist of layer names that `rotate` accepts. */
  function ParseLayer(s: string): (r: Option<Layer>)
    ensures r.Some? ==> LayerName(r.value) == s
    ensures r.None? ==> forall l: Layer :: LayerName(l) != s
  {
    if s == "front" then Some(Front)
    else if s == "back" then Some(Back)
    else if s == "top" then Some(Top)
    else if s == "bottom" then Some(Bottom)
    else if s == "right" then Some(Right)
    else if s == "left" then Some(Left)
    else if s == "middle" then Some(Middle)
    else if s == "equator" then Some(Equator)
    else if s == "standing" then Some(Standing)
    else None
  }

  /** Every layer's own name is accepted and read back as that layer. */
  lemma ParseLayerName(l: Layer)
    ensures ParseLayer(LayerName(l)) == Some(l)
  {
  }

  /** The rotation axis of each layer, the table `getSideRotationAxes` builds. */
  function AxisOf(l: Layer): Axis
  {
    match l
    case Front | Standing | Back => Z
    case Top | Equator | Bottom => Y
    case Right | Middle | Left => X
  }

  /**
   * JavaScript's `Math.round` applied to a coordinate given in hundredths:
   * rounds to the nearest whole unit, halves toward positive infinity.
   */
  function RoundUnits(h: int): (r: int)
    ensures r * 100 - 50 <= h < r * 100 + 50
  {
    (h + 50) / 100
  }

  /**
   * The layer a position falls in along `ax`: the rounded coordinate is
   * negative, zero or positive.
   */
  function Classify(p: Pos, ax: Axis): (r: Layer)
    ensures AxisOf(r) == ax
  {
    var v := RoundUnits(Coord(p, ax));
    match ax
    case X => if v < 0 then Left else if v == 0 then Middle else Right
    case Y => if v < 0 then Bottom else if v == 0 then Equator else Top
    case Z => if v < 0 then Back else if v == 0 then Standing else Front
  }

  predicate InLayer(p: Pos, l: Layer)
  {
    Classify(p, AxisOf(l)) == l
  }

  /** Coordinate value of the grid plane that holds a layer. */
  function Level(l: Layer): int
  {
    match l
    case Left | Bottom | Back => -GridStep
    case Middle | Equator | Standing => 0
    case Right | Top | Front => GridStep
  }

  /**
   * A layer turns about the one axis along which cubies are sorted into it:
   * some position falls in `l` along `ax` exactly when `ax` is its rotation axis.
   */
  lemma RotationAxis(l: Layer, ax: Axis)
    ensures (exists p :: Classify(p, ax) == l) <==> ax == AxisOf(l)
  {
    if ax == AxisOf(l) {
      var p := Place(ax, Level(l), 0, 0);
      assert Classify(p, ax) == l;
    }
  }

  /** On the grid, a layer is exactly the plane at its level on its axis. */
  lemma GridLayer(p: Pos, l: Layer)
    requires OnGrid(p)
    ensures InLayer(p, l) <==> Coord(p, AxisOf(l)) == Level(l)
  {
  }

  /**
   * The indices, in ascending order, of the cubies at `ps` that lie in layer
   * `l`: the list `updateSideIndices` builds by pushing each index in turn.
   */
  function Members(ps: seq<Pos>, l: Layer): seq<nat>
    decreases |ps|
  {
    if |ps| == 0 then []
    else
      Members(ps[..|ps| - 1], l) + (if InLayer(ps[|ps| - 1], l) then [|ps| - 1] else [])
  }

  /**
   * The layer index: one list of cubie indices under each of the nine
   * layer names.
   */
  datatype SideIndices = SideIndices(
    left: seq<nat>, middle: seq<nat>, right: seq<nat>,
    bottom: seq<nat>, equator: seq<nat>, top: seq<nat>,
    back: seq<nat>, standing: seq<nat>, front: seq<nat>)
  {
    /** The list under layer `l`. */
    function Get(l: Layer): seq<nat>
    {
      match l
      case Left => left
      case Middle => middle
      case Right => right
      case Bottom => bottom
      case Equator => equator
      case Top => top
      case Back => back
      case Standing => standing
      case Front => front
    }

    /** Append index `i` to the list under layer `l` and leave the others alone. */
    function Push(l: Layer, i: nat): (r: SideIndices)
      ensures r.Get(l) == Get(l) + [i]
      ensures forall k :: k != l ==> r.Get(k) == Get(k)
    {
      match l
      case Left => this.(left := left + [i])
      case Middle => this.(middle := middle + [i])
      case Right => this.(right := right + [i])
      case Bottom => this.(bottom := bottom + [i])
      case Equator => this.(equator := equator + [i])
      case Top => this.(top := top + [i])
      case Back => this.(back := back + [i])
      case Standing => this.(standing := standing + [i])
      case Front => this.(front := front + [i])
    }
  }

  /** All nine lists empty. */
  const NoIndices: SideIndices := SideIndices([], [], [], [], [], [], [], [], [])

  /**
   * The layer index derived from the positions `ps`: under every layer
   * name, the ascending list of the cubies that lie in it.
   */
  function Index(ps: seq<Pos>): (m: SideIndices)
  {
    SideIndices(
      Members(ps, Left), Members(ps, Middle), Members(ps, Right),
      Members(ps, Bottom), Members(ps, Equator), Members(ps, Top),
      Members(ps, Back), Members(ps, Standing), Members(ps, Front))
  }

  /** The list under every layer name is that layer's member list. */
  lemma IndexGet(ps: seq<Pos>, l: Layer)
    ensures Index(ps).Get(l) == Members(ps, l)
  {
  }

  /** Two layer indices with the same nine lists are equal. */
  lemma SideIndicesExt(a: SideIndices, b: SideIndices)
    requires forall l :: a.Get(l) == b.Get(l)
    ensures a == b
  {
    assert a.Get(Left) == b.Get(Left) && a.Get(Middle) == b.Get(Middle) && a.Get(Right) == b.Get(Right);
    assert a.Get(Bottom) == b.Get(Bottom) && a.Get(Equator) == b.Get(Equator) && a.Get(Top) == b.Get(Top);
    assert a.Get(Back) == b.Get(Back) && a.Get(Standing) == b.Get(Standing) && a.Get(Front) == b.Get(Front);
  }

  /** Appending a cubie appends its index to the lists of the layers it lies in. */
  lemma MembersSnoc(ps: seq<Pos>, p: Pos, l: Layer)
    ensures Members(ps + [p], l) == Members(ps, l) + (if InLayer(p, l) then [|ps|] else [])
  {
    assert (ps + [p])[..|ps|] == ps;
  }

  /** Pushing index `i` onto the layer `p` falls in along `ax`, for the layers of `ax`. */
  function PushAlong(m: SideIndices, p: Pos, ax: Axis, i: nat): SideIndices
  {
    m.Push(Classify(p, ax), i)
  }

  /** What `updateSideIndices` does for one cubie: one push per axis. */
  function PushCubie(m: SideIndices, p: Pos, i: nat): SideIndices
  {
    PushAlong(PushAlong(PushAlong(m, p, X, i), p, Y, i), p, Z, i)
  }

  lemma PushCubieGet(m: SideIndices, p: Pos, i: nat, l: Layer)
    ensures PushCubie(m, p, i).Get(l) == m.Get(l) + (if InLayer(p, l) then [i] else [])
  {
    var a := PushAlong(m, p, X, i);
    var b := PushAlong(a, p, Y, i);
    var c := PushAlong(b, p, Z, i);
    assert a.Get(l) == m.Get(l) + (if Classify(p, X) == l then [i] else []);
    assert b.Get(l) == a.Get(l) + (if Classify(p, Y) == l then [i] else []);
    assert c.Get(l) == b.Get(l) + (if Classify(p, Z) == l then [i] else []);
    match AxisOf(l)
    case X => assert Classify(p, Y) != l && Classify(p, Z) != l;
    case Y => assert Classify(p, X) != l && Classify(p, Z) != l;
    case Z => assert Classify(p, X) != l && Classify(p, Y) != l;
  }

  /** The index of `ps + [p]` is the index of `ps` with the new cubie pushed. */
  lemma IndexSnoc(ps: seq<Pos>, p: Pos)
    ensures Index(ps + [p]) == PushCubie(Index(ps), p, |ps|)
  {
    var r := PushCubie(Index(ps), p, |ps|);
    forall l ensures Index(ps + [p]).Get(l) == r.Get(l) {
      IndexGet(ps + [p], l);
      IndexGet(ps, l);
      MembersSnoc(ps, p, l);
      PushCubieGet(Index(ps), p, |ps|, l);
    }
    SideIndicesExt(Index(ps + [p]), r);
  }

  /** Strictly increasing indices: ascending and free of repeats. */
  predicate Ascending(s: seq<nat>)
  {
    forall i, j :: 0 <= i < j < |s| ==> s[i] < s[j]
  }

  /** An index is listed under a layer exactly when its cubie lies in it. */
  lemma {:induction false} MembersSpec(ps: seq<Pos>, l: Layer)
    ensures forall i :: i in Members(ps, l) <==> 0 <= i < |ps| && InLayer(ps[i], l)
    ensures Ascending(Members(ps, l))
    ensures forall k :: 0 <= k < |Members(ps, l)| ==> Members(ps, l)[k] < |ps|
    decreases |ps|
  {
    if |ps| > 0 {
      var n := |ps| - 1;
      MembersSpec(ps[..n], l);
      forall i ensures i in Members(ps, l) <==> 0 <= i < |ps| && InLayer(ps[i], l) {
        if 0 <= i < n {
          assert ps[..n][i] == ps[i];
        }
      }
    }
  }

  /** Each cubie is listed under exactly one layer of every axis. */
  lemma OneLayerPerAxis(ps: seq<Pos>, i: nat, ax: Axis)
    requires i < |ps|
    ensures i in Members(ps, Classify(ps[i], ax))
    ensures forall l :: AxisOf(l) == ax && i in Members(ps, l) ==> l == Classify(ps[i], ax)
  {
    MembersSpec(ps, Classify(ps[i], ax));
    forall l | AxisOf(l) == ax && i in Members(ps, l) ensures l == Classify(ps[i], ax) {
      MembersSpec(ps, l);
    }
  }

  /** The member list of a layer depends only on which cubies lie in it. */
  lemma {:induction false} MembersAgree(ps: seq<Pos>, qs: seq<Pos>, l: Layer)
    requires |ps| == |qs|
    requires forall i :: 0 <= i < |ps| ==> (InLayer(ps[i], l) <==> InLayer(qs[i], l))
    ensures Members(ps, l) == Members(qs, l)
    decreases |ps|
  {
    if |ps| > 0 {
      var n := |ps| - 1;
      MembersAgree(ps[..n], qs[..n], l);
    }
  }

  /** The three layers of one axis together list every cubie once. */
  lemma {:induction false} AxisCountsSum(ps: seq<Pos>, neg: Layer, mid: Layer, pos: Layer)
    requires AxisOf(neg) == AxisOf(mid) == AxisOf(pos)
    requires neg != mid && mid != pos && neg != pos
    ensures |Members(ps, neg)| + |Members(ps, mid)| + |Members(ps, pos)| == |ps|
    decreases |ps|
  {
    if |ps| > 0 {
      var n := |ps| - 1;
      AxisCountsSum(ps[..n], neg, mid, pos);
      var c := Classify(ps[n], AxisOf(neg));
      assert c == neg || c == mid || c == pos;
    }
  }

  /** Pairwise distinct positions. */
  predicate Distinct(ps: seq<Pos>)
  {
    forall i, j :: 0 <= i < j < |ps| ==> ps[i] != ps[j]
  }

  /**
   * Distinct positions whose members of layer `l` are all drawn from `pool`
   * give `l` at most `|pool|` members.
   */
  lemma {:induction false} MembersBound(ps: seq<Pos>, l: Layer, pool: set<Pos>)
    requires Distinct(ps)
    requires forall i :: 0 <= i < |ps| && InLayer(ps[i], l) ==> ps[i] in pool
    ensures |Members(ps, l)| <= |pool|
    decreases |ps|
  {
    if |ps| > 0 {
      var n := |ps| - 1;
      if InLayer(ps[n], l) {
        var rest := pool - {ps[n]};
        forall i | 0 <= i < n && InLayer(ps[..n][i], l) ensures ps[..n][i] in rest {
          assert ps[i] != ps[n];
        }
        MembersBound(ps[..n], l, rest);
      } else {
        MembersBound(ps[..n], l, pool);
      }
    }
  }

  /** Place the two free coordinates `a`, `b` beside a fixed one on `ax`. */
  function Place(ax: Axis, level: int, a: int, b: int): Pos
  {
    match ax
    case X => Pos(level, a, b)
    case Y => Pos(a, level, b)
    case Z => Pos(a, b, level)
  }

  /** The nine grid points of the plane that holds layer `l`. */
  function Plane(l: Layer): (s: set<Pos>)
    ensures |s| <= 9
  {
    var ax, v, c := AxisOf(l), Level(l), GridStep;
    {Place(ax, v, -c, -c), Place(ax, v, -c, 0), Place(ax, v, -c, c),
     Place(ax, v, 0, -c), Place(ax, v, 0, 0), Place(ax, v, 0, c),
     Place(ax, v, c, -c), Place(ax, v, c, 0), Place(ax, v, c, c)}
  }

  lemma PlaneHoldsLayer(p: Pos, l: Layer)
    requires OnGrid(p) && InLayer(p, l)
    ensures p in Plane(l)
  {
    GridLayer(p, l);
  }

  /**
   * 27 distinct grid positions put exactly nine cubies in every layer.
   */
  lemma LayerSizes(ps: seq<Pos>, l: Layer)
    requires |ps| == 27 && Distinct(ps)
    requires forall i :: 0 <= i < |ps| ==> OnGrid(ps[i])
    ensures |Members(ps, l)| == 9
  {
    var (neg, mid, pos) := match AxisOf(l)
      case X => (Left, Middle, Right)
      case Y => (Bottom, Equator, Top)
      case Z => (Back, Standing, Front);
    forall m | m in {neg, mid, pos} ensures |Members(ps, m)| <= 9 {
      forall i | 0 <= i < |ps| && InLayer(ps[i], m) ensures ps[i] in Plane(m) {
        PlaneHoldsLayer(ps[i], m);
      }
      MembersBound(ps, m, Plane(m));
    }
    AxisCountsSum(ps, neg, mid, pos);
  }
}
