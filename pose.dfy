/** Positions and poses (common/pose.h). Lengths and angles are reals in
    one fixed pair of units; converting between units is not modelled, so
    the conversion operators are checked for the same units on both sides. */
module Pose {
  /** `Vector2<T>` and `Vector3<T>`: fixed-size arrays of two and three values. */
  type Vector2 = s: seq<real> | |s| == 2 witness [0.0, 0.0]
  type Vector3 = s: seq<real> | |s| == 3 witness [0.0, 0.0, 0.0]

  /** `Position2`: a `PositionBase<LengthUnit, 2>`, whose x and y are
      elements 0 and 1 and whose z is the constant 0. */
  datatype Position2 = Position2(elems: Vector2) {
    /** `PositionBase::size()`: the N of the base class. */
    function Size(): (n: nat)
      ensures n == 2
    {
      |elems|
    }

    /** `operator[]`. */
    function At(i: nat): (r: real)
      requires i < Size()
      ensures r == elems[i]
    {
      elems[i]
    }

    function X(): (r: real)
      ensures r == At(0)
    {
      elems[0]
    }

    function Y(): (r: real)
      ensures r == At(1)
    {
      elems[1]
    }

    /** A planar position lies in the plane z = 0. */
    function Z(): (r: real)
      ensures r == 0.0
    {
      0.0
    }
  }

  /** `Position3`: a `PositionBase<LengthUnit, 3>`, whose x, y and z are
      elements 0, 1 and 2. */
  datatype Position3 = Position3(elems: Vector3) {
    function Size(): (n: nat)
      ensures n == 3
    {
      |elems|
    }

    function At(i: nat): (r: real)
      requires i < Size()
      ensures r == elems[i]
    {
      elems[i]
    }

    function X(): (r: real)
      ensures r == At(0)
    {
      elems[0]
    }

    function Y(): (r: real)
      ensures r == At(1)
    {
      elems[1]
    }

    function Z(): (r: real)
      ensures r == At(2)
    {
      elems[2]
    }
  }

  /** The `Position2(x, y)` constructor. */
  function MakePosition2(x: real, y: real): (p: Position2)
    ensures p.X() == x && p.Y() == y
  {
    Position2([x, y])
  }

  /** The `Position3(x, y, z)` constructor. */
  function MakePosition3(x: real, y: real, z: real): (p: Position3)
    ensures p.X() == x && p.Y() == y && p.Z() == z
  {
    Position3([x, y, z])
  }

  /** A two-dimensional pose: a planar position and a heading. */
  datatype Pose2 = Pose2(position: Position2, angle: real) {
    /** `x()` and `y()` read the position's elements 0 and 1; `z()`,
        `pitch()` and `roll()` are the constant 0; `yaw()` is the heading. */
    function X(): (r: real) ensures r == position.elems[0] { position.X() }
    function Y(): (r: real) ensures r == position.elems[1] { position.Y() }
    function Z(): (r: real) ensures r == 0.0 { 0.0 }
    function Yaw(): (r: real) ensures r == angle { angle }
    function Pitch(): (r: real) ensures r == 0.0 { 0.0 }
    function Roll(): (r: real) ensures r == 0.0 { 0.0 }

    /** `attitude()`: the heading is the only non-zero angle of a planar pose. */
    function Attitude(): (a: Vector3)
      ensures a[0] == Yaw() && a[1] == 0.0 && a[2] == 0.0
    {
      [Yaw(), Pitch(), Roll()]
    }

    /** `operator Pose2<...>()` in the same units: the pose itself. */
    function ToPose2(): (r: Pose2)
      ensures r.X() == X() && r.Y() == Y() && r.Yaw() == Yaw()
      ensures r == this
    {
      MakePose2(X(), Y(), Yaw())
    }

    /** `operator Pose3<...>()`: lift into space, at height 0 and with no
        pitch or roll. Projecting back gives the planar pose again. */
    function ToPose3(): (r: Pose3)
      ensures r.X() == X() && r.Y() == Y() && r.Yaw() == Yaw()
      ensures r.Z() == 0.0 && r.Pitch() == 0.0 && r.Roll() == 0.0
      ensures r.ToPose2() == this
    {
      Pose3(MakePosition3(X(), Y(), Z()), [Yaw(), Pitch(), Roll()])
    }
  }

  /** The `Pose2(x, y, angle)` constructor. */
  function MakePose2(x: real, y: real, angle: real): (p: Pose2)
    ensures p.X() == x && p.Y() == y && p.Yaw() == angle
  {
    Pose2(MakePosition2(x, y), angle)
  }

  /** A three-dimensional pose: a position and a (yaw, pitch, roll) attitude. */
  datatype Pose3 = Pose3(position: Position3, attitude: Vector3) {
    /** `x()`, `y()` and `z()` read the position's elements 0, 1 and 2;
        `yaw()`, `pitch()` and `roll()` read the attitude's. */
    function X(): (r: real) ensures r == position.elems[0] { position.X() }
    function Y(): (r: real) ensures r == position.elems[1] { position.Y() }
    function Z(): (r: real) ensures r == position.elems[2] { position.Z() }
    function Yaw(): (r: real) ensures r == attitude[0] { attitude[0] }
    function Pitch(): (r: real) ensures r == attitude[1] { attitude[1] }
    function Roll(): (r: real) ensures r == attitude[2] { attitude[2] }

    /** `operator Pose2<...>()`: keep x, y and yaw; drop z, pitch and roll. */
    function ToPose2(): (r: Pose2)
      ensures r.X() == X() && r.Y() == Y() && r.Yaw() == Yaw()
    {
      MakePose2(X(), Y(), Yaw())
    }

    /** `operator Pose3<...>()` in the same units: the pose itself. */
    function ToPose3(): (r: Pose3)
      ensures r.X() == X() && r.Y() == Y() && r.Z() == Z()
      ensures r.Yaw() == Yaw() && r.Pitch() == Pitch() && r.Roll() == Roll()
      ensures r == this
    {
      Pose3(MakePosition3(X(), Y(), Z()), [Yaw(), Pitch(), Roll()])
    }

    /** True when the pose lies in the plane z = 0 with no pitch or roll. */
    predicate IsPlanar()
    {
      Z() == 0.0 && Pitch() == 0.0 && Roll() == 0.0
    }
  }

  /** Projecting a spatial pose to the plane and lifting it back recovers
      it exactly when it was planar already. */
  lemma ProjectLiftIdentity(p: Pose3)
    ensures p.ToPose2().ToPose3() == p <==> p.IsPlanar()
  {
    var q := p.ToPose2().ToPose3();
    if p.IsPlanar() {
      assert q.position.elems == p.position.elems;
      assert q.attitude == p.attitude;
    }
  }

  /** Projecting to the plane forgets exactly z, pitch and roll: two spatial
      poses project to the same planar pose iff they agree on x, y and yaw. */
  lemma ProjectionKernel(p: Pose3, q: Pose3)
    ensures p.ToPose2() == q.ToPose2() <==> (p.X() == q.X() && p.Y() == q.Y() && p.Yaw() == q.Yaw())
  {
    if p.X() == q.X() && p.Y() == q.Y() && p.Yaw() == q.Yaw() {
      assert p.ToPose2().position.elems == q.ToPose2().position.elems;
    }
  }
}
