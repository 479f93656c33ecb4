/** The per-coordinate drift rule: move by velocity times change speed, and
    on leaving [0, 1] clamp to the nearer bound and reverse that component. */
module Reflection {
  import opened Vectors

  datatype Bounce = Bounce(pos: real, vel: real)

  /** The unit-interval point nearest to `x`. */
  ghost predicate NearestInUnit(p: real, x: real) {
    InUnit(p) && forall y :: InUnit(y) ==> Dist(p, x) <= Dist(y, x)
  }

  /** One coordinate's update: move by velocity times change speed; outside
      [0, 1], clamp to the nearer bound and reverse the component. */
  function Reflect(pos: real, vel: real, changeSpeed: real): (b: Bounce)
    ensures InUnit(b.pos)
    ensures b.vel == vel || b.vel == -vel
  {
    var moved := pos + vel * changeSpeed;
    if moved > 1.0 || moved < 0.0 then
      Bounce(if moved > 1.0 then 1.0 else 0.0, -vel)
    else
      Bounce(moved, vel)
  }

  /** What one coordinate's update means: the new position is the projection
      of the moved position onto [0, 1]; a non-zero component is reversed
      exactly when the moved position left [0, 1] and kept otherwise, so its
      magnitude never changes. */
  lemma ReflectSpec(pos: real, vel: real, changeSpeed: real)
    ensures NearestInUnit(Reflect(pos, vel, changeSpeed).pos, pos + vel * changeSpeed)
    ensures InUnit(pos + vel * changeSpeed) ==> Reflect(pos, vel, changeSpeed).pos == pos + vel * changeSpeed
    ensures Reflect(pos, vel, changeSpeed).vel == vel || Reflect(pos, vel, changeSpeed).vel == -vel
    ensures vel != 0.0 ==> (Reflect(pos, vel, changeSpeed).vel == -vel <==> !InUnit(pos + vel * changeSpeed))
    ensures Reflect(pos, vel, changeSpeed).vel * Reflect(pos, vel, changeSpeed).vel == vel * vel
  {
  }

  /** A coordinate inside [0, 1] with no drift speed stays put. */
  lemma ReflectAtRest(pos: real, vel: real)
    requires InUnit(pos)
    ensures Reflect(pos, vel, 0.0) == Bounce(pos, vel)
  {
  }

  /** One centroid's update: every coordinate independently through `Reflect`. */
  function MoveCentre(centre: seq<real>, speed: seq<real>, changeSpeed: real): (m: (seq<real>, seq<real>))
    requires |centre| == |speed|
    ensures |m.0| == |centre| && |m.1| == |speed|
    ensures forall j :: 0 <= j < |centre| ==>
              Bounce(m.0[j], m.1[j]) == Reflect(centre[j], speed[j], changeSpeed)
  {
    var c := seq(|centre|, j requires 0 <= j < |centre| => Reflect(centre[j], speed[j], changeSpeed).pos);
    var v := seq(|speed|, j requires 0 <= j < |speed| => Reflect(centre[j], speed[j], changeSpeed).vel);
    (c, v)
  }

  /** What one centroid's update means: the centre ends inside the unit cube,
      each velocity component keeps or flips its sign, and the velocity keeps
      its sum of squares. */
  lemma MoveCentreSpec(centre: seq<real>, speed: seq<real>, changeSpeed: real)
    requires |centre| == |speed|
    ensures forall j :: 0 <= j < |centre| ==> InUnit(MoveCentre(centre, speed, changeSpeed).0[j])
    ensures forall j :: 0 <= j < |speed| ==>
              MoveCentre(centre, speed, changeSpeed).1[j] == speed[j]
              || MoveCentre(centre, speed, changeSpeed).1[j] == -speed[j]
    ensures SumSq(MoveCentre(centre, speed, changeSpeed).1) == SumSq(speed)
  {
    var m := MoveCentre(centre, speed, changeSpeed);
    forall j | 0 <= j < |centre|
      ensures InUnit(m.0[j])
      ensures m.1[j] == speed[j] || m.1[j] == -speed[j]
      ensures m.1[j] * m.1[j] == speed[j] * speed[j]
    {
      ReflectSpec(centre[j], speed[j], changeSpeed);
    }
    SumSqSameSquares(m.1, speed);
  }

  /** With no drift speed, a centre inside the unit cube and its velocity are
      left exactly as they were. */
  lemma MoveCentreAtRest(centre: seq<real>, speed: seq<real>)
    requires |centre| == |speed|
    requires forall j :: 0 <= j < |centre| ==> InUnit(centre[j])
    ensures MoveCentre(centre, speed, 0.0) == (centre, speed)
  {
    var m := MoveCentre(centre, speed, 0.0);
    forall j | 0 <= j < |centre|
      ensures m.0[j] == centre[j] && m.1[j] == speed[j]
    {
      ReflectAtRest(centre[j], speed[j]);
    }
    assert m.0 == centre;
    assert m.1 == speed;
  }

  /** The worked bounce, first step: a centre at (0.95, 0.5) moving along
      (1, 0) at change speed 1 hits the upper face, is clamped to it and its
      first velocity component turns back. */
  lemma BounceOffUpperFace()
    ensures MoveCentre([0.95, 0.5], [1.0, 0.0], 1.0) == ([1.0, 0.5], [-1.0, 0.0])
  {
    var a := MoveCentre([0.95, 0.5], [1.0, 0.0], 1.0);
    assert a.0[0] == 1.0 && a.1[0] == -1.0 by {
      assert Bounce(a.0[0], a.1[0]) == Reflect(0.95, 1.0, 1.0);
    }
    assert a.0[1] == 0.5 && a.1[1] == 0.0 by {
      assert Bounce(a.0[1], a.1[1]) == Reflect(0.5, 0.0, 1.0);
    }
    assert a.0 == [1.0, 0.5];
    assert a.1 == [-1.0, 0.0];
  }

  /** The worked bounce, second step: from the upper face the reversed
      velocity carries the centre exactly onto the lower face, which is inside
      [0, 1], so nothing reverses again. */
  lemma CrossToLowerFace()
    ensures MoveCentre([1.0, 0.5], [-1.0, 0.0], 1.0) == ([0.0, 0.5], [-1.0, 0.0])
  {
    var b := MoveCentre([1.0, 0.5], [-1.0, 0.0], 1.0);
    assert b.0[0] == 0.0 && b.1[0] == -1.0 by {
      assert Bounce(b.0[0], b.1[0]) == Reflect(1.0, -1.0, 1.0);
    }
    assert b.0[1] == 0.5 && b.1[1] == 0.0 by {
      assert Bounce(b.0[1], b.1[1]) == Reflect(0.5, 0.0, 1.0);
    }
    assert b.0 == [0.0, 0.5];
    assert b.1 == [-1.0, 0.0];
  }
}
