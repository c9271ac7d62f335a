/**
  The affine engine of the viewer: moves, rotations and a scaling applied in place to
  rows 1.. of the shared vertex matrix, and the seven-step transform that chains them.
 */
module AffineEngine {
  import opened Geometry
  import opened MeshModel

  /** transform_data: a 3 x 3 table; row 0 holds the moves, row 1 the angles, entry [2][0] the scale factor. */
  predicate IsTransformData(t: seq<seq<real>>) {
    |t| == 3 && |t[0]| == 3 && |t[1]| == 3 && |t[2]| == 3
  }

  /** The seven steps affineTransform takes, in order; cos and sin stand for the library functions. */
  function Steps(t: seq<seq<real>>, cos: real -> real, sin: real -> real): seq<Transform>
    requires IsTransformData(t)
  {
    [ Move(X, t[0][0]), Move(Y, t[0][1]), Move(Z, t[0][2]),
      Rotate(X, cos(t[1][0]), sin(t[1][0])), Rotate(Y, cos(t[1][1]), sin(t[1][1])), Rotate(Z, cos(t[1][2]), sin(t[1][2])),
      Scale(t[2][0]) ]
  }

  /** Applying seven steps in order, written out one step at a time. */
  lemma SevenSteps(vs: seq<Vertex>, ts: seq<Transform>)
    requires |ts| == 7
    ensures TransformedAll(vs, ts) ==
              Transformed(Transformed(Transformed(Transformed(Transformed(Transformed(Transformed(
                vs, ts[0]), ts[1]), ts[2]), ts[3]), ts[4]), ts[5]), ts[6])
  {
    PrefixStep(vs, ts, 0);
    PrefixStep(vs, ts, 1);
    PrefixStep(vs, ts, 2);
    PrefixStep(vs, ts, 3);
    PrefixStep(vs, ts, 4);
    PrefixStep(vs, ts, 5);
    PrefixStep(vs, ts, 6);
    assert ts[..7] == ts;
  }

  /** Taking one more step of a list is one more Transformed. */
  lemma PrefixStep(vs: seq<Vertex>, ts: seq<Transform>, k: nat)
    requires k < |ts|
    ensures TransformedAll(vs, ts[..k + 1]) == Transformed(TransformedAll(vs, ts[..k]), ts[k])
  {
    assert ts[..k + 1][..k] == ts[..k];
  }

  class Affine {
    /** The model instance the engine transforms. */
    const model: Model

    constructor(m: Model)
      ensures model == m
    {
      model := m;
    }

    /** movingX: adds a to column 0 of every row from 1 on. */
    method MovingX(a: real)
      requires model.Shaped()
      modifies model.matrix
      ensures model.Table() == Transformed(old(model.Table()), Move(X, a))
    {
      var m := model.matrix;
      ghost var t0 := TableOf(m);
      var i: nat := 1;
      while i < m.Length0
        invariant Swept(TableOf(m), t0, Move(X, a), i)
      {
        ghost var before := TableOf(m);
        ghost var v := Apply(Move(X, a), before[i]);
        m[i, 0] := m[i, 0] + a;
        RowWritten(m, before, i, v);
        SweepTurn(before, t0, Move(X, a), i, v);
        i := i + 1;
      }
      SweepDone(TableOf(m), t0, Move(X, a), i);
    }

    /** movingY: adds a to column 1 of every row from 1 on. */
    method MovingY(a: real)
      requires model.Shaped()
      modifies model.matrix
      ensures model.Table() == Transformed(old(model.Table()), Move(Y, a))
    {
      var m := model.matrix;
      ghost var t0 := TableOf(m);
      var i: nat := 1;
      while i < m.Length0
        invariant Swept(TableOf(m), t0, Move(Y, a), i)
      {
        ghost var before := TableOf(m);
        ghost var v := Apply(Move(Y, a), before[i]);
        m[i, 1] := m[i, 1] + a;
        RowWritten(m, before, i, v);
        SweepTurn(before, t0, Move(Y, a), i, v);
        i := i + 1;
      }
      SweepDone(TableOf(m), t0, Move(Y, a), i);
    }

    /** movingZ: adds a to column 2 of every row from 1 on. */
    method MovingZ(a: real)
      requires model.Shaped()
      modifies model.matrix
      ensures model.Table() == Transformed(old(model.Table()), Move(Z, a))
    {
      var m := model.matrix;
      ghost var t0 := TableOf(m);
      var i: nat := 1;
      while i < m.Length0
        invariant Swept(TableOf(m), t0, Move(Z, a), i)
      {
        ghost var before := TableOf(m);
        ghost var v := Apply(Move(Z, a), before[i]);
        m[i, 2] := m[i, 2] + a;
        RowWritten(m, before, i, v);
        SweepTurn(before, t0, Move(Z, a), i, v);
        i := i + 1;
      }
      SweepDone(TableOf(m), t0, Move(Z, a), i);
    }

    /** rotationX: Y' = c Y - s Z and Z' = s Y + c Z, from the row's values before the step; c and s are cos and sin of the angle. */
    method RotationX(c: real, s: real)
      requires model.Shaped()
      modifies model.matrix
      ensures model.Table() == Transformed(old(model.Table()), Rotate(X, c, s))
    {
      var m := model.matrix;
      ghost var t0 := TableOf(m);
      var i: nat := 1;
      while i < m.Length0
        invariant Swept(TableOf(m), t0, Rotate(X, c, s), i)
      {
        ghost var before := TableOf(m);
        ghost var v := Apply(Rotate(X, c, s), before[i]);
        var tempY := m[i, 1];
        var tempZ := m[i, 2];
        m[i, 1] := c * tempY - s * tempZ;
        m[i, 2] := s * tempY + c * tempZ;
        RowWritten(m, before, i, v);
        SweepTurn(before, t0, Rotate(X, c, s), i, v);
        i := i + 1;
      }
      SweepDone(TableOf(m), t0, Rotate(X, c, s), i);
    }

    /** rotationY: X' = c X + s Z and Z' = -s X + c Z, from the row's values before the step; c and s are cos and sin of the angle. */
    method RotationY(c: real, s: real)
      requires model.Shaped()
      modifies model.matrix
      ensures model.Table() == Transformed(old(model.Table()), Rotate(Y, c, s))
    {
      var m := model.matrix;
      ghost var t0 := TableOf(m);
      var i: nat := 1;
      while i < m.Length0
        invariant Swept(TableOf(m), t0, Rotate(Y, c, s), i)
      {
        ghost var before := TableOf(m);
        ghost var v := Apply(Rotate(Y, c, s), before[i]);
        var tempX := m[i, 0];
        var tempZ := m[i, 2];
        m[i, 0] := c * tempX + s * tempZ;
        m[i, 2] := -s * tempX + c * tempZ;
        RowWritten(m, before, i, v);
        SweepTurn(before, t0, Rotate(Y, c, s), i, v);
        i := i + 1;
      }
      SweepDone(TableOf(m), t0, Rotate(Y, c, s), i);
    }

    /** rotationZ: X' = c X - s Y and Y' = s X + c Y, from the row's values before the step; c and s are cos and sin of the angle. */
    method RotationZ(c: real, s: real)
      requires model.Shaped()
      modifies model.matrix
      ensures model.Table() == Transformed(old(model.Table()), Rotate(Z, c, s))
    {
      var m := model.matrix;
      ghost var t0 := TableOf(m);
      var i: nat := 1;
      while i < m.Length0
        invariant Swept(TableOf(m), t0, Rotate(Z, c, s), i)
      {
        ghost var before := TableOf(m);
        ghost var v := Apply(Rotate(Z, c, s), before[i]);
        var tempX := m[i, 0];
        var tempY := m[i, 1];
        m[i, 0] := c * tempX - s * tempY;
        m[i, 1] := s * tempX + c * tempY;
        RowWritten(m, before, i, v);
        SweepTurn(before, t0, Rotate(Z, c, s), i, v);
        i := i + 1;
      }
      SweepDone(TableOf(m), t0, Rotate(Z, c, s), i);
    }

    /** scaling: for a > 0 multiplies every column of every row from 1 on by a; otherwise does nothing. */
    method Scaling(a: real)
      requires model.Shaped()
      modifies model.matrix
      ensures model.Table() == Transformed(old(model.Table()), Scale(a))
    {
      var m := model.matrix;
      ghost var t0 := TableOf(m);
      if a > 0.0 {
        var i: nat := 1;
        while i < m.Length0
          invariant Swept(TableOf(m), t0, Scale(a), i)
        {
          ghost var before := TableOf(m);
          ghost var row := before[i];
          var j: nat := 0;
          while j < m.Length1
            invariant j <= m.Length1 == 3
            invariant forall k :: 0 <= k < m.Length0 && k != i ==> RowOf(m, k) == before[k]
            invariant m[i, 0] == if 0 < j then row.x * a else row.x
            invariant m[i, 1] == if 1 < j then row.y * a else row.y
            invariant m[i, 2] == if 2 < j then row.z * a else row.z
          {
            m[i, j] := m[i, j] * a;
            j := j + 1;
          }
          RowWritten(m, before, i, Apply(Scale(a), row));
          SweepTurn(before, t0, Scale(a), i, Apply(Scale(a), row));
          i := i + 1;
        }
        SweepDone(TableOf(m), t0, Scale(a), i);
      } else {
        ScaleNotPositiveKeeps(t0, a);
      }
    }
  
    /**
      affineTransform: movingX, movingY, movingZ with row 0 of the data, rotationX,
      rotationY, rotationZ with row 1, then scaling with entry [2][0].
     */
    method AffineTransform(t: seq<seq<real>>, cos: real -> real, sin: real -> real)
      requires model.Shaped() && IsTransformData(t)
      modifies model.matrix
      ensures model.Table() == TransformedAll(old(model.Table()), Steps(t, cos, sin))
      ensures model.countOfVertexes == old(model.countOfVertexes) && model.countOfPolygons == old(model.countOfPolygons)
      ensures model.bounds == old(model.bounds) && model.arrayOfPolygon == old(model.arrayOfPolygon)
    {
      SevenSteps(model.Table(), Steps(t, cos, sin));
      MovingX(t[0][0]);
      MovingY(t[0][1]);
      MovingZ(t[0][2]);
      RotationX(cos(t[1][0]), sin(t[1][0]));
      RotationY(cos(t[1][1]), sin(t[1][1]));
      RotationZ(cos(t[1][2]), sin(t[1][2]));
      Scaling(t[2][0]);
    }
  }

  // ---------------------------------------------------------------------------
  // What the composite means
  // ---------------------------------------------------------------------------

  /** Entries [2][1] and [2][2] of the data play no part. */
  lemma UnusedEntriesIgnored(t: seq<seq<real>>, u: seq<seq<real>>, cos: real -> real, sin: real -> real)
    requires IsTransformData(t) && IsTransformData(u)
    requires t[0] == u[0] && t[1] == u[1] && t[2][0] == u[2][0]
    ensures Steps(t, cos, sin) == Steps(u, cos, sin)
  {
  }

  /** With a factor that is not positive the composite is the moves and rotations alone. */
  lemma NoScalingWhenNotPositive(vs: seq<Vertex>, t: seq<seq<real>>, cos: real -> real, sin: real -> real)
    requires IsTransformData(t) && t[2][0] <= 0.0
    ensures TransformedAll(vs, Steps(t, cos, sin)) == TransformedAll(vs, Steps(t, cos, sin)[..6])
  {
    var ts := Steps(t, cos, sin);
    assert ts[..6] == ts[..|ts| - 1];
    ScaleNotPositiveKeeps(TransformedAll(vs, ts[..6]), t[2][0]);
  }

  /** A step that leaves every vertex alone leaves the table alone. */
  lemma StillStep(vs: seq<Vertex>, t: Transform)
    requires forall v :: Apply(t, v) == v
    ensures Transformed(vs, t) == vs
  {
    assert forall i :: 0 <= i < |vs| ==> Transformed(vs, t)[i] == vs[i];
  }

  /** No moves, angles whose cosine is 1 and sine 0, and a factor 1 (or one that is not positive) change nothing. */
  lemma IdentityData(vs: seq<Vertex>, t: seq<seq<real>>, cos: real -> real, sin: real -> real)
    requires IsTransformData(t) && t[0] == [0.0, 0.0, 0.0] && t[1] == [0.0, 0.0, 0.0]
    requires cos(0.0) == 1.0 && sin(0.0) == 0.0
    requires t[2][0] == 1.0 || t[2][0] <= 0.0
    ensures TransformedAll(vs, Steps(t, cos, sin)) == vs
  {
    var ts := Steps(t, cos, sin);
    SevenSteps(vs, ts);
    forall k | 0 <= k < 7 ensures forall v :: Apply(ts[k], v) == v {
      forall v ensures Apply(ts[k], v) == v {
        AxesDetermineVertex(Apply(ts[k], v), v);
      }
    }
    StillStep(vs, ts[0]);
    StillStep(vs, ts[1]);
    StillStep(vs, ts[2]);
    StillStep(vs, ts[3]);
    StillStep(vs, ts[4]);
    StillStep(vs, ts[5]);
    StillStep(vs, ts[6]);
  }
}
