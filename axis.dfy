/** Axis reconstruction from a wave header: calibrated coordinates and units per dimension. */
module Axis {
  import opened Wave

  /** `np.arange(n)` has `n` elements, and none when `n` is not positive. */
  function Extent(n: int): nat
  {
    if n > 0 then n else 0
  }

  /** `axis_from`: the linear ramp `sfA[d] * i + sfB[d]` for `i` in `range(nDim[d])`. */
  function AxisFrom(w: Wave, d: nat): seq<real>
    requires d < |w.nDim|
  {
    seq(Extent(w.nDim[d]), i requires 0 <= i => w.sfA[d] * (i as real) + w.sfB[d])
  }

  /** The ramp has one coordinate per element of dimension `d`, the `i`-th being
      `sfA[d] * i + sfB[d]`. */
  lemma AxisFromRamp(w: Wave, d: nat)
    requires d < |w.nDim|
    ensures |AxisFrom(w, d)| == Extent(w.nDim[d])
    ensures forall i :: 0 <= i < |AxisFrom(w, d)| ==>
      AxisFrom(w, d)[i] == w.sfA[d] * (i as real) + w.sfB[d]
  {
  }

  /** The ramp is an arithmetic progression: it starts at the offset `sfB[d]` and every step
      adds the scale factor `sfA[d]`; a dimension with no elements gives no coordinates. */
  lemma AxisFromIsProgression(w: Wave, d: nat)
    requires d < |w.nDim|
    ensures w.nDim[d] <= 0 <==> AxisFrom(w, d) == []
    ensures w.nDim[d] > 0 ==> AxisFrom(w, d)[0] == w.sfB[d]
    ensures forall i :: 0 <= i < |AxisFrom(w, d)| - 1 ==>
      AxisFrom(w, d)[i + 1] - AxisFrom(w, d)[i] == w.sfA[d]
  {
    AxisFromRamp(w, d);
    var r := AxisFrom(w, d);
    forall i | 0 <= i < |r| - 1
      ensures r[i + 1] - r[i] == w.sfA[d]
    {
      calc {
        r[i + 1] - r[i];
        (w.sfA[d] * ((i + 1) as real) + w.sfB[d]) - (w.sfA[d] * (i as real) + w.sfB[d]);
        w.sfA[d] * ((i + 1) as real - i as real);
      }
    }
  }

  /** A header with `sfA = 2`, `sfB = 1` and five elements gives `[1, 3, 5, 7, 9]`. */
  lemma AxisFromExample(w: Wave)
    requires |w.nDim| >= 1 && w.nDim[0] == 5 && w.sfA[0] == 2.0 && w.sfB[0] == 1.0
    ensures AxisFrom(w, 0) == [1.0, 3.0, 5.0, 7.0, 9.0]
  {
    AxisFromRamp(w, 0);
    var r := AxisFrom(w, 0);
    assert r[0] == 1.0 && r[1] == 3.0 && r[2] == 5.0 && r[3] == 7.0 && r[4] == 9.0;
  }

  /** The in-order concatenation of unit fragments. */
  function Concat(fragments: seq<string>): string
  {
    if fragments == [] then "" else fragments[0] + Concat(fragments[1..])
  }

  /** Concatenation distributes over joining fragment lists. */
  lemma {:induction false} ConcatAppend(a: seq<string>, b: seq<string>)
    ensures Concat(a + b) == Concat(a) + Concat(b)
  {
    if a != [] {
      assert (a + b)[1..] == a[1..] + b;
      ConcatAppend(a[1..], b);
    } else {
      assert a + b == b;
    }
  }

  /** `axis_units_from`: the unit fragments of dimension `d`, decoded and joined in order. */
  method AxisUnitsFrom(w: Wave, d: nat) returns (unit: string)
    requires d < |w.nDim|
    ensures unit == Concat(w.dimUnits[d])
  {
    var fragments := w.dimUnits[d];
    unit := "";
    var i := 0;
    while i < |fragments|
      invariant 0 <= i <= |fragments|
      invariant unit == Concat(fragments[..i])
    {
      ConcatAppend(fragments[..i], [fragments[i]]);
      assert fragments[..i + 1] == fragments[..i] + [fragments[i]];
      assert Concat([fragments[i]]) == fragments[i] + Concat([]);
      unit := unit + fragments[i];
      i := i + 1;
    }
    assert fragments[..i] == fragments;
  }
}
