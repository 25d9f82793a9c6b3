/** Bin weights and bilinear interpolation over (metallicity, U). */
module Interp {
  import opened Gutkin
  import opened GridLoad

  predicate StrictlyIncreasing(b: seq<real>)
  {
    forall i, j :: 0 <= i < j < |b| ==> b[i] < b[j]
  }

  /** The locator (`locate_interval`) returns an index of the axis it is given. */
  ghost predicate LocatorInRange(locate: (real, seq<real>) -> int)
  {
    forall x, b :: |b| > 0 ==> 0 <= locate(x, b) < |b|
  }

  /** A bin index and a fractional distance along one axis. */
  datatype Weight = Weight(index: nat, frac: real)

  /** The edge policy: a locator result `j1` on axis `b` becomes the lower
      corner of the interval used and the fraction of the way from it. */
  function BinWeight(x: real, b: seq<real>, j1: int): (w: Weight)
    requires |b| >= 2 && StrictlyIncreasing(b) && 0 <= j1 < |b|
    ensures w.index <= |b| - 2
    ensures j1 == 0 ==> w == Weight(0, 0.0)
    ensures j1 == |b| - 1 ==> w == Weight(|b| - 2, 1.0)
    ensures 0 < j1 < |b| - 1 ==> w.index == j1 && b[j1] + w.frac * (b[j1 + 1] - b[j1]) == x
    ensures j1 < |b| - 1 && b[j1] <= x <= b[j1 + 1] ==> 0.0 <= w.frac <= 1.0
  {
    if j1 == 0 then Weight(0, 0.0)
    else if j1 == |b| - 1 then Weight(|b| - 2, 1.0)
    else
      var d := (x - b[j1]) / (b[j1 + 1] - b[j1]);
      FractionBounds(x, b[j1], b[j1 + 1]);
      Weight(j1, d)
  }

  /** The fraction (x - lo) / (hi - lo) puts x back at lo + d (hi - lo), and lies
      in [0, 1] when x does in [lo, hi]. */
  lemma FractionBounds(x: real, lo: real, hi: real)
    requires lo < hi
    ensures lo + (x - lo) / (hi - lo) * (hi - lo) == x
    ensures lo <= x <= hi ==> 0.0 <= (x - lo) / (hi - lo) <= 1.0
  {
    var d := (x - lo) / (hi - lo);
    assert d * (hi - lo) == x - lo;
    if lo <= x <= hi {
      DivNonNegative(x - lo, hi - lo);
      DivNonNegative(hi - x, hi - lo);
      DivSub(hi - lo, x - lo, hi - lo);
      DivSelf(hi - lo);
    }
  }

  lemma DivSelf(w: real)
    requires w != 0.0
    ensures w / w == 1.0
  {
  }

  lemma DivNonNegative(a: real, b: real)
    requires a >= 0.0 && b > 0.0
    ensures a / b >= 0.0
  {
  }

  lemma DivSub(a: real, b: real, d: real)
    requires d != 0.0
    ensures a / d - b / d == (a - b) / d
  {
  }

  /** Inside the first interval the policy keeps the fraction at 0, so values
      of x between the first two bins all take the first node's value. */
  lemma FirstIntervalSnapsToNode(x: real, b: seq<real>)
    requires |b| >= 3 && StrictlyIncreasing(b) && b[0] < x < b[1]
    ensures BinWeight(x, b, 0).frac == 0.0
    ensures b[0] + BinWeight(x, b, 0).frac * (b[1] - b[0]) != x
  {
  }

  /** `w` points at node `i` of an axis of `n` points: either as the lower
      corner with fraction 0 or as the upper corner with fraction 1. */
  predicate AtNode(w: Weight, i: nat)
  {
    (w.index == i && w.frac == 0.0) || (w.index + 1 == i && w.frac == 1.0)
  }

  /** When the locator returns the node x stands on, the weight points at that node. */
  lemma BinWeightAtNode(b: seq<real>, i: nat)
    requires |b| >= 2 && StrictlyIncreasing(b) && i < |b|
    ensures AtNode(BinWeight(b[i], b, i), i)
  {
    if 0 < i < |b| - 1 {
      FractionBounds(b[i], b[i], b[i + 1]);
    }
  }

  /** The four-corner combination of `get_lines_Gutkin`. */
  function Blend4(c00: real, c10: real, c01: real, c11: real, dz: real, du: real): real
  {
    (1.0 - dz) * (1.0 - du) * c00 + dz * (1.0 - du) * c10 + (1.0 - dz) * du * c01 + dz * du * c11
  }

  /** The four weights sum to one, so four equal corners give their value back. */
  lemma Blend4Constant(c: real, dz: real, du: real)
    ensures (1.0 - dz) * (1.0 - du) + dz * (1.0 - du) + (1.0 - dz) * du + dz * du == 1.0
    ensures Blend4(c, c, c, c, dz, du) == c
  {
    calc {
      Blend4(c, c, c, c, dz, du);
      ((1.0 - dz) * (1.0 - du) + dz * (1.0 - du) + (1.0 - dz) * du + dz * du) * c;
      c;
    }
  }

  /** At the four corners the combination returns the corner's value exactly. */
  lemma Blend4Corners(c00: real, c10: real, c01: real, c11: real)
    ensures Blend4(c00, c10, c01, c11, 0.0, 0.0) == c00
    ensures Blend4(c00, c10, c01, c11, 1.0, 0.0) == c10
    ensures Blend4(c00, c10, c01, c11, 0.0, 1.0) == c01
    ensures Blend4(c00, c10, c01, c11, 1.0, 1.0) == c11
  {
  }

  function Min4(a: real, b: real, c: real, d: real): real
  {
    var ab := if a <= b then a else b;
    var cd := if c <= d then c else d;
    if ab <= cd then ab else cd
  }

  function Max4(a: real, b: real, c: real, d: real): real
  {
    var ab := if a >= b then a else b;
    var cd := if c >= d then c else d;
    if ab >= cd then ab else cd
  }

  /** With both fractions in [0, 1] the result lies between the smallest and
      the largest corner. */
  lemma Blend4Bounded(c00: real, c10: real, c01: real, c11: real, dz: real, du: real)
    requires 0.0 <= dz <= 1.0 && 0.0 <= du <= 1.0
    ensures Min4(c00, c10, c01, c11) <= Blend4(c00, c10, c01, c11, dz, du) <= Max4(c00, c10, c01, c11)
  {
    var w00, w10, w01, w11 := (1.0 - dz) * (1.0 - du), dz * (1.0 - du), (1.0 - dz) * du, dz * du;
    ProductNonNegative(1.0 - dz, 1.0 - du);
    ProductNonNegative(dz, 1.0 - du);
    ProductNonNegative(1.0 - dz, du);
    ProductNonNegative(dz, du);
    Blend4Constant(0.0, dz, du);
    assert Blend4(c00, c10, c01, c11, dz, du) == w00 * c00 + w10 * c10 + w01 * c01 + w11 * c11;
    ConvexBounded(w00, w10, w01, w11, c00, c10, c01, c11, Min4(c00, c10, c01, c11), Max4(c00, c10, c01, c11));
  }

  /** A convex combination of four values lies between any bounds of the values. */
  lemma ConvexBounded(w00: real, w10: real, w01: real, w11: real,
                      c00: real, c10: real, c01: real, c11: real, lo: real, hi: real)
    requires w00 >= 0.0 && w10 >= 0.0 && w01 >= 0.0 && w11 >= 0.0
    requires w00 + w10 + w01 + w11 == 1.0
    requires lo <= c00 <= hi && lo <= c10 <= hi && lo <= c01 <= hi && lo <= c11 <= hi
    ensures lo <= w00 * c00 + w10 * c10 + w01 * c01 + w11 * c11 <= hi
  {
    ConvexLower(w00, w10, w01, w11, c00, c10, c01, c11, lo);
    ConvexUpper(w00, w10, w01, w11, c00, c10, c01, c11, hi);
  }

  lemma ConvexLower(w00: real, w10: real, w01: real, w11: real,
                    c00: real, c10: real, c01: real, c11: real, lo: real)
    requires w00 >= 0.0 && w10 >= 0.0 && w01 >= 0.0 && w11 >= 0.0
    requires w00 + w10 + w01 + w11 == 1.0
    requires lo <= c00 && lo <= c10 && lo <= c01 && lo <= c11
    ensures lo <= w00 * c00 + w10 * c10 + w01 * c01 + w11 * c11
  {
    var a00 := ScaleBelow(w00, lo, c00);
    var a10 := ScaleBelow(w10, lo, c10);
    var a01 := ScaleBelow(w01, lo, c01);
    var a11 := ScaleBelow(w11, lo, c11);
    Distribute(w00, w10, w01, w11, lo);
    AddMonotone(a00.0, a10.0, a01.0, a11.0, a00.1, a10.1, a01.1, a11.1);
  }

  lemma ConvexUpper(w00: real, w10: real, w01: real, w11: real,
                    c00: real, c10: real, c01: real, c11: real, hi: real)
    requires w00 >= 0.0 && w10 >= 0.0 && w01 >= 0.0 && w11 >= 0.0
    requires w00 + w10 + w01 + w11 == 1.0
    requires c00 <= hi && c10 <= hi && c01 <= hi && c11 <= hi
    ensures w00 * c00 + w10 * c10 + w01 * c01 + w11 * c11 <= hi
  {
    var a00 := ScaleBelow(w00, c00, hi);
    var a10 := ScaleBelow(w10, c10, hi);
    var a01 := ScaleBelow(w01, c01, hi);
    var a11 := ScaleBelow(w11, c11, hi);
    Distribute(w00, w10, w01, w11, hi);
    AddMonotone(a00.0, a10.0, a01.0, a11.0, a00.1, a10.1, a01.1, a11.1);
  }

  /** The products w * x and w * y, ordered as x and y are, for w >= 0. */
  lemma ScaleBelow(w: real, x: real, y: real) returns (p: (real, real))
    requires w >= 0.0 && x <= y
    ensures p == (w * x, w * y) && p.0 <= p.1
  {
    p := (w * x, w * y);
  }

  lemma ProductNonNegative(a: real, b: real)
    requires a >= 0.0 && b >= 0.0
    ensures a * b >= 0.0
  {
  }

  lemma Distribute(w00: real, w10: real, w01: real, w11: real, x: real)
    requires w00 + w10 + w01 + w11 == 1.0
    ensures w00 * x + w10 * x + w01 * x + w11 * x == x
  {
    assert w00 * x + w10 * x + w01 * x + w11 * x == (w00 + w10 + w01 + w11) * x;
  }

  lemma AddMonotone(a: real, b: real, c: real, d: real, a': real, b': real, c': real, d': real)
    requires a <= a' && b <= b' && c <= c' && d <= d'
    ensures a + b + c + d <= a' + b' + c' + d'
  {
  }

  /** The indices i, i+1 and j, j+1 address cells of grid `G`. */
  predicate InGrid(G: Grid, i: nat, j: nat, e: nat)
  {
    Shaped(G, |G|) && i + 1 < |G| && j + 1 < NU && e < NEmLine
  }

  /** Bilinear interpolation of line `e` of grid `G` at metallicity bin `i`,
      fraction `dz`, and U bin `j`, fraction `du`. */
  function Bilinear(G: Grid, i: nat, dz: real, j: nat, du: real, e: nat): real
    requires InGrid(G, i, j, e)
  {
    Blend4(G[i][j][e], G[i + 1][j][e], G[i][j + 1][e], G[i + 1][j + 1][e], dz, du)
  }

  /** At a node of both axes the interpolation reproduces the tabulated value. */
  lemma BilinearAtNode(G: Grid, wz: Weight, iz: nat, wu: Weight, ju: nat, e: nat)
    requires InGrid(G, wz.index, wu.index, e)
    requires AtNode(wz, iz) && AtNode(wu, ju)
    ensures iz < |G| && ju < NU
    ensures Bilinear(G, wz.index, wz.frac, wu.index, wu.frac, e) == G[iz][ju][e]
  {
    Blend4Corners(G[wz.index][wu.index][e], G[wz.index + 1][wu.index][e],
                  G[wz.index][wu.index + 1][e], G[wz.index + 1][wu.index + 1][e]);
  }

  /** The interpolation is continuous across an interior metallicity boundary:
      the end of interval i and the start of interval i+1 agree. */
  lemma BilinearContinuousInZ(G: Grid, i: nat, j: nat, du: real, e: nat)
    requires InGrid(G, i + 1, j, e)
    ensures Bilinear(G, i, 1.0, j, du, e) == Bilinear(G, i + 1, 0.0, j, du, e)
  {
  }

  /** The same across an interior U boundary. */
  lemma BilinearContinuousInU(G: Grid, i: nat, dz: real, j: nat, e: nat)
    requires InGrid(G, i, j + 1, e)
    ensures Bilinear(G, i, dz, j, 1.0, e) == Bilinear(G, i, dz, j + 1, 0.0, e)
  {
  }

  /** At the midpoint of both axes the interpolation is the mean of the four corners. */
  lemma MidpointIsMean(c00: real, c10: real, c01: real, c11: real)
    ensures Blend4(c00, c10, c01, c11, 0.5, 0.5) == (c00 + c10 + c01 + c11) / 4.0
  {
  }

  /** The weight loop over the galaxies: one locator call per value. */
  method ComputeWeights(xs: seq<real>, b: seq<real>, locate: (real, seq<real>) -> int)
    returns (d: seq<real>, idx: seq<nat>)
    requires |b| >= 2 && StrictlyIncreasing(b) && LocatorInRange(locate)
    ensures |d| == |xs| && |idx| == |xs|
    ensures forall ii :: 0 <= ii < |xs| ==>
              0 <= locate(xs[ii], b) < |b| &&
              Weight(idx[ii], d[ii]) == BinWeight(xs[ii], b, locate(xs[ii], b))
    ensures forall ii :: 0 <= ii < |xs| ==> idx[ii] <= |b| - 2
  {
    d, idx := [], [];
    var n := |b|;
    for ii := 0 to |xs|
      invariant |d| == ii && |idx| == ii
      invariant forall m :: 0 <= m < ii ==>
                  0 <= locate(xs[m], b) < |b| &&
                  Weight(idx[m], d[m]) == BinWeight(xs[m], b, locate(xs[m], b))
    {
      var x := xs[ii];
      var j1 := locate(x, b);
      if j1 == 0 {
        d := d + [0.0];
        idx := idx + [0];
      } else if j1 == n - 1 {
        d := d + [1.0];
        idx := idx + [n - 2];
      } else {
        var dd := (x - b[j1]) / (b[j1 + 1] - b[j1]);
        d := d + [dd];
        idx := idx + [j1];
      }
    }
  }

  /** The interpolation loop, over the lines and within each line over the galaxies,
      over two grids at once (grid1 and grid4, or grid2 and grid3). */
  method InterpolatePair(ga: array3<real>, gb: array3<real>, ghost Ga: Grid, ghost Gb: Grid,
                         dz: seq<real>, i: seq<nat>, du: seq<real>, j: seq<nat>)
    returns (outA: array2<real>, outB: array2<real>)
    requires Holds(ga, Ga) && Holds(gb, Gb) && |Ga| == |Gb| >= 2
    requires |dz| == |i| == |du| == |j|
    requires forall ii :: 0 <= ii < |i| ==> i[ii] + 1 < |Ga| && j[ii] + 1 < NU
    ensures fresh(outA) && fresh(outB)
    ensures outA.Length0 == NEmLine && outA.Length1 == |i| && outB.Length0 == NEmLine && outB.Length1 == |i|
    ensures forall e, ii :: 0 <= e < NEmLine && 0 <= ii < |i| ==>
              && outA[e, ii] == Bilinear(Ga, i[ii], dz[ii], j[ii], du[ii], e)
              && outB[e, ii] == Bilinear(Gb, i[ii], dz[ii], j[ii], du[ii], e)
  {
    var ndat := |i|;
    outA := new real[NEmLine, ndat]((e, ii) => 0.0);
    outB := new real[NEmLine, ndat]((e, ii) => 0.0);
    for k := 0 to NEmLine
      invariant forall e, ii :: 0 <= e < k && 0 <= ii < ndat ==>
                  && outA[e, ii] == Bilinear(Ga, i[ii], dz[ii], j[ii], du[ii], e)
                  && outB[e, ii] == Bilinear(Gb, i[ii], dz[ii], j[ii], du[ii], e)
    {
      InterpolateLine(ga, Ga, k, dz, i, du, j, outA);
      InterpolateLine(gb, Gb, k, dz, i, du, j, outB);
    }
  }

  /** Line k of every galaxy interpolated on one grid, stored in row k of `out`. */
  method InterpolateLine(g: array3<real>, ghost G: Grid, k: nat,
                         dz: seq<real>, i: seq<nat>, du: seq<real>, j: seq<nat>, out: array2<real>)
    requires Holds(g, G) && k < NEmLine
    requires |dz| == |i| == |du| == |j| && out.Length0 == NEmLine && out.Length1 == |i|
    requires forall ii :: 0 <= ii < |i| ==> i[ii] + 1 < |G| && j[ii] + 1 < NU
    modifies out
    ensures forall e, ii :: 0 <= e < NEmLine && 0 <= ii < |i| ==>
              out[e, ii] == if e == k then Bilinear(G, i[ii], dz[ii], j[ii], du[ii], e) else old(out[e, ii])
  {
    for ii := 0 to |i|
      invariant forall e, m :: 0 <= e < NEmLine && 0 <= m < |i| ==>
                  out[e, m] == if e == k && m < ii then Bilinear(G, i[m], dz[m], j[m], du[m], e) else old(out[e, m])
    {
      var v := Corners(g, G, i[ii], dz[ii], j[ii], du[ii], k);
      out[k, ii] := v;
    }
  }

  /** The four-corner combination read from the array `g` holding `G`. */
  method Corners(g: array3<real>, ghost G: Grid, i: nat, dz: real, j: nat, du: real, e: nat) returns (v: real)
    requires Holds(g, G) && InGrid(G, i, j, e)
    ensures v == Bilinear(G, i, dz, j, du, e)
  {
    v := Blend4(g[i, j, e], g[i + 1, j, e], g[i, j + 1, e], g[i + 1, j + 1, e], dz, du);
  }
}
