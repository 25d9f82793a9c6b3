/** The density blender: the four per-density interpolations of a galaxy
    merged by its log electron density. */
module Density {
  import opened Gutkin

  /** The piecewise rule on log ne of `get_lines_Gutkin`, for values v1..v4
      interpolated on the nH = 10, 100, 1000, 10000 grids. The branch is chosen
      by `lne`; the (3, 4] branch takes its weight from `lne34` (for the disk
      get_lines_Gutkin passes the bulge density there). No branch matching leaves
      the zero the output was initialised with. */
  function DensityBlend(lne: real, lne34: real, v1: real, v2: real, v3: real, v4: real): real
  {
    if lne > 2.0 && lne <= 3.0 then
      var dn := (lne - 2.0) / (3.0 - 2.0);
      (1.0 - dn) * v2 + dn * v3
    else if lne > 1.0 && lne <= 2.0 then
      var dn := (lne - 1.0) / (2.0 - 1.0);
      (1.0 - dn) * v1 + dn * v2
    else if lne > 3.0 && lne <= 4.0 then
      var dn := (lne34 - 3.0) / (4.0 - 3.0);
      (1.0 - dn) * v3 + dn * v4
    else if lne <= 1.0 then v1
    else if lne > 4.0 then v4
    else 0.0
  }

  /** Every real log ne falls in exactly one of the five branches, so the
      zero-filling branch is taken only by a value that is not a real number. */
  lemma BranchesCoverTheReals(lne: real)
    ensures lne <= 1.0 || (1.0 < lne <= 2.0) || (2.0 < lne <= 3.0) || (3.0 < lne <= 4.0) || lne > 4.0
  {
  }

  /** Below the lowest band the nH = 10 value is used, above the highest the nH = 10000 one. */
  lemma OutsideBandsClamps(lne: real, lne34: real, v1: real, v2: real, v3: real, v4: real)
    ensures lne <= 1.0 ==> DensityBlend(lne, lne34, v1, v2, v3, v4) == v1
    ensures lne > 4.0 ==> DensityBlend(lne, lne34, v1, v2, v3, v4) == v4
  {
  }

  /** At the tabulated densities log ne = 1, 2, 3 (and 4, when the weight
      density equals the branch density) the blend returns that grid's value exactly. */
  lemma ExactAtBandEdges(lne34: real, v1: real, v2: real, v3: real, v4: real)
    ensures DensityBlend(1.0, lne34, v1, v2, v3, v4) == v1
    ensures DensityBlend(2.0, lne34, v1, v2, v3, v4) == v2
    ensures DensityBlend(3.0, lne34, v1, v2, v3, v4) == v3
    ensures DensityBlend(4.0, 4.0, v1, v2, v3, v4) == v4
  {
  }

  function Min2(a: real, b: real): real { if a <= b then a else b }
  function Max2(a: real, b: real): real { if a >= b then a else b }

  /** With a consistent weight density (as for the bulge) the blend lies
      between the two grid values of its band. */
  lemma BlendBetweenNeighbours(lne: real, v1: real, v2: real, v3: real, v4: real)
    requires 1.0 < lne <= 4.0
    ensures var r := DensityBlend(lne, lne, v1, v2, v3, v4);
            && (lne <= 2.0 ==> Min2(v1, v2) <= r <= Max2(v1, v2))
            && (2.0 < lne <= 3.0 ==> Min2(v2, v3) <= r <= Max2(v2, v3))
            && (3.0 < lne ==> Min2(v3, v4) <= r <= Max2(v3, v4))
  {
    if lne <= 2.0 {
      Between(lne - 1.0, v1, v2);
    } else if lne <= 3.0 {
      Between(lne - 2.0, v2, v3);
    } else {
      Between(lne - 3.0, v3, v4);
    }
  }

  /** (1 - t) a + t b lies between a and b for t in [0, 1]. */
  lemma Between(t: real, a: real, b: real)
    requires 0.0 <= t <= 1.0
    ensures Min2(a, b) <= (1.0 - t) * a + t * b <= Max2(a, b)
  {
    var d := Step(t, a, b);
  }

  /** The step d = t (b - a) from a towards b: (1 - t) a + t b is a + d, and d
      goes no further than b. */
  lemma Step(t: real, a: real, b: real) returns (d: real)
    requires 0.0 <= t <= 1.0
    ensures (1.0 - t) * a + t * b == a + d
    ensures a <= b ==> 0.0 <= d <= b - a
    ensures b < a ==> b - a <= d <= 0.0
  {
    d := t * (b - a);
    Affine(t, a, b);
    if a <= b {
      StepUp(t, a, b);
    } else {
      StepDown(t, a, b);
    }
  }

  lemma StepUp(t: real, a: real, b: real)
    requires 0.0 <= t <= 1.0 && a <= b
    ensures 0.0 <= t * (b - a) <= b - a
  {
    var p := ScaleWithin(t, b - a);
  }

  lemma StepDown(t: real, a: real, b: real)
    requires 0.0 <= t <= 1.0 && b < a
    ensures b - a <= t * (b - a) <= 0.0
  {
    var q := ScaleWithin(t, a - b);
    Negate(t, a, b);
  }

  /** The product p = t d of a fraction t and a non-negative d lies in [0, d]. */
  lemma ScaleWithin(t: real, d: real) returns (p: real)
    requires 0.0 <= t <= 1.0 && d >= 0.0
    ensures p == t * d && 0.0 <= p <= d
  {
    ProductWithin(t, d);
    p := t * d;
  }

  lemma ProductWithin(t: real, d: real)
    requires 0.0 <= t <= 1.0 && d >= 0.0
    ensures 0.0 <= t * d <= d
  {
    assert d - t * d == (1.0 - t) * d;
  }

  lemma Negate(t: real, a: real, b: real)
    ensures t * (b - a) == -(t * (a - b))
  {
  }

  /** With a consistent weight density each band is the straight line between
      the values of its two grids: together with ExactAtBandEdges this makes the
      blend continuous at log ne = 1, 2 and 3, each band starting where the band
      below it ends. */
  lemma {:induction false} BandsAreLinear(lne: real, v1: real, v2: real, v3: real, v4: real)
    requires 1.0 < lne <= 4.0
    ensures var r := DensityBlend(lne, lne, v1, v2, v3, v4);
            && (lne <= 2.0 ==> r == v1 + (lne - 1.0) * (v2 - v1))
            && (2.0 < lne <= 3.0 ==> r == v2 + (lne - 2.0) * (v3 - v2))
            && (3.0 < lne ==> r == v3 + (lne - 3.0) * (v4 - v3))
  {
    if lne <= 2.0 {
      Affine(lne - 1.0, v1, v2);
    } else if lne <= 3.0 {
      Affine(lne - 2.0, v2, v3);
    } else {
      Affine(lne - 3.0, v3, v4);
    }
  }

  lemma Affine(t: real, a: real, b: real)
    ensures (1.0 - t) * a + t * b == a + t * (b - a)
  {
  }

  /** For a disk in the (3, 4] band the result does not depend on the disk's
      own density at all: only on the density passed for the weight. */
  lemma ThirdBandIgnoresBranchDensity(lne: real, lne': real, lne34: real, v1: real, v2: real, v3: real, v4: real)
    requires 3.0 < lne <= 4.0 && 3.0 < lne' <= 4.0
    ensures DensityBlend(lne, lne34, v1, v2, v3, v4) == DensityBlend(lne', lne34, v1, v2, v3, v4)
  {
  }

  /** A disk at log ne = 3.5 whose bulge has log ne = 0 extrapolates far outside
      [v3, v4]: with v3 = 0 and v4 = 1 it gets -3 where its own density gives 0.5. */
  lemma DiskWeightFromBulgeExample()
    ensures DensityBlend(3.5, 0.0, 0.0, 0.0, 0.0, 1.0) == -3.0
    ensures DensityBlend(3.5, 3.5, 0.0, 0.0, 0.0, 1.0) == 0.5
  {
  }

  /** Column n of `neb` becomes the mix (1 - dn) a + dn b of column n of `a` and `b`, line by line. */
  method MixColumn(neb: array2<real>, n: nat, a: array2<real>, b: array2<real>, dn: real)
    requires neb != a && neb != b
    requires n < neb.Length1 && neb.Length0 == NEmLine
    requires a.Length0 == NEmLine && b.Length0 == NEmLine && n < a.Length1 && n < b.Length1
    modifies neb
    ensures forall k, m :: 0 <= k < NEmLine && 0 <= m < neb.Length1 ==>
              neb[k, m] == if m == n then (1.0 - dn) * a[k, m] + dn * b[k, m] else old(neb[k, m])
  {
    for k := 0 to NEmLine
      invariant forall k', m :: 0 <= k' < NEmLine && 0 <= m < neb.Length1 ==>
                  neb[k', m] == if m == n && k' < k then (1.0 - dn) * a[k', m] + dn * b[k', m] else old(neb[k', m])
    {
      neb[k, n] := (1.0 - dn) * a[k, n] + dn * b[k, n];
    }
  }

  /** Column n of `neb` becomes a copy of column n of `a`, line by line. */
  method CopyColumn(neb: array2<real>, n: nat, a: array2<real>)
    requires neb != a
    requires n < neb.Length1 && neb.Length0 == NEmLine && a.Length0 == NEmLine && n < a.Length1
    modifies neb
    ensures forall k, m :: 0 <= k < NEmLine && 0 <= m < neb.Length1 ==>
              neb[k, m] == if m == n then a[k, m] else old(neb[k, m])
  {
    for k := 0 to NEmLine
      invariant forall k', m :: 0 <= k' < NEmLine && 0 <= m < neb.Length1 ==>
                  neb[k', m] == if m == n && k' < k then a[k', m] else old(neb[k', m])
    {
      neb[k, n] := a[k, n];
    }
  }

  /** The loop over the galaxies of `get_lines_Gutkin` that fills the
      NEmLine x n output, zero-initialised, one column per galaxy. `lne` chooses
      the branch and `lne34` gives the weight of the (3, 4] branch. */
  method BlendDensity(int1: array2<real>, int2: array2<real>, int3: array2<real>, int4: array2<real>,
                      lne: seq<real>, lne34: seq<real>)
    returns (neb: array2<real>)
    requires |lne| == |lne34|
    requires int1.Length0 == NEmLine && int1.Length1 == |lne|
    requires int2.Length0 == NEmLine && int2.Length1 == |lne|
    requires int3.Length0 == NEmLine && int3.Length1 == |lne|
    requires int4.Length0 == NEmLine && int4.Length1 == |lne|
    ensures fresh(neb) && neb.Length0 == NEmLine && neb.Length1 == |lne|
    ensures forall k, n :: 0 <= k < NEmLine && 0 <= n < |lne| ==>
              neb[k, n] == DensityBlend(lne[n], lne34[n], int1[k, n], int2[k, n], int3[k, n], int4[k, n])
  {
    var ndat := |lne|;
    neb := new real[NEmLine, ndat]((k, n) => 0.0);
    for n := 0 to ndat
      invariant forall k, m :: 0 <= k < NEmLine && 0 <= m < n ==>
                  neb[k, m] == DensityBlend(lne[m], lne34[m], int1[k, m], int2[k, m], int3[k, m], int4[k, m])
      invariant forall k, m :: 0 <= k < NEmLine && n <= m < ndat ==> neb[k, m] == 0.0
    {
      var x := lne[n];
      if x > 2.0 && x <= 3.0 {
        var dn := (x - 2.0) / (3.0 - 2.0);
        MixColumn(neb, n, int2, int3, dn);
      } else if x > 1.0 && x <= 2.0 {
        var dn := (x - 1.0) / (2.0 - 1.0);
        MixColumn(neb, n, int1, int2, dn);
      } else if x > 3.0 && x <= 4.0 {
        var dn := (lne34[n] - 3.0) / (4.0 - 3.0);
        MixColumn(neb, n, int3, int4, dn);
      } else if x <= 1.0 {
        CopyColumn(neb, n, int1);
      } else if x > 4.0 {
        CopyColumn(neb, n, int4);
      }
    }
  }
}
