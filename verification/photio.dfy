/** The emission-line pipeline of `get_lines_Gutkin`: grids loaded, then for
    the disk and for the bulge the weights on both metallicity axes and on the
    U axis, the bilinear interpolation on all four grids, and the density blend. */
module Photio {
  import opened Outcome
  import opened Gutkin
  import opened GridLoad
  import opened Interp
  import opened Density
  import opened Clamp

  /** The metallicity axes the interpolation runs on (log10 of the full and of
      the reduced metallicity lists). */
  predicate Axes(lzmets: seq<real>, lzmetsReduced: seq<real>)
  {
    && |lzmets| == NZMet && StrictlyIncreasing(lzmets)
    && |lzmetsReduced| == NZMetReduced && StrictlyIncreasing(lzmetsReduced)
  }

  lemma LogUBinsIncreasing()
    ensures |LogUBins| == NU && StrictlyIncreasing(LogUBins)
  {
  }

  /** The weight on axis `b` of value `x`, with the locator's answer. */
  function AxisWeight(x: real, b: seq<real>, locate: (real, seq<real>) -> int): (w: Weight)
    requires |b| >= 2 && StrictlyIncreasing(b) && LocatorInRange(locate)
    ensures w.index <= |b| - 2
  {
    BinWeight(x, b, locate(x, b))
  }

  /** Line `e` of one stellar component (disk or bulge) with log U `lu`,
      log Z `lz` relative to the sun, branch density `lne` and weight density
      `lne34` for the (3, 4] band. */
  function ComponentLine(s: LoaderState, lzmets: seq<real>, lzmetsReduced: seq<real>,
                         locate: (real, seq<real>) -> int,
                         lu: real, lz: real, lne: real, lne34: real, e: nat): real
    requires ValidState(s) && Axes(lzmets, lzmetsReduced) && LocatorInRange(locate) && e < NEmLine
  {
    LogUBinsIncreasing();
    var wu := AxisWeight(lu, LogUBins, locate);
    var wr := AxisWeight(lz, lzmetsReduced, locate);
    var wf := AxisWeight(lz, lzmets, locate);
    DensityBlend(lne, lne34,
                 Bilinear(s.grid1, wr.index, wr.frac, wu.index, wu.frac, e),
                 Bilinear(s.grid2, wf.index, wf.frac, wu.index, wu.frac, e),
                 Bilinear(s.grid3, wf.index, wf.frac, wu.index, wu.frac, e),
                 Bilinear(s.grid4, wr.index, wr.frac, wu.index, wu.frac, e))
  }

  /** A locator that answers i for a value standing on node i of the axis. */
  ghost predicate ExactAtNodes(locate: (real, seq<real>) -> int, b: seq<real>)
  {
    forall i :: 0 <= i < |b| ==> locate(b[i], b) == i
  }

  /** At a node of the U axis and of the full metallicity axis, and at the
      tabulated density log ne = 2 (or 3), the pipeline returns the table value
      of the nH = 100 (or 1000) grid exactly. */
  lemma ReproducesTableAtNodes(s: LoaderState, lzmets: seq<real>, lzmetsReduced: seq<real>,
                               locate: (real, seq<real>) -> int, iz: nat, ju: nat, lne34: real, e: nat)
    requires ValidState(s) && Axes(lzmets, lzmetsReduced) && LocatorInRange(locate) && e < NEmLine
    requires ExactAtNodes(locate, LogUBins) && ExactAtNodes(locate, lzmets)
    requires iz < NZMet && ju < NU
    ensures ComponentLine(s, lzmets, lzmetsReduced, locate, LogUBins[ju], lzmets[iz], 2.0, lne34, e) == s.grid2[iz][ju][e]
    ensures ComponentLine(s, lzmets, lzmetsReduced, locate, LogUBins[ju], lzmets[iz], 3.0, lne34, e) == s.grid3[iz][ju][e]
  {
    LogUBinsIncreasing();
    var wu := AxisWeight(LogUBins[ju], LogUBins, locate);
    var wf := AxisWeight(lzmets[iz], lzmets, locate);
    BinWeightAtNode(LogUBins, ju);
    BinWeightAtNode(lzmets, iz);
    BilinearAtNode(s.grid2, wf, iz, wu, ju, e);
    BilinearAtNode(s.grid3, wf, iz, wu, ju, e);
  }

  /** `neb` is the NEmLine x n line matrix of a component with the given
      per-galaxy log U, log Z, branch density and weight density. */
  ghost predicate IsLineMatrix(neb: array2<real>, s: LoaderState, lzmets: seq<real>, lzmetsReduced: seq<real>,
                               locate: (real, seq<real>) -> int,
                               lu: seq<real>, lz: seq<real>, lne: seq<real>, lne34: seq<real>)
    reads neb
  {
    && ValidState(s) && Axes(lzmets, lzmetsReduced) && LocatorInRange(locate)
    && |lz| == |lu| && |lne| == |lu| && |lne34| == |lu|
    && neb.Length0 == NEmLine && neb.Length1 == |lu|
    && forall e, n :: 0 <= e < NEmLine && 0 <= n < |lu| ==>
         neb[e, n] == ComponentLine(s, lzmets, lzmetsReduced, locate, lu[n], lz[n], lne[n], lne34[n], e)
  }

  /** Column 0 (disk) and column 1 (bulge) of a per-galaxy pair array. */
  function DiskOf(p: seq<(real, real)>): (d: seq<real>)
    ensures |d| == |p| && forall n :: 0 <= n < |p| ==> d[n] == p[n].0
  {
    seq(|p|, n requires 0 <= n < |p| => p[n].0)
  }

  function BulgeOf(p: seq<(real, real)>): (b: seq<real>)
    ensures |b| == |p| && forall n :: 0 <= n < |p| ==> b[n] == p[n].1
  {
    seq(|p|, n requires 0 <= n < |p| => p[n].1)
  }

  /** Every value of `s` less `offset`: the metallicities relative to the solar value. */
  function Shift(s: seq<real>, offset: real): (r: seq<real>)
    ensures |r| == |s| && forall n :: 0 <= n < |s| ==> r[n] == s[n] - offset
  {
    seq(|s|, n requires 0 <= n < |s| => s[n] - offset)
  }

  /** The interpolated lines of one component. */
  method ComponentLines(g: GridArrays, ghost s: LoaderState, lzmets: seq<real>, lzmetsReduced: seq<real>,
                        locate: (real, seq<real>) -> int,
                        lu: seq<real>, lz: seq<real>, lne: seq<real>, lne34: seq<real>)
    returns (neb: array2<real>)
    requires ValidState(s) && Mirrors(g.grid1, g.grid2, g.grid3, g.grid4, s)
    requires Axes(lzmets, lzmetsReduced) && LocatorInRange(locate)
    requires |lz| == |lu| && |lne| == |lu| && |lne34| == |lu|
    ensures fresh(neb)
    ensures IsLineMatrix(neb, s, lzmets, lzmetsReduced, locate, lu, lz, lne, lne34)
  {
    LogUBinsIncreasing();
    var du, j := ComputeWeights(lu, LogUBins, locate);
    // reduced metallicity axis: grids for nH = 10 and 10000
    var dz, i := ComputeWeights(lz, lzmetsReduced, locate);
    var int1, int4 := InterpolatePair(g.grid1, g.grid4, s.grid1, s.grid4, dz, i, du, j);
    // full metallicity axis: grids for nH = 100 and 1000
    dz, i := ComputeWeights(lz, lzmets, locate);
    var int2, int3 := InterpolatePair(g.grid2, g.grid3, s.grid2, s.grid3, dz, i, du, j);
    neb := BlendDensity(int1, int2, int3, int4, lne, lne34);
  }

  /** `get_lines_Gutkin`: the NEmLine x n disk and bulge line matrices for the
      galaxies whose (disk, bulge) log U, log ne and 12 + log(O/H) are given.
      `ohsun` is the solar 12 + log(O/H) subtracted from the metallicities. The
      disk's (3, 4] density band takes its weight from the bulge density. */
  method GetLinesGutkin(tables: map<string, TableFile>,
                        lu: seq<(real, real)>, lne: seq<(real, real)>, loh12: seq<(real, real)>, ohsun: real,
                        lzmets: seq<real>, lzmetsReduced: seq<real>, locate: (real, seq<real>) -> int)
    returns (r: Result<(array2<real>, array2<real>)>)
    requires |lne| == |lu| && |loh12| == |lu|
    requires Axes(lzmets, lzmetsReduced) && LocatorInRange(locate)
    ensures var a := Assemble(tables);
            && (r.Ok? <==> a.Ok?)
            && (r.Err? ==> r.error == a.error)
            && (r.Ok? ==>
                  && IsLineMatrix(r.value.0, a.value, lzmets, lzmetsReduced, locate,
                                  DiskOf(lu), Shift(DiskOf(loh12), ohsun), DiskOf(lne), BulgeOf(lne))
                  && IsLineMatrix(r.value.1, a.value, lzmets, lzmetsReduced, locate,
                                  BulgeOf(lu), Shift(BulgeOf(loh12), ohsun), BulgeOf(lne), BulgeOf(lne)))
  {
    var grids := LoadGrids(tables);
    if grids.Err? {
      return Err(grids.error);
    }
    ghost var s := Assemble(tables).value;
    var lud, lub := SplitColumns(lu);
    var lned, lneb := SplitColumns(lne);
    var loh12d, loh12b := SplitColumns(loh12);
    assert lud == DiskOf(lu) && lub == BulgeOf(lu);
    assert lned == DiskOf(lne) && lneb == BulgeOf(lne);
    assert loh12d == DiskOf(loh12) && loh12b == BulgeOf(loh12);
    loh12d := Shift(loh12d, ohsun);
    loh12b := Shift(loh12b, ohsun);
    // DISK: the (3, 4] band weighs with the bulge density lneb
    var disk := ComponentLines(grids.value, s, lzmets, lzmetsReduced, locate, lud, loh12d, lned, lneb);
    // BULGE
    var bulge := ComponentLines(grids.value, s, lzmets, lzmetsReduced, locate, lub, loh12b, lneb, lneb);
    r := Ok((disk, bulge));
  }
}
