/** The value clamper (`clean_photarray`): per-galaxy disk and bulge values of
    U, nH and Z are held inside the limits of the photoionisation model. */
module Clamp {
  import opened Outcome
  import opened Limits

  /** The value `v` ends up with after the two numpy passes: first every value
      above `upper` is set to `upper`, then every value below `lower` to `lower`. */
  function ClampValue(v: real, lower: real, upper: real): (c: real)
    ensures lower <= upper ==> lower <= c <= upper
    ensures lower <= v <= upper ==> c == v
    ensures v < lower ==> c == lower
    ensures lower <= upper < v ==> c == upper
    ensures upper < lower ==> c == lower
  {
    var capped := if v > upper then upper else v;
    if capped < lower then lower else capped
  }

  /** Clamping a whole sequence element by element. */
  function ClampAll(s: seq<real>, lower: real, upper: real): (r: seq<real>)
    ensures |r| == |s|
    ensures lower <= upper ==> forall i :: 0 <= i < |r| ==> lower <= r[i] <= upper
    ensures forall i :: 0 <= i < |s| && lower <= s[i] <= upper ==> r[i] == s[i]
  {
    seq(|s|, i requires 0 <= i < |s| => ClampValue(s[i], lower, upper))
  }

  /** Clamping twice changes nothing more than clamping once, whatever the limits. */
  lemma ClampIdempotent(s: seq<real>, lower: real, upper: real)
    ensures ClampAll(ClampAll(s, lower, upper), lower, upper) == ClampAll(s, lower, upper)
  {
    var once := ClampAll(s, lower, upper);
    var twice := ClampAll(once, lower, upper);
    forall i | 0 <= i < |s|
      ensures twice[i] == once[i]
    {
      var v := ClampValue(s[i], lower, upper);
      assert ClampValue(v, lower, upper) == v;
    }
  }

  /** With inverted limits (lower > upper) every value ends up at `lower`. */
  lemma InvertedLimitsGiveLower(s: seq<real>, lower: real, upper: real)
    requires upper < lower
    ensures forall i :: 0 <= i < |s| ==> ClampAll(s, lower, upper)[i] == lower
  {
  }

  /** The clamper applied to the limits table of the `get_limits` docstring. */
  lemma ClampExample()
    ensures GetLimits("Z", "gutkin16", map[ModLim["gutkin16"] := DocstringTable()]) == Ok((0.0001, 0.040))
    ensures GetLimits("nH", "gutkin16", map[ModLim["gutkin16"] := DocstringTable()]) == Ok((1.0, 4.0))
    ensures ClampValue(0.05, 0.0001, 0.040) == 0.040
  {
    var rows := DocstringTable();
    assert Names(rows) == ["Z", "U", "xid", "nH"];
  }

  function DocstringTable(): seq<LimitRow>
  {
    [LimitRow("Z", 0.0001, 0.040), LimitRow("U", -4.0, -1.0), LimitRow("xid", 0.1, 0.5), LimitRow("nH", 1.0, 4.0)]
  }

  /** One (disk, bulge) column pair per galaxy split into two sequences. */
  method SplitColumns(pairs: seq<(real, real)>) returns (disk: seq<real>, bulge: seq<real>)
    ensures |disk| == |pairs| && |bulge| == |pairs|
    ensures forall i :: 0 <= i < |pairs| ==> disk[i] == pairs[i].0 && bulge[i] == pairs[i].1
  {
    disk, bulge := [], [];
    for ii := 0 to |pairs|
      invariant |disk| == ii && |bulge| == ii
      invariant forall i :: 0 <= i < ii ==> disk[i] == pairs[i].0 && bulge[i] == pairs[i].1
    {
      disk := disk + [pairs[ii].0];
      bulge := bulge + [pairs[ii].1];
    }
  }

  /** The two in-place passes over one array. */
  method ClampInPlace(a: array<real>, lower: real, upper: real)
    modifies a
    ensures a[..] == ClampAll(old(a[..]), lower, upper)
  {
    // first pass: every value above the upper limit becomes the upper limit
    for i := 0 to a.Length
      invariant forall m :: 0 <= m < i ==> a[m] == (if old(a[m]) > upper then upper else old(a[m]))
      invariant forall m :: i <= m < a.Length ==> a[m] == old(a[m])
    {
      if a[i] > upper {
        a[i] := upper;
      }
    }
    // second pass: every value below the lower limit becomes the lower limit
    for i := 0 to a.Length
      invariant forall m :: 0 <= m < i ==> a[m] == ClampValue(old(a[m]), lower, upper)
      invariant forall m :: i <= m < a.Length ==> a[m] == (if old(a[m]) > upper then upper else old(a[m]))
    {
      if a[i] < lower {
        a[i] := lower;
      }
    }
  }

  /** The two columns stacked into a 2 x n array: row 0 the disk, row 1 the bulge. */
  datatype Stacked = Stacked(disk: seq<real>, bulge: seq<real>)

  /** The three cleaned property arrays. */
  datatype Cleaned = Cleaned(lu: Stacked, lne: Stacked, loh12: Stacked)

  /** `pairs` split into columns, each column clamped to [lower, upper]. */
  ghost predicate ClampedPairs(st: Stacked, pairs: seq<(real, real)>, lower: real, upper: real)
  {
    && |st.disk| == |pairs| && |st.bulge| == |pairs|
    && forall i :: 0 <= i < |pairs| ==>
         st.disk[i] == ClampValue(pairs[i].0, lower, upper) && st.bulge[i] == ClampValue(pairs[i].1, lower, upper)
  }

  /** Splits one (disk, bulge) array, clamps both columns in place and stacks them. */
  method CleanPair(pairs: seq<(real, real)>, lower: real, upper: real) returns (st: Stacked)
    ensures ClampedPairs(st, pairs, lower, upper)
  {
    var d, b := SplitColumns(pairs);
    var ad := new real[|d|](i requires 0 <= i < |d| => d[i]);
    var ab := new real[|b|](i requires 0 <= i < |b| => b[i]);
    assert ad[..] == d && ab[..] == b;
    ClampInPlace(ad, lower, upper);
    ClampInPlace(ab, lower, upper);
    st := Stacked(ad[..], ab[..]);
  }

  /** `clean_photarray`: the U, nH and Z arrays of every galaxy, clamped to the
      limits of model `photmod`. The limits are looked up in the order U, nH, Z
      and the first failing lookup stops the program. */
  method CleanPhotArray(photmod: string, files: map<string, seq<LimitRow>>,
                        lu: seq<(real, real)>, lne: seq<(real, real)>, loh12: seq<(real, real)>)
    returns (r: Result<Cleaned>)
    ensures var u, n, z := GetLimits("U", photmod, files), GetLimits("nH", photmod, files), GetLimits("Z", photmod, files);
            && (r.Ok? <==> u.Ok? && n.Ok? && z.Ok?)
            && (u.Err? ==> r == Err(u.error))
            && (u.Ok? && n.Err? ==> r == Err(n.error))
            && (u.Ok? && n.Ok? && z.Err? ==> r == Err(z.error))
            && (r.Ok? ==>
                  && ClampedPairs(r.value.lu, lu, u.value.0, u.value.1)
                  && ClampedPairs(r.value.lne, lne, n.value.0, n.value.1)
                  && ClampedPairs(r.value.loh12, loh12, z.value.0, z.value.1))
  {
    var u := GetLimits("U", photmod, files);
    if u.Err? {
      return Err(u.error);
    }
    var stu := CleanPair(lu, u.value.0, u.value.1);
    var n := GetLimits("nH", photmod, files);
    if n.Err? {
      return Err(n.error);
    }
    var stn := CleanPair(lne, n.value.0, n.value.1);
    var z := GetLimits("Z", photmod, files);
    if z.Err? {
      return Err(z.error);
    }
    var stz := CleanPair(loh12, z.value.0, z.value.1);
    r := Ok(Cleaned(stu, stn, stz));
  }
}
