/** The limits registry: the valid range of each photoionisation parameter. */
module Limits {
  import opened Outcome

  /** One data row of a limits file: property name, lower and upper limit. */
  datatype LimitRow = LimitRow(name: string, lower: real, upper: real)

  /** The registry of models and their limits files (`mod_lim`). */
  const ModLim: map<string, string> :=
    map["gutkin16" := "nebular_data/gutkin_tables/limits_gutkin.txt"]

  /** The first column of a limits table. */
  function Names(rows: seq<LimitRow>): (names: seq<string>)
    ensures |names| == |rows|
    ensures forall i :: 0 <= i < |rows| ==> names[i] == rows[i].name
  {
    if rows == [] then [] else [rows[0].name] + Names(rows[1..])
  }

  /** The index of the first occurrence of `p` in `names` (Python's `list.index`). */
  function FirstIndex(names: seq<string>, p: string): (i: nat)
    requires p in names
    ensures i < |names| && names[i] == p
    ensures forall j :: 0 <= j < i ==> names[j] != p
  {
    if names[0] == p then 0 else 1 + FirstIndex(names[1..], p)
  }

  /** Row `i` is the first row of `rows` named `p`. */
  ghost predicate FirstMatch(rows: seq<LimitRow>, p: string, i: int)
  {
    0 <= i < |rows| && rows[i].name == p && forall j :: 0 <= j < i ==> rows[j].name != p
  }

  /** `p` occurs in `s` starting at position `m`. */
  predicate OccursAt(p: string, s: string, m: int)
  {
    0 <= m && m + |p| <= |s| && s[m..m + |p|] == p
  }

  /** The first position at or after `i` where `p` occurs in `s` (Python's `str.index`). */
  function FindFrom(p: string, s: string, i: nat): (r: Option<nat>)
    requires i <= |s|
    ensures r.Some? ==> i <= r.value && OccursAt(p, s, r.value) &&
                        forall m :: i <= m < r.value ==> !OccursAt(p, s, m)
    ensures r.None? ==> forall m :: i <= m ==> !OccursAt(p, s, m)
    decreases |s| - i
  {
    if i + |p| > |s| then None
    else if s[i..i + |p|] == p then Some(i)
    else FindFrom(p, s, i + 1)
  }

  /** The (lower, upper) limits of property `propname` for model `photmod`.
      `files` maps each existing limits file to its data rows. A file of one
      data row has its name column read as a single string rather than a list,
      so the name is looked for as a substring of that string: the row is
      found when the name starts it, no row is read when the name occurs
      further in, and the lookup stops when the name does not occur. */
  function GetLimits(propname: string, photmod: string, files: map<string, seq<LimitRow>>): (r: Result<(real, real)>)
    ensures photmod !in ModLim ==> r == Err(UnknownModel(photmod))
    ensures photmod in ModLim && ModLim[photmod] !in files ==> r == Err(MissingLimitsFile(ModLim[photmod]))
    ensures photmod in ModLim && ModLim[photmod] in files && |files[ModLim[photmod]]| != 1 ==>
              var rows := files[ModLim[photmod]];
              && (r.Ok? <==> exists i :: 0 <= i < |rows| && rows[i].name == propname)
              && (r.Err? ==> r.error == UnknownProperty(propname))
              && (r.Ok? ==> exists i :: FirstMatch(rows, propname, i) && r.value == (rows[i].lower, rows[i].upper))
    ensures photmod in ModLim && ModLim[photmod] in files && |files[ModLim[photmod]]| == 1 ==>
              var path, row := ModLim[photmod], files[ModLim[photmod]][0];
              && (r.Ok? <==> OccursAt(propname, row.name, 0))
              && (r.Ok? ==> r.value == (row.lower, row.upper))
              && (r == Err(UnknownProperty(propname)) <==> forall m :: !OccursAt(propname, row.name, m))
              && (r.Err? && r.error != UnknownProperty(propname) ==>
                    && r.error.NoLimitsRow? && r.error.path == path && r.error.skipped > 0
                    && OccursAt(propname, row.name, r.error.skipped)
                    && forall m :: 0 <= m < r.error.skipped ==> !OccursAt(propname, row.name, m))
  {
    if photmod !in ModLim then Err(UnknownModel(photmod))
    else
      var path := ModLim[photmod];
      if path !in files then Err(MissingLimitsFile(path))
      else
        var rows := files[path];
        if |rows| == 1 then
          match FindFrom(propname, rows[0].name, 0)
          case None => Err(UnknownProperty(propname))
          case Some(i) => if i == 0 then Ok((rows[0].lower, rows[0].upper)) else Err(NoLimitsRow(path, i))
        else
          var names := Names(rows);
          if propname !in names then
            assert forall i :: 0 <= i < |rows| ==> rows[i].name == names[i];
            Err(UnknownProperty(propname))
          else
            var i := FirstIndex(names, propname);
            assert FirstMatch(rows, propname, i);
            Ok((rows[i].lower, rows[i].upper))
  }

  /** A one-row table is searched by substring: "U" is found inside "lU" at
      position 1, so the lookup skips past the only row instead of stopping,
      while a row whose name starts with "U" answers for "U". */
  lemma OneRowSubstringMatch()
    ensures GetLimits("U", "gutkin16", map[ModLim["gutkin16"] := [LimitRow("lU", -4.0, -1.0)]])
            == Err(NoLimitsRow(ModLim["gutkin16"], 1))
    ensures GetLimits("U", "gutkin16", map[ModLim["gutkin16"] := [LimitRow("Ux", -4.0, -1.0)]]) == Ok((-4.0, -1.0))
  {
    assert "lU"[0..1] == "l" && "lU"[1..2] == "U";
    assert "Ux"[0..1] == "U";
  }
}
