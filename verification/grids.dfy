/** The grid loader (first half of `get_lines_Gutkin`): the rows of the 14
    per-metallicity tables are routed into four emission-line grids, one per
    hydrogen density nH = 10, 100, 1000, 10000 cm^-3. */
module GridLoad {
  import opened Outcome
  import opened Gutkin
  import opened ZFile

  /** A grid indexed by (metallicity, U bin, emission line). */
  type Grid = seq<seq<seq<real>>>

  /** `G` has `nz` metallicities, NU bins of U and NEmLine lines. */
  predicate Shaped(G: Grid, nz: nat)
  {
    && |G| == nz
    && forall z :: 0 <= z < nz ==> |G[z]| == NU && forall u :: 0 <= u < NU ==> |G[z][u]| == NEmLine
  }

  /** The zero-filled grid of `nz` metallicities the loader starts from. */
  function ZeroGrid(nz: nat): (G: Grid)
    ensures Shaped(G, nz)
    ensures forall z, u, e :: 0 <= z < nz && 0 <= u < NU && 0 <= e < NEmLine ==> G[z][u][e] == 0.0
  {
    seq(nz, _ => seq(NU, _ => seq(NEmLine, _ => 0.0)))
  }

  /** `G` with the NEmLine values of cell (z, u) replaced by `vals`. */
  function SetCell(G: Grid, z: nat, u: nat, vals: seq<real>): (G': Grid)
    requires Shaped(G, |G|) && z < |G| && u < NU && |vals| == NEmLine
    ensures Shaped(G', |G|)
    ensures forall z', u' :: 0 <= z' < |G| && 0 <= u' < NU ==>
              G'[z'][u'] == if z' == z && u' == u then vals else G[z'][u']
  {
    G[z := G[z][u := vals]]
  }

  /** The loader's state: the held-over U index `l`, the held-over reduced
      metallicity index `kred`, and the four grids. */
  datatype LoaderState = LoaderState(l: nat, kred: nat, grid1: Grid, grid2: Grid, grid3: Grid, grid4: Grid)

  predicate ValidState(s: LoaderState)
  {
    && s.l < NU && s.kred < NZMetReduced
    && Shaped(s.grid1, NZMetReduced) && Shaped(s.grid2, NZMet)
    && Shaped(s.grid3, NZMet) && Shaped(s.grid4, NZMetReduced)
  }

  /** Before any row: indices 0, every grid zero. */
  function Initial(): (s: LoaderState)
    ensures ValidState(s) && s.l == 0 && s.kred == 0
    ensures forall z, u, e :: 0 <= z < NZMetReduced && 0 <= u < NU && 0 <= e < NEmLine ==>
              s.grid1[z][u][e] == 0.0 && s.grid4[z][u][e] == 0.0
    ensures forall z, u, e :: 0 <= z < NZMet && 0 <= u < NU && 0 <= e < NEmLine ==>
              s.grid2[z][u][e] == 0.0 && s.grid3[z][u][e] == 0.0
  {
    LoaderState(0, 0, ZeroGrid(NZMetReduced), ZeroGrid(NZMet), ZeroGrid(NZMet), ZeroGrid(NZMetReduced))
  }

  /** The U index after a row with log U = `lu`: the bin that `lu` equals
      exactly, or the previous index `l` when it equals none. */
  function UIndex(lu: real, l: nat): (r: nat)
    ensures lu in LogUBins ==> r < NU && LogUBins[r] == lu
    ensures lu !in LogUBins ==> r == l
  {
    if lu == -4.0 then 0
    else if lu == -3.5 then 1
    else if lu == -3.0 then 2
    else if lu == -2.5 then 3
    else if lu == -2.0 then 4
    else if lu == -1.5 then 5
    else if lu == -1.0 then 6
    else l
  }

  /** The reduced metallicity index after an nH = 10 or 10000 row of file `k`:
      the slot of the reduced axis that file `k` fills, or the previous
      index `kred` when file `k` fills none. */
  function ReducedIndex(k: nat, kred: nat): (r: nat)
    ensures k in ReducedSource ==> r < NZMetReduced && ReducedSource[r] == k
    ensures k !in ReducedSource ==> r == kred
  {
    if k == 0 then 0
    else if k == 4 then 1
    else if k == 9 then 2
    else if k == 12 then 3
    else kred
  }

  /** The selection filter on xid, C/O and the IMF cut. */
  predicate Selected(f: seq<real>)
    requires |f| >= 5
  {
    f[1] == 0.3 && f[3] == 1.0 && f[4] == 100.0
  }

  /** nH is one of the four tabulated densities. */
  predicate IsGridDensity(nH: real)
  {
    nH == 10.0 || nH == 100.0 || nH == 1000.0 || nH == 10000.0
  }

  /** nH is one of the two densities tabulated on the reduced metallicity axis. */
  predicate IsReducedDensity(nH: real)
  {
    nH == 10.0 || nH == 10000.0
  }

  /** One data row (`iline` of file `k`), already split into numbers:
      log U, xid, nH, C/O, IMF cut, then NEmLine line values. */
  function StepRow(s: LoaderState, k: nat, iline: nat, f: seq<real>): (r: Result<LoaderState>)
    requires ValidState(s) && k < NZMet
    ensures r.Ok? ==> ValidState(r.value)
  {
    if |f| < 5 then Err(MalformedRow(k, iline))
    else if !Selected(f) then Ok(s)
    else
      var l := UIndex(f[0], s.l);
      var nH := f[2];
      if !IsGridDensity(nH) then Ok(s.(l := l))
      else
        var kred := if IsReducedDensity(nH) then ReducedIndex(k, s.kred) else s.kred;
        if |f| < 5 + NEmLine then Err(MalformedRow(k, iline))
        else Ok(Written(s, k, l, kred, nH, f[5..5 + NEmLine]))
  }

  /** The state after the NEmLine values `vals` of a row of file `k` with
      density `nH` are stored at U index `l` and reduced index `kred`. */
  function Written(s: LoaderState, k: nat, l: nat, kred: nat, nH: real, vals: seq<real>): (t: LoaderState)
    requires ValidState(s) && k < NZMet && l < NU && kred < NZMetReduced && |vals| == NEmLine
    ensures ValidState(t) && t.l == l && t.kred == kred
  {
    LoaderState(l, kred,
                if nH == 10.0 then SetCell(s.grid1, kred, l, vals) else s.grid1,
                if nH == 100.0 then SetCell(s.grid2, k, l, vals) else s.grid2,
                if nH == 1000.0 then SetCell(s.grid3, k, l, vals) else s.grid3,
                if nH == 10000.0 then SetCell(s.grid4, kred, l, vals) else s.grid4)
  }

  /** A line of a table file: one that does not read as numbers, or its numbers. */
  datatype TableLine = Text(text: string) | Fields(values: seq<real>)

  /** A table file: its number of header lines (`get_nheader`) and its lines. */
  datatype TableFile = TableFile(nheader: nat, lines: seq<TableLine>)

  /** The state after the lines of file `k`, the first `ih` of which are header. */
  function ReadLines(s: LoaderState, k: nat, ih: nat, lines: seq<TableLine>): (r: Result<LoaderState>)
    requires ValidState(s) && k < NZMet
    ensures r.Ok? ==> ValidState(r.value)
    decreases |lines|
  {
    if lines == [] then Ok(s)
    else
      match ReadLines(s, k, ih, lines[..|lines| - 1])
      case Err(e) => Err(e)
      case Ok(t) => LineStep(t, k, ih, lines)
  }

  /** The last of `lines` (line number |lines| - 1) applied to the state `t`. */
  function LineStep(t: LoaderState, k: nat, ih: nat, lines: seq<TableLine>): (r: Result<LoaderState>)
    requires ValidState(t) && k < NZMet && |lines| > 0
    ensures r.Ok? ==> ValidState(r.value)
    ensures r.Err? ==> r.error == MalformedRow(k, |lines| - 1)
  {
    var iline := |lines| - 1;
    if iline < ih then Ok(t)
    else
      match lines[iline]
      case Text(_) => Err(MalformedRow(k, iline))
      case Fields(f) => StepRow(t, k, iline, f)
  }

  /** One more line: the state after `lines` is LineStep of the state after all but the last. */
  lemma ReadLinesStep(s: LoaderState, k: nat, ih: nat, lines: seq<TableLine>, t: LoaderState)
    requires ValidState(s) && k < NZMet && |lines| > 0
    requires ReadLines(s, k, ih, lines[..|lines| - 1]) == Ok(t)
    ensures ReadLines(s, k, ih, lines) == LineStep(t, k, ih, lines)
  {
  }

  /** The state after the files k = 0 .. n-1; a missing file stops the program. */
  function LoadUpTo(tables: map<string, TableFile>, n: nat): (r: Result<LoaderState>)
    requires n <= NZMet
    ensures r.Ok? ==> ValidState(r.value)
  {
    if n == 0 then Ok(Initial())
    else
      match LoadUpTo(tables, n - 1)
      case Err(e) => Err(e)
      case Ok(s) =>
        var k := n - 1;
        match GetZFile(ZmetStr[k], GridModel, tables.Keys)
        case None => Err(MissingGridFile(ZmetStr[k]))
        case Some(path) => ReadLines(s, k, tables[path].nheader, tables[path].lines)
  }

  /** The four grids assembled from all 14 table files. */
  function Assemble(tables: map<string, TableFile>): Result<LoaderState>
  {
    LoadUpTo(tables, NZMet)
  }

  /** One more file: the load of files 0 .. k is the load of files 0 .. k-1
      followed by file k, or a stop when file k does not exist. */
  lemma LoadUpToStep(tables: map<string, TableFile>, k: nat, s: LoaderState)
    requires k < NZMet && LoadUpTo(tables, k) == Ok(s)
    ensures var z := GetZFile(ZmetStr[k], GridModel, tables.Keys);
            && (z.None? ==> LoadUpTo(tables, k + 1) == Err(MissingGridFile(ZmetStr[k])))
            && (z.Some? ==>
                  && z.value in tables
                  && LoadUpTo(tables, k + 1) == ReadLines(s, k, tables[z.value].nheader, tables[z.value].lines))
  {
  }

  // ---------------------------------------------------------------------------
  // Properties of the row step

  /** A row that fails the selection filter, or whose nH is not tabulated,
      changes no grid and no reduced index; only a selected row can move `l`. */
  lemma UnselectedRowChangesNoGrid(s: LoaderState, k: nat, iline: nat, f: seq<real>)
    requires ValidState(s) && k < NZMet && |f| >= 5
    requires !Selected(f) || !IsGridDensity(f[2])
    ensures var r := StepRow(s, k, iline, f);
            && r.Ok?
            && r.value.grid1 == s.grid1 && r.value.grid2 == s.grid2
            && r.value.grid3 == s.grid3 && r.value.grid4 == s.grid4
            && r.value.kred == s.kred
            && r.value.l == (if Selected(f) then UIndex(f[0], s.l) else s.l)
  {
  }

  /** A selected row with a tabulated nH writes its NEmLine values into exactly
      one cell of exactly one grid: (k, l) of grid2 or grid3 for nH = 100 or
      1000, (kred, l) of grid1 or grid4 for nH = 10 or 10000. */
  lemma SelectedRowWritesOneCell(s: LoaderState, k: nat, iline: nat, f: seq<real>)
    requires ValidState(s) && k < NZMet && |f| >= 5 + NEmLine
    requires Selected(f) && IsGridDensity(f[2])
    ensures var r := StepRow(s, k, iline, f);
            && r.Ok?
            && var t, nH, vals := r.value, f[2], f[5..5 + NEmLine];
            && t.l == UIndex(f[0], s.l)
            && t.kred == (if IsReducedDensity(nH) then ReducedIndex(k, s.kred) else s.kred)
            && (forall z, u :: 0 <= z < NZMetReduced && 0 <= u < NU ==>
                  && t.grid1[z][u] == (if nH == 10.0 && z == t.kred && u == t.l then vals else s.grid1[z][u])
                  && t.grid4[z][u] == (if nH == 10000.0 && z == t.kred && u == t.l then vals else s.grid4[z][u]))
            && (forall z, u :: 0 <= z < NZMet && 0 <= u < NU ==>
                  && t.grid2[z][u] == (if nH == 100.0 && z == k && u == t.l then vals else s.grid2[z][u])
                  && t.grid3[z][u] == (if nH == 1000.0 && z == k && u == t.l then vals else s.grid3[z][u]))
  {
  }

  /** A selected, tabulated row that is shorter than 5 + NEmLine values stops the program. */
  lemma ShortSelectedRowStops(s: LoaderState, k: nat, iline: nat, f: seq<real>)
    requires ValidState(s) && k < NZMet && 5 <= |f| < 5 + NEmLine
    ensures StepRow(s, k, iline, f).Err? <==> Selected(f) && IsGridDensity(f[2])
  {
  }

  // ---------------------------------------------------------------------------
  // Properties of a whole file

  /** The first `ih` lines of a file are never looked at. */
  lemma {:induction false} HeaderIgnored(s: LoaderState, k: nat, ih: nat, lines: seq<TableLine>, lines': seq<TableLine>)
    requires ValidState(s) && k < NZMet
    requires |lines| == |lines'|
    requires forall i :: ih <= i < |lines| ==> lines[i] == lines'[i]
    ensures ReadLines(s, k, ih, lines) == ReadLines(s, k, ih, lines')
    decreases |lines|
  {
    if lines != [] {
      var n := |lines| - 1;
      HeaderIgnored(s, k, ih, lines[..n], lines'[..n]);
    }
  }

  /** Once a prefix of the lines has stopped the program, so has the whole file,
      with the same stop reason. */
  lemma {:induction false} ReadLinesErrPersists(s: LoaderState, k: nat, ih: nat, lines: seq<TableLine>, n: nat)
    requires ValidState(s) && k < NZMet && n <= |lines|
    requires ReadLines(s, k, ih, lines[..n]).Err?
    ensures ReadLines(s, k, ih, lines) == ReadLines(s, k, ih, lines[..n])
    decreases |lines|
  {
    if n < |lines| {
      var init := lines[..|lines| - 1];
      assert init[..n] == lines[..n];
      ReadLinesErrPersists(s, k, ih, init, n);
    } else {
      assert lines[..n] == lines;
    }
  }

  /** File `k` writes only metallicity slice k of grid2 and grid3, and only
      slot ReducedIndex(k, kred) of grid1 and grid4, where kred is the reduced
      index held over from before the file: a file outside ReducedSource
      writes its nH = 10 and 10000 rows over the slot of an earlier file. */
  lemma {:induction false} FileWritesOnlyItsSlices(s: LoaderState, k: nat, ih: nat, lines: seq<TableLine>)
    requires ValidState(s) && k < NZMet
    requires ReadLines(s, k, ih, lines).Ok?
    ensures var t := ReadLines(s, k, ih, lines).value;
            && (t.kred == s.kred || t.kred == ReducedIndex(k, s.kred))
            && (forall z :: 0 <= z < NZMet && z != k ==> t.grid2[z] == s.grid2[z] && t.grid3[z] == s.grid3[z])
            && (forall z :: 0 <= z < NZMetReduced && z != ReducedIndex(k, s.kred) ==>
                  t.grid1[z] == s.grid1[z] && t.grid4[z] == s.grid4[z])
    decreases |lines|
  {
    if lines != [] {
      var n := |lines| - 1;
      FileWritesOnlyItsSlices(s, k, ih, lines[..n]);
      var t := ReadLines(s, k, ih, lines[..n]).value;
      if n >= ih && lines[n].Fields? {
        var f := lines[n].values;
        if |f| >= 5 + NEmLine && Selected(f) && IsGridDensity(f[2]) {
          SelectedRowWritesOneCell(t, k, n, f);
        }
      }
    }
  }

  /** A stop while loading file n-1 or earlier is the stop of the whole load. */
  lemma {:induction false} LoadErrPersists(tables: map<string, TableFile>, n: nat, m: nat)
    requires n <= m <= NZMet
    requires LoadUpTo(tables, n).Err?
    ensures LoadUpTo(tables, m) == LoadUpTo(tables, n)
    decreases m
  {
    if n < m {
      LoadErrPersists(tables, n, m - 1);
    }
  }

  /** The grid of the full metallicity axis for density nH = 100 or 1000. */
  function FullGrid(s: LoaderState, nH: real): Grid
  {
    if nH == 100.0 then s.grid2 else s.grid3
  }

  /** No data line of `lines` is a selected row with density `nH`. */
  predicate NoRowsFor(ih: nat, lines: seq<TableLine>, nH: real)
  {
    forall i :: ih <= i < |lines| && lines[i].Fields? && |lines[i].values| >= 5 ==>
      !(Selected(lines[i].values) && lines[i].values[2] == nH)
  }

  /** A file without a selected row of density nH = 100 (or 1000) leaves that grid as it was. */
  lemma {:induction false} FileWithoutRowsKeepsGrid(s: LoaderState, k: nat, ih: nat, lines: seq<TableLine>, nH: real)
    requires ValidState(s) && k < NZMet && (nH == 100.0 || nH == 1000.0)
    requires ReadLines(s, k, ih, lines).Ok? && NoRowsFor(ih, lines, nH)
    ensures FullGrid(ReadLines(s, k, ih, lines).value, nH) == FullGrid(s, nH)
    decreases |lines|
  {
    if lines != [] {
      var n := |lines| - 1;
      assert NoRowsFor(ih, lines[..n], nH) by {
        forall i | ih <= i < n ensures lines[..n][i] == lines[i] { }
      }
      FileWithoutRowsKeepsGrid(s, k, ih, lines[..n], nH);
    }
  }

  /** Before file n is read, slices n and later of grid2 and grid3 are still zero. */
  lemma {:induction false} UnreadSlicesStayZero(tables: map<string, TableFile>, n: nat)
    requires n <= NZMet && LoadUpTo(tables, n).Ok?
    ensures var s := LoadUpTo(tables, n).value;
            forall z, u, e :: n <= z < NZMet && 0 <= u < NU && 0 <= e < NEmLine ==>
              s.grid2[z][u][e] == 0.0 && s.grid3[z][u][e] == 0.0
  {
    if n > 0 {
      UnreadSlicesStayZero(tables, n - 1);
      var s0 := LoadUpTo(tables, n - 1).value;
      var path := GetZFile(ZmetStr[n - 1], GridModel, tables.Keys).value;
      FileWritesOnlyItsSlices(s0, n - 1, tables[path].nheader, tables[path].lines);
    }
  }

  /** Files read after file k leave slice k of grid2 and grid3 as file k left it. */
  lemma {:induction false} LaterFilesKeepSlice(tables: map<string, TableFile>, k: nat, n: nat)
    requires k < n <= NZMet && LoadUpTo(tables, n).Ok?
    ensures LoadUpTo(tables, k + 1).Ok?
    ensures LoadUpTo(tables, n).value.grid2[k] == LoadUpTo(tables, k + 1).value.grid2[k]
    ensures LoadUpTo(tables, n).value.grid3[k] == LoadUpTo(tables, k + 1).value.grid3[k]
    decreases n
  {
    if n > k + 1 {
      LaterFilesKeepSlice(tables, k, n - 1);
      var s0 := LoadUpTo(tables, n - 1).value;
      var path := GetZFile(ZmetStr[n - 1], GridModel, tables.Keys).value;
      FileWritesOnlyItsSlices(s0, n - 1, tables[path].nheader, tables[path].lines);
    }
  }

  /** A metallicity whose table has no selected row of density nH = 100 (or
      1000) keeps the zeros the grid started with in that slice. */
  lemma AbsentRowsLeaveZeros(tables: map<string, TableFile>, k: nat, nH: real)
    requires k < NZMet && (nH == 100.0 || nH == 1000.0) && Assemble(tables).Ok?
    requires var path := ZFileName(ZmetStr[k], GridModel);
             path in tables && NoRowsFor(tables[path].nheader, tables[path].lines, nH)
    ensures forall u, e :: 0 <= u < NU && 0 <= e < NEmLine ==> FullGrid(Assemble(tables).value, nH)[k][u][e] == 0.0
  {
    LaterFilesKeepSlice(tables, k, NZMet);
    assert LoadUpTo(tables, k).Ok?;
    UnreadSlicesStayZero(tables, k);
    var path := ZFileName(ZmetStr[k], GridModel);
    FileWithoutRowsKeepsGrid(LoadUpTo(tables, k).value, k, tables[path].nheader, tables[path].lines, nH);
  }

  /** The table files are read in the order of ZmetStr, each under its own
      metallicity string: no padding applies to any of them. */
  lemma TableFileNames(k: nat)
    requires k < NZMet
    ensures ZFileName(ZmetStr[k], GridModel) == Root(GridModel) + ZmetStr[k] + ".txt"
  {
    ZmetStrLong(k);
  }

  // ---------------------------------------------------------------------------
  // The imperative loader: four zero-initialised arrays filled in place

  /** The array `a` holds the grid `G`. */
  ghost predicate Holds(a: array3<real>, G: Grid)
    reads a
  {
    && a.Length0 == |G| && a.Length1 == NU && a.Length2 == NEmLine && Shaped(G, |G|)
    && forall z, u, e :: 0 <= z < a.Length0 && 0 <= u < NU && 0 <= e < NEmLine ==> a[z, u, e] == G[z][u][e]
  }

  predicate Distinct(g1: array3<real>, g2: array3<real>, g3: array3<real>, g4: array3<real>)
  {
    g1 != g2 && g1 != g3 && g1 != g4 && g2 != g3 && g2 != g4 && g3 != g4
  }

  /** The four arrays hold the four grids of `s`. */
  ghost predicate Mirrors(g1: array3<real>, g2: array3<real>, g3: array3<real>, g4: array3<real>, s: LoaderState)
    reads g1, g2, g3, g4
  {
    Holds(g1, s.grid1) && Holds(g2, s.grid2) && Holds(g3, s.grid3) && Holds(g4, s.grid4)
  }

  /** The line values of a row (its fields after the first five) stored in cell (z, u), line by line. */
  method WriteCell(a: array3<real>, z: nat, u: nat, f: seq<real>, ghost G: Grid)
    requires Holds(a, G) && z < |G| && u < NU && |f| >= 5 + NEmLine
    modifies a
    ensures Holds(a, SetCell(G, z, u, f[5..5 + NEmLine]))
  {
    for j := 0 to NEmLine
      invariant forall z', u', e :: 0 <= z' < a.Length0 && 0 <= u' < NU && 0 <= e < NEmLine ==>
                  a[z', u', e] == (if z' == z && u' == u && e < j then f[e + 5] else G[z'][u'][e])
    {
      a[z, u, j] := f[j + 5];
    }
  }

  /** The chain of log U tests: the U index after a row with log U `lu`. */
  method NextU(lu: real, l: nat) returns (l': nat)
    ensures l' == UIndex(lu, l)
  {
    l' := l;
    if lu == -4.0 { l' := 0; }
    if lu == -3.5 { l' := 1; }
    if lu == -3.0 { l' := 2; }
    if lu == -2.5 { l' := 3; }
    if lu == -2.0 { l' := 4; }
    if lu == -1.5 { l' := 5; }
    if lu == -1.0 { l' := 6; }
  }

  /** The chain of file-index tests: the reduced index after an nH = 10 or
      10000 row of file `k`. */
  method NextKred(k: nat, kred: nat) returns (kred': nat)
    ensures kred' == ReducedIndex(k, kred)
  {
    kred' := kred;
    if k == 0 { kred' := 0; }
    if k == 4 { kred' := 1; }
    if k == 9 { kred' := 2; }
    if k == 12 { kred' := 3; }
  }

  /** The loop over the lines of a row: its values go to the grid of its
      density, at (kred, l) or (k, l). */
  method WriteRow(g1: array3<real>, g2: array3<real>, g3: array3<real>, g4: array3<real>,
                  k: nat, l: nat, kred: nat, nH: real, f: seq<real>, ghost s: LoaderState)
    requires Distinct(g1, g2, g3, g4) && ValidState(s) && k < NZMet && l < NU && kred < NZMetReduced
    requires |f| >= 5 + NEmLine && Mirrors(g1, g2, g3, g4, s)
    modifies g1, g2, g3, g4
    ensures Mirrors(g1, g2, g3, g4, Written(s, k, l, kred, nH, f[5..5 + NEmLine]))
  {
    // nH is compared once per line; at most one comparison holds
    if nH == 10.0 { WriteCell(g1, kred, l, f, s.grid1); }
    if nH == 100.0 { WriteCell(g2, k, l, f, s.grid2); }
    if nH == 1000.0 { WriteCell(g3, k, l, f, s.grid3); }
    if nH == 10000.0 { WriteCell(g4, kred, l, f, s.grid4); }
  }

  /** One data row processed in place; `l` and `kred` are carried in and out. */
  method ProcessRow(g1: array3<real>, g2: array3<real>, g3: array3<real>, g4: array3<real>,
                    k: nat, iline: nat, f: seq<real>, l: nat, kred: nat, ghost s: LoaderState)
    returns (ok: bool, l': nat, kred': nat)
    requires Distinct(g1, g2, g3, g4) && ValidState(s) && k < NZMet
    requires l == s.l && kred == s.kred && Mirrors(g1, g2, g3, g4, s)
    modifies g1, g2, g3, g4
    ensures var r := StepRow(s, k, iline, f);
            && ok == r.Ok?
            && (ok ==> Mirrors(g1, g2, g3, g4, r.value) && l' == r.value.l && kred' == r.value.kred)
  {
    l', kred' := l, kred;
    if |f| < 5 {
      return false, l', kred';
    }
    var lu, xid, nH, co, imfCut := f[0], f[1], f[2], f[3], f[4];
    if xid == 0.3 && co == 1.0 && imfCut == 100.0 {
      l' := NextU(lu, l');
      if nH == 10.0 || nH == 100.0 || nH == 1000.0 || nH == 10000.0 {
        if nH == 10.0 || nH == 10000.0 {
          kred' := NextKred(k, kred');
        }
        if |f| < 5 + NEmLine {
          return false, l', kred';
        }
        WriteRow(g1, g2, g3, g4, k, l', kred', nH, f, s);
      }
    }
    ok := true;
  }

  /** The lines of table file `k`, read in place. */
  method ReadTable(g1: array3<real>, g2: array3<real>, g3: array3<real>, g4: array3<real>,
                   k: nat, file: TableFile, l: nat, kred: nat, ghost s: LoaderState)
    returns (err: Option<Stop>, l': nat, kred': nat, ghost t: LoaderState)
    requires Distinct(g1, g2, g3, g4) && ValidState(s) && k < NZMet
    requires l == s.l && kred == s.kred && Mirrors(g1, g2, g3, g4, s)
    modifies g1, g2, g3, g4
    ensures var r := ReadLines(s, k, file.nheader, file.lines);
            && (err.None? <==> r.Ok?)
            && (err.Some? ==> err.value == r.error)
            && (r.Ok? ==> t == r.value && ValidState(t) && Mirrors(g1, g2, g3, g4, t) && l' == t.l && kred' == t.kred)
  {
    var ih, lines := file.nheader, file.lines;
    l', kred', t := l, kred, s;
    for iline := 0 to |lines|
      invariant ReadLines(s, k, ih, lines[..iline]) == Ok(t)
      invariant ValidState(t) && Mirrors(g1, g2, g3, g4, t) && l' == t.l && kred' == t.kred
    {
      assert lines[..iline + 1][..iline] == lines[..iline];
      ReadLinesStep(s, k, ih, lines[..iline + 1], t);
      var ok;
      ghost var t' := t;
      ok, l', kred', t := ReadLine(g1, g2, g3, g4, k, ih, lines[..iline + 1], l', kred', t);
      if !ok {
        ReadLinesErrPersists(s, k, ih, lines, iline + 1);
        return Some(MalformedRow(k, iline)), l', kred', t';
      }
    }
    assert lines[..|lines|] == lines;
    err := None;
  }

  /** The last of `lines`, processed in place from the state `t` the earlier lines left. */
  method ReadLine(g1: array3<real>, g2: array3<real>, g3: array3<real>, g4: array3<real>,
                  k: nat, ih: nat, lines: seq<TableLine>, l: nat, kred: nat, ghost t: LoaderState)
    returns (ok: bool, l': nat, kred': nat, ghost t': LoaderState)
    requires Distinct(g1, g2, g3, g4) && ValidState(t) && k < NZMet && |lines| > 0
    requires l == t.l && kred == t.kred && Mirrors(g1, g2, g3, g4, t)
    modifies g1, g2, g3, g4
    ensures var r := LineStep(t, k, ih, lines);
            && ok == r.Ok?
            && (!ok ==> r.error == MalformedRow(k, |lines| - 1))
            && (ok ==> t' == r.value && ValidState(t') && Mirrors(g1, g2, g3, g4, t') && l' == t'.l && kred' == t'.kred)
  {
    var iline := |lines| - 1;
    l', kred', t' := l, kred, t;
    ok := true;
    if iline >= ih {
      match lines[iline]
      case Text(_) =>
        ok := false;
      case Fields(f) =>
        ok, l', kred' := ProcessRow(g1, g2, g3, g4, k, iline, f, l, kred, t);
        if ok {
          t' := StepRow(t, k, iline, f).value;
        }
    }
  }

  /** The four arrays the loader fills. */
  datatype GridArrays = GridArrays(grid1: array3<real>, grid2: array3<real>, grid3: array3<real>, grid4: array3<real>)

  /** A fresh zero-filled array of nz metallicities. */
  method NewZeroGrid(nz: nat) returns (a: array3<real>)
    ensures fresh(a) && Holds(a, ZeroGrid(nz))
  {
    a := new real[nz, NU, NEmLine]((z, u, e) => 0.0);
  }

  /** The loop over the 14 files, filling the four arrays in place. */
  method FillGrids(g1: array3<real>, g2: array3<real>, g3: array3<real>, g4: array3<real>,
                   tables: map<string, TableFile>)
    returns (err: Option<Stop>, ghost s: LoaderState)
    requires Distinct(g1, g2, g3, g4) && Mirrors(g1, g2, g3, g4, Initial())
    modifies g1, g2, g3, g4
    ensures var a := Assemble(tables);
            && (err.None? <==> a.Ok?)
            && (err.Some? ==> err.value == a.error)
            && (err.None? ==> s == a.value && Mirrors(g1, g2, g3, g4, s))
  {
    var l, kred := 0, 0;
    s := Initial();
    for k := 0 to NZMet
      invariant LoadUpTo(tables, k) == Ok(s)
      invariant ValidState(s) && Mirrors(g1, g2, g3, g4, s) && l == s.l && kred == s.kred
    {
      LoadUpToStep(tables, k, s);
      var zfile := GetZFile(ZmetStr[k], GridModel, tables.Keys);
      if zfile.None? {
        LoadErrPersists(tables, k + 1, NZMet);
        return Some(MissingGridFile(ZmetStr[k])), s;
      }
      var e;
      e, l, kred, s := ReadTable(g1, g2, g3, g4, k, tables[zfile.value], l, kred, s);
      if e.Some? {
        LoadErrPersists(tables, k + 1, NZMet);
        return e, s;
      }
    }
    err := None;
  }

  /** The grid loader: four zero-initialised arrays filled from the 14 files.
      The result is what Assemble defines; a missing or malformed file stops the load. */
  method LoadGrids(tables: map<string, TableFile>) returns (r: Result<GridArrays>)
    ensures var a := Assemble(tables);
            && (r.Ok? <==> a.Ok?)
            && (r.Err? ==> r.error == a.error)
            && (r.Ok? ==>
                  && Distinct(r.value.grid1, r.value.grid2, r.value.grid3, r.value.grid4)
                  && fresh(r.value.grid1) && fresh(r.value.grid2) && fresh(r.value.grid3) && fresh(r.value.grid4)
                  && Mirrors(r.value.grid1, r.value.grid2, r.value.grid3, r.value.grid4, a.value))
  {
    var g1 := NewZeroGrid(NZMetReduced);
    var g2 := NewZeroGrid(NZMet);
    var g3 := NewZeroGrid(NZMet);
    var g4 := NewZeroGrid(NZMetReduced);
    var err, s := FillGrids(g1, g2, g3, g4, tables);
    if err.Some? {
      return Err(err.value);
    }
    r := Ok(GridArrays(g1, g2, g3, g4));
  }
}
