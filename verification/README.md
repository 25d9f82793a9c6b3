# Nebular emission from photoionisation tables (get_nebular_emission, eml_photio)

This project models the photoionisation stage of `get_nebular_emission`. That
stage turns per-galaxy properties into emission-line luminosities using the
Gutkin et al. (2016) tables. Each galaxy has a disk and a bulge, and each
component has three properties: log U (the ionisation parameter), log ne (the
electron density) and 12 + log(O/H) (the gas metallicity).

The model covers four parts of `get_nebular_emission/eml_photio.py`:

- **The limits registry** (`get_limits`, module `Limits`). The model name
  selects a limits file through `mod_lim`. The lookup returns the lower and
  upper limit from the first data row with the requested property name. An
  unknown model, a missing file or an unknown property stops the program. A
  file with a single data row has its name column read as one string, so
  there the name is matched as a substring: it is found only when it starts
  that string.
- **The value clamper** (`clean_photarray`, module `Clamp`). U, nH and Z are
  looked up in that order. Each (disk, bulge) array is split into two columns.
  Each column is clamped in place by the two numpy passes: first values above
  the upper limit are capped, then values below the lower limit are raised.
  With inverted limits this order sends every value to the lower limit.
- **The table file namer** (`get_zfile`, module `ZFile`). A metallicity string
  shorter than three characters gets a `0` appended. The file name is
  returned only when the file exists.
- **The grid assembler and interpolator** (`get_lines_Gutkin`, modules
  `Gutkin`, `GridLoad`, `Interp`, `Density` and `Photio`):
  - The 14 metallicity tables are read row by row into four grids (nH = 10,
    100, 1000 and 10000 cm^-3).
  - A row is used only if it passes the xid / C/O / IMF-cut filter.
  - The U index `l` and the reduced-metallicity index `kred` are carried over
    from row to row and from file to file. A file that fills no reduced slot
    therefore writes its nH = 10 and 10000 rows into the slot of the last
    file that did.
  - Each galaxy then gets bin weights on the U axis and on both metallicity
    axes, with the edge policy of get_lines_Gutkin:
    - a locator answer of 0 gives fraction 0;
    - the last index gives the last interval with fraction 1.
  - The model then applies bilinear interpolation on each grid and the
    piecewise density blend.

The disk's blend in the (3, 4] density band takes its weight from the bulge
density (`lneb`), as get_lines_Gutkin does. The model keeps this behaviour. It is
exposed as the `lne34` argument of `Density.DensityBlend`, and two lemmas show
its effect.

`GridLoad` defines the grids twice:

- as values: `StepRow`, `ReadLines`, `LoadUpTo` and `Assemble`, which the
  lemmas reason about;
- as the program's imperative code: four zero-initialised `array3<real>`
  filled in place by `WriteCell`, `WriteRow`, `ProcessRow`, `ReadLine`,
  `ReadTable`, `FillGrids` and `LoadGrids`.

Each method is proved to leave the arrays holding exactly the value-level
grids. The interpolation and blend loops likewise fill `array2<real>` outputs
that are proved equal to the functions `Bilinear` and
`DensityBlend`.

## Model

| member | source | states |
|---|---|---|
| Limits.Names | get_nebular_emission/eml_photio.py:132-133 | for a table of two or more rows, the property column as a list: one name per row, row by row |
| Limits.FirstIndex | get_nebular_emission/eml_photio.py:139 | `list.index`: the returned index holds the name and no earlier index does |
| Limits.FindFrom | get_nebular_emission/eml_photio.py:139 | `str.index` from position i: the first position at or after i where the name occurs, or none when it occurs nowhere from i on |
| Limits.GetLimits | get_nebular_emission/eml_photio.py:71-144 | unknown model, missing limits file and unknown property each stop with their own reason; with two or more rows the lookup succeeds iff some row carries the name, and then returns the limits of the first such row; with one row it succeeds iff the name starts the row's name, stops as unknown iff the name occurs nowhere in it, and otherwise reads no row, reporting the first position where the name occurs |
| Limits.OneRowSubstringMatch | get_nebular_emission/eml_photio.py:132-143 | in a one-row table named "lU" the name "U" is found at position 1 and no row is read; in one named "Ux" it gets that row's limits |
| ZFile.Padded | get_nebular_emission/eml_photio.py:60-61 | a string shorter than 3 gets exactly one '0' appended; strings of length 3 or more are unchanged |
| ZFile.GetZFile | get_nebular_emission/eml_photio.py:41-68 | the name is returned iff that file exists, and otherwise None |
| ZFile.ZFileNameParts | get_nebular_emission/eml_photio.py:59-62 | a file name is root + padded metallicity + ".txt", and the padded metallicity can be read back from it |
| ZFile.ZFileNameInjective | get_nebular_emission/eml_photio.py:59-62 | metallicity strings of length at least 3 give equal file names iff they are equal |
| ZFile.PaddingCollides | get_nebular_emission/eml_photio.py:60-61 | padding makes "01" and "010" name the same file |
| Clamp.ClampValue | get_nebular_emission/eml_photio.py:247-250 | cap-then-raise gives a value in [lower, upper] when lower <= upper; in-range values are kept; values below go to lower and values above go to upper; with inverted limits the result is lower |
| Clamp.ClampAll | get_nebular_emission/eml_photio.py:247-250 | same length; every element lies within valid limits; elements already inside are unchanged |
| Clamp.ClampIdempotent | get_nebular_emission/eml_photio.py:247-283 | cleaning an already cleaned array changes nothing, whatever the limits |
| Clamp.InvertedLimitsGiveLower | get_nebular_emission/eml_photio.py:247-250 | with upper < lower every element ends at lower |
| Clamp.ClampExample | get_nebular_emission/eml_photio.py:96-111 | in the docstring's limits table Z gives (0.0001, 0.040) and nH gives (1, 4), and 0.05 is cleaned to 0.040 |
| Clamp.SplitColumns | get_nebular_emission/eml_photio.py:202-233 | the disk column holds element 0 and the bulge column element 1 of every galaxy's pair |
| Clamp.ClampInPlace | get_nebular_emission/eml_photio.py:247-250 | the two in-place passes leave the array equal to ClampAll of its old contents |
| Clamp.CleanPair | get_nebular_emission/eml_photio.py:202-257 | both stacked columns are the clamped columns of the pairs |
| Clamp.CleanPhotArray | get_nebular_emission/eml_photio.py:146-285 | succeeds iff all three lookups succeed; otherwise stops with the error of the first failing lookup in the order U, nH, Z; on success each of lu, lne and loh12 is split and clamped with its own limits |
| Gutkin.ReducedAxisMatchesFiles | get_nebular_emission/eml_photio.py:328-339 | slot i of zmets_reduced is the decimal fraction 0.d of the digits d of zmet_str[k], for the file k that fills slot i |
| Gutkin.ZmetStrLong | get_nebular_emission/eml_photio.py:328 | every metallicity string of the tables has at least 3 characters |
| GridLoad.SetCell | get_nebular_emission/eml_photio.py:399-407 | cell (z, u) gets the new line values and every other cell is unchanged |
| GridLoad.Initial | get_nebular_emission/eml_photio.py:341-348 | the starting state has l = 0, kred = 0 and four grids of the right shapes with every cell 0 |
| GridLoad.UIndex | get_nebular_emission/eml_photio.py:371-385 | a log U equal to a bin gives that bin's index; any other value keeps the previous index |
| GridLoad.ReducedIndex | get_nebular_emission/eml_photio.py:390-398 | file k of ReducedSource gives its slot; any other file keeps the previous kred |
| GridLoad.StepRow | get_nebular_emission/eml_photio.py:363-407 | a row step keeps the state well-shaped and in range |
| GridLoad.Written | get_nebular_emission/eml_photio.py:399-407 | storing a selected row keeps the state well-shaped, with l and kred the row's indices |
| GridLoad.ReadLines | get_nebular_emission/eml_photio.py:356-407 | reading the lines of a file keeps the state well-shaped and in range |
| GridLoad.LineStep | get_nebular_emission/eml_photio.py:356-368 | one line keeps the state well-shaped; it can only stop as malformed at its own line number |
| GridLoad.ReadLinesStep | get_nebular_emission/eml_photio.py:356-407 | reading one more line is LineStep applied to the state after the earlier lines |
| GridLoad.LoadUpTo | get_nebular_emission/eml_photio.py:350-407 | loading the first n files keeps the state well-shaped and in range |
| GridLoad.LoadUpToStep | get_nebular_emission/eml_photio.py:350-354 | loading one more file stops iff its table file is missing, and otherwise reads that file's lines from the state of the earlier files |
| GridLoad.UnselectedRowChangesNoGrid | get_nebular_emission/eml_photio.py:371-389 | a row that fails the filter, or has an untabulated nH, changes no grid and not kred; only a selected row can move l |
| GridLoad.SelectedRowWritesOneCell | get_nebular_emission/eml_photio.py:371-407 | a selected row with tabulated nH updates l and kred as UIndex/ReducedIndex say and writes its 18 values into exactly one cell of exactly one grid |
| GridLoad.ShortSelectedRowStops | get_nebular_emission/eml_photio.py:399-407 | a row with 5 to 22 fields stops the load iff it is selected and its nH is tabulated |
| GridLoad.HeaderIgnored | get_nebular_emission/eml_photio.py:354-361 | the first nheader lines of a file have no effect on the outcome |
| GridLoad.ReadLinesErrPersists | get_nebular_emission/eml_photio.py:356-368 | a bad line stops the read of the whole file with that line's reason |
| GridLoad.FileWritesOnlyItsSlices | get_nebular_emission/eml_photio.py:350-407 | file k writes only slice k of grid2/grid3 and only slot ReducedIndex(k, kred) of grid1/grid4, where kred is the index held over from before the file |
| GridLoad.LoadErrPersists | get_nebular_emission/eml_photio.py:350-354 | a stop in an earlier file is the stop of the whole load |
| GridLoad.FileWithoutRowsKeepsGrid | get_nebular_emission/eml_photio.py:399-407 | a file with no selected row of density 100 (or 1000) leaves grid2 (or grid3) unchanged |
| GridLoad.UnreadSlicesStayZero | get_nebular_emission/eml_photio.py:341-354 | before file n is read, slices n and later of grid2 and grid3 are still all zero |
| GridLoad.LaterFilesKeepSlice | get_nebular_emission/eml_photio.py:350-407 | files read after file k leave slice k of grid2 and grid3 as file k left it |
| GridLoad.AbsentRowsLeaveZeros | get_nebular_emission/eml_photio.py:341-407 | a metallicity whose table has no selected row of density 100 (or 1000) keeps zero in every cell of its slice of the assembled grid2 (or grid3) |
| GridLoad.TableFileNames | get_nebular_emission/eml_photio.py:350-351 | the name of file k is the table root + zmet_str[k] + .txt: no padding applies |
| GridLoad.WriteCell | get_nebular_emission/eml_photio.py:399-407 | the j loop leaves the array holding SetCell of the old grid |
| GridLoad.NextU | get_nebular_emission/eml_photio.py:372-385 | the chain of log U tests gives UIndex of the row and the held-over index |
| GridLoad.NextKred | get_nebular_emission/eml_photio.py:390-398 | the chain of file-number tests gives ReducedIndex of the file and the held-over kred |
| GridLoad.WriteRow | get_nebular_emission/eml_photio.py:399-407 | the j loop over the four grids leaves the arrays holding Written of the old state |
| GridLoad.ProcessRow | get_nebular_emission/eml_photio.py:363-407 | the in-place row step succeeds iff StepRow does, and then leaves the arrays, l and kred equal to StepRow's state |
| GridLoad.ReadLine | get_nebular_emission/eml_photio.py:356-407 | one line of a file, in place: stops iff LineStep does, and otherwise leaves the arrays, l and kred equal to LineStep's state |
| GridLoad.ReadTable | get_nebular_emission/eml_photio.py:354-407 | the in-place file read stops iff ReadLines does, with the same reason, and otherwise leaves the arrays equal to ReadLines' state |
| GridLoad.NewZeroGrid | get_nebular_emission/eml_photio.py:341-344 | a fresh array holding the zero grid of nz metallicities |
| GridLoad.FillGrids | get_nebular_emission/eml_photio.py:350-407 | the file loop, in place: stops iff Assemble does, with the same reason, and otherwise leaves the arrays holding Assemble's grids |
| GridLoad.LoadGrids | get_nebular_emission/eml_photio.py:341-407 | the four freshly allocated, distinct arrays end up holding Assemble's grids, or the load stops with Assemble's reason |
| Interp.BinWeight | get_nebular_emission/eml_photio.py:481-498 | the edge policy: index 0 gives (0, 0); the last index gives (n-2, 1); an interior index keeps j1 with a fraction that reconstructs x; a bracketed x gets a fraction in [0, 1]; the index is always a valid lower corner |
| Interp.FractionBounds | get_nebular_emission/eml_photio.py:496 | the fraction puts x back at lo + d (hi - lo), and lies in [0, 1] for lo <= x <= hi |
| Interp.FirstIntervalSnapsToNode | get_nebular_emission/eml_photio.py:485-489 | a value strictly inside the first interval gets fraction 0 and is not reconstructed |
| Interp.BinWeightAtNode | get_nebular_emission/eml_photio.py:484-498 | a value on node i with locator answer i gets a weight pointing at node i |
| Interp.Blend4Constant | get_nebular_emission/eml_photio.py:526-529 | the four weights sum to 1, so equal corners give their value |
| Interp.Blend4Corners | get_nebular_emission/eml_photio.py:526-529 | at (0,0), (1,0), (0,1) and (1,1) the combination returns that corner exactly |
| Interp.Blend4Bounded | get_nebular_emission/eml_photio.py:526-529 | with both fractions in [0, 1] the result lies between the smallest and the largest corner |
| Interp.BilinearAtNode | get_nebular_emission/eml_photio.py:526-534 | at a node of both axes the interpolation returns the tabulated value |
| Interp.BilinearContinuousInZ | get_nebular_emission/eml_photio.py:526-529 | the end of metallicity interval i agrees with the start of interval i+1 |
| Interp.BilinearContinuousInU | get_nebular_emission/eml_photio.py:526-529 | the end of U interval j agrees with the start of interval j+1 |
| Interp.MidpointIsMean | get_nebular_emission/eml_photio.py:526-529 | at fractions (0.5, 0.5) the combination is the mean of the four corners, whatever they are |
| Interp.ComputeWeights | get_nebular_emission/eml_photio.py:481-520 | one weight per galaxy, each equal to BinWeight of the locator's answer and a valid lower corner |
| Interp.InterpolatePair | get_nebular_emission/eml_photio.py:522-534 | the fresh nemline x ndat outputs hold Bilinear of their grid for every line and galaxy |
| Interp.InterpolateLine | get_nebular_emission/eml_photio.py:522-534 | the galaxy loop for line k fills row k of the output with Bilinear of the grid and leaves every other row unchanged |
| Interp.Corners | get_nebular_emission/eml_photio.py:526-529 | the four corners read from the array combine to Bilinear of the grid it holds |
| Density.BranchesCoverTheReals | get_nebular_emission/eml_photio.py:573-597 | every real log ne meets one of the five branches |
| Density.OutsideBandsClamps | get_nebular_emission/eml_photio.py:589-595 | log ne <= 1 gives the nH = 10 value; log ne > 4 gives the nH = 10000 value |
| Density.ExactAtBandEdges | get_nebular_emission/eml_photio.py:573-595 | at log ne = 1, 2 and 3 (and 4 with a consistent weight density) the blend is that grid's value |
| Density.BlendBetweenNeighbours | get_nebular_emission/eml_photio.py:704-718 | with a consistent weight density the blend lies between the two grid values of its band |
| Density.BandsAreLinear | get_nebular_emission/eml_photio.py:704-718 | with a consistent weight density each band is the straight line between its two grid values |
| Density.ThirdBandIgnoresBranchDensity | get_nebular_emission/eml_photio.py:584-587 | in the disk's (3, 4] band the result does not depend on the disk's own density |
| Density.DiskWeightFromBulgeExample | get_nebular_emission/eml_photio.py:584-587 | a disk at 3.5 with bulge density 0 gets -3 instead of 0.5: an extrapolation outside [v3, v4] |
| Density.MixColumn | get_nebular_emission/eml_photio.py:576-577 | column n becomes (1 - dn) a + dn b, and every other column is unchanged |
| Density.CopyColumn | get_nebular_emission/eml_photio.py:590-595 | column n becomes a copy of a's column, and every other column is unchanged |
| Density.BlendDensity | get_nebular_emission/eml_photio.py:571-597 | the fresh output holds DensityBlend of the four interpolations for every line and galaxy |
| Photio.LogUBinsIncreasing | get_nebular_emission/eml_photio.py:332 | the 7 log U bins are strictly increasing |
| Photio.AxisWeight | get_nebular_emission/eml_photio.py:484 | the weight's index is a valid lower corner of the axis |
| Photio.ReproducesTableAtNodes | get_nebular_emission/eml_photio.py:481-577 | for a locator that answers i on node i of the U axis and of the full metallicity axis: at such a pair of nodes, with log ne = 2 (or 3), the pipeline returns the nH = 100 (or 1000) table value exactly |
| Photio.ComponentLines | get_nebular_emission/eml_photio.py:479-597 | the fresh line matrix holds ComponentLine (weights, bilinear interpolation, density blend) for every line and galaxy |
| Photio.GetLinesGutkin | get_nebular_emission/eml_photio.py:306-728 | stops iff the grid load stops, with its reason; otherwise the disk matrix uses the disk U, Z - ohsun and density, with the bulge density for the (3, 4] weight, and the bulge matrix uses the bulge values throughout |

## Left out

- HDF5 input and output (`h5py`): the per-galaxy (disk, bulge) arrays are parameters, and the two line matrices are returned instead of written to the file.
- Reading text files (`np.loadtxt`, `open`, `line.split`, `float`): a limits file is its sequence of data rows. A table file is its header count and its lines, each either numbers or text.
- A table line whose first fields are numbers but which holds text further along is not distinguished from a text line.
- `check_file` and `get_nheader` (eml_io.py is not part of this model): file existence is membership in the keys of the file map, and the header count is a field of each table file. The limits file's header is taken as contiguous at its top.
- `locate_interval` (eml_io.py is not part of this model): it is a function parameter, required only to return an index of the axis it is given.
- `np.log10` of the metallicity lists: the log axes are parameters, required to be strictly increasing. `Gutkin.ReducedAxisMatchesFiles` proves only the un-logged values.
- `const.ohsun` and `const.notnum` (eml_const.py is not part of this model): the solar value is a parameter. The `notnum` fill is overwritten for all-positive metallicities.
- Floating point: all arithmetic is on exact reals. Rounding and NaN are not modelled, so the blend's "out of limits" branch is unreachable (`Density.BranchesCoverTheReals`).
- `print` and `exit()`: a stop is an `Err` carrying its reason. The diagnostic messages are dropped.
- The grid entries a malformed row writes before the program stops are not part of the result.
- `get_lines` (the dispatcher), the commented-out code and eml_plots.py are outside the photoionisation core.
- Limits.GetLimits: on a one-row limits file in which the name occurs only past position 0, the program goes on with empty limit arrays; the model stops there with `NoLimitsRow` instead.
- Photio.AxisWeight: states only the index bound; its full behaviour is Interp.BinWeight's contract.
- GridLoad.StepRow, GridLoad.ReadLines, GridLoad.LoadUpTo: their own contracts state only that the state stays valid; what they compute is stated by the GridLoad lemmas about them.
