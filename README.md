# atcor core in Dafny

A verified model of the processing core of **atcor**. atcor is an atmospheric-correction pipeline for Landsat 8 and Sentinel-2 tiles. The model covers three parts:

- **The MTL metadata reader** (`at_modules/utils.py`, module `Utils`, on top of `Strings` and `Wrappers`).
  - Landsat metadata is a text file of `GROUP = X … END_GROUP` blocks holding `KEY = VALUE` lines.
  - A line loop keeps a stack of open group names and writes each value into a nested dictionary at the path *stack + [key]*, through `get_by_path` / `set_by_path`.
  - The file is the first directory entry matching `^(.*?)MTL.txt$`.
  - Every leaf is kept as raw text. The loader calls `json.loads` without importing `json`; the resulting NameError is caught, and the raw string is stored.
- **The DOS1 correction** (`at_modules/DOS.py`, module `Dos`).
  - A table maps band codes (`SRB1` … `SRB11`, `B8`) to metadata suffixes (`BAND_n`).
  - `SRB10`/`SRB11` take the brightness-temperature formula `k2 / log(k1/L + 1)`.
  - Every other code takes the dark-object-subtraction reflectance formula:
    - Esun is computed from the maximum radiance and reflectance.
    - The band minimum is mapped onto the path radiance `L1`.
    - The result is divided by the surface irradiance and clamped to [0, 1] in place.
  - The `DOS` class is a Dafny class. `SrReflectance` sets its calibration fields as the source does.
- **The orchestrator** (`at_modules/atcor.py`, module `Atcor`).
  - `GetExtent` is the nested corner loop, which reverses the row pair after each column.
  - `get_latslons` is modelled as written.
  - The band loop of `load_bands`:
    - names each band by the first blank-separated token of its description;
    - routes it by tile prefix: `LC` goes to DOS, `S2` to `DN / 10000`;
    - stores the result under the full description.

Library numerics (`np.pi`, `np.cos`, `np.log`, `float(text)`) are fields of a `Numerics` parameter. Nothing proved depends on their values. Arithmetic is on exact reals. Raster bands are flattened row-major to `seq<int>`. The GDAL dataset is a `Raster` value. The directory listing and the file contents are parameters of the reader.

## Model

| member | source | states |
|---|---|---|
| Strings.LStripBlanks | at_modules/utils.py:59 | `lstrip(' ')` removes exactly the leading run of blanks (only `' '`); the rest is kept as a suffix |
| Strings.RStrip | at_modules/utils.py:59 | `rstrip()` removes exactly the trailing run of whitespace; the rest is kept as a prefix and does not end in whitespace |
| Strings.StripLinePadding | at_modules/utils.py:59 | blanks in front of a line and whitespace after it are removed, and its core is returned intact |
| Strings.Split | at_modules/utils.py:73 | `split(' = ')` yields at least one part, and no part contains the separator; there is one part exactly when the separator does not occur; otherwise the first part is the text before the first occurrence, which starts right after it |
| Strings.SplitJoin | at_modules/utils.py:73 | joining the parts of a split with the separator gives back the line |
| Strings.SplitInTwo | at_modules/utils.py:73 | a line that splits in two is `key + ' = ' + value`, and neither half holds the separator |
| Utils.GetByPath | at_modules/utils.py:20-25 | an empty key list returns the root; a failure needs a key and is a KeyError or a TypeError |
| Utils.GetByPathAppend | at_modules/utils.py:25 | the fold over `p + q` is the fold over `p` followed by the fold over `q` |
| Utils.ParentIsGroup | at_modules/utils.py:25 | a path that resolves has a dict at its parent that holds its last key |
| Utils.SetByPath | at_modules/utils.py:28-33 | a successful assignment leaves a dict at the root |
| Utils.SetByPathSucceeds | at_modules/utils.py:33 | assignment succeeds exactly when the path is non-empty and its parent path names a dict |
| Utils.SetThenGetParent | at_modules/utils.py:33 | after the assignment the parent dict is the old parent with only the last key rebound |
| Utils.SetThenGet | at_modules/utils.py:28-33 | reading back the assigned path yields the assigned value |
| Utils.SetLeavesOtherPaths | at_modules/utils.py:28-33 | every path that is neither a prefix nor an extension of the assigned one reads as before |
| Utils.Classify | at_modules/utils.py:61-77 | a stripped line either keeps the group stack, drops its last name, or pushes one name on top of it |
| Utils.Step | at_modules/utils.py:58-77 | one iteration strips the line and classifies it; a line that is empty after stripping fails to unpack |
| Utils.Parse | at_modules/utils.py:58-80 | the loop runs the lines in order and stops at the first failure; the stack grows by at most one name per line. Its invariant is stated by ParseConsistent |
| Utils.StepIgnoresPadding | at_modules/utils.py:58-59 | leading blanks and trailing whitespace do not change how a line is processed |
| Utils.TabIndentedEndFails | at_modules/utils.py:59-73 | a tab is not stripped in front, so `\tEND` is not skipped but fails to unpack |
| Utils.StepGroup | at_modules/utils.py:61-64 | `GROUP = X` pushes X and installs an empty dict at the new path, replacing an old X; the other keys of the enclosing group are kept; without ` = ` it fails |
| Utils.StepEndGroup | at_modules/utils.py:66-67 | `END_GROUP` drops exactly the last group name and keeps the dict; on an empty stack it fails |
| Utils.StepEnd | at_modules/utils.py:69-70 | any other line starting with `END` changes nothing |
| Utils.StepKeyValue | at_modules/utils.py:72-77 | any other line succeeds exactly when it splits into two parts; the raw value text is then stored at stack + [key], the enclosing group keeps its other keys and the stack is unchanged; otherwise it fails to unpack |
| Utils.StepConsistent | at_modules/utils.py:58-77 | one line keeps the stack naming an existing group, and fails only with a line error |
| Utils.ParseConsistent | at_modules/utils.py:55-80 | the whole loop keeps that invariant and never raises KeyError or TypeError |
| Utils.MtlNamePattern | at_modules/utils.py:44 | a name of the form prefix, `MTL`, one character, `txt`, with or without one final newline, matches exactly when the prefix holds no newline and the character is not a newline |
| Utils.MtlNameShape | at_modules/utils.py:44 | conversely, every matching name has that form: a newline-free prefix, `MTL`, one non-newline character, `txt`, and at most one final newline |
| Utils.FindMtlFile | at_modules/utils.py:44-49 | yields the first matching entry, and fails with the "No MTL config file" error exactly when none matches |
| Utils.IsMtlName | at_modules/utils.py:44 | a matching name ends in `txt`, or in `txt` and one newline; MtlNamePattern and MtlNameShape characterise it |
| Utils.ReadConfig | at_modules/utils.py:44-80 | the result is a dict; it is the missing-file error exactly when no entry matches the pattern; any other failure is a line error |
| Utils.ReadConfigFile | at_modules/utils.py:55-80 | the line loop computes the fold of the line step over the file; the result is a dict; failures are a missing file or a line error |
| Dos.ReadFloat | at_modules/DOS.py:61-77 | `float(metadata[group][key])` succeeds exactly when both keys exist, the leaf is text and the text is a number |
| Dos.MinOf | at_modules/DOS.py:80 | `np.amin` is an element of the band that no element undercuts |
| Dos.SolarIrradiance | at_modules/DOS.py:78 | Esun exists exactly when `ref_max` is non-zero, and `Esun * ref_max = pi d^2 rad_max` |
| Dos.PathRadiance | at_modules/DOS.py:40 | `L1` is defined exactly when `pi d^2` is non-zero, and `pi d^2 * L1` is one percent of the surface irradiance |
| Dos.SrRadiance | at_modules/DOS.py:37-46 | the output has the band's length, and every pixel equal to the minimum comes out as exactly `L1` |
| Dos.HazeIsUniform | at_modules/DOS.py:41-44 | the haze term is one constant: corrected radiances keep the differences of `Ml*DN + Al` |
| Dos.SrThermal | at_modules/DOS.py:48-53 | elementwise `k2 / log(k1/L + 1)` with `L = Ml*DN + Al`, same length, unclamped |
| Dos.BrightnessTemperature | at_modules/DOS.py:50-51 | the temperature times `log(k1/L + 1)` gives back `k2` |
| Dos.Clamp01 | at_modules/DOS.py:83-84 | the result is in [0, 1]; values >= 1 become 1, values < 0 become 0, others are kept |
| Dos.ClampInPlace | at_modules/DOS.py:83-84 | the two masked assignments clamp every element of the array in place |
| Dos.ClampAll | at_modules/DOS.py:83-84 | one value per pixel, each the clamp of the input pixel |
| Dos.ReflectivePath | at_modules/DOS.py:78-86 | an empty band fails (`np.amin` of nothing); a result has one value per pixel, each in [0, 1]; DarkObjectIsOnePercent and ReflectivePathSteps state the rest |
| Dos.Correct | at_modules/DOS.py:55-86 | a code outside the table fails with KeyError; a result has one value per pixel; ThermalRoute and ReflectiveRoute state which constants each path reads |
| Dos.Dos.constructor | at_modules/DOS.py:21-35 | stores the metadata, the band code and the pixels |
| Dos.Dos.Reflect | at_modules/DOS.py:78-86 | the reflective tail returns the reflective formula of the fields and sets Esun |
| Dos.Dos.Thermal | at_modules/DOS.py:63-68 | reads `K1_`/`K2_CONSTANT_` into the fields and returns the thermal formula of the thermal branch |
| Dos.Dos.Reflective | at_modules/DOS.py:74-86 | reads the maxima, the distance and `z = 90 - SUN_ELEVATION` into the fields, sets Esun and returns the reflective branch |
| Dos.Dos.SrReflectance | at_modules/DOS.py:55-86 | returns the correction of the band; on success the fields hold the values read from the metadata for the path taken; `z = 90 - SUN_ELEVATION` |
| Dos.UnknownBandFails | at_modules/DOS.py:57 | a code outside the table fails at the lookup with KeyError |
| Dos.ThermalRoute | at_modules/DOS.py:59-68 | SRB10/SRB11 read `RADIANCE_MULT_/ADD_` and `K1_/K2_CONSTANT_` under their suffix and take the thermal formula |
| Dos.ReflectiveRoute | at_modules/DOS.py:70-86 | other codes read the rescaling pair, the radiance and reflectance maxima, the distance and the elevation, and take the reflective formula with zenith `90 - elevation` |
| Dos.ReflectiveInUnitInterval | at_modules/DOS.py:82-86 | reflective output has one value per pixel, each in [0, 1] |
| Dos.ThermalShape | at_modules/DOS.py:66-68 | thermal output has one value per pixel |
| Dos.PreClampOnePercent | at_modules/DOS.py:82 | a pixel whose scaled radiance is one percent of the divisor has reflectance 0.01 |
| Dos.PathRadiancePixel | at_modules/DOS.py:40-82 | a pixel at `L1` has pre-clamp reflectance 0.01 |
| Dos.ReflectivePathSteps | at_modules/DOS.py:78-84 | a successful reflective band passed each step: Esun, a non-empty band, `L1`, a non-zero divisor and the clamp of the quotient |
| Dos.DarkObjectIsOnePercent | at_modules/DOS.py:80-84 | the darkest pixel of a reflective band has surface reflectance exactly 0.01 |
| Atcor.Affine | at_modules/atcor.py:43-44 | pixel (0, 0) maps to the origin; without rotation a pixel position maps to the origin plus the scaled pixel offsets |
| Atcor.Extent | at_modules/atcor.py:37-47 | four corners, the first being the origin; ExtentIsClosedRing and ExtentNorthUp state the others |
| Atcor.ExtentIsClosedRing | at_modules/atcor.py:37-47 | the four corners walk once around the raster's parallelogram along whole edges |
| Atcor.ExtentNorthUp | at_modules/atcor.py:43-44 | without rotation the corners are the origin, the bottom-left, bottom-right and top-right in plain coordinates |
| Atcor.Linspace | at_modules/atcor.py:55-56 | `num` values from `start` to `stop`, both included, evenly spaced |
| Atcor.LinspaceAscending | at_modules/atcor.py:55-56 | with `start <= stop` the axis never decreases |
| Atcor.GetLatsLons | at_modules/atcor.py:50-58 | `lats` has `Ysize` values from the x component of corner 0 to that of corner 2; `lons` has `Xsize` values over the y components (as written) |
| Atcor.LatsSpanEastings | at_modules/atcor.py:52-56 | on a 2 x 3 north-up raster the as-written latitudes are the eastings 0, 1, 2 rather than the northings |
| Atcor.LatsLonsNorthUp | at_modules/atcor.py:50-58 | the corrected axes have `Ysize` latitudes, from the y component of corner 0 to that of corner 2, and `Xsize` longitudes, from the x component of corner 0 to that of corner 2 |
| Atcor.NorthUpAxesFollowRaster | at_modules/atcor.py:80-88 | the corrected axes run from the top to the bottom edge (northings) and from the left to the right edge (eastings) |
| Atcor.FirstToken | at_modules/atcor.py:139 | the band code has no blank and is either the whole description or followed in it by a blank; `save_netCDF` names each output variable the same way (line 92) |
| Atcor.Rescale | at_modules/atcor.py:147 | one value per pixel, each `DN / 10000` |
| Atcor.RescaleExamples | at_modules/atcor.py:147 | DN 5000 gives 0.5 and DN 20000 gives 2.0: there is no clamp |
| Atcor.CorrectBand | at_modules/atcor.py:142-147 | a tile that is neither LC nor S2 fails (the unbound `ref`); a result has one value per pixel; Routing states the two branches |
| Atcor.CollectBands | at_modules/atcor.py:128-149 | a Sentinel-2 tile never fails; any failure comes from DOS on a Landsat tile or from an unsupported tile; CollectedKeys, LastDescriptionWins and FailureIsFinal state the rest |
| Atcor.Routing | at_modules/atcor.py:142-147 | `LC` tiles go through DOS under the band's short code; `S2` tiles are rescaled |
| Atcor.CollectedKeys | at_modules/atcor.py:128-149 | the stored keys are exactly the descriptions of the bands that are present |
| Atcor.LastDescriptionWins | at_modules/atcor.py:149 | a band that no later band shares a description with is stored with its own correction; earlier duplicates are overwritten |
| Atcor.FailureIsFinal | at_modules/atcor.py:130-149 | the first failing band decides the outcome, whatever follows it |
| Atcor.AbsentBandSkipped | at_modules/atcor.py:135-136 | a band GDAL does not return adds nothing |
| Atcor.UnsupportedTileFails | at_modules/atcor.py:142-149 | with a prefix other than LC or S2, the loop succeeds exactly when no band is present |
| Atcor.OnlyLandsatReadsMetadata | at_modules/atcor.py:111-113 | for a tile that is not Landsat the band results do not depend on the metadata |
| Atcor.Load | at_modules/atcor.py:109-149 | a missing dataset fails; a Landsat tile whose metadata cannot be read fails; a Sentinel-2 tile with a dataset always loads |
| Atcor.Atcor.constructor | at_modules/atcor.py:15-23 | stores the tile name and starts with no bands |
| Atcor.Atcor.GetExtent | at_modules/atcor.py:25-47 | the nested loop yields the corners of pixel positions (0,0), (0,rows), (cols,rows), (cols,0) in that order |
| Atcor.Atcor.ReadMetadata | at_modules/atcor.py:111-113 | a Landsat tile parses the MTL file and keeps its `L1_METADATA_FILE` group |
| Atcor.Atcor.CorrectOne | at_modules/atcor.py:138-147 | one band is corrected by the routing function |
| Atcor.Atcor.LoadBands | at_modules/atcor.py:109-149 | succeeds exactly when the load specification does; on success the coordinates hold the raster's corners and `arr_bands` holds the collected bands |

## Left out

- Zip extraction, `os.listdir`, `open`, `print` and `save_netCDF` are I/O. The directory listing and a file-reading function are parameters; the netCDF writer is not modelled.
- GDAL (`gdal.Open`, `GetRasterBand`, `ReadAsArray`) is a foreign library. The dataset is a `Raster` value, with `None` for a band GDAL does not return.
- IEEE floating point, numpy's `inf`/`nan`, and the precision of `np.pi`, `np.cos`, `np.log` and `np.linspace` are not modelled. Arithmetic is on exact reals, and the library functions are uninterpreted parameters.
- Dos.ReflectivePath: where numpy divides by zero the whole band fails with `NonFinite`. This covers a zero `pi d^2` in `L1` and a zero surface irradiance. numpy instead yields infinities, which the clamp turns into 1 or 0, or NaN.
- Dos.SrThermal: where `L` or `log(k1/L + 1)` is zero the whole band fails with `NonFinite`. numpy instead yields infinities or zeros per pixel.
- Numerics: `np.pi` is a free real. Nothing proved needs it to be positive; where it would be zero, the division steps fail as stated.
- Raster arrays are flattened row-major. The minimum and all other steps are elementwise, so only the 2-D shape is lost.
- Atcor.Atcor.LoadBands: on failure the partially filled `arr_bands` and `coord` are not specified. The error itself is.
- Python's exception kinds are collapsed into the `Error` datatype. These cases are reported as `NoDataset` and `UnsupportedTile` instead:
  - the AttributeError after `gdal.Open` returns None;
  - the unbound `ref` for a tile that is neither LC nor S2.
- Utils.SetByPath: `set_by_path` mutates a dict that the caller shares. It is modelled as a function returning the updated tree, so aliasing between nested dicts is not captured. The parser never aliases them.
- Strings.IsSpace covers the characters `str.isspace` accepts. Unicode handling beyond that (for example, surrogates) is not modelled.
- `read_config_file` reads the file line by line, including the newline. The model receives the lines already split; `rstrip()` drops the newline either way.
- The regression test's numeric fixture depends on float values and is not checked.

## Findings

| source | as written | input that shows it | evidently intended | confidence | as-written member | corrected member |
|---|---|---|---|---|---|---|
| at_modules/atcor.py:52-56 | `xlow`/`xup` take the second component of corners 0 and 2 and `ylow`/`yup` the first. `lats` (length `Ysize`, written as "m north" on the Y axis at lines 80-83) therefore spans the eastings, and `lons` the northings | geotransform (0, 1, 0, 0, 0, -1) with 2 columns and 3 rows: the latitudes come out as 0, 1, 2, while the raster's northings run from 0 to -3 | latitudes from the y component of corner 0 to that of corner 2, and longitudes from the x components | medium, not executed | Atcor.GetLatsLons, Atcor.LatsSpanEastings | Atcor.LatsLonsNorthUp, Atcor.NorthUpAxesFollowRaster |
