/** The orchestration of at_modules/atcor.py that is not file or library
    I/O: the corner coordinates of a raster from its affine geotransform,
    the coordinate axes written to the output, and the band loop of
    `load_bands`, which names each band, routes it by tile prefix to the
    DOS1 correction (Landsat, `LC`) or to a plain rescale (Sentinel-2,
    `S2`) and stores the result under the band's description.

    GDAL is replaced by a value: a `Raster` holds what the source reads
    from the dataset (geotransform, projection, sizes and the bands, a
    band being absent where `GetRasterBand` returns None). */
module Atcor {
  import opened Wrappers
  import opened Strings
  import Utils
  import Dos

  /** GDAL's six-coefficient affine geotransform `gt[0..5]`. */
  datatype GeoTransform = GeoTransform(
    originX: real, pixelWidth: real, rowRotation: real,
    originY: real, columnRotation: real, pixelHeight: real)

  /** One entry `[x, y]` of the corner list. */
  datatype Corner = Corner(x: real, y: real)

  /** `self.coord`: geotransform, projection, `Xsize`, `Ysize` and the
      corner coordinates. */
  datatype Coord = Coord(geotransform: GeoTransform, projection: string, xSize: nat, ySize: nat,
                         corners: seq<Corner>)

  /** A raster band: its description and its digital numbers, row-major. */
  datatype Band = Band(description: string, data: seq<int>)

  /** What the source reads from the opened dataset; `bands[i]` is band
      number `i + 1`, and None where GDAL hands back no band. */
  datatype Raster = Raster(geotransform: GeoTransform, projection: string, xSize: nat, ySize: nat,
                           bands: seq<Option<Band>>)

  // ---------------------------------------------------------------------
  // Corner coordinates

  /** The georeferenced position of pixel corner (`px`, `py`):
      `x = gt0 + px*gt1 + py*gt2`, `y = gt3 + px*gt4 + py*gt5`. */
  function Affine(gt: GeoTransform, px: int, py: int): (c: Corner)
    ensures px == 0 && py == 0 ==> c == Corner(gt.originX, gt.originY)
    ensures gt.rowRotation == 0.0 && gt.columnRotation == 0.0 ==>
      c == Corner(gt.originX + px as real * gt.pixelWidth, gt.originY + py as real * gt.pixelHeight)
  {
    Corner(gt.originX + px as real * gt.pixelWidth + py as real * gt.rowRotation,
           gt.originY + px as real * gt.columnRotation + py as real * gt.pixelHeight)
  }

  /** The four corners in the order GetExtent emits them: down the first
      column edge, then back up the last one. */
  function Extent(gt: GeoTransform, cols: nat, rows: nat): (e: seq<Corner>)
    ensures |e| == 4 && e[0] == Corner(gt.originX, gt.originY)
  {
    [Affine(gt, 0, 0), Affine(gt, 0, rows), Affine(gt, cols, rows), Affine(gt, cols, 0)]
  }

  /** Shorthand for the difference of two corners. */
  function Minus(a: Corner, b: Corner): Corner {
    Corner(a.x - b.x, a.y - b.y)
  }

  /** The extent walks once around the raster's parallelogram: each step
      moves along one whole edge, and opposite edges are equal and
      opposite. */
  lemma ExtentIsClosedRing(gt: GeoTransform, cols: nat, rows: nat)
    ensures |Extent(gt, cols, rows)| == 4
    ensures var e := Extent(gt, cols, rows);
      && Minus(e[1], e[0]) == Corner(rows as real * gt.rowRotation, rows as real * gt.pixelHeight)
      && Minus(e[2], e[1]) == Corner(cols as real * gt.pixelWidth, cols as real * gt.columnRotation)
      && Minus(e[3], e[2]) == Corner(-(rows as real * gt.rowRotation), -(rows as real * gt.pixelHeight))
      && Minus(e[0], e[3]) == Corner(-(cols as real * gt.pixelWidth), -(cols as real * gt.columnRotation))
  {
  }

  /** For a north-up geotransform (no rotation terms) the corners are the
      origin, the far end of the first column, the far corner and the far
      end of the first row, with their plain coordinates. */
  lemma ExtentNorthUp(gt: GeoTransform, cols: nat, rows: nat)
    requires gt.rowRotation == 0.0 && gt.columnRotation == 0.0
    ensures Extent(gt, cols, rows) ==
      [Corner(gt.originX, gt.originY),
       Corner(gt.originX, gt.originY + rows as real * gt.pixelHeight),
       Corner(gt.originX + cols as real * gt.pixelWidth, gt.originY + rows as real * gt.pixelHeight),
       Corner(gt.originX + cols as real * gt.pixelWidth, gt.originY)]
  {
    var e := Extent(gt, cols, rows);
    assert e[0] == Corner(gt.originX, gt.originY);
    assert e[1] == Corner(gt.originX, gt.originY + rows as real * gt.pixelHeight);
    assert e[2] == Corner(gt.originX + cols as real * gt.pixelWidth, gt.originY + rows as real * gt.pixelHeight);
    assert e[3] == Corner(gt.originX + cols as real * gt.pixelWidth, gt.originY);
  }

  // ---------------------------------------------------------------------
  // Coordinate axes

  /** `np.linspace(start, stop, num)` in exact arithmetic: `num` evenly
      spaced values from `start` to `stop`, both included. */
  function Linspace(start: real, stop: real, num: nat): (r: seq<real>)
    ensures |r| == num
    ensures num >= 1 ==> r[0] == start
    ensures num >= 2 ==> r[num - 1] == stop
    ensures num >= 2 ==> forall i :: 0 <= i < num - 1 ==> (r[i + 1] - r[i]) * (num - 1) as real == stop - start
  {
    if num == 0 then []
    else if num == 1 then [start]
    else
      EvenlySpacedEnds(start, stop, num);
      EvenlySpacedGaps(start, stop, num);
      EvenlySpaced(start, (stop - start) / (num - 1) as real, num)
  }

  /** `num` values from `start` on, `step` apart. */
  function EvenlySpaced(start: real, step: real, num: nat): (r: seq<real>)
    ensures |r| == num
  {
    seq(num, i requires 0 <= i < num => start + i as real * step)
  }

  /** The axis starts at `start` and ends at `stop`. */
  lemma EvenlySpacedEnds(start: real, stop: real, num: nat)
    requires num >= 2
    ensures var r := EvenlySpaced(start, (stop - start) / (num - 1) as real, num);
      r[0] == start && r[num - 1] == stop
  {
    var n := (num - 1) as real;
    var r := EvenlySpaced(start, (stop - start) / n, num);
    StepScales(start, stop, n);
    assert r[num - 1] == start + n * ((stop - start) / n);
  }

  /** `num - 1` gaps of equal width cover the span. */
  lemma EvenlySpacedGaps(start: real, stop: real, num: nat)
    requires num >= 2
    ensures var r := EvenlySpaced(start, (stop - start) / (num - 1) as real, num);
      forall i :: 0 <= i < num - 1 ==> (r[i + 1] - r[i]) * (num - 1) as real == stop - start
  {
    var n := (num - 1) as real;
    var step := (stop - start) / n;
    var r := EvenlySpaced(start, step, num);
    StepScales(start, stop, n);
    forall i | 0 <= i < num - 1
      ensures (r[i + 1] - r[i]) * n == stop - start
    {
      EvenlySpacedGap(start, step, num, i);
      ScaleBoth(r[i + 1] - r[i], step, n);
    }
  }

  /** Neighbouring values are one step apart. */
  lemma EvenlySpacedGap(start: real, step: real, num: nat, i: nat)
    requires i + 1 < num
    ensures EvenlySpaced(start, step, num)[i + 1] - EvenlySpaced(start, step, num)[i] == step
  {
    NextIsOneStep(start, i as real, step);
  }

  lemma StepScales(start: real, stop: real, n: real)
    requires n > 0.0
    ensures (stop - start) / n * n == stop - start
    ensures start + n * ((stop - start) / n) == stop
  {
  }

  lemma NextIsOneStep(start: real, i: real, step: real)
    ensures (start + (i + 1.0) * step) - (start + i * step) == step
  {
  }

  lemma ScaleBoth(a: real, b: real, n: real)
    requires a == b
    ensures a * n == b * n
  {
  }

  /** With `start <= stop` the axis never decreases. */
  lemma LinspaceAscending(start: real, stop: real, num: nat, i: int, j: int)
    requires start <= stop && 0 <= i <= j < num
    ensures Linspace(start, stop, num)[i] <= Linspace(start, stop, num)[j]
  {
    if num >= 2 {
      var step := (stop - start) / (num - 1) as real;
      var r := Linspace(start, stop, num);
      assert r == EvenlySpaced(start, step, num);
      assert step >= 0.0;
      MonotoneProduct(i as real, j as real, step);
      assert i as real * step <= j as real * step;
      assert r[i] == start + i as real * step;
      assert r[j] == start + j as real * step;
    }
  }

  lemma MonotoneProduct(a: real, b: real, c: real)
    requires a <= b && c >= 0.0
    ensures a * c <= b * c
  {
  }

  /** `get_latslons` as written: the lower and upper "x" are the second
      components of corners 0 and 2 and the lower and upper "y" their first
      components, so `lats` (of length `Ysize`) spans the first, easting,
      component and `lons` (of length `Xsize`) the second. */
  function GetLatsLons(coord: Coord): (r: (seq<real>, seq<real>))
    requires |coord.corners| >= 3
    ensures |r.0| == coord.ySize && |r.1| == coord.xSize
    ensures coord.ySize >= 1 ==> r.0[0] == coord.corners[0].x
    ensures coord.ySize >= 2 ==> r.0[coord.ySize - 1] == coord.corners[2].x
    ensures coord.xSize >= 1 ==> r.1[0] == coord.corners[0].y
    ensures coord.xSize >= 2 ==> r.1[coord.xSize - 1] == coord.corners[2].y
  {
    var xlow, ylow := coord.corners[0].y, coord.corners[0].x;
    var xup, yup := coord.corners[2].y, coord.corners[2].x;
    (Linspace(ylow, yup, coord.ySize), Linspace(xlow, xup, coord.xSize))
  }

  /** The axes the output evidently intends (latitude in metres north along
      the Y axis with `Ysize` values, longitude in metres east along X with
      `Xsize` values): northings from corner 0 to corner 2, and eastings. */
  function LatsLonsNorthUp(coord: Coord): (r: (seq<real>, seq<real>))
    requires |coord.corners| >= 3
    ensures |r.0| == coord.ySize && |r.1| == coord.xSize
    ensures coord.ySize >= 1 ==> r.0[0] == coord.corners[0].y
    ensures coord.ySize >= 2 ==> r.0[coord.ySize - 1] == coord.corners[2].y
    ensures coord.xSize >= 1 ==> r.1[0] == coord.corners[0].x
    ensures coord.xSize >= 2 ==> r.1[coord.xSize - 1] == coord.corners[2].x
  {
    (Linspace(coord.corners[0].y, coord.corners[2].y, coord.ySize),
     Linspace(coord.corners[0].x, coord.corners[2].x, coord.xSize))
  }

  /** For the corners of a north-up raster the corrected axes run from the
      top edge to the bottom edge (latitudes) and from the left edge to the
      right edge (longitudes), one value per row and per column. */
  lemma NorthUpAxesFollowRaster(gt: GeoTransform, projection: string, cols: nat, rows: nat)
    requires gt.rowRotation == 0.0 && gt.columnRotation == 0.0
    requires cols >= 2 && rows >= 2
    ensures var axes := LatsLonsNorthUp(Coord(gt, projection, cols, rows, Extent(gt, cols, rows)));
      && |axes.0| == rows && |axes.1| == cols
      && axes.0[0] == gt.originY && axes.0[rows - 1] == gt.originY + rows as real * gt.pixelHeight
      && axes.1[0] == gt.originX && axes.1[cols - 1] == gt.originX + cols as real * gt.pixelWidth
  {
    ExtentNorthUp(gt, cols, rows);
  }

  /** The swap on a 2 x 3 raster with unit pixels: the latitudes come out as
      the eastings 0, 1, 2 although the raster's northings run from 0 to -3. */
  lemma LatsSpanEastings()
    ensures var gt := GeoTransform(0.0, 1.0, 0.0, 0.0, 0.0, -1.0);
      var coord := Coord(gt, "", 2, 3, Extent(gt, 2, 3));
      && GetLatsLons(coord).0 == [0.0, 1.0, 2.0]
      && GetLatsLons(coord).0[2] != Extent(gt, 2, 3)[2].y
      && LatsLonsNorthUp(coord).0 == [0.0, -1.5, -3.0]
  {
    var gt := GeoTransform(0.0, 1.0, 0.0, 0.0, 0.0, -1.0);
    var coord := Coord(gt, "", 2, 3, Extent(gt, 2, 3));
    assert Extent(gt, 2, 3)[2] == Corner(2.0, -3.0);
    var lats := GetLatsLons(coord).0;
    assert lats[1] == 1.0;
    var fixed := LatsLonsNorthUp(coord).0;
    assert fixed[1] == -1.5;
  }

  // ---------------------------------------------------------------------
  // Band naming and routing

  /** `name.split(' ')[0]`: the band code, everything before the first blank. */
  function FirstToken(name: string): (b: string)
    ensures !Contains(b, " ")
    ensures b == name || StartsWith(name, b + " ")
  {
    FirstPartPrefix(name, " ");
    Split(name, " ")[0]
  }

  /** The first part of a split is the whole string or is followed by the
      separator. */
  lemma FirstPartPrefix(s: string, sep: string)
    requires |sep| > 0
    ensures var first := Split(s, sep)[0];
      first == s || StartsWith(s, first + sep)
  {
    var parts := Split(s, sep);
    SplitJoin(s, sep);
    if |parts| >= 2 {
      assert s == parts[0] + sep + Join(parts[1..], sep);
      assert s[..|parts[0] + sep|] == parts[0] + sep;
    }
  }

  /** `arr / 10000`: Sentinel-2 digital numbers to reflectance, unclamped. */
  function Rescale(arr: seq<int>): (r: seq<real>)
    ensures |r| == |arr|
    ensures forall i :: 0 <= i < |arr| ==> r[i] * 10000.0 == arr[i] as real
  {
    seq(|arr|, i requires 0 <= i < |arr| => arr[i] as real / 10000.0)
  }

  /** DN 5000 becomes 0.5, and a DN above 10000 stays above 1: there is no clamp. */
  lemma RescaleExamples()
    ensures Rescale([5000, 20000, 0]) == [0.5, 2.0, 0.0]
  {
    var r := Rescale([5000, 20000, 0]);
    assert r[0] == 0.5 && r[1] == 2.0 && r[2] == 0.0;
  }

  /** The correction applied to one band, chosen by the tile prefix. */
  function CorrectBand(tile: string, config: Utils.Value, band: Band, num: Dos.Numerics): (r: Result<seq<real>>)
    ensures !StartsWith(tile, "LC") && !StartsWith(tile, "S2") ==> r == Err(UnsupportedTile)
    ensures r.Ok? ==> |r.value| == |band.data|
  {
    if StartsWith(tile, "LC") then Dos.Correct(config, FirstToken(band.description), band.data, num)
    else if StartsWith(tile, "S2") then Ok(Rescale(band.data))
    else Err(UnsupportedTile)
  }

  /** The band loop of load_bands over the bands visited so far: absent
      bands are skipped, the others are corrected and stored under their
      full description, the first failure stops the loop. */
  function CollectBands(tile: string, config: Utils.Value, bands: seq<Option<Band>>, num: Dos.Numerics)
    : (r: Result<map<string, seq<real>>>)
    ensures StartsWith(tile, "S2") ==> r.Ok?
    ensures r.Err? ==> StartsWith(tile, "LC") || r.error == UnsupportedTile
  {
    if bands == [] then Ok(map[])
    else
      var stored :- CollectBands(tile, config, bands[..|bands| - 1], num);
      match bands[|bands| - 1]
      case None => Ok(stored)
      case Some(band) =>
        var ref :- CorrectBand(tile, config, band, num);
        Ok(stored[band.description := ref])
  }

  /** The descriptions of the bands that are present. */
  function Descriptions(bands: seq<Option<Band>>): set<string> {
    set k | 0 <= k < |bands| && bands[k].Some? :: bands[k].value.description
  }

  /** The stored keys are exactly the descriptions of the present bands. */
  lemma {:induction false} CollectedKeys(tile: string, config: Utils.Value, bands: seq<Option<Band>>, num: Dos.Numerics)
    requires CollectBands(tile, config, bands, num).Ok?
    ensures CollectBands(tile, config, bands, num).value.Keys == Descriptions(bands)
    decreases |bands|
  {
    if bands != [] {
      var init := bands[..|bands| - 1];
      CollectedKeys(tile, config, init, num);
      assert forall k :: 0 <= k < |init| ==> init[k] == bands[k];
      if bands[|bands| - 1].Some? {
        assert bands[|bands| - 1].value.description in Descriptions(bands);
      }
    }
  }

  /** A band that is present and whose description no later band repeats
      ends up stored with its own correction; an earlier band of the same
      description is overwritten. */
  lemma {:induction false} LastDescriptionWins(tile: string, config: Utils.Value, bands: seq<Option<Band>>,
                                              num: Dos.Numerics, k: int)
    requires CollectBands(tile, config, bands, num).Ok?
    requires 0 <= k < |bands| && bands[k].Some?
    requires forall j :: k < j < |bands| && bands[j].Some? ==> bands[j].value.description != bands[k].value.description
    ensures CorrectBand(tile, config, bands[k].value, num).Ok?
    ensures bands[k].value.description in CollectBands(tile, config, bands, num).value
    ensures CollectBands(tile, config, bands, num).value[bands[k].value.description]
            == CorrectBand(tile, config, bands[k].value, num).value
    decreases |bands|
  {
    if k < |bands| - 1 {
      var init := bands[..|bands| - 1];
      assert init[k] == bands[k];
      LastDescriptionWins(tile, config, init, num, k);
    }
  }

  /** The first failure is final: the bands after it cannot change the
      outcome. */
  lemma {:induction false} FailureIsFinal(tile: string, config: Utils.Value, bands: seq<Option<Band>>, n: nat,
                                          num: Dos.Numerics)
    requires n <= |bands| && CollectBands(tile, config, bands[..n], num).Err?
    ensures CollectBands(tile, config, bands, num) == CollectBands(tile, config, bands[..n], num)
    decreases |bands|
  {
    if n < |bands| {
      var init := bands[..|bands| - 1];
      assert init[..n] == bands[..n];
      FailureIsFinal(tile, config, init, n, num);
    } else {
      assert bands[..n] == bands;
    }
  }

  /** An absent band changes nothing. */
  lemma AbsentBandSkipped(tile: string, config: Utils.Value, bands: seq<Option<Band>>, num: Dos.Numerics)
    ensures CollectBands(tile, config, bands + [None], num) == CollectBands(tile, config, bands, num)
  {
    assert (bands + [None])[..|bands|] == bands;
  }

  /** With a prefix that is neither LC nor S2 the loop gets through only if
      no band is present. */
  lemma {:induction false} UnsupportedTileFails(tile: string, config: Utils.Value, bands: seq<Option<Band>>, num: Dos.Numerics)
    requires !StartsWith(tile, "LC") && !StartsWith(tile, "S2")
    ensures CollectBands(tile, config, bands, num).Ok? <==> forall k :: 0 <= k < |bands| ==> bands[k].None?
    ensures CollectBands(tile, config, bands, num).Err? ==> CollectBands(tile, config, bands, num).error == UnsupportedTile
    decreases |bands|
  {
    if bands != [] {
      var init := bands[..|bands| - 1];
      UnsupportedTileFails(tile, config, init, num);
      assert forall k :: 0 <= k < |init| ==> init[k] == bands[k];
      if bands[|bands| - 1].Some? {
        assert CorrectBand(tile, config, bands[|bands| - 1].value, num) == Err(UnsupportedTile);
      }
    }
  }

  /** Only a Landsat tile consults the metadata: for any other prefix the
      result does not depend on it. */
  lemma {:induction false} OnlyLandsatReadsMetadata(tile: string, c1: Utils.Value, c2: Utils.Value,
                                                bands: seq<Option<Band>>, num: Dos.Numerics)
    requires !StartsWith(tile, "LC")
    ensures CollectBands(tile, c1, bands, num) == CollectBands(tile, c2, bands, num)
    decreases |bands|
  {
    if bands != [] {
      OnlyLandsatReadsMetadata(tile, c1, c2, bands[..|bands| - 1], num);
    }
  }

  /** On a Landsat tile a band is corrected by DOS under its short code; on
      a Sentinel-2 tile it is rescaled. */
  lemma Routing(tile: string, config: Utils.Value, band: Band, num: Dos.Numerics)
    ensures StartsWith(tile, "LC") ==>
      CorrectBand(tile, config, band, num) == Dos.Correct(config, FirstToken(band.description), band.data, num)
    ensures StartsWith(tile, "S2") ==> CorrectBand(tile, config, band, num) == Ok(Rescale(band.data))
  {
    if StartsWith(tile, "S2") {
      assert tile[..2] == "S2";
    }
  }

  // ---------------------------------------------------------------------
  // load_bands

  /** The metadata the Landsat branch reads: the `L1_METADATA_FILE` group of
      the parsed MTL file. Other tiles read none (a placeholder stands in). */
  function LandsatMetadata(tile: string, entries: seq<string>, readFile: string -> seq<string>): Result<Utils.Value> {
    if StartsWith(tile, "LC") then
      var config :- Utils.ReadConfig(entries, readFile);
      Utils.GetByPath(config, ["L1_METADATA_FILE"])
    else Ok(Utils.Dict(map[]))
  }

  /** `self.coord` as load_bands fills it. */
  function CoordOf(src: Raster): Coord {
    Coord(src.geotransform, src.projection, src.xSize, src.ySize, Extent(src.geotransform, src.xSize, src.ySize))
  }

  /** What load_bands leaves in `self.arr_bands`, or why it stops. */
  function Load(tile: string, entries: seq<string>, readFile: string -> seq<string>, dataset: Option<Raster>,
                num: Dos.Numerics): (r: Result<map<string, seq<real>>>)
    ensures dataset.None? ==> r.Err?
    ensures StartsWith(tile, "LC") && Utils.ReadConfig(entries, readFile).Err? ==> r.Err?
    ensures StartsWith(tile, "S2") && dataset.Some? ==> r.Ok?
  {
    var config :- LandsatMetadata(tile, entries, readFile);
    if dataset.None? then Err(NoDataset)
    else CollectBands(tile, config, dataset.value.bands, num)
  }

  class Atcor {
    const tile: string
    var coord: Coord
    var arrBands: map<string, seq<real>>

    /** The paths the source derives from the tile name are file-system
        locations and are not kept. */
    constructor (tile: string)
      ensures this.tile == tile && arrBands == map[]
    {
      this.tile := tile;
      coord := Coord(GeoTransform(0.0, 0.0, 0.0, 0.0, 0.0, 0.0), "", 0, 0, []);
      arrBands := map[];
    }

    /** The corner coordinates of a `cols` x `rows` raster, in the order the
        nested loop produces them: the column loop visits pixel columns 0
        and `cols`, the row loop the two row edges, and the row pair is
        reversed after each column. */
    method GetExtent(gt: GeoTransform, cols: nat, rows: nat) returns (ext: seq<Corner>)
      ensures ext == [Affine(gt, 0, 0), Affine(gt, 0, rows), Affine(gt, cols, rows), Affine(gt, cols, 0)]
    {
      ext := [];
      var xarr := [0, cols];
      var yarr := [0, rows];
      for j := 0 to 2
        invariant yarr == if j % 2 == 0 then [0, rows] else [rows, 0]
        invariant ext == Extent(gt, cols, rows)[..2 * j]
      {
        var px := xarr[j];
        for k := 0 to 2
          invariant ext == Extent(gt, cols, rows)[..2 * j + k]
        {
          var py := yarr[k];
          var x := gt.originX + px as real * gt.pixelWidth + py as real * gt.rowRotation;
          var y := gt.originY + px as real * gt.columnRotation + py as real * gt.pixelHeight;
          assert Extent(gt, cols, rows)[2 * j + k] == Affine(gt, px, py) == Corner(x, y);
          assert Extent(gt, cols, rows)[..2 * j + k + 1] == Extent(gt, cols, rows)[..2 * j + k] + [Corner(x, y)];
          ext := ext + [Corner(x, y)];
        }
        yarr := [yarr[1], yarr[0]];
      }
    }

    /** The head of load_bands: on a Landsat tile, parse the MTL file and
        keep its `L1_METADATA_FILE` group. */
    method ReadMetadata(entries: seq<string>, readFile: string -> seq<string>) returns (m: Result<Utils.Value>)
      ensures m == LandsatMetadata(tile, entries, readFile)
    {
      m := Ok(Utils.Dict(map[]));
      if StartsWith(tile, "LC") {
        var parsed := Utils.ReadConfigFile(entries, readFile);
        if parsed.Err? {
          return Err(parsed.error);
        }
        m := Utils.GetByPath(parsed.value, ["L1_METADATA_FILE"]);
      }
    }

    /** The body of the band loop for one present band: DOS under the
        band's short code on a Landsat tile, `/ 10000` on a Sentinel-2
        tile. Any other prefix leaves the result unbound. */
    method CorrectOne(config: Utils.Value, srcband: Band, num: Dos.Numerics) returns (ref: Result<seq<real>>)
      ensures ref == CorrectBand(tile, config, srcband, num)
    {
      var name := srcband.description;
      var b := FirstToken(name);
      var arr := srcband.data;
      if StartsWith(tile, "LC") {
        var at := new Dos.Dos(config, b, arr);
        ref := at.SrReflectance(num);
      } else if StartsWith(tile, "S2") {
        ref := Ok(Rescale(arr));
      } else {
        ref := Err(UnsupportedTile);
      }
    }

    /** Reads the metadata (Landsat only), records the raster's coordinates
        and corrects every present band in band order. */
    method LoadBands(entries: seq<string>, readFile: string -> seq<string>, dataset: Option<Raster>,
                     num: Dos.Numerics) returns (r: Outcome)
      modifies this
      ensures r.Pass? <==> Load(tile, entries, readFile, dataset, num).Ok?
      ensures r.Fail? ==> Load(tile, entries, readFile, dataset, num) == Err(r.error)
      ensures r.Pass? ==> arrBands == Load(tile, entries, readFile, dataset, num).value
      ensures r.Pass? ==> coord == CoordOf(dataset.value)
    {
      var metadata := ReadMetadata(entries, readFile);
      if metadata.Err? {
        return Fail(metadata.error);
      }
      var config := metadata.value;
      if dataset.None? {
        return Fail(NoDataset);
      }
      var src := dataset.value;
      var corners := GetExtent(src.geotransform, src.xSize, src.ySize);
      coord := Coord(src.geotransform, src.projection, src.xSize, src.ySize, corners);
      arrBands := map[];
      for i := 0 to |src.bands|
        invariant coord == CoordOf(src)
        invariant CollectBands(tile, config, src.bands[..i], num) == Ok(arrBands)
      {
        assert src.bands[..i + 1][..i] == src.bands[..i];
        var srcband := src.bands[i];
        if srcband.None? {
          continue;
        }
        var ref := CorrectOne(config, srcband.value, num);
        if ref.Err? {
          FailureIsFinal(tile, config, src.bands, i + 1, num);
          return Fail(ref.error);
        }
        arrBands := arrBands[srcband.value.description := ref.value];
      }
      assert src.bands[..|src.bands|] == src.bands;
      r := Pass;
    }
  }
}
