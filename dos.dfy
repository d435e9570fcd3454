/** The DOS1 radiometric correction of at_modules/DOS.py: the band-code
    table, the routing of a band to the reflective or the thermal formula,
    the metadata keys each path reads, the dark-object subtraction and the
    clamp of surface reflectance to [0, 1].

    Raster bands are 2-D arrays in the source; every step except the
    minimum is elementwise and the minimum runs over all pixels, so a band
    is modelled as its row-major flattening, a `seq<int>` of digital
    numbers. */
module Dos {
  import opened Wrappers
  import Utils

  /** The library numerics the correction calls: `np.pi`, `np.cos` (on
      radians), `np.log` and Python's `float(text)`. They are parameters, so
      nothing proved here depends on their values. */
  datatype Numerics = Numerics(pi: real, cos: real -> real, log: real -> real, toFloat: string -> Option<real>)

  /** `self.name_bands`: band code to the suffix of its metadata keys. */
  const NameBands: map<string, string> :=
    map["SRB1" := "BAND_1", "SRB2" := "BAND_2", "SRB3" := "BAND_3", "SRB4" := "BAND_4",
        "SRB5" := "BAND_5", "SRB6" := "BAND_6", "SRB7" := "BAND_7", "B8" := "BAND_8",
        "SRB9" := "BAND_9", "SRB10" := "BAND_10", "SRB11" := "BAND_11"]

  /** The fixed transmittances and diffuse irradiance `self.Tz`, `self.Ed`,
      `self.Tv` of the DOS1 model. */
  const Tz: real := 1.0
  const Ed: real := 0.0
  const Tv: real := 1.0

  /** The two TIRS codes that take the brightness-temperature formula. */
  predicate IsThermal(band: string) {
    band == "SRB10" || band == "SRB11"
  }

  /** `float(metadata[group][key])`: a missing group or key raises KeyError,
      a text that is not a number (or a nested group) makes `float` fail. */
  function ReadFloat(metadata: Utils.Value, group: string, key: string, num: Numerics): (r: Result<real>)
    ensures r.Ok? <==> Utils.GetByPath(metadata, [group, key]).Ok?
                       && Utils.GetByPath(metadata, [group, key]).value.Str?
                       && num.toFloat(Utils.GetByPath(metadata, [group, key]).value.text).Some?
  {
    var v :- Utils.GetByPath(metadata, [group, key]);
    match v
    case Str(text) =>
      (match num.toFloat(text)
       case Some(x) => Ok(x)
       case None => Err(NotANumber))
    case Dict(_) => Err(NotANumber)
  }

  /** At-sensor radiance `L = Ml * DN + Al`. */
  function Radiance(ml: real, al: real, dn: int): real {
    ml * dn as real + al
  }

  /** `np.amin(arr)`: the darkest digital number of the band. */
  function MinOf(s: seq<int>): (m: int)
    requires |s| > 0
    ensures m in s
    ensures forall i :: 0 <= i < |s| ==> m <= s[i]
  {
    if |s| == 1 then s[0]
    else
      var rest := MinOf(s[1..]);
      if s[0] <= rest then s[0] else rest
  }

  /** `np.pi * d**2`, the factor that turns irradiance into radiance at
      Earth-Sun distance `d`. */
  function PiDSquared(d: real, num: Numerics): real {
    num.pi * (d * d)
  }

  /** `(Esun * cos(z * pi / 180) * Tz + Ed) * Tv`: the irradiance that
      reaches the surface with the sun at zenith angle `z` degrees. */
  function SurfaceIrradiance(esun: real, z: real, num: Numerics): real {
    ((esun * num.cos(z * num.pi / 180.0) * Tz) + Ed) * Tv
  }

  /** `Esun = (np.pi * d**2) * rad_max / ref_max`, on Python floats: a zero
      `ref_max` raises ZeroDivisionError. */
  function SolarIrradiance(d: real, radMax: real, refMax: real, num: Numerics): (r: Result<real>)
    ensures r.Ok? <==> refMax != 0.0
    ensures r.Ok? ==> r.value * refMax == PiDSquared(d, num) * radMax
  {
    if refMax == 0.0 then Err(ZeroDivision) else Ok(PiDSquared(d, num) * radMax / refMax)
  }

  /** The path radiance `L1` of sr_radiance: one percent of the
      clear-sky irradiance on the surface, scaled back by `pi * d**2`. */
  function PathRadiance(esun: real, z: real, d: real, num: Numerics): (r: Result<real>)
    ensures r.Ok? <==> PiDSquared(d, num) != 0.0
    ensures r.Ok? ==> PiDSquared(d, num) * r.value == 0.01 * SurfaceIrradiance(esun, z, num)
  {
    if PiDSquared(d, num) == 0.0 then Err(NonFinite)
    else Ok(0.01 * SurfaceIrradiance(esun, z, num) / PiDSquared(d, num))
  }

  /** `sr_radiance`: at-sensor radiance minus the haze term
      `Lp = Lmin - L1`, so that the dark object lands exactly on `L1` and
      the other pixels keep their radiance difference to it. */
  function SrRadiance(ml: real, al: real, esun: real, z: real, d: real, arr: seq<int>, minValue: int, num: Numerics)
    : (r: Result<seq<real>>)
    ensures r.Ok? <==> PathRadiance(esun, z, d, num).Ok?
    ensures r.Ok? ==> |r.value| == |arr|
    ensures r.Ok? ==> forall i :: 0 <= i < |arr| && arr[i] == minValue ==>
      r.value[i] == PathRadiance(esun, z, d, num).value
  {
    var l1 :- PathRadiance(esun, z, d, num);
    var lp := Radiance(ml, al, minValue) - l1;
    Ok(seq(|arr|, i requires 0 <= i < |arr| => Radiance(ml, al, arr[i]) - lp))
  }

  /** The haze term is one constant for the band: corrected radiances
      keep the differences of the at-sensor radiances. */
  lemma HazeIsUniform(ml: real, al: real, esun: real, z: real, d: real, arr: seq<int>, minValue: int,
                      num: Numerics, i: int, j: int)
    requires SrRadiance(ml, al, esun, z, d, arr, minValue, num).Ok?
    requires 0 <= i < |arr| && 0 <= j < |arr|
    ensures var lsr := SrRadiance(ml, al, esun, z, d, arr, minValue, num).value;
      lsr[i] - lsr[j] == Radiance(ml, al, arr[i]) - Radiance(ml, al, arr[j])
  {
  }

  /** Both divisions of `k2 / log(k1 / L + 1)` have a non-zero divisor. */
  predicate ThermalDefined(ml: real, al: real, k1: real, dn: int, num: Numerics) {
    Radiance(ml, al, dn) != 0.0 && num.log(k1 / Radiance(ml, al, dn) + 1.0) != 0.0
  }

  /** Brightness temperature of one pixel, `k2 / log(k1 / L + 1)`. */
  function BrightnessTemperature(ml: real, al: real, k1: real, k2: real, dn: int, num: Numerics): (t: real)
    requires ThermalDefined(ml, al, k1, dn, num)
    ensures t * num.log(k1 / Radiance(ml, al, dn) + 1.0) == k2
  {
    k2 / num.log(k1 / Radiance(ml, al, dn) + 1.0)
  }

  /** `sr_thermal`: elementwise brightness temperature, not clamped. Where
      numpy would divide by zero the whole band is refused. */
  function SrThermal(ml: real, al: real, k1: real, k2: real, arr: seq<int>, num: Numerics): (r: Result<seq<real>>)
    ensures r.Ok? <==> forall i :: 0 <= i < |arr| ==> ThermalDefined(ml, al, k1, arr[i], num)
    ensures r.Err? ==> r.error == NonFinite
    ensures r.Ok? ==> |r.value| == |arr|
    ensures r.Ok? ==> forall i :: 0 <= i < |arr| ==> r.value[i] == BrightnessTemperature(ml, al, k1, k2, arr[i], num)
  {
    if forall i :: 0 <= i < |arr| ==> ThermalDefined(ml, al, k1, arr[i], num) then
      Ok(seq(|arr|, i requires 0 <= i < |arr| => BrightnessTemperature(ml, al, k1, k2, arr[i], num)))
    else Err(NonFinite)
  }

  /** `sr = (pi * d**2 * Lsr) / ((Esun * cos(z) * Tz + Ed) * Tv)` before the clamp. */
  function PreClamp(scale: real, lsr: seq<real>, denom: real): (r: seq<real>)
    requires denom != 0.0
    ensures |r| == |lsr|
  {
    seq(|lsr|, i requires 0 <= i < |lsr| => scale * lsr[i] / denom)
  }

  /** `sr[sr>=1] = 1` followed by `sr[sr<0] = 0`, for one pixel. */
  function Clamp01(v: real): (r: real)
    ensures 0.0 <= r <= 1.0
    ensures v >= 1.0 ==> r == 1.0
    ensures v < 0.0 ==> r == 0.0
    ensures 0.0 <= v < 1.0 ==> r == v
  {
    var capped := if v >= 1.0 then 1.0 else v;
    if capped < 0.0 then 0.0 else capped
  }

  function ClampAll(s: seq<real>): (r: seq<real>)
    ensures |r| == |s|
    ensures forall i :: 0 <= i < |s| ==> r[i] == Clamp01(s[i])
  {
    seq(|s|, i requires 0 <= i < |s| => Clamp01(s[i]))
  }

  /** The two masked assignments of sr_reflectance, applied to the freshly
      computed array in place. */
  method ClampInPlace(a: array<real>)
    modifies a
    ensures a[..] == ClampAll(old(a[..]))
  {
    for i := 0 to a.Length
      invariant forall k :: 0 <= k < i ==> a[k] == Clamp01(old(a[k]))
      invariant forall k :: i <= k < a.Length ==> a[k] == old(a[k])
    {
      if a[i] >= 1.0 {
        a[i] := 1.0;
      }
      if a[i] < 0.0 {
        a[i] := 0.0;
      }
    }
  }

  /** The reflective branch of sr_reflectance once its constants are read
      (`z` is the solar zenith angle in degrees). */
  function ReflectivePath(ml: real, al: real, radMax: real, refMax: real, d: real, z: real, arr: seq<int>, num: Numerics)
    : (r: Result<seq<real>>)
    ensures |arr| == 0 ==> r.Err?
    ensures r.Ok? ==> |r.value| == |arr| && forall i :: 0 <= i < |arr| ==> 0.0 <= r.value[i] <= 1.0
  {
    var esun :- SolarIrradiance(d, radMax, refMax, num);
    if |arr| == 0 then Err(EmptyBand)
    else
      var lsr :- SrRadiance(ml, al, esun, z, d, arr, MinOf(arr), num);
      var denom := SurfaceIrradiance(esun, z, num);
      if denom == 0.0 then Err(NonFinite)
      else Ok(ClampAll(PreClamp(PiDSquared(d, num), lsr, denom)))
  }

  /** What `DOS(config, band, arr).sr_reflectance()` returns. */
  function Correct(metadata: Utils.Value, band: string, arr: seq<int>, num: Numerics): (r: Result<seq<real>>)
    ensures band !in NameBands ==> r == Err(KeyNotFound(band))
    ensures r.Ok? ==> |r.value| == |arr|
  {
    if band !in NameBands then Err(KeyNotFound(band))
    else
      var name := NameBands[band];
      var ml :- ReadFloat(metadata, "RADIOMETRIC_RESCALING", "RADIANCE_MULT_" + name, num);
      var al :- ReadFloat(metadata, "RADIOMETRIC_RESCALING", "RADIANCE_ADD_" + name, num);
      if IsThermal(band) then ThermalCorrect(metadata, name, ml, al, arr, num)
      else ReflectiveCorrect(metadata, name, ml, al, arr, num)
  }

  /** The thermal branch once the rescaling pair is read. */
  function ThermalCorrect(metadata: Utils.Value, name: string, ml: real, al: real, arr: seq<int>, num: Numerics)
    : Result<seq<real>>
  {
    var k1 :- ReadFloat(metadata, "TIRS_THERMAL_CONSTANTS", "K1_CONSTANT_" + name, num);
    var k2 :- ReadFloat(metadata, "TIRS_THERMAL_CONSTANTS", "K2_CONSTANT_" + name, num);
    SrThermal(ml, al, k1, k2, arr, num)
  }

  /** The reflective branch once the rescaling pair is read. */
  function ReflectiveCorrect(metadata: Utils.Value, name: string, ml: real, al: real, arr: seq<int>, num: Numerics)
    : Result<seq<real>>
  {
    var radMax :- ReadFloat(metadata, "MIN_MAX_RADIANCE", "RADIANCE_MAXIMUM_" + name, num);
    var refMax :- ReadFloat(metadata, "MIN_MAX_REFLECTANCE", "REFLECTANCE_MAXIMUM_" + name, num);
    var d :- ReadFloat(metadata, "IMAGE_ATTRIBUTES", "EARTH_SUN_DISTANCE", num);
    var elevation :- ReadFloat(metadata, "IMAGE_ATTRIBUTES", "SUN_ELEVATION", num);
    ReflectivePath(ml, al, radMax, refMax, d, 90.0 - elevation, arr, num)
  }

  /** One instance per band: the constructor stores the band, its pixels and
      the metadata; sr_reflectance fills in the calibration fields and
      returns the corrected band. */
  class Dos {
    const band: string
    const arrBand: seq<int>
    const metadata: Utils.Value
    var ml: real
    var al: real
    var radMax: real
    var refMax: real
    var d: real
    var z: real
    var esun: real
    var k1: real
    var k2: real

    /** The calibration fields do not exist until sr_reflectance sets them;
        here they start at zero and are never read before being set. */
    constructor (config: Utils.Value, band: string, arrBand: seq<int>)
      ensures this.metadata == config && this.band == band && this.arrBand == arrBand
    {
      this.band := band;
      this.arrBand := arrBand;
      this.metadata := config;
      ml, al, radMax, refMax, d, z, esun, k1, k2 := 0.0, 0.0, 0.0, 0.0, 0.0, 0.0, 0.0, 0.0, 0.0;
    }

    /** The reflective branch of sr_reflectance after its constants are
        set: Esun, the dark object, sr_radiance, the division and the clamp. */
    method Reflect(num: Numerics) returns (r: Result<seq<real>>)
      modifies this`esun
      ensures r == ReflectivePath(ml, al, radMax, refMax, d, z, arrBand, num)
      ensures r.Ok? ==> esun == SolarIrradiance(d, radMax, refMax, num).value
    {
      var e := SolarIrradiance(d, radMax, refMax, num);
      if e.Err? {
        return Err(e.error);
      }
      esun := e.value;
      if |arrBand| == 0 {
        return Err(EmptyBand);
      }
      var minValue := MinOf(arrBand);
      var lsr := SrRadiance(ml, al, esun, z, d, arrBand, minValue, num);
      if lsr.Err? {
        return Err(lsr.error);
      }
      var denom := SurfaceIrradiance(esun, z, num);
      if denom == 0.0 {
        return Err(NonFinite);
      }
      var scale, radiance := PiDSquared(d, num), lsr.value;
      var sr := new real[|radiance|](i requires 0 <= i < |radiance| => scale * radiance[i] / denom);
      assert sr[..] == PreClamp(scale, radiance, denom);
      ClampInPlace(sr);
      r := Ok(sr[..]);
    }

    /** The thermal branch of sr_reflectance: reads and sets `k1`, `k2`. */
    method Thermal(name: string, num: Numerics) returns (r: Result<seq<real>>)
      modifies this`k1, this`k2
      ensures r == ThermalCorrect(metadata, name, ml, al, arrBand, num)
      ensures r.Ok? ==>
        && k1 == ReadFloat(metadata, "TIRS_THERMAL_CONSTANTS", "K1_CONSTANT_" + name, num).value
        && k2 == ReadFloat(metadata, "TIRS_THERMAL_CONSTANTS", "K2_CONSTANT_" + name, num).value
    {
      var v := ReadFloat(metadata, "TIRS_THERMAL_CONSTANTS", "K1_CONSTANT_" + name, num);
      if v.Err? {
        return Err(v.error);
      }
      k1 := v.value;
      v := ReadFloat(metadata, "TIRS_THERMAL_CONSTANTS", "K2_CONSTANT_" + name, num);
      if v.Err? {
        return Err(v.error);
      }
      k2 := v.value;
      r := SrThermal(ml, al, k1, k2, arrBand, num);
    }

    /** The reflective branch of sr_reflectance: reads and sets the maxima,
        the distance, the zenith angle and Esun. */
    method Reflective(name: string, num: Numerics) returns (r: Result<seq<real>>)
      modifies this`radMax, this`refMax, this`d, this`z, this`esun
      ensures r == ReflectiveCorrect(metadata, name, ml, al, arrBand, num)
      ensures r.Ok? ==>
        && radMax == ReadFloat(metadata, "MIN_MAX_RADIANCE", "RADIANCE_MAXIMUM_" + name, num).value
        && refMax == ReadFloat(metadata, "MIN_MAX_REFLECTANCE", "REFLECTANCE_MAXIMUM_" + name, num).value
        && d == ReadFloat(metadata, "IMAGE_ATTRIBUTES", "EARTH_SUN_DISTANCE", num).value
        && z == 90.0 - ReadFloat(metadata, "IMAGE_ATTRIBUTES", "SUN_ELEVATION", num).value
        && esun == SolarIrradiance(d, radMax, refMax, num).value
    {
      var v := ReadFloat(metadata, "MIN_MAX_RADIANCE", "RADIANCE_MAXIMUM_" + name, num);
      if v.Err? {
        return Err(v.error);
      }
      radMax := v.value;
      v := ReadFloat(metadata, "MIN_MAX_REFLECTANCE", "REFLECTANCE_MAXIMUM_" + name, num);
      if v.Err? {
        return Err(v.error);
      }
      refMax := v.value;
      v := ReadFloat(metadata, "IMAGE_ATTRIBUTES", "EARTH_SUN_DISTANCE", num);
      if v.Err? {
        return Err(v.error);
      }
      d := v.value;
      v := ReadFloat(metadata, "IMAGE_ATTRIBUTES", "SUN_ELEVATION", num);
      if v.Err? {
        return Err(v.error);
      }
      z := 90.0 - v.value;
      r := Reflect(num);
    }

    method SrReflectance(num: Numerics) returns (r: Result<seq<real>>)
      modifies this
      ensures r == Correct(metadata, band, arrBand, num)
      ensures r.Ok? ==>
        && ml == ReadFloat(metadata, "RADIOMETRIC_RESCALING", "RADIANCE_MULT_" + NameBands[band], num).value
        && al == ReadFloat(metadata, "RADIOMETRIC_RESCALING", "RADIANCE_ADD_" + NameBands[band], num).value
      ensures r.Ok? && IsThermal(band) ==>
        && k1 == ReadFloat(metadata, "TIRS_THERMAL_CONSTANTS", "K1_CONSTANT_" + NameBands[band], num).value
        && k2 == ReadFloat(metadata, "TIRS_THERMAL_CONSTANTS", "K2_CONSTANT_" + NameBands[band], num).value
        && radMax == old(radMax) && refMax == old(refMax) && d == old(d) && z == old(z) && esun == old(esun)
      ensures r.Ok? && !IsThermal(band) ==>
        && radMax == ReadFloat(metadata, "MIN_MAX_RADIANCE", "RADIANCE_MAXIMUM_" + NameBands[band], num).value
        && refMax == ReadFloat(metadata, "MIN_MAX_REFLECTANCE", "REFLECTANCE_MAXIMUM_" + NameBands[band], num).value
        && d == ReadFloat(metadata, "IMAGE_ATTRIBUTES", "EARTH_SUN_DISTANCE", num).value
        && z == 90.0 - ReadFloat(metadata, "IMAGE_ATTRIBUTES", "SUN_ELEVATION", num).value
        && esun == SolarIrradiance(d, radMax, refMax, num).value
        && k1 == old(k1) && k2 == old(k2)
    {
      if band !in NameBands {
        return Err(KeyNotFound(band));
      }
      var name := NameBands[band];
      var v := ReadFloat(metadata, "RADIOMETRIC_RESCALING", "RADIANCE_MULT_" + name, num);
      if v.Err? {
        return Err(v.error);
      }
      ml := v.value;
      v := ReadFloat(metadata, "RADIOMETRIC_RESCALING", "RADIANCE_ADD_" + name, num);
      if v.Err? {
        return Err(v.error);
      }
      al := v.value;
      if band == "SRB10" || band == "SRB11" {
        r := Thermal(name, num);
      } else {
        r := Reflective(name, num);
      }
    }
  }

  // ---------------------------------------------------------------------
  // Properties of the correction

  /** A code outside the table fails at the lookup, before any metadata is read. */
  lemma UnknownBandFails(metadata: Utils.Value, band: string, arr: seq<int>, num: Numerics)
    requires band !in NameBands
    ensures Correct(metadata, band, arr, num) == Err(KeyNotFound(band))
  {
  }

  /** SRB10 and SRB11 read the rescaling pair and the two TIRS constants
      under their `BAND_n` suffix and go through the thermal formula. */
  lemma ThermalRoute(metadata: Utils.Value, band: string, arr: seq<int>, num: Numerics,
                     ml: real, al: real, k1: real, k2: real)
    requires IsThermal(band)
    requires ReadFloat(metadata, "RADIOMETRIC_RESCALING", "RADIANCE_MULT_" + NameBands[band], num) == Ok(ml)
    requires ReadFloat(metadata, "RADIOMETRIC_RESCALING", "RADIANCE_ADD_" + NameBands[band], num) == Ok(al)
    requires ReadFloat(metadata, "TIRS_THERMAL_CONSTANTS", "K1_CONSTANT_" + NameBands[band], num) == Ok(k1)
    requires ReadFloat(metadata, "TIRS_THERMAL_CONSTANTS", "K2_CONSTANT_" + NameBands[band], num) == Ok(k2)
    ensures Correct(metadata, band, arr, num) == SrThermal(ml, al, k1, k2, arr, num)
  {
  }

  /** Every other code of the table reads the rescaling pair, the maximum
      radiance and reflectance under its suffix, the Earth-Sun distance and
      the sun elevation, and takes the reflective formula with zenith angle
      `90 - elevation`. */
  lemma ReflectiveRoute(metadata: Utils.Value, band: string, arr: seq<int>, num: Numerics,
                        ml: real, al: real, radMax: real, refMax: real, d: real, elevation: real)
    requires band in NameBands && !IsThermal(band)
    requires ReadFloat(metadata, "RADIOMETRIC_RESCALING", "RADIANCE_MULT_" + NameBands[band], num) == Ok(ml)
    requires ReadFloat(metadata, "RADIOMETRIC_RESCALING", "RADIANCE_ADD_" + NameBands[band], num) == Ok(al)
    requires ReadFloat(metadata, "MIN_MAX_RADIANCE", "RADIANCE_MAXIMUM_" + NameBands[band], num) == Ok(radMax)
    requires ReadFloat(metadata, "MIN_MAX_REFLECTANCE", "REFLECTANCE_MAXIMUM_" + NameBands[band], num) == Ok(refMax)
    requires ReadFloat(metadata, "IMAGE_ATTRIBUTES", "EARTH_SUN_DISTANCE", num) == Ok(d)
    requires ReadFloat(metadata, "IMAGE_ATTRIBUTES", "SUN_ELEVATION", num) == Ok(elevation)
    ensures Correct(metadata, band, arr, num) == ReflectivePath(ml, al, radMax, refMax, d, 90.0 - elevation, arr, num)
  {
  }

  /** Reflective output: one value per input pixel, every one in [0, 1]. */
  lemma ReflectiveInUnitInterval(metadata: Utils.Value, band: string, arr: seq<int>, num: Numerics)
    requires !IsThermal(band) && Correct(metadata, band, arr, num).Ok?
    ensures |Correct(metadata, band, arr, num).value| == |arr|
    ensures forall i :: 0 <= i < |arr| ==> 0.0 <= Correct(metadata, band, arr, num).value[i] <= 1.0
  {
  }

  /** Thermal output: one brightness temperature per input pixel, unclamped. */
  lemma ThermalShape(metadata: Utils.Value, band: string, arr: seq<int>, num: Numerics)
    requires IsThermal(band) && Correct(metadata, band, arr, num).Ok?
    ensures |Correct(metadata, band, arr, num).value| == |arr|
  {
  }

  /** A pixel whose radiance `x` scales to one percent of the surface
      irradiance has reflectance 0.01 before the clamp. */
  lemma PreClampOnePercent(scale: real, lsr: seq<real>, denom: real, x: real, i: int)
    requires denom != 0.0 && 0 <= i < |lsr| && lsr[i] == x
    requires scale * x == 0.01 * denom
    ensures PreClamp(scale, lsr, denom)[i] == 0.01
  {
    assert PreClamp(scale, lsr, denom)[i] == scale * x / denom;
  }

  /** A pixel whose radiance after haze removal is the path radiance `L1`
      has reflectance 0.01 before the clamp. */
  lemma PathRadiancePixel(esun: real, z: real, d: real, num: Numerics, lsr: seq<real>, i: int)
    requires PathRadiance(esun, z, d, num).Ok? && SurfaceIrradiance(esun, z, num) != 0.0
    requires 0 <= i < |lsr| && lsr[i] == PathRadiance(esun, z, d, num).value
    ensures PreClamp(PiDSquared(d, num), lsr, SurfaceIrradiance(esun, z, num))[i] == 0.01
  {
    PreClampOnePercent(PiDSquared(d, num), lsr, SurfaceIrradiance(esun, z, num), PathRadiance(esun, z, d, num).value, i);
  }

  /** The successful reflective path, step by step. */
  lemma ReflectivePathSteps(ml: real, al: real, radMax: real, refMax: real, d: real, z: real, arr: seq<int>, num: Numerics)
    requires ReflectivePath(ml, al, radMax, refMax, d, z, arr, num).Ok?
    ensures SolarIrradiance(d, radMax, refMax, num).Ok? && |arr| > 0
    ensures var esun := SolarIrradiance(d, radMax, refMax, num).value;
      && SrRadiance(ml, al, esun, z, d, arr, MinOf(arr), num).Ok?
      && SurfaceIrradiance(esun, z, num) != 0.0
      && ReflectivePath(ml, al, radMax, refMax, d, z, arr, num).value
         == ClampAll(PreClamp(PiDSquared(d, num), SrRadiance(ml, al, esun, z, d, arr, MinOf(arr), num).value,
                              SurfaceIrradiance(esun, z, num)))
  {
  }

  /** DOS1's defining property: the darkest pixel of a reflective band has
      surface reflectance exactly 0.01 before the clamp, hence also after. */
  lemma DarkObjectIsOnePercent(ml: real, al: real, radMax: real, refMax: real, d: real, z: real,
                               arr: seq<int>, num: Numerics, i: int)
    requires ReflectivePath(ml, al, radMax, refMax, d, z, arr, num).Ok?
    requires 0 <= i < |arr| && arr[i] == MinOf(arr)
    ensures ReflectivePath(ml, al, radMax, refMax, d, z, arr, num).value[i] == 0.01
  {
    ReflectivePathSteps(ml, al, radMax, refMax, d, z, arr, num);
    var esun := SolarIrradiance(d, radMax, refMax, num).value;
    var lsr := SrRadiance(ml, al, esun, z, d, arr, MinOf(arr), num).value;
    PathRadiancePixel(esun, z, d, num, lsr, i);
  }
}
