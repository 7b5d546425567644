/**
 * The value logic of `latlng2minecraft/__main__.py`: the `var` command around the ellipsoidal
 * converter, and the `csv` command, which is not implemented. Parsing numbers from text is
 * Python's `float` and `int`, given here as partial functions.
 */
module LatlngCli {
  import opened Outcomes
  import opened PyMath
  import opened Types
  import Converter

  /** `BASE_POINT_MAP` of `latlng2minecraft/consts.py`. */
  const BasePointMap: PointMap :=
    PointMap(MinecraftPoint(-559, -395), LatLngPoint(36.138755, 139.388908))

  const LatLngCountMessage: string := "Expected 2 values: <latitude> <longitude>"
  const XYCountMessage: string := "Expected 2 values: <x> <y>"
  const CsvMessage: string := "CSV mode not implemented yet. This is a scaffold for future work."

  /** What `handle_var` returns: an absolute planar point or a geographic point. */
  datatype VarOutput = PlanarOut(x: int, y: int) | GeoOut(latitude: real, longitude: real)

  /** The absolute planar point at a relative offset from the base pair. */
  function Absolute(rel: MinecraftPoint): (p: VarOutput)
    ensures p.PlanarOut?
    ensures p.x - BasePointMap.minecraft.x == rel.x && p.y - BasePointMap.minecraft.y == rel.y
  {
    PlanarOut(BasePointMap.minecraft.x + rel.x, BasePointMap.minecraft.y + rel.y)
  }

  /** The offset from the base pair of an absolute planar point. */
  function Relative(x: int, y: int): (rel: MinecraftPoint)
    ensures BasePointMap.minecraft.x + rel.x == x && BasePointMap.minecraft.y + rel.y == y
  {
    MinecraftPoint(x - BasePointMap.minecraft.x, y - BasePointMap.minecraft.y)
  }

  /**
   * `handle_var`. `lat2mc` converts a latitude and a longitude against the base point and adds
   * the base planar point; any other mode subtracts the base planar point and converts back.
   * Each mode first demands exactly two values.
   */
  function HandleVar(m: Math, parseFloat: string -> Option<real>, parseInt: string -> Option<int>,
                     mode: string, values: seq<string>): (r: Result<VarOutput>)
    ensures mode == "lat2mc" && |values| != 2 ==> r == Err(SystemExit(LatLngCountMessage))
    ensures mode != "lat2mc" && |values| != 2 ==> r == Err(SystemExit(XYCountMessage))
    ensures mode == "lat2mc" && |values| == 2 ==>
      (r.Ok? <==> parseFloat(values[0]).Some? && parseFloat(values[1]).Some?) &&
      (r.Err? ==> r.failure == ValueError)
    ensures mode != "lat2mc" && |values| == 2 && (parseInt(values[0]).None? || parseInt(values[1]).None?) ==>
      r == Err(ValueError)
    ensures r.Ok? ==> (r.value.PlanarOut? <==> mode == "lat2mc")
  {
    if mode == "lat2mc" then
      if |values| != 2 then Err(SystemExit(LatLngCountMessage))
      else
        match (parseFloat(values[0]), parseFloat(values[1]))
        case (Some(lat), Some(lon)) =>
          var point := LatLngPoint(lat, lon);
          var rel := Converter.LatLngToMinecraft(m, point, BasePointMap.latlng);
          Ok(Absolute(rel))
        case _ => Err(ValueError)
    else
      if |values| != 2 then Err(SystemExit(XYCountMessage))
      else
        match (parseInt(values[0]), parseInt(values[1]))
        case (Some(x), Some(y)) =>
          var relPoint := Relative(x, y);
          (match Converter.MinecraftToLatLng(m, relPoint, BasePointMap.latlng)
           case Ok(result) => Ok(GeoOut(result.latitude, result.longitude))
           case Err(e) => Err(e))
        case _ => Err(ValueError)
  }

  /** `lat2mc` answers with the base planar point plus the converter's relative offset. */
  lemma Lat2McIsBasePlusOffset(m: Math, parseFloat: string -> Option<real>, parseInt: string -> Option<int>,
                               a: string, b: string, lat: real, lon: real)
    requires parseFloat(a) == Some(lat) && parseFloat(b) == Some(lon)
    ensures var rel := Converter.LatLngToMinecraft(m, LatLngPoint(lat, lon), BasePointMap.latlng);
      HandleVar(m, parseFloat, parseInt, "lat2mc", [a, b])
        == Ok(PlanarOut(BasePointMap.minecraft.x + rel.x, BasePointMap.minecraft.y + rel.y))
  {
  }

  /** `mc2lat` hands the converter the input point minus the base planar point. */
  lemma Mc2LatStripsBase(m: Math, parseFloat: string -> Option<real>, parseInt: string -> Option<int>,
                         sx: string, sy: string, x: int, y: int)
    requires parseInt(sx) == Some(x) && parseInt(sy) == Some(y)
    ensures HandleVar(m, parseFloat, parseInt, "mc2lat", [sx, sy])
        == match Converter.MinecraftToLatLng(m, MinecraftPoint(x - BasePointMap.minecraft.x, y - BasePointMap.minecraft.y),
                                             BasePointMap.latlng)
           case Ok(p) => Ok(GeoOut(p.latitude, p.longitude))
           case Err(e) => Err(e)
  {
  }

  /**
   * Feeding `mc2lat` the absolute point that `lat2mc` printed hands the converter exactly the
   * relative offset `lat2mc` computed: the base offset added on the way out is removed on the way in.
   */
  lemma VarRoundTripOffset(m: Math, parseFloat: string -> Option<real>, parseInt: string -> Option<int>,
                           a: string, b: string, lat: real, lon: real, sx: string, sy: string)
    requires parseFloat(a) == Some(lat) && parseFloat(b) == Some(lon)
    requires HandleVar(m, parseFloat, parseInt, "lat2mc", [a, b]).Ok?
    requires var out := HandleVar(m, parseFloat, parseInt, "lat2mc", [a, b]).value;
      parseInt(sx) == Some(out.x) && parseInt(sy) == Some(out.y)
    ensures var rel := Converter.LatLngToMinecraft(m, LatLngPoint(lat, lon), BasePointMap.latlng);
      HandleVar(m, parseFloat, parseInt, "mc2lat", [sx, sy])
        == match Converter.MinecraftToLatLng(m, rel, BasePointMap.latlng)
           case Ok(p) => Ok(GeoOut(p.latitude, p.longitude))
           case Err(e) => Err(e)
  {
    var rel := Converter.LatLngToMinecraft(m, LatLngPoint(lat, lon), BasePointMap.latlng);
    var out := HandleVar(m, parseFloat, parseInt, "lat2mc", [a, b]).value;
    assert out == Absolute(rel);
    assert Relative(out.x, out.y) == rel;
  }

  /** `handle_csv`: it aborts with the not-implemented message whatever its arguments. */
  function HandleCsv(inputPath: string, outputPath: string, direction: string): (r: Result<()>)
    ensures r.Err? && r.failure.SystemExit?
    ensures r.failure.message == CsvMessage
  {
    Err(SystemExit(CsvMessage))
  }
}
