/**
 * The value logic of `kakiko2minecraft/__main__.py`: the `var` command around the converter and
 * the row and header rules of the `csv` command. The CSV file is given as its already-read header
 * and rows; parsing numbers from text is Python's `float` and `int`, given as partial functions.
 */
module KakikoCli {
  import opened Outcomes
  import opened PyMath
  import Types
  import opened KakikoTypes
  import KakikoConverter

  /** `PAIR_VALUE_COUNT`. */
  const PairValueCount: nat := 2

  /** `BASE_POINT_MAP` of `kakiko2minecraft/consts.py`. */
  const BasePointMap: PointMap :=
    PointMap(MinecraftPoint(-559, -395), Types.LatLngPoint(36.138755, 139.388908))

  const LatLngCountMessage: string := "Expected 2 values: <latitude> <longitude>"
  const XZCountMessage: string := "Expected 2 values: <x> <z>"

  /** The two columns the CSV command derives. */
  const XColumn: string := "minecraft_x"
  const ZColumn: string := "minecraft_z"

  /** What `handle_var` returns: an absolute planar point or a geographic point. */
  datatype VarOutput = PlanarOut(x: int, z: int) | GeoOut(latitude: real, longitude: real)

  /** The absolute planar point at a relative offset from the base pair. */
  function Absolute(rel: MinecraftPoint): (p: MinecraftPoint)
    ensures p.x - BasePointMap.minecraft.x == rel.x && p.z - BasePointMap.minecraft.z == rel.z
  {
    MinecraftPoint(BasePointMap.minecraft.x + rel.x, BasePointMap.minecraft.z + rel.z)
  }

  /** The offset from the base pair of an absolute planar point. */
  function Relative(x: int, z: int): (rel: MinecraftPoint)
    ensures BasePointMap.minecraft.x + rel.x == x && BasePointMap.minecraft.z + rel.z == z
  {
    MinecraftPoint(x - BasePointMap.minecraft.x, z - BasePointMap.minecraft.z)
  }

  /**
   * `handle_var`. `lat2mc` converts a latitude and a longitude against the base point and adds
   * the base planar point; any other mode subtracts the base planar point and converts back.
   * Each mode first demands exactly two values.
   */
  function HandleVar(m: Math, parseFloat: string -> Option<real>, parseInt: string -> Option<int>,
                     mode: string, values: seq<string>): (r: Result<VarOutput>)
    ensures mode == "lat2mc" && |values| != PairValueCount ==> r == Err(SystemExit(LatLngCountMessage))
    ensures mode != "lat2mc" && |values| != PairValueCount ==> r == Err(SystemExit(XZCountMessage))
    ensures mode == "lat2mc" && |values| == PairValueCount ==>
      (r.Ok? <==> parseFloat(values[0]).Some? && parseFloat(values[1]).Some?) &&
      (r.Err? ==> r.failure == ValueError)
    ensures mode != "lat2mc" && |values| == PairValueCount && (parseInt(values[0]).None? || parseInt(values[1]).None?) ==>
      r == Err(ValueError)
    ensures r.Ok? ==> (r.value.PlanarOut? <==> mode == "lat2mc")
  {
    if mode == "lat2mc" then
      if |values| != PairValueCount then Err(SystemExit(LatLngCountMessage))
      else
        match (parseFloat(values[0]), parseFloat(values[1]))
        case (Some(lat), Some(lon)) =>
          var point := Types.LatLngPoint(lat, lon);
          var rel := KakikoConverter.LatLngToMinecraft(m, point, BasePointMap.latlng);
          var abs := Absolute(rel);
          Ok(PlanarOut(abs.x, abs.z))
        case _ => Err(ValueError)
    else
      if |values| != PairValueCount then Err(SystemExit(XZCountMessage))
      else
        match (parseInt(values[0]), parseInt(values[1]))
        case (Some(x), Some(z)) =>
          var relPoint := Relative(x, z);
          (match KakikoConverter.MinecraftToLatLng(m, relPoint, BasePointMap.latlng)
           case Ok(result) => Ok(GeoOut(result.latitude, result.longitude))
           case Err(e) => Err(e))
        case _ => Err(ValueError)
  }

  /** `lat2mc` answers with the base planar point plus the converter's relative offset. */
  lemma Lat2McIsBasePlusOffset(m: Math, parseFloat: string -> Option<real>, parseInt: string -> Option<int>,
                               a: string, b: string, lat: real, lon: real)
    requires parseFloat(a) == Some(lat) && parseFloat(b) == Some(lon)
    ensures var rel := KakikoConverter.LatLngToMinecraft(m, Types.LatLngPoint(lat, lon), BasePointMap.latlng);
      HandleVar(m, parseFloat, parseInt, "lat2mc", [a, b])
        == Ok(PlanarOut(BasePointMap.minecraft.x + rel.x, BasePointMap.minecraft.z + rel.z))
  {
  }

  /** `mc2lat` hands the converter the input point minus the base planar point. */
  lemma Mc2LatStripsBase(m: Math, parseFloat: string -> Option<real>, parseInt: string -> Option<int>,
                         sx: string, sz: string, x: int, z: int)
    requires parseInt(sx) == Some(x) && parseInt(sz) == Some(z)
    ensures HandleVar(m, parseFloat, parseInt, "mc2lat", [sx, sz])
        == match KakikoConverter.MinecraftToLatLng(m, MinecraftPoint(x - BasePointMap.minecraft.x, z - BasePointMap.minecraft.z),
                                                   BasePointMap.latlng)
           case Ok(p) => Ok(GeoOut(p.latitude, p.longitude))
           case Err(e) => Err(e)
  {
  }

  /**
   * Feeding `mc2lat` the absolute point that `lat2mc` printed hands the converter exactly the
   * relative offset `lat2mc` computed: the base offset added on the way out is removed on the way in.
   */
  lemma VarRoundTripOffset(m: Math, parseFloat: string -> Option<real>, parseInt: string -> Option<int>,
                           a: string, b: string, lat: real, lon: real, sx: string, sz: string)
    requires parseFloat(a) == Some(lat) && parseFloat(b) == Some(lon)
    requires HandleVar(m, parseFloat, parseInt, "lat2mc", [a, b]).Ok?
    requires var out := HandleVar(m, parseFloat, parseInt, "lat2mc", [a, b]).value;
      parseInt(sx) == Some(out.x) && parseInt(sz) == Some(out.z)
    ensures var rel := KakikoConverter.LatLngToMinecraft(m, Types.LatLngPoint(lat, lon), BasePointMap.latlng);
      HandleVar(m, parseFloat, parseInt, "mc2lat", [sx, sz])
        == match KakikoConverter.MinecraftToLatLng(m, rel, BasePointMap.latlng)
           case Ok(p) => Ok(GeoOut(p.latitude, p.longitude))
           case Err(e) => Err(e)
  {
    var rel := KakikoConverter.LatLngToMinecraft(m, Types.LatLngPoint(lat, lon), BasePointMap.latlng);
    var out := HandleVar(m, parseFloat, parseInt, "lat2mc", [a, b]).value;
    assert out == PlanarOut(Absolute(rel).x, Absolute(rel).z);
    assert Relative(out.x, out.z) == rel;
  }

  // ---------------------------------------------------------------------------------------------
  // The csv command

  /** A value in a row dictionary: text as read, or an integer the command stored there. */
  datatype Cell = Str(text: string) | Num(n: int)

  /** What the csv command writes: the header, then one row per input row. */
  datatype CsvOutput = CsvOutput(fieldnames: seq<string>, rows: seq<map<string, Cell>>)

  predicate NoDuplicates(s: seq<string>) {
    forall i, j :: 0 <= i < j < |s| ==> s[i] != s[j]
  }

  /** The output header: the input header, then each derived column that is not already there. */
  function OutFieldnames(fieldnames: seq<string>): (r: seq<string>)
    ensures |r| >= |fieldnames| && r[..|fieldnames|] == fieldnames
    ensures XColumn in r && ZColumn in r
    ensures forall k :: k in r ==> k in fieldnames || k == XColumn || k == ZColumn
    ensures |r| == |fieldnames| + (if XColumn in fieldnames then 0 else 1) + (if ZColumn in fieldnames then 0 else 1)
    ensures XColumn !in fieldnames && ZColumn !in fieldnames ==> r == fieldnames + [XColumn, ZColumn]
    ensures NoDuplicates(fieldnames) ==> NoDuplicates(r)
  {
    var withX := if XColumn in fieldnames then fieldnames else fieldnames + [XColumn];
    assert withX[..|fieldnames|] == fieldnames;
    var withZ := if ZColumn in withX then withX else withX + [ZColumn];
    assert withZ[..|fieldnames|] == fieldnames by {
      assert withZ[..|withX|] == withX;
    }
    assert ZColumn in withX <==> ZColumn in fieldnames;
    withZ
  }

  /** The row's latitude and longitude, or None where a column is missing (KeyError) or does not parse (ValueError). */
  function ParseLatLng(parseFloat: string -> Option<real>, row: map<string, string>,
                       latCol: string, lngCol: string): (r: Option<Types.LatLngPoint>)
    ensures r.Some? <==>
      latCol in row && lngCol in row && parseFloat(row[latCol]).Some? && parseFloat(row[lngCol]).Some?
    ensures r.Some? ==> r.value == Types.LatLngPoint(parseFloat(row[latCol]).value, parseFloat(row[lngCol]).value)
  {
    if latCol !in row then None
    else match parseFloat(row[latCol])
      case None => None
      case Some(lat) =>
        if lngCol !in row then None
        else match parseFloat(row[lngCol])
          case None => None
          case Some(lng) => Some(Types.LatLngPoint(lat, lng))
  }

  /** A row as the reader yields it, every value text. */
  function Cells(row: map<string, string>): (r: map<string, Cell>)
    ensures r.Keys == row.Keys
    ensures forall k :: k in row ==> r[k] == Str(row[k])
  {
    map k | k in row :: Str(row[k])
  }

  /**
   * One row of the csv command: the input row with the derived columns set, blank when the
   * coordinates cannot be read, else the base planar point plus the converted offset.
   */
  function ConvertRow(m: Math, parseFloat: string -> Option<real>, row: map<string, string>,
                      latCol: string, lngCol: string): (r: map<string, Cell>)
    ensures r.Keys == row.Keys + {XColumn, ZColumn}
    ensures forall k :: k in row && k != XColumn && k != ZColumn ==> r[k] == Str(row[k])
    ensures ParseLatLng(parseFloat, row, latCol, lngCol).None? ==> r[XColumn] == Str("") && r[ZColumn] == Str("")
    ensures ParseLatLng(parseFloat, row, latCol, lngCol).Some? ==>
      var rel := KakikoConverter.LatLngToMinecraft(m, ParseLatLng(parseFloat, row, latCol, lngCol).value, BasePointMap.latlng);
      r[XColumn] == Num(BasePointMap.minecraft.x + rel.x) && r[ZColumn] == Num(BasePointMap.minecraft.z + rel.z)
  {
    match ParseLatLng(parseFloat, row, latCol, lngCol)
    case None => Cells(row)[XColumn := Str("")][ZColumn := Str("")]
    case Some(point) =>
      var rel := KakikoConverter.LatLngToMinecraft(m, point, BasePointMap.latlng);
      var abs := Absolute(rel);
      Cells(row)[XColumn := Num(abs.x)][ZColumn := Num(abs.z)]
  }

  function MissingColumnsMessage(latCol: string, lngCol: string): string {
    "Missing required columns: " + latCol + ", " + lngCol
  }

  /**
   * `handle_csv` over the already-read header and rows. A missing coordinate column aborts before
   * anything is written; otherwise the header is extended and the rows are converted one by one,
   * in order, each row's failure kept to that row.
   */
  method HandleCsv(m: Math, parseFloat: string -> Option<real>, fieldnames: seq<string>,
                   rows: seq<map<string, string>>, latCol: string, lngCol: string)
    returns (r: Result<CsvOutput>)
    ensures r.Err? <==> latCol !in fieldnames || lngCol !in fieldnames
    ensures r.Err? ==> r.failure == SystemExit(MissingColumnsMessage(latCol, lngCol))
    ensures r.Ok? ==> r.value.fieldnames == OutFieldnames(fieldnames)
    ensures r.Ok? ==> |r.value.rows| == |rows|
    ensures r.Ok? ==> forall i :: 0 <= i < |rows| ==> r.value.rows[i] == ConvertRow(m, parseFloat, rows[i], latCol, lngCol)
  {
    if latCol !in fieldnames || lngCol !in fieldnames {
      return Err(SystemExit(MissingColumnsMessage(latCol, lngCol)));
    }
    var outFieldnames := fieldnames;
    if XColumn !in outFieldnames {
      outFieldnames := outFieldnames + [XColumn];
    }
    if ZColumn !in outFieldnames {
      outFieldnames := outFieldnames + [ZColumn];
    }
    var written: seq<map<string, Cell>> := [];
    for i := 0 to |rows|
      invariant |written| == i
      invariant forall j :: 0 <= j < i ==> written[j] == ConvertRow(m, parseFloat, rows[j], latCol, lngCol)
    {
      var row := Cells(rows[i]);
      match ParseLatLng(parseFloat, rows[i], latCol, lngCol) {
        case None =>
          row := row[XColumn := Str("")];
          row := row[ZColumn := Str("")];
        case Some(point) =>
          var rel := KakikoConverter.LatLngToMinecraft(m, point, BasePointMap.latlng);
          var absX := BasePointMap.minecraft.x + rel.x;
          var absZ := BasePointMap.minecraft.z + rel.z;
          row := row[XColumn := Num(absX)];
          row := row[ZColumn := Num(absZ)];
      }
      written := written + [row];
    }
    r := Ok(CsvOutput(outFieldnames, written));
  }

  /** Rows whose columns all belong to the input header give rows whose columns all belong to the output header. */
  lemma ConvertedRowFitsHeader(m: Math, parseFloat: string -> Option<real>, fieldnames: seq<string>,
                               row: map<string, string>, latCol: string, lngCol: string)
    requires forall k :: k in row ==> k in fieldnames
    ensures forall k :: k in ConvertRow(m, parseFloat, row, latCol, lngCol) ==> k in OutFieldnames(fieldnames)
  {
    var out := OutFieldnames(fieldnames);
    forall k | k in ConvertRow(m, parseFloat, row, latCol, lngCol) ensures k in out {
      if k in fieldnames {
        var i :| 0 <= i < |fieldnames| && fieldnames[i] == k;
        assert out[..|fieldnames|][i] == k;
      }
    }
  }
}
