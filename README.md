# latlng2minecraft in Dafny

A model of the coordinate conversion at the heart of `latlng2minecraft` and `kakiko2minecraft`:
turning a latitude/longitude into whole-metre offsets on a Minecraft grid anchored at one
reference pair, and back, plus the command-line value logic around it.

- `Converter` (`converter.dfy`) is the WGS84 transform. The forward direction rounds a
  midpoint-curvature meridional arc (north, `y`) and the base parallel's radius times the
  longitude delta (east, `x`). The inverse solves the latitude by a seed and exactly three
  flat-earth corrections (`MetersToLatitude`, a method with the source's loop, proved against the
  function `SolvedLatitude`), then divides the east offset by the radius of the parallel at the
  solved latitude.
- Everything is over the reals. `sin`, `cos`, `sqrt` and `pow(_, 1.5)` come in as a `PyMath.Math`
  value: four total functions known only to obey `sin(t)² <= 1` and "the root and the 1.5 power of
  a positive number are positive". Every proved property therefore holds whatever those functions
  return: zeros stay zero, signs, the domain of the roots, the order along the east axis, and
  the shape of the loop. `math.pi` is its double literal. `round` is Python's ties-to-even
  rounding, defined exactly (`PyMath.Round`).
- `Core` (`core.dfy`) is the placeholder translation transform. It is always the identity, so
  each single-point conversion answers with the other half of the reference pair.
- `LatlngCli` and `KakikoCli` model the two `__main__.py` files. Both give `handle_var`'s
  argument-count aborts and its base-offset arithmetic. `KakikoCli.HandleCsv` is the row loop over
  an already-read header and rows. The latlng `handle_csv` always aborts.
- Failures are values (`Outcomes.Failure`): `SystemExit(message)`, `ValueError` from `float`/`int`,
  and `ZeroDivisionError` from the inverse's division by the parallel radius.
- Python's `float(s)` and `int(s)` are parameters of type `string -> Option<…>`: partial
  functions whose `None` means "raises ValueError".
- `kakiko2minecraft.converter` is not part of this model. `KakikoConverter` treats it as the
  `Converter` transform with the north component stored in `z`, as its tests indicate.

## Model

| member | source | states |
|---|---|---|
| `PyMath.Round` | latlng2minecraft/src/latlng2minecraft/converter.py:43-46 | the result is an integer within 1/2 of the argument, and the even one on a tie |
| `PyMath.RoundOfInteger` | latlng2minecraft/src/latlng2minecraft/core.py:30 | rounding an integral value returns it, so round(0) == 0 |
| `PyMath.RoundMonotone` | latlng2minecraft/src/latlng2minecraft/converter.py:44 | rounding never reverses the order of two values |
| `PyMath.RoundSign` | latlng2minecraft/src/latlng2minecraft/converter.py:45 | rounding keeps the weak sign of its argument |
| `Converter.Radicand` | latlng2minecraft/src/latlng2minecraft/converter.py:118-119 | `1 - e² sin²φ` is at least `1 - e²`, which is positive, so both roots are of a positive number |
| `Converter.MeridionalRadius` | latlng2minecraft/src/latlng2minecraft/converter.py:98-102 | the meridional radius of curvature is positive for every latitude |
| `Converter.MeridionalArcLength` | latlng2minecraft/src/latlng2minecraft/converter.py:78-104 | the arc is the radius at the midpoint latitude times the delta, so it is 0 exactly when the delta is 0 and has the delta's sign |
| `Converter.ParallelRadius` | latlng2minecraft/src/latlng2minecraft/converter.py:107-119 | the parallel radius is 0, positive or negative exactly when `cos φ` is |
| `Converter.NorthDistance` | latlng2minecraft/src/latlng2minecraft/converter.py:29-35 | the unrounded northward distance is 0 exactly at equal latitudes and positive exactly northward |
| `Converter.EastDistance` | latlng2minecraft/src/latlng2minecraft/converter.py:39-41 | the unrounded eastward distance is 0 at equal longitudes |
| `Converter.LatLngToMinecraft` | latlng2minecraft/src/latlng2minecraft/converter.py:17-46 | equal longitudes give `x == 0`, equal latitudes give `y == 0`, and `y` has the weak sign of the latitude difference |
| `Converter.SamePointIsOrigin` | latlng2minecraft/src/latlng2minecraft/converter.py:29-46 | converting a point against itself gives exactly (0, 0) |
| `Converter.EastwardMonotone` | latlng2minecraft/src/latlng2minecraft/converter.py:39-44 | where the base parallel's `cos` is positive, a larger longitude never gives a smaller `x` |
| `Converter.MetersToLatitude` | latlng2minecraft/src/latlng2minecraft/converter.py:122-151 | the loop returns the seed after exactly three corrections, `SolvedLatitude` |
| `Converter.SolvedIsThreeCorrections` | latlng2minecraft/src/latlng2minecraft/converter.py:137-151 | the solved latitude is `base + meters/111320` followed by three `(meters - arc)/111320` corrections, with no early exit |
| `Converter.FixedSeedStays` | latlng2minecraft/src/latlng2minecraft/converter.py:141-149 | a seed that a correction leaves unchanged survives any number of corrections |
| `Converter.ZeroMetersSolvesToBase` | latlng2minecraft/src/latlng2minecraft/converter.py:134-151 | a zero northward offset solves to the base latitude exactly |
| `Converter.MinecraftToLatLng` | latlng2minecraft/src/latlng2minecraft/converter.py:49-75 | fails with ZeroDivisionError exactly when the parallel radius at the solved latitude is 0; else the latitude is the solved one, and `x == 0` keeps the base longitude |
| `Converter.OriginIsBase` | latlng2minecraft/src/latlng2minecraft/converter.py:63-75 | (0, 0) converts back to the base point exactly, unless the base parallel has radius 0 |
| `Converter.LatitudeIgnoresEast` | latlng2minecraft/src/latlng2minecraft/converter.py:63-69 | the resulting latitude, and whether the call fails, depend on `y` and the base only, never on `x` |
| `Converter.WestOffsetDecreasesLongitude` | latlng2minecraft/src/latlng2minecraft/converter.py:68-70 | where the solved parallel's `cos` is positive, a negative `x` gives a longitude west of the base |
| `Converter.EastOffsetIncreasesLongitude` | latlng2minecraft/src/latlng2minecraft/converter.py:68-70 | where the solved parallel's `cos` is positive, a larger `x` gives a strictly larger longitude |
| `Core.AffineTransform.ApplyToMinecraft` | latlng2minecraft/src/latlng2minecraft/core.py:29-30 | each coordinate is Python's `round` of the translated value (nearest integer, even on a tie); zero deltas return the same point |
| `Core.AffineTransform.ApplyToLatLng` | latlng2minecraft/src/latlng2minecraft/core.py:32-33 | latitude moves by `dy` and longitude by `dx`; zero deltas return the same point |
| `Core.BuildTranslationFromBase` | latlng2minecraft/src/latlng2minecraft/core.py:36-46 | the transform has `dx == 0` and `dy == 0` for every base |
| `Core.LatLngToMinecraft` | latlng2minecraft/src/latlng2minecraft/core.py:49-61 | the result is the base pair's planar point for every input, in both branches |
| `Core.MinecraftToLatLng` | latlng2minecraft/src/latlng2minecraft/core.py:64-73 | the result is the base pair's geographic point for every input |
| `Core.BulkLatLngToMinecraft` | latlng2minecraft/src/latlng2minecraft/core.py:76-79 | same length, and element `i` is the single-point conversion of input `i` |
| `Core.BulkMinecraftToLatLng` | latlng2minecraft/src/latlng2minecraft/core.py:82-85 | same length, and element `i` is the single-point conversion of input `i` |
| `LatlngCli.Absolute` | latlng2minecraft/src/latlng2minecraft/__main__.py:46-47 | the absolute point minus the base planar point is the relative offset |
| `LatlngCli.Relative` | latlng2minecraft/src/latlng2minecraft/__main__.py:54-57 | the base planar point plus the relative offset is the input point |
| `LatlngCli.HandleVar` | latlng2minecraft/src/latlng2minecraft/__main__.py:37-60 | a count other than 2 aborts with the mode's message before any parsing; an unparsable value is a ValueError; `lat2mc` alone yields a planar point |
| `LatlngCli.Lat2McIsBasePlusOffset` | latlng2minecraft/src/latlng2minecraft/__main__.py:41-48 | `lat2mc` returns the base planar point plus the converter's relative offset |
| `LatlngCli.Mc2LatStripsBase` | latlng2minecraft/src/latlng2minecraft/__main__.py:52-60 | `mc2lat` converts the input minus the base planar point |
| `LatlngCli.VarRoundTripOffset` | latlng2minecraft/src/latlng2minecraft/__main__.py:44-59 | `mc2lat` on `lat2mc`'s output hands the converter exactly `lat2mc`'s relative offset |
| `LatlngCli.HandleCsv` | latlng2minecraft/src/latlng2minecraft/__main__.py:63-65 | the csv command aborts with the not-implemented message whatever its arguments |
| `KakikoConverter.LatLngToMinecraft` | kakiko2minecraft/src/kakiko2minecraft/__main__.py:19 | the assumed kakiko forward converter: equal longitudes give `x == 0`, equal latitudes give `z == 0`, and `z` has the weak sign of the latitude difference |
| `KakikoConverter.MinecraftToLatLng` | kakiko2minecraft/src/kakiko2minecraft/__main__.py:19 | the assumed kakiko inverse converter: ZeroDivisionError exactly when the parallel radius at the latitude solved from `z` is 0; else that latitude, and `x == 0` keeps the base longitude |
| `KakikoCli.Absolute` | kakiko2minecraft/src/kakiko2minecraft/__main__.py:58-59 | the absolute point minus the base planar point is the relative offset |
| `KakikoCli.Relative` | kakiko2minecraft/src/kakiko2minecraft/__main__.py:66-69 | the base planar point plus the relative offset is the input point |
| `KakikoCli.HandleVar` | kakiko2minecraft/src/kakiko2minecraft/__main__.py:47-72 | a count other than 2 aborts with the mode's message before any parsing; an unparsable value is a ValueError; `lat2mc` alone yields a planar point |
| `KakikoCli.Lat2McIsBasePlusOffset` | kakiko2minecraft/src/kakiko2minecraft/__main__.py:53-60 | `lat2mc` returns the base planar `x`/`z` plus the converter's relative `x`/`z` |
| `KakikoCli.Mc2LatStripsBase` | kakiko2minecraft/src/kakiko2minecraft/__main__.py:64-72 | `mc2lat` converts the input minus the base planar point |
| `KakikoCli.VarRoundTripOffset` | kakiko2minecraft/src/kakiko2minecraft/__main__.py:56-71 | `mc2lat` on `lat2mc`'s output hands the converter exactly `lat2mc`'s relative offset |
| `KakikoCli.OutFieldnames` | kakiko2minecraft/src/kakiko2minecraft/__main__.py:88-92 | the input header unchanged, then `minecraft_x` and `minecraft_z`, each only if absent; no duplicates are introduced |
| `KakikoCli.ParseLatLng` | kakiko2minecraft/src/kakiko2minecraft/__main__.py:99-102 | a point exactly when both columns exist and both values parse |
| `KakikoCli.ConvertRow` | kakiko2minecraft/src/kakiko2minecraft/__main__.py:99-113 | every other column is kept; the derived columns are blank for an unreadable row, else base plus relative offset |
| `KakikoCli.HandleCsv` | kakiko2minecraft/src/kakiko2minecraft/__main__.py:75-114 | a missing coordinate column aborts with its message and writes nothing; otherwise the extended header and one converted row per input row, in order |
| `KakikoCli.ConvertedRowFitsHeader` | kakiko2minecraft/src/kakiko2minecraft/__main__.py:94-114 | a row whose columns are in the input header converts to one whose columns are in the output header |

## Left out

- Floating point: the model computes over exact reals. Double rounding, NaN and infinity are not modelled, and neither is `round(nan)` raising outside the `try` of the csv loop.
- Converter.LatLngToMinecraft: the metre tolerances the tests check (about 1000 m north within 50 m, east within 200 m) are not stated. They depend on the actual values of `sin`, `cos`, `pow` and `sqrt`, which the model leaves open.
- Converter.MinecraftToLatLng: the 1%-accuracy, within-1-metre round-trip, southward-latitude and no-NaN claims are not stated, for the same reason. The westward half of the south-west test is `WestOffsetDecreasesLongitude`. Monotonicity of latitude in the north offset is not exact under open trigonometry and is not claimed.
- `EARTH_POLAR_RADIUS` is unused by the code and is not modelled.
- Argument parsing (`_parse_args`), JSON output and `main` are I/O and are not modelled. `handle_var` takes the mode and the value list directly.
- `float(…)` and `int(…)` are abstract partial functions, not Python's number grammar.
- CSV I/O: opening files, `csv.DictReader` and `csv.DictWriter` are not modelled. The header and rows come in already read, and the written cells are kept as text or integers before `str`.
- KakikoCli.HandleCsv: rows are maps, so a short row that `DictReader` fills with `None` is not modelled (there `float(None)` raises an uncaught TypeError). Neither is `DictWriter` rejecting keys outside the header. `ConvertedRowFitsHeader` states that this cannot happen for rows shaped by the header.
- `kakiko2minecraft.converter` is not part of this model. It is taken to be `Converter` with `z` for `y`.
- The test modules are used only as a source of properties.
