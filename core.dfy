/**
 * The placeholder transform of `latlng2minecraft/core.py`: a translation built from one
 * reference pair, which for now is always the identity, so every single-point conversion
 * answers with the other half of the reference pair.
 */
module Core {
  import opened PyMath
  import opened Types

  /** The frozen dataclass `AffineTransform`: a translation by `dx` (east) and `dy` (north). */
  datatype AffineTransform = AffineTransform(dx: real, dy: real)
  {
    /** `apply_to_minecraft`: translate, then round each coordinate to the nearest integer. */
    function ApplyToMinecraft(point: MinecraftPoint): (r: MinecraftPoint)
      ensures r.x == Round(point.x as real + dx) && r.y == Round(point.y as real + dy)
      ensures r.x as real - 0.5 <= point.x as real + dx <= r.x as real + 0.5
      ensures r.y as real - 0.5 <= point.y as real + dy <= r.y as real + 0.5
      ensures dx == 0.0 && dy == 0.0 ==> r == point
    {
      RoundOfInteger(point.x);
      RoundOfInteger(point.y);
      MinecraftPoint(Round(point.x as real + dx), Round(point.y as real + dy))
    }

    /** `apply_to_latlng`: `dy` moves the latitude, `dx` the longitude. */
    function ApplyToLatLng(point: LatLngPoint): (r: LatLngPoint)
      ensures r.latitude - point.latitude == dy
      ensures r.longitude - point.longitude == dx
      ensures dx == 0.0 && dy == 0.0 ==> r == point
    {
      LatLngPoint(point.latitude + dy, point.longitude + dx)
    }
  }

  /** `build_translation_from_base`: the identity translation, whatever the base pair. */
  function BuildTranslationFromBase(base: PointMap): (t: AffineTransform)
    ensures t.dx == 0.0 && t.dy == 0.0
  {
    AffineTransform(0.0, 0.0)
  }

  /** `latlng_to_minecraft`: the base pair's planar point when `point` is its geographic point, else the translated one. */
  function LatLngToMinecraft(point: LatLngPoint, base: PointMap): (r: MinecraftPoint)
    ensures r == base.minecraft
  {
    var transform := BuildTranslationFromBase(base);
    if point == base.latlng then base.minecraft
    else transform.ApplyToMinecraft(base.minecraft)
  }

  /** `minecraft_to_latlng`: the mirror image of `LatLngToMinecraft`. */
  function MinecraftToLatLng(point: MinecraftPoint, base: PointMap): (r: LatLngPoint)
    ensures r == base.latlng
  {
    var transform := BuildTranslationFromBase(base);
    if point == base.minecraft then base.latlng
    else transform.ApplyToLatLng(base.latlng)
  }

  /** `bulk_latlng_to_minecraft`: the single-point conversion of every point, in order. */
  function BulkLatLngToMinecraft(points: seq<LatLngPoint>, base: PointMap): (r: seq<MinecraftPoint>)
    ensures |r| == |points|
    ensures forall i :: 0 <= i < |points| ==> r[i] == LatLngToMinecraft(points[i], base)
  {
    seq(|points|, i requires 0 <= i < |points| => LatLngToMinecraft(points[i], base))
  }

  /** `bulk_minecraft_to_latlng`: the single-point conversion of every point, in order. */
  function BulkMinecraftToLatLng(points: seq<MinecraftPoint>, base: PointMap): (r: seq<LatLngPoint>)
    ensures |r| == |points|
    ensures forall i :: 0 <= i < |points| ==> r[i] == MinecraftToLatLng(points[i], base)
  {
    seq(|points|, i requires 0 <= i < |points| => MinecraftToLatLng(points[i], base))
  }
}
