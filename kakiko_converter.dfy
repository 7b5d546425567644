/**
 * The ellipsoidal converter as `kakiko2minecraft` calls it: the same transform as `Converter`,
 * with the north component stored in `z` instead of `y`.
 */
module KakikoConverter {
  import opened Outcomes
  import opened PyMath
  import Types
  import opened KakikoTypes
  import Converter

  /** The forward transform: `x` east and `z` north of `base`, in whole metres. */
  function LatLngToMinecraft(m: Math, latlng: Types.LatLngPoint, base: Types.LatLngPoint): (p: MinecraftPoint)
    ensures latlng.longitude == base.longitude ==> p.x == 0
    ensures latlng.latitude == base.latitude ==> p.z == 0
    ensures latlng.latitude >= base.latitude ==> p.z >= 0
    ensures latlng.latitude <= base.latitude ==> p.z <= 0
  {
    var p := Converter.LatLngToMinecraft(m, latlng, base);
    MinecraftPoint(p.x, p.y)
  }

  /** The inverse transform; the north offset is read from `z`. */
  function MinecraftToLatLng(m: Math, minecraft: MinecraftPoint, base: Types.LatLngPoint): (r: Result<Types.LatLngPoint>)
    ensures var newLat := Converter.SolvedLatitude(m, minecraft.z as real, base.latitude);
      && (r.Err? <==> Converter.ParallelRadius(m, Radians(newLat)) == 0.0)
      && (r.Err? ==> r.failure == ZeroDivisionError)
      && (r.Ok? ==> r.value.latitude == newLat)
      && (r.Ok? && minecraft.x == 0 ==> r.value.longitude == base.longitude)
  {
    Converter.MinecraftToLatLng(m, Types.MinecraftPoint(minecraft.x, minecraft.z), base)
  }
}
