/** The planar record of `kakiko2minecraft`, whose north axis is called `z`; geographic points are `Types.LatLngPoint`. */
module KakikoTypes {
  import Types

  /** A planar point in whole metres: `x` to the east, `z` to the north. */
  datatype MinecraftPoint = MinecraftPoint(x: int, z: int)

  /** A reference pair: where one geographic point sits on the planar grid. */
  datatype PointMap = PointMap(minecraft: MinecraftPoint, latlng: Types.LatLngPoint)
}
