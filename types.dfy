/** The point records of `latlng2minecraft`, whose planar north axis is called `y`. */
module Types {

  /** A geographic point in degrees; no range is enforced. */
  datatype LatLngPoint = LatLngPoint(latitude: real, longitude: real)

  /** A planar point in whole metres: `x` to the east, `y` to the north. */
  datatype MinecraftPoint = MinecraftPoint(x: int, y: int)

  /** A reference pair: where one geographic point sits on the planar grid. */
  datatype PointMap = PointMap(minecraft: MinecraftPoint, latlng: LatLngPoint)
}
