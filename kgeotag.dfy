/**
  Types shared by the whole model: the coordinate value carried by every
  image and the tag that records how an image's coordinates were obtained.
  Longitude, latitude and altitude are compared only for equality; no
  arithmetic is done on them anywhere in the model.
 */
module KGeoTag {

  datatype Option<+T> = None | Some(value: T)

  /** A position with a presence flag; an image without one carries NoCoordinates. */
  datatype Coordinates = Coordinates(lon: real, lat: real, alt: real, isSet: bool)

  /** The value of a default-constructed Coordinates. */
  const NoCoordinates := Coordinates(0.0, 0.0, 0.0, false)

  /** How the current coordinates of an image were obtained. */
  datatype MatchType = NotMatched | ExactMatch | InterpolatedMatch | ManuallySet

  /** The same coordinates with only the altitude replaced. */
  function WithAlt(c: Coordinates, alt: real): (r: Coordinates)
    ensures r.alt == alt
    ensures r.lon == c.lon && r.lat == c.lat && r.isSet == c.isSet
  {
    c.(alt := alt)
  }
}
