/** The server's coordinate value `entity.Position`. The source keeps three
    doubles and marks "no known position" with NaN in every field; here
    that sentinel is the constructor Unset, so two unset positions are
    equal, as NaN-aware field equality makes them. */
module Geo {
  datatype Position =
    | Unset
    | At(latitude: real, longitude: real, altitude: real)
}
