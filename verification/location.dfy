/** The location script: a list of four named coordinates, the first of them
    drawn uniformly over the globe. The two draws are parameters; rounding
    to six decimals is not modelled. */
module LocationScript {
  import opened Draws

  datatype LocationEntry = LocationEntry(latitude: real, longitude: real, name: string)

  /** The fixed places the script offers besides the random point. */
  const Party := LocationEntry(48.85837, 2.294481, "Party")
  const NewYork := LocationEntry(40.7128, -74.0060, "New York")
  const Rio := LocationEntry(-22.9068, -43.1729, "Rio de Janeiro")

  /** A point on the globe. */
  predicate OnGlobe(e: LocationEntry)
  {
    -90.0 <= e.latitude <= 90.0 && -180.0 <= e.longitude <= 180.0
  }

  /** The list the script returns for draws `rLat` and `rLong`. */
  function Locations(rLat: real, rLong: real): (ls: seq<LocationEntry>)
    requires IsDraw(rLat) && IsDraw(rLong)
    ensures |ls| == 4
    ensures ls[0].name == "Location" && ls[1..] == [Party, NewYork, Rio]
    ensures forall i | 0 <= i < |ls| :: OnGlobe(ls[i]) && ls[i].name != ""
  {
    [LocationEntry(rLat * 180.0 - 90.0, rLong * 360.0 - 180.0, "Location"), Party, NewYork, Rio]
  }

  /** Every point on the globe (short of the east and north edges) is
      produced by some pair of draws. */
  lemma EveryPointReachable(lat: real, long: real)
    requires -90.0 <= lat < 90.0 && -180.0 <= long < 180.0
    ensures var rLat := (lat + 90.0) / 180.0;
      var rLong := (long + 180.0) / 360.0;
      IsDraw(rLat) && IsDraw(rLong)
      && Locations(rLat, rLong)[0] == LocationEntry(lat, long, "Location")
  {
  }

  /** The element the sender picks: index `floor(r * length)`. */
  function RandomLocation(rLat: real, rLong: real, r: real): (e: LocationEntry)
    requires IsDraw(rLat) && IsDraw(rLong) && IsDraw(r)
    ensures e in Locations(rLat, rLong)
    ensures OnGlobe(e) && e.name != ""
  {
    Locations(rLat, rLong)[Index(r, 4)]
  }
}
