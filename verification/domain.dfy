/** The geographic selection of `ComplexDomain` in helpers.py: an optional
    rectangle and an optional circle, each switched on only when all four of its
    fields are given. The rectangle, when on, is what the data-centre query
    sees; the circle is then re-applied as a post-filter on returned stations. */
module Domain {
  import opened Base

  /** The eight constructor keywords, each defaulting to `None`. Radii are in degrees. */
  datatype ComplexDomain = ComplexDomain(
    minlatitude: Option<real>,
    maxlatitude: Option<real>,
    minlongitude: Option<real>,
    maxlongitude: Option<real>,
    latitude: Option<real>,
    longitude: Option<real>,
    minradius: Option<real>,
    maxradius: Option<real>)

  /** Great-circle distance in degrees between two (latitude, longitude) points.
      Stands for ObsPy's ellipsoidal distance converted from metres to degrees. */
  type Distance = (real, real, real, real) -> real

  /** Python's `all(v is not None for v in vs)`. */
  predicate AllPresent(vs: seq<Option<real>>)
  {
    forall i :: 0 <= i < |vs| ==> vs[i].Some?
  }

  /** Number of fields in `vs` that are not `None`. */
  function PresentCount(vs: seq<Option<real>>): (n: nat)
    ensures n <= |vs|
  {
    if vs == [] then 0
    else (if vs[0].Some? then 1 else 0) + PresentCount(vs[1..])
  }

  function RectangleFields(d: ComplexDomain): seq<Option<real>>
  {
    [d.minlatitude, d.maxlatitude, d.minlongitude, d.maxlongitude]
  }

  function CircleFields(d: ComplexDomain): seq<Option<real>>
  {
    [d.latitude, d.longitude, d.minradius, d.maxradius]
  }

  /** `all(...)` over four fields holds exactly when none of them is `None`. */
  lemma AllPresentOfFour(a: Option<real>, b: Option<real>, c: Option<real>, e: Option<real>)
    ensures AllPresent([a, b, c, e]) <==> a.Some? && b.Some? && c.Some? && e.Some?
  {
    var vs := [a, b, c, e];
    assert vs[0] == a && vs[1] == b && vs[2] == c && vs[3] == e;
  }

  /** The `rectangle_domain` flag set by the constructor: on exactly when all four
      bounds are given. */
  predicate RectangleDomain(d: ComplexDomain): (on: bool)
    ensures on <==>
      d.minlatitude.Some? && d.maxlatitude.Some? && d.minlongitude.Some? && d.maxlongitude.Some?
  {
    AllPresentOfFour(d.minlatitude, d.maxlatitude, d.minlongitude, d.maxlongitude);
    AllPresent(RectangleFields(d))
  }

  /** The `circle_domain` flag set by the constructor: on exactly when the centre and
      both radii are given. */
  predicate CircleDomain(d: ComplexDomain): (on: bool)
    ensures on <==>
      d.latitude.Some? && d.longitude.Some? && d.minradius.Some? && d.maxradius.Some?
  {
    AllPresentOfFour(d.latitude, d.longitude, d.minradius, d.maxradius);
    AllPresent(CircleFields(d))
  }

  /** A circle-only domain, as the planner builds one per request unit. */
  function CircleAround(lat: real, lon: real, minradius: real, maxradius: real): (d: ComplexDomain)
    ensures CircleDomain(d) && !RectangleDomain(d)
    ensures d.latitude == Some(lat) && d.longitude == Some(lon)
    ensures d.minradius == Some(minradius) && d.maxradius == Some(maxradius)
  {
    ComplexDomain(None, None, None, None, Some(lat), Some(lon), Some(minradius), Some(maxradius))
  }

  /** `all(...)` over a list of fields holds exactly when every one of them is present. */
  lemma {:induction false} AllPresentIffFullCount(vs: seq<Option<real>>)
    ensures AllPresent(vs) <==> PresentCount(vs) == |vs|
  {
    if vs != [] {
      AllPresentIffFullCount(vs[1..]);
      if AllPresent(vs) {
        assert AllPresent(vs[1..]) by {
          forall i | 0 <= i < |vs[1..]| ensures vs[1..][i].Some? {
            assert vs[1..][i] == vs[i + 1];
          }
        }
      }
      if PresentCount(vs) == |vs| {
        assert vs[0].Some?;
        forall i | 0 <= i < |vs| ensures vs[i].Some? {
          if i > 0 { assert vs[i] == vs[1..][i - 1]; }
        }
      }
    }
  }

  /** Giving one to three of the four rectangle bounds silently leaves the rectangle
      off, and likewise for the circle; construction itself never fails. */
  lemma PartialShapeIsOff(d: ComplexDomain)
    ensures 1 <= PresentCount(RectangleFields(d)) <= 3 ==> !RectangleDomain(d)
    ensures 1 <= PresentCount(CircleFields(d)) <= 3 ==> !CircleDomain(d)
  {
    AllPresentIffFullCount(RectangleFields(d));
    AllPresentIffFullCount(CircleFields(d));
  }

  const RectangleKeys: set<string> := {"minlatitude", "maxlatitude", "minlongitude", "maxlongitude"}
  const CircleKeys: set<string> := {"latitude", "longitude", "minradius", "maxradius"}

  /** The keyword arguments handed to the data centre's station query. */
  function GetQueryParameters(d: ComplexDomain): (q: map<string, real>)
    ensures RectangleDomain(d) ==>
      && q.Keys == RectangleKeys
      && q["minlatitude"] == d.minlatitude.value && q["maxlatitude"] == d.maxlatitude.value
      && q["minlongitude"] == d.minlongitude.value && q["maxlongitude"] == d.maxlongitude.value
    ensures !RectangleDomain(d) && CircleDomain(d) ==>
      && q.Keys == CircleKeys
      && q["latitude"] == d.latitude.value && q["longitude"] == d.longitude.value
      && q["minradius"] == d.minradius.value && q["maxradius"] == d.maxradius.value
    ensures !RectangleDomain(d) && !CircleDomain(d) ==> q == map[]
  {
    if RectangleDomain(d) then
      map["minlatitude" := d.minlatitude.value, "maxlatitude" := d.maxlatitude.value,
          "minlongitude" := d.minlongitude.value, "maxlongitude" := d.maxlongitude.value]
    else if CircleDomain(d) then
      map["latitude" := d.latitude.value, "longitude" := d.longitude.value,
          "minradius" := d.minradius.value, "maxradius" := d.maxradius.value]
    else
      map[]
  }

  /** The query describes a rectangle or a circle, never a mixture of both. */
  lemma QueryParametersNeverMix(d: ComplexDomain)
    ensures GetQueryParameters(d).Keys == RectangleKeys
         || GetQueryParameters(d).Keys == CircleKeys
         || GetQueryParameters(d).Keys == {}
    ensures GetQueryParameters(d).Keys !! RectangleKeys || GetQueryParameters(d).Keys !! CircleKeys
  {
  }

  /** Once the rectangle is on, the circle's fields have no influence on the query. */
  lemma RectangleHasPriority(d: ComplexDomain, e: ComplexDomain)
    requires RectangleDomain(d)
    requires RectangleFields(e) == RectangleFields(d)
    ensures GetQueryParameters(e) == GetQueryParameters(d)
  {
    var fd, fe := RectangleFields(d), RectangleFields(e);
    assert fd[0] == fe[0] && fd[1] == fe[1] && fd[2] == fe[2] && fd[3] == fe[3];
  }

  /** The client-side post-filter applied to each returned station. */
  function IsInDomain(d: ComplexDomain, dist: Distance, latitude: real, longitude: real): bool
  {
    if RectangleDomain(d) && CircleDomain(d) then
      var gcdist := dist(d.latitude.value, d.longitude.value, latitude, longitude);
      d.minradius.value <= gcdist <= d.maxradius.value
    else
      true
  }

  /** With both shapes on, a point passes exactly when its distance from the circle's
      centre lies in the radius band; otherwise every point passes. */
  lemma IsInDomainIff(d: ComplexDomain, dist: Distance, latitude: real, longitude: real)
    ensures !(RectangleDomain(d) && CircleDomain(d)) ==> IsInDomain(d, dist, latitude, longitude)
    ensures RectangleDomain(d) && CircleDomain(d) ==>
      (IsInDomain(d, dist, latitude, longitude) <==>
         var gcdist := dist(d.latitude.value, d.longitude.value, latitude, longitude);
         d.minradius.value <= gcdist && gcdist <= d.maxradius.value)
  {
  }

  /** The post-filter never looks at the rectangle's bounds: replacing them by any
      other complete rectangle keeps every point's verdict. In particular a point
      outside the rectangle is still accepted when it lies in the radius band. */
  lemma PostFilterIgnoresRectangle(d: ComplexDomain, e: ComplexDomain, dist: Distance, latitude: real, longitude: real)
    requires RectangleDomain(d) && RectangleDomain(e)
    requires CircleFields(e) == CircleFields(d)
    ensures IsInDomain(e, dist, latitude, longitude) == IsInDomain(d, dist, latitude, longitude)
  {
    var cd, ce := CircleFields(d), CircleFields(e);
    assert cd[0] == ce[0] && cd[1] == ce[1] && cd[2] == ce[2] && cd[3] == ce[3];
  }

  /** A circle with minradius above maxradius combined with a rectangle admits no point. */
  lemma InvertedBandRejectsAll(d: ComplexDomain, dist: Distance, latitude: real, longitude: real)
    requires RectangleDomain(d) && CircleDomain(d)
    requires d.minradius.value > d.maxradius.value
    ensures !IsInDomain(d, dist, latitude, longitude)
  {
  }
}
