/** The request-planning half of `event_get_waveforms` in helpers.py: from an event
    origin and a window configuration, the ordered list of (circular domain, start,
    end) request units that would be handed to the bulk downloader. */
module Planner {
  import opened Base
  import opened Domain

  /** An event origin. `depth` is in metres, as ObsPy stores it. */
  datatype Origin = Origin(time: real, latitude: real, longitude: real, depth: real)

  /** A reference-phase argument: `None` or a list of phase names. */
  type Phases = Option<seq<string>>

  /** The keyword arguments of `event_get_waveforms` that shape the plan. Radii and
      `radiusStep` are in degrees, offsets in seconds. */
  datatype Config = Config(
    minradius: real,
    maxradius: real,
    startrefphase: Phases,
    endrefphase: Phases,
    startoffset: real,
    endoffset: real,
    radiusStep: real)

  /** The travel-time model: (source depth in km, distance in degrees, phase list)
      to the arrival times, in seconds after origin, of the matching phases. */
  type TravelTimes = (real, real, seq<string>) -> seq<real>

  /** One request: where to look and the time window to fetch. */
  datatype Unit = Unit(domain: ComplexDomain, starttime: real, endtime: real)

  datatype PlanError =
    | MixedPhases                               // the ValueError of the else-branch
    | ZeroStep                                  // numpy's arange refuses a zero step
    | NoArrival(distance: real, phases: seq<string>)  // indexing an empty arrival list

  /** Python truthiness of a phase argument: `None` and `[]` are both falsy. */
  predicate Truthy(p: Phases)
  {
    p.Some? && |p.value| > 0
  }

  function PhaseList(p: Phases): seq<string>
  {
    if p.Some? then p.value else []
  }

  /** Source depth in kilometres, as handed to the travel-time model. */
  function DepthKm(o: Origin): real
  {
    o.depth / 1000.0
  }

  // ---------------------------------------------------------------------------
  // Annulus edges: np.arange(0, 181, radiusStep)
  // ---------------------------------------------------------------------------

  const ArangeStop: real := 181.0

  /** The smallest integer not below `x`. */
  function Ceil(x: real): int
  {
    var f := x.Floor;
    if f as real == x then f else f + 1
  }

  /** The number of elements of np.arange(0, 181, step) for a positive step,
      computed as numpy does, ceil((stop - start) / step). */
  function NumEdges(step: real): nat
    requires step > 0.0
  {
    var n := Ceil(ArangeStop / step);
    if n < 0 then 0 else n
  }

  /** The k-th annulus edge, k * step. */
  function Edge(c: Config, k: nat): real
  {
    k as real * c.radiusStep
  }

  /** The loop does not `continue` at edge k. */
  predicate Kept(c: Config, k: nat)
  {
    !(Edge(c, k) + c.radiusStep < c.minradius) && !(Edge(c, k) > c.maxradius)
  }

  function Max(a: real, b: real): real
  {
    if b > a then b else a
  }

  function Min(a: real, b: real): real
  {
    if b < a then b else a
  }

  /** The clipped band of annulus k: [max(r, minradius), min(r + step, maxradius)]. */
  function Lower(c: Config, k: nat): real
  {
    Max(Edge(c, k), c.minradius)
  }

  function Upper(c: Config, k: nat): real
  {
    Min(Edge(c, k) + c.radiusStep, c.maxradius)
  }

  // ---------------------------------------------------------------------------
  // The plan
  // ---------------------------------------------------------------------------

  /** The single unit of the no-phase path: a circle around the epicentre and a
      window relative to the origin time. */
  function OriginWindowUnit(o: Origin, c: Config): Unit
  {
    Unit(CircleAround(o.latitude, o.longitude, c.minradius, c.maxradius),
         o.time + c.startoffset, o.time + c.endoffset)
  }

  /** The first arrival at the band's inner edge on `startrefphase`. */
  function StartLookup(o: Origin, c: Config, tt: TravelTimes, k: nat): seq<real>
  {
    tt(DepthKm(o), Lower(c, k), PhaseList(c.startrefphase))
  }

  /** The arrivals at the band's outer edge on `endrefphase`. */
  function EndLookup(o: Origin, c: Config, tt: TravelTimes, k: nat): seq<real>
  {
    tt(DepthKm(o), Upper(c, k), PhaseList(c.endrefphase))
  }

  /** Both lookups of annulus k return at least one arrival. */
  predicate LookupsSucceed(o: Origin, c: Config, tt: TravelTimes, k: nat)
  {
    |StartLookup(o, c, tt, k)| > 0 && |EndLookup(o, c, tt, k)| > 0
  }

  /** The unit emitted for a kept annulus k whose lookups both succeed. */
  function AnnulusUnit(o: Origin, c: Config, tt: TravelTimes, k: nat): Unit
    requires LookupsSucceed(o, c, tt, k)
  {
    var s := StartLookup(o, c, tt, k);
    var e := EndLookup(o, c, tt, k);
    Unit(CircleAround(o.latitude, o.longitude, Lower(c, k), Upper(c, k)),
         o.time + s[0] + c.startoffset,
         o.time + e[|e| - 1] + c.endoffset)
  }

  /** The units of the phase path from edge k onwards, stopping at the first lookup
      that finds no arrival. */
  function Annuli(o: Origin, c: Config, tt: TravelTimes, k: nat): Result<seq<Unit>, PlanError>
    requires c.radiusStep > 0.0
    decreases NumEdges(c.radiusStep) - k
  {
    if k >= NumEdges(c.radiusStep) then Ok([])
    else if !Kept(c, k) then Annuli(o, c, tt, k + 1)
    else if |StartLookup(o, c, tt, k)| == 0 then
      Err(NoArrival(Lower(c, k), PhaseList(c.startrefphase)))
    else if |EndLookup(o, c, tt, k)| == 0 then
      Err(NoArrival(Upper(c, k), PhaseList(c.endrefphase)))
    else
      match Annuli(o, c, tt, k + 1)
      case Ok(rest) => Ok([AnnulusUnit(o, c, tt, k)] + rest)
      case Err(e) => Err(e)
  }

  /** The domains and restrictions `event_get_waveforms` builds before downloading. */
  function Plan(o: Origin, c: Config, tt: TravelTimes): Result<seq<Unit>, PlanError>
  {
    if !Truthy(c.startrefphase) && !Truthy(c.endrefphase) then Ok([OriginWindowUnit(o, c)])
    else if Truthy(c.startrefphase) && Truthy(c.endrefphase) then
      if c.radiusStep == 0.0 then Err(ZeroStep)
      else if c.radiusStep < 0.0 then Ok([])
      else Annuli(o, c, tt, 0)
    else Err(MixedPhases)
  }
}
