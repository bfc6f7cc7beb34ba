# Request planning for event-based waveform downloads

This project models the request-planning core of `helpers.py` in the SeisDB
scripts: the `ComplexDomain` geographic selection and the part of
`event_get_waveforms` that turns an event origin and a window configuration
into the ordered list of (circular domain, start time, end time) request units
that ObsPy's mass downloader then fetches.

- `base.dfy` (`Base`): `Option` for Python's `None`-able values, `Result` for
  the exceptions the code raises.
- `domain.dfy` (`Domain`): `ComplexDomain` with its eight optional fields, the
  `rectangle_domain` / `circle_domain` flags, `get_query_parameters` and
  `is_in_domain`. The geodesic distance (ObsPy's `gps2dist_azimuth` followed by
  `kilometers2degrees`) is a parameter of type `Distance`.
- `planner.dfy` (`Planner`): origins, configurations, request units, the edge
  walk `np.arange(0, 181, radius_step)`, the skip test, the clipping of each
  annulus, and `Plan`, the list of units or the error raised. The TauP
  travel-time model is a parameter of type `TravelTimes`: (source depth in km,
  distance in degrees, phase list) to arrival times; an empty answer stands for
  the `IndexError` raised by `[0]` / `[-1]` and aborts the whole plan.
- `plan_properties.dfy` (`PlanProperties`): validation of the phase pair, the
  no-phase unit, which edges are kept and in what order, success and failure of
  the lookups, and the geometry of the clipped bands.
- `scenarios.dfy` (`Scenarios`): concrete configurations, among them the one
  the v2 download script uses.
- `waveforms.dfy` (`Waveforms`): the planning loop written as helpers.py
  writes it, proved to produce exactly `Plan`.

Units: the origin's depth is stored in metres (as `to_obspy_event` stores it)
and divided by 1000 before each lookup. Radii are degrees, offsets seconds,
times seconds on one real time line.

Behaviour of the code that the model keeps as written:
- Both skip tests are strict, so an edge equal to `maxradius` is kept and gives
  a zero-width band: 0 to 90 by 30 yields four units, the last `[90, 90]`, and
  0 to 180 by 30 yields seven, the last `[180, 180]`.
- Likewise an edge r with r + step equal to `minradius` is kept: 30 to 90 by 30
  opens with the zero-width band `[30, 30]`.
- Candidate edges are those below 181, the `np.arange` stop.
- Nothing checks the configuration beyond the phase pair. A zero step fails
  inside numpy, a negative step gives no edges and so an empty plan, and
  `minradius > maxradius` can yield an inverted band (50 to 40 by 30 gives
  `[50, 40]`).
- An absent reference phase means a Python-falsy one: `None` and an empty list
  alike.
- A missing arrival surfaces as the `IndexError` of indexing an empty list.

## Model

| member | source | states |
|---|---|---|
| Domain.RectangleDomain | helpers.py:121-127 | the rectangle flag is on exactly when all four of minlatitude, maxlatitude, minlongitude, maxlongitude are given |
| Domain.CircleDomain | helpers.py:128-129 | the circle flag is on exactly when latitude, longitude, minradius and maxradius are all given |
| Domain.PartialShapeIsOff | helpers.py:120-129 | giving one to three of a shape's four fields leaves that shape off; construction is total |
| Domain.CircleAround | helpers.py:259-264 | the domains the planner builds are circle-only, with the given centre and radii |
| Domain.GetQueryParameters | helpers.py:142-156 | the query holds exactly the four rectangle bounds when the rectangle is on (circle or not), exactly the four circle parameters when only the circle is on, and nothing when neither is |
| Domain.QueryParametersNeverMix | helpers.py:135-136 | the query describes a rectangle or a circle or nothing, never keys of both shapes |
| Domain.RectangleHasPriority | helpers.py:138-148 | with the rectangle on, changing any circle field leaves the query unchanged |
| Domain.IsInDomain | helpers.py:158-177 | the post-filter; its behaviour is stated by `Domain.IsInDomainIff` and `Domain.PostFilterIgnoresRectangle` |
| Domain.IsInDomainIff | helpers.py:171-177 | with both shapes on, a point passes exactly when its distance from the centre lies in [minradius, maxradius]; in every other case every point passes |
| Domain.PostFilterIgnoresRectangle | helpers.py:164-176 | the post-filter's verdict does not depend on the rectangle's bounds, so a point outside the rectangle but inside the band passes |
| Domain.InvertedBandRejectsAll | helpers.py:176 | with both shapes on and minradius above maxradius, no point passes |
| Planner.NumEdges | helpers.py:243 | the length of np.arange(0, 181, step); `PlanProperties.ArangeLength` states that edge k is a candidate exactly when k * step < 181 |
| Planner.Kept | helpers.py:244-245 | the negation of the `continue` test; `PlanProperties.KeptIndicesMembers` states which edges pass it and `PlanProperties.KeptIsInterval` that they form an interval |
| Planner.Annuli | helpers.py:243-269 | the walk over the edges; `PlanProperties.AnnuliOkIff` and `PlanProperties.AnnuliUnits` state when it succeeds and which units it emits |
| Planner.Plan | helpers.py:224-272 | the three-way branch on the reference phases; `PlanProperties.MixedPhasesFail`, `PlanProperties.NoPhaseSingleUnit`, `PlanProperties.NonPositiveStep` and `PlanProperties.PhasePlan` characterise each branch |
| PlanProperties.MixedPhasesFail | helpers.py:270-272 | exactly one truthy reference phase gives the ValueError for every travel-time model, so no lookup shapes the outcome |
| PlanProperties.EmptyPhaseListActsAsNone | helpers.py:225-240 | for every origin, configuration and travel-time model, passing `[]` for either reference phase gives the same plan as passing `None` |
| PlanProperties.NoPhaseSingleUnit | helpers.py:225-239 | no truthy phase: exactly one unit, independent of the travel-time model, whose domain is circle-only around the epicentre with the configured radii (and is what the query carries) and whose window is [t + startoffset, t + endoffset] |
| PlanProperties.NonPositiveStep | helpers.py:243 | with both phases, a zero step fails and a negative step gives an empty plan |
| PlanProperties.ArangeLength | helpers.py:243 | edge k is a candidate exactly when k * step < 181 |
| PlanProperties.KeptIsInterval | helpers.py:244 | any edge between two kept edges is kept too |
| PlanProperties.KeptIndicesMembers | helpers.py:243-245 | an edge is walked past without `continue` exactly when it is a candidate and neither r + step < minradius nor r > maxradius |
| PlanProperties.KeptIndicesIncreasing | helpers.py:243 | kept edges come in strictly increasing order |
| PlanProperties.KeptIndicesConsecutive | helpers.py:243-245 | consecutive kept edges are neighbouring edges |
| PlanProperties.AnnuliOkIff | helpers.py:246-257 | the walk succeeds exactly when both lookups of every kept edge return an arrival, and otherwise fails with a missing arrival |
| PlanProperties.AnnuliUnits | helpers.py:243-269 | a successful walk emits one unit per kept edge, in order, each built from its own edge |
| PlanProperties.PhasePlan | helpers.py:240-269 | both phases, positive step: the plan succeeds iff no kept edge's lookup is empty; then unit i belongs to the i-th kept edge r, its band is [max(r, minradius), min(r + step, maxradius)] around the epicentre, its start is t + first arrival of startrefphase at the inner edge + startoffset, its end t + last arrival of endrefphase at the outer edge + endoffset, looked up at depth/1000 |
| PlanProperties.PlannedDomainsAreCircles | helpers.py:259-264 | every unit of a successful plan has a circle-only domain around the epicentre with both radii present |
| PlanProperties.BandWithinRange | helpers.py:244 | a kept edge's clipped band lies in [minradius, maxradius] and is not inverted when that range is not |
| PlanProperties.NeighbourBandsMeet | helpers.py:262-263 | two neighbouring kept edges share a band boundary |
| PlanProperties.BandsInsideRange | helpers.py:259-264 | every band of a successful plan lies in [minradius, maxradius] and is not inverted, when minradius <= maxradius |
| PlanProperties.BandsContiguous | helpers.py:259-264 | each band of a successful plan ends where the next one begins |
| PlanProperties.KeptFrom | helpers.py:243-245 | walking up from a candidate edge not beyond maxradius, under 0 <= minradius <= maxradius <= 180, reaches a kept candidate edge |
| PlanProperties.SomeEdgeKept | helpers.py:243-245 | with 0 <= minradius <= maxradius <= 180 at least one edge is kept |
| PlanProperties.FirstKeptStartsAtMin | helpers.py:262 | when minradius >= 0, the band of a kept edge whose predecessor is not kept (or which is edge 0) starts at minradius |
| PlanProperties.LastKeptEndsAtMax | helpers.py:263 | when maxradius <= 180, the band of a kept edge whose successor candidate is not kept (or which is the last candidate) ends at maxradius |
| PlanProperties.KeptBandsCoverRange | helpers.py:243-264 | with 0 <= minradius <= maxradius <= 180 some edge is kept, the first band starts at minradius and the last ends at maxradius |
| PlanProperties.BandsCoverRange | helpers.py:243-264 | a successful plan under those bounds is non-empty and its contiguous bands run from exactly minradius to exactly maxradius |
| Scenarios.ThirtyDegreeEdges | helpers.py:243 | a 30-degree step gives the seven edges 0, 30, ..., 180 |
| Scenarios.BandsOfKeptEdges | helpers.py:259-264 | under a model that always answers, the plan's bands are the kept edges' clipped bands |
| Scenarios.ZeroWidthBandAtNinety | fdsn_get_waveforms_v2.py:27-35 | the v2 script's 0 to 90 by 30 gives four units, the last the zero-width band [90, 90] |
| Scenarios.ZeroWidthBandAtOneEighty | helpers.py:243-264 | 0 to 180 by 30 gives seven units, the last [180, 180] |
| Scenarios.ZeroWidthBandAtThirty | helpers.py:244-264 | 30 to 90 by 30 gives four units, opening with the zero-width band [30, 30] and closing with [90, 90] |
| Scenarios.ClippedToRange | helpers.py:244-264 | 40 to 70 by 30 drops the outside annuli and clips the others to [40, 60] and [60, 70] |
| Scenarios.InvertedBand | helpers.py:244-264 | 50 to 40 by 30 gives the single inverted band [50, 40] |
| Scenarios.LinearModelWindows | helpers.py:246-257 | with arrivals at 60 + 2x s and offsets -10, +30 the four windows are [t+50, t+150], [t+110, t+210], [t+170, t+270], [t+230, t+270] |
| Waveforms.WalkAnnuli | helpers.py:243-269 | the loop over the edges, with its `continue`, lookups and appends, returns exactly the walk's units or its first missing arrival |
| Waveforms.EventGetWaveforms | helpers.py:224-272 | exactly one truthy phase gives the ValueError; no truthy phase gives the single circle unit with window [t + startoffset, t + endoffset]; both with a zero step fail, with a negative step give nothing; both with a positive step succeed iff no kept edge's lookup is empty, and then give one unit per kept edge in increasing order with band [max(r, minradius), min(r + step, maxradius)], start t + first start-phase arrival + startoffset and end t + last end-phase arrival + endoffset |

## Left out

- The `MassDownloader` construction and the download loop (helpers.py:274-281): network I/O by an external collaborator. The model stops at the list of units.
- Storage path templates and the event ID built with `strftime` (helpers.py:216-222): string formatting only.
- An origin whose depth is `None` (possible for origins read from QuakeML, helpers.py:62-63): on the phase path `origin.depth / 1000.0` raises a TypeError at the first kept edge (helpers.py:247); the no-phase path never reads the depth. The model's origin always carries a depth, so that failure is not represented.
- An origin whose latitude or longitude is `None`: nothing raises, but every unit's circle then fails the all-or-nothing test (helpers.py:128-129, 227-232, 259-264), so `get_query_parameters` returns `{}` (helpers.py:156) and each request becomes global. The model's origin always carries both coordinates, so this case is not represented; `Domain.PartialShapeIsOff` and `Domain.GetQueryParameters` state the underlying domain behaviour.
- Choosing the origin (`preferred_origin() or origins[0]`, helpers.py:215): the origin is an input.
- `to_obspy_event`, `read_events_from_csv`, `read_catalog` (helpers.py:17-68): file reading; only their unit convention (depth in metres) is kept.
- The geodesic formula and the TauP model, including `TauPyModel(model=...)` failing on an unknown model name: foreign floating-point numerics, passed in as functions.
- Floating-point rounding in `np.arange`, in the clipping and in `UTCDateTime` arithmetic: radii and times are exact reals. numpy computes the number of edges as ceil(181 / step) and this model does the same exactly.
- A bare string as a reference phase (the type hint allows `str`): phases are modelled as lists of names.
- `restriction_kwargs`, `providers` and the model name: passed through without being inspected by the planner.
- fdsn_get_waveforms_v3.py and fdsn_get_availability.py: HTTP request scripts outside the planner. fdsn_get_waveforms.py and fdsn_get_waveforms_v2.py: scripts whose configuration is only an instance of the planner (the v2 one appears as a scenario).
