/** The planning loop of `event_get_waveforms`, written the way helpers.py walks
    the edges, and shown to build exactly the units of `Planner.Plan`. */
module Waveforms {
  import opened Base
  import opened Domain
  import opened Planner
  import opened PlanProperties

  /** The units gathered so far followed by the outcome of the rest of the walk. */
  function Prepend(units: seq<Unit>, rest: Result<seq<Unit>, PlanError>): Result<seq<Unit>, PlanError>
  {
    match rest
    case Ok(more) => Ok(units + more)
    case Err(e) => Err(e)
  }

  lemma PrependNothing(rest: Result<seq<Unit>, PlanError>)
    ensures Prepend([], rest) == rest
  {
    if rest.Ok? {
      assert [] + rest.value == rest.value;
    }
  }

  /** Appending the unit of a kept edge to the gathered units and walking on from the
      next edge gives the same outcome as walking on from the kept edge. */
  lemma PrependKept(o: Origin, c: Config, tt: TravelTimes, k: nat, units: seq<Unit>)
    requires c.radiusStep > 0.0
    requires k < NumEdges(c.radiusStep) && Kept(c, k) && LookupsSucceed(o, c, tt, k)
    ensures Prepend(units, Annuli(o, c, tt, k))
         == Prepend(units + [AnnulusUnit(o, c, tt, k)], Annuli(o, c, tt, k + 1))
  {
    var rest := Annuli(o, c, tt, k + 1);
    if rest.Ok? {
      assert units + ([AnnulusUnit(o, c, tt, k)] + rest.value)
          == (units + [AnnulusUnit(o, c, tt, k)]) + rest.value;
    }
  }

  /** One step of the walk at a candidate edge k. */
  lemma AnnuliStep(o: Origin, c: Config, tt: TravelTimes, k: nat)
    requires c.radiusStep > 0.0
    requires k < NumEdges(c.radiusStep)
    ensures !Kept(c, k) ==> Annuli(o, c, tt, k) == Annuli(o, c, tt, k + 1)
    ensures Kept(c, k) && |StartLookup(o, c, tt, k)| == 0 ==>
      Annuli(o, c, tt, k) == Err(NoArrival(Lower(c, k), PhaseList(c.startrefphase)))
    ensures Kept(c, k) && |StartLookup(o, c, tt, k)| > 0 && |EndLookup(o, c, tt, k)| == 0 ==>
      Annuli(o, c, tt, k) == Err(NoArrival(Upper(c, k), PhaseList(c.endrefphase)))
  {
  }

  /** The `for radius in np.arange(0, 181, radius_step)` loop for a positive step. */
  method WalkAnnuli(o: Origin, c: Config, tt: TravelTimes) returns (r: Result<seq<Unit>, PlanError>)
    requires c.radiusStep > 0.0
    ensures r == Annuli(o, c, tt, 0)
  {
    var n := NumEdges(c.radiusStep);
    var units: seq<Unit> := [];
    var k: nat := 0;
    PrependNothing(Annuli(o, c, tt, 0));
    while k < n
      invariant k <= n
      invariant Annuli(o, c, tt, 0) == Prepend(units, Annuli(o, c, tt, k))
      decreases n - k
    {
      var radius := Edge(c, k);
      AnnuliStep(o, c, tt, k);
      if radius + c.radiusStep < c.minradius || radius > c.maxradius {
        k := k + 1;
        continue;
      }
      var inner := Max(radius, c.minradius);
      var outer := Min(radius + c.radiusStep, c.maxradius);
      assert inner == Lower(c, k) && outer == Upper(c, k);
      var starts := tt(o.depth / 1000.0, inner, PhaseList(c.startrefphase));
      assert starts == StartLookup(o, c, tt, k);
      if |starts| == 0 {
        return Err(NoArrival(inner, PhaseList(c.startrefphase)));
      }
      var starttime := o.time + starts[0] + c.startoffset;
      var ends := tt(o.depth / 1000.0, outer, PhaseList(c.endrefphase));
      assert ends == EndLookup(o, c, tt, k);
      if |ends| == 0 {
        return Err(NoArrival(outer, PhaseList(c.endrefphase)));
      }
      var endtime := o.time + ends[|ends| - 1] + c.endoffset;
      var domain := CircleAround(o.latitude, o.longitude, inner, outer);
      assert Unit(domain, starttime, endtime) == AnnulusUnit(o, c, tt, k);
      PrependKept(o, c, tt, k, units);
      units := units + [Unit(domain, starttime, endtime)];
      k := k + 1;
    }
    assert Annuli(o, c, tt, k) == Ok([]);
    assert units + [] == units;
    return Ok(units);
  }

  /** Collects the domains and restrictions in the order the downloader would receive
      them, or the error the Python code raises before any download starts. */
  method EventGetWaveforms(o: Origin, c: Config, tt: TravelTimes) returns (r: Result<seq<Unit>, PlanError>)
    ensures r == Plan(o, c, tt)
    // exactly one reference phase: the ValueError, before any lookup
    ensures Truthy(c.startrefphase) != Truthy(c.endrefphase) ==> r == Err(MixedPhases)
    // no reference phase: one circle around the epicentre, window relative to the origin time
    ensures !Truthy(c.startrefphase) && !Truthy(c.endrefphase) ==>
      r == Ok([Unit(CircleAround(o.latitude, o.longitude, c.minradius, c.maxradius),
                    o.time + c.startoffset, o.time + c.endoffset)])
    // both reference phases, zero or negative step: numpy's error or an empty edge range
    ensures Truthy(c.startrefphase) && Truthy(c.endrefphase) && c.radiusStep == 0.0 ==> r == Err(ZeroStep)
    ensures Truthy(c.startrefphase) && Truthy(c.endrefphase) && c.radiusStep < 0.0 ==> r == Ok([])
    // both reference phases, positive step: one unit per kept edge, or a missing arrival
    ensures Truthy(c.startrefphase) && Truthy(c.endrefphase) && c.radiusStep > 0.0 ==>
      && (r.Ok? <==>
           forall j :: 0 <= j < NumEdges(c.radiusStep) && Kept(c, j) ==>
             && |tt(o.depth / 1000.0, Lower(c, j), c.startrefphase.value)| > 0
             && |tt(o.depth / 1000.0, Upper(c, j), c.endrefphase.value)| > 0)
      && (r.Err? ==> r.error.NoArrival?)
      && (r.Ok? ==>
           var ks := KeptIndices(c, 0);
           && |r.value| == |ks|
           && (forall i, l :: 0 <= i < l < |ks| ==> ks[i] < ks[l])
           && (forall j :: j in ks <==> 0 <= j < NumEdges(c.radiusStep) && Kept(c, j))
           && forall i :: 0 <= i < |r.value| ==>
             var starts := tt(o.depth / 1000.0, Lower(c, ks[i]), c.startrefphase.value);
             var ends := tt(o.depth / 1000.0, Upper(c, ks[i]), c.endrefphase.value);
             && r.value[i].domain == CircleAround(o.latitude, o.longitude, Lower(c, ks[i]), Upper(c, ks[i]))
             && |starts| > 0 && r.value[i].starttime == o.time + starts[0] + c.startoffset
             && |ends| > 0 && r.value[i].endtime == o.time + ends[|ends| - 1] + c.endoffset)
  {
    if !Truthy(c.startrefphase) && !Truthy(c.endrefphase) {
      var domain := CircleAround(o.latitude, o.longitude, c.minradius, c.maxradius);
      r := Ok([Unit(domain, o.time + c.startoffset, o.time + c.endoffset)]);
    } else if Truthy(c.startrefphase) && Truthy(c.endrefphase) {
      if c.radiusStep == 0.0 {
        r := Err(ZeroStep);
      } else if c.radiusStep < 0.0 {
        r := Ok([]);
      } else {
        r := WalkAnnuli(o, c, tt);
        PhasePlan(o, c, tt);
      }
    } else {
      r := Err(MixedPhases);
    }
  }
}
