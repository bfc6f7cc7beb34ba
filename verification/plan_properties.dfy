/** Properties of the plan: validation of the phase pair, the no-phase unit, which
    annuli are emitted and in what order, the geometry of their clipped bands and
    the timing of their windows. */
module PlanProperties {
  import opened Base
  import opened Domain
  import opened Planner

  // ---------------------------------------------------------------------------
  // Validation of the phase pair and the no-phase path
  // ---------------------------------------------------------------------------

  /** Exactly one reference phase given: the call fails with the ValueError whatever
      the travel-time model, so no lookup can have shaped the outcome. */
  lemma MixedPhasesFail(o: Origin, c: Config, tt: TravelTimes)
    requires Truthy(c.startrefphase) != Truthy(c.endrefphase)
    ensures Plan(o, c, tt) == Err(MixedPhases)
  {
  }

  /** An empty phase list is falsy, so passing `[]` for either reference phase
      plans exactly as passing `None` does, whatever the other arguments. */
  lemma EmptyPhaseListActsAsNone(o: Origin, c: Config, tt: TravelTimes)
    ensures Plan(o, c.(startrefphase := Some([])), tt) == Plan(o, c.(startrefphase := None), tt)
    ensures Plan(o, c.(endrefphase := Some([])), tt) == Plan(o, c.(endrefphase := None), tt)
  {
  }

  /** Neither reference phase given: exactly one unit, whose domain is a circle-only
      domain centred on the epicentre with the configured radii (so that is what the
      station query carries), and whose window is [t + startoffset, t + endoffset].
      The travel-time model is not consulted. */
  lemma NoPhaseSingleUnit(o: Origin, c: Config, tt: TravelTimes, tt': TravelTimes)
    requires !Truthy(c.startrefphase) && !Truthy(c.endrefphase)
    ensures Plan(o, c, tt).Ok? && |Plan(o, c, tt).value| == 1
    ensures Plan(o, c, tt') == Plan(o, c, tt)
    ensures var u := Plan(o, c, tt).value[0];
      && CircleDomain(u.domain) && !RectangleDomain(u.domain)
      && GetQueryParameters(u.domain) == map["latitude" := o.latitude, "longitude" := o.longitude,
                                             "minradius" := c.minradius, "maxradius" := c.maxradius]
      && u.starttime == o.time + c.startoffset
      && u.endtime == o.time + c.endoffset
  {
    var u := Plan(o, c, tt).value[0];
    var q := GetQueryParameters(u.domain);
    assert q.Keys == CircleKeys;
  }

  /** Both phases given but a zero step: numpy refuses to build the edge range. A
      negative step gives an empty range and so an empty plan. */
  lemma NonPositiveStep(o: Origin, c: Config, tt: TravelTimes)
    requires Truthy(c.startrefphase) && Truthy(c.endrefphase)
    requires c.radiusStep <= 0.0
    ensures c.radiusStep == 0.0 ==> Plan(o, c, tt) == Err(ZeroStep)
    ensures c.radiusStep < 0.0 ==> Plan(o, c, tt) == Ok([])
  {
  }

  // ---------------------------------------------------------------------------
  // Arithmetic of the edge walk
  // ---------------------------------------------------------------------------

  lemma CeilBound(x: real, k: int)
    ensures k < Ceil(x) <==> (k as real) < x
  {
  }

  lemma MulMonotone(a: real, b: real, s: real)
    requires s > 0.0
    ensures a < b <==> a * s < b * s
  {
    if a < b {
      assert (b - a) * s > 0.0;
    } else {
      assert (a - b) * s >= 0.0;
    }
  }

  /** np.arange(0, 181, step) holds exactly the edges k * step that lie below 181. */
  lemma ArangeLength(step: real, k: nat)
    requires step > 0.0
    ensures k < NumEdges(step) <==> (k as real) * step < ArangeStop
  {
    var q := ArangeStop / step;
    assert q * step == ArangeStop;
    CeilBound(q, k);
    MulMonotone(k as real, q, step);
  }

  lemma EdgeSucc(c: Config, k: nat)
    ensures Edge(c, k + 1) == Edge(c, k) + c.radiusStep
  {
  }

  lemma EdgeMonotone(c: Config, i: nat, j: nat)
    requires c.radiusStep > 0.0
    requires i < j
    ensures Edge(c, i) + c.radiusStep <= Edge(c, j)
  {
    MulMonotone(i as real, j as real, c.radiusStep);
    assert (j - i) as real >= 1.0;
    assert Edge(c, j) - Edge(c, i) == (j - i) as real * c.radiusStep;
    assert (j - i) as real * c.radiusStep >= 1.0 * c.radiusStep by {
      assert ((j - i) as real - 1.0) * c.radiusStep >= 0.0;
    }
  }

  // ---------------------------------------------------------------------------
  // Which edges are kept
  // ---------------------------------------------------------------------------

  /** The kept edges from k onwards, in the order the loop visits them. */
  function KeptIndices(c: Config, k: nat): seq<nat>
    requires c.radiusStep > 0.0
    decreases NumEdges(c.radiusStep) - k
  {
    if k >= NumEdges(c.radiusStep) then []
    else if Kept(c, k) then [k] + KeptIndices(c, k + 1)
    else KeptIndices(c, k + 1)
  }

  /** The kept edges form an interval: both skip tests are monotone in the edge. */
  lemma KeptIsInterval(c: Config, i: nat, m: nat, j: nat)
    requires c.radiusStep > 0.0
    requires i <= m <= j
    requires Kept(c, i) && Kept(c, j)
    ensures Kept(c, m)
  {
    if i < m { EdgeMonotone(c, i, m); }
    if m < j { EdgeMonotone(c, m, j); }
  }

  /** An edge is listed exactly when it is a candidate edge the loop does not skip. */
  lemma {:induction false} KeptIndicesMembers(c: Config, k: nat)
    requires c.radiusStep > 0.0
    ensures forall j :: j in KeptIndices(c, k) <==> k <= j < NumEdges(c.radiusStep) && Kept(c, j)
    decreases NumEdges(c.radiusStep) - k
  {
    if k < NumEdges(c.radiusStep) {
      KeptIndicesMembers(c, k + 1);
    }
  }

  /** Consecutive kept edges are neighbours, so the list is strictly increasing
      with step one. */
  lemma {:induction false} KeptIndicesConsecutive(c: Config, k: nat)
    requires c.radiusStep > 0.0
    ensures forall i :: 0 <= i < |KeptIndices(c, k)| - 1 ==>
      KeptIndices(c, k)[i + 1] == KeptIndices(c, k)[i] + 1
    decreases NumEdges(c.radiusStep) - k
  {
    var n := NumEdges(c.radiusStep);
    if k < n {
      KeptIndicesConsecutive(c, k + 1);
      var rest := KeptIndices(c, k + 1);
      if Kept(c, k) && |rest| > 0 {
        KeptIndicesMembers(c, k + 1);
        assert rest[0] in rest;
        KeptIsInterval(c, k, k + 1, rest[0]);
      }
    }
  }

  lemma {:induction false} KeptIndicesIncreasing(c: Config, k: nat)
    requires c.radiusStep > 0.0
    ensures forall i, l :: 0 <= i < l < |KeptIndices(c, k)| ==>
      KeptIndices(c, k)[i] < KeptIndices(c, k)[l]
    decreases NumEdges(c.radiusStep) - k
  {
    var n := NumEdges(c.radiusStep);
    if k < n {
      KeptIndicesIncreasing(c, k + 1);
      KeptIndicesMembers(c, k + 1);
      var rest := KeptIndices(c, k + 1);
      if Kept(c, k) {
        forall l | 0 < l < |KeptIndices(c, k)| ensures k < KeptIndices(c, k)[l] {
          assert KeptIndices(c, k)[l] == rest[l - 1];
          assert rest[l - 1] in rest;
        }
      }
    }
  }

  // ---------------------------------------------------------------------------
  // The phase path walks exactly the kept edges
  // ---------------------------------------------------------------------------

  /** The walk from edge k succeeds exactly when every kept edge's two lookups return
      an arrival; otherwise it fails with a missing arrival. */
  lemma {:induction false} AnnuliOkIff(o: Origin, c: Config, tt: TravelTimes, k: nat)
    requires c.radiusStep > 0.0
    ensures Annuli(o, c, tt, k).Ok? <==>
      forall j :: j in KeptIndices(c, k) ==> LookupsSucceed(o, c, tt, j)
    ensures Annuli(o, c, tt, k).Err? ==> Annuli(o, c, tt, k).error.NoArrival?
    decreases NumEdges(c.radiusStep) - k
  {
    if k < NumEdges(c.radiusStep) {
      AnnuliOkIff(o, c, tt, k + 1);
      if Kept(c, k) {
        var rest := KeptIndices(c, k + 1);
        assert KeptIndices(c, k) == [k] + rest;
        assert forall j :: j in KeptIndices(c, k) <==> j == k || j in rest;
        if LookupsSucceed(o, c, tt, k) {
          assert Annuli(o, c, tt, k).Ok? <==> Annuli(o, c, tt, k + 1).Ok?;
        } else {
          assert Annuli(o, c, tt, k).Err?;
        }
      }
    }
  }

  /** A successful walk emits one unit per kept edge, in order, each built from
      its own edge. */
  lemma {:induction false} AnnuliUnits(o: Origin, c: Config, tt: TravelTimes, k: nat)
    requires c.radiusStep > 0.0
    requires Annuli(o, c, tt, k).Ok?
    ensures |Annuli(o, c, tt, k).value| == |KeptIndices(c, k)|
    ensures forall i :: 0 <= i < |KeptIndices(c, k)| ==>
      && LookupsSucceed(o, c, tt, KeptIndices(c, k)[i])
      && Annuli(o, c, tt, k).value[i] == AnnulusUnit(o, c, tt, KeptIndices(c, k)[i])
    decreases NumEdges(c.radiusStep) - k
  {
    if k < NumEdges(c.radiusStep) {
      AnnuliUnits(o, c, tt, k + 1);
    }
  }

  /** Both reference phases given: with a positive step the plan succeeds exactly
      when no lookup on a kept edge comes back empty, and then holds one unit per
      kept edge, in increasing edge order, with band [max(r, minradius),
      min(r + step, maxradius)] around the epicentre, start time taken from the
      first arrival at the band's inner edge and end time from the last arrival at
      its outer edge, at the origin's depth in kilometres. */
  lemma PhasePlan(o: Origin, c: Config, tt: TravelTimes)
    requires Truthy(c.startrefphase) && Truthy(c.endrefphase)
    requires c.radiusStep > 0.0
    ensures Plan(o, c, tt).Ok? <==>
      forall j :: 0 <= j < NumEdges(c.radiusStep) && Kept(c, j) ==>
        && |tt(o.depth / 1000.0, Lower(c, j), c.startrefphase.value)| > 0
        && |tt(o.depth / 1000.0, Upper(c, j), c.endrefphase.value)| > 0
    ensures Plan(o, c, tt).Err? ==> Plan(o, c, tt).error.NoArrival?
    ensures Plan(o, c, tt).Ok? ==>
      var us, ks := Plan(o, c, tt).value, KeptIndices(c, 0);
      && |us| == |ks|
      && (forall i, l :: 0 <= i < l < |ks| ==> ks[i] < ks[l])
      && (forall j :: j in ks <==> 0 <= j < NumEdges(c.radiusStep) && Kept(c, j))
      && forall i :: 0 <= i < |us| ==>
        var starts := tt(o.depth / 1000.0, Lower(c, ks[i]), c.startrefphase.value);
        var ends := tt(o.depth / 1000.0, Upper(c, ks[i]), c.endrefphase.value);
        && us[i].domain == CircleAround(o.latitude, o.longitude, Lower(c, ks[i]), Upper(c, ks[i]))
        && |starts| > 0 && us[i].starttime == o.time + starts[0] + c.startoffset
        && |ends| > 0 && us[i].endtime == o.time + ends[|ends| - 1] + c.endoffset
  {
    AnnuliOkIff(o, c, tt, 0);
    KeptIndicesMembers(c, 0);
    KeptIndicesIncreasing(c, 0);
    if Plan(o, c, tt).Ok? {
      AnnuliUnits(o, c, tt, 0);
    }
  }

  // ---------------------------------------------------------------------------
  // Geometry of the clipped bands
  // ---------------------------------------------------------------------------

  /** The radius band of a unit's circular domain. Every planned unit's domain is a
      circle around the epicentre with both radii present (`PlannedDomainsAreCircles`),
      so the `0.0` fallbacks are never read for a planned unit. */
  function BandOf(u: Unit): (real, real)
  {
    (if u.domain.minradius.Some? then u.domain.minradius.value else 0.0,
     if u.domain.maxradius.Some? then u.domain.maxradius.value else 0.0)
  }

  /** Every unit of a successful plan carries a circle-only domain centred on the
      epicentre, so the station query is that circle and both radii are present. */
  lemma PlannedDomainsAreCircles(o: Origin, c: Config, tt: TravelTimes)
    requires Plan(o, c, tt).Ok?
    ensures forall i :: 0 <= i < |Plan(o, c, tt).value| ==>
      var d := Plan(o, c, tt).value[i].domain;
      && CircleDomain(d) && !RectangleDomain(d)
      && d.latitude == Some(o.latitude) && d.longitude == Some(o.longitude)
  {
    if Truthy(c.startrefphase) && Truthy(c.endrefphase) && c.radiusStep > 0.0 {
      PhasePlan(o, c, tt);
    }
  }

  /** A kept edge's band lies inside [minradius, maxradius] when that range is not inverted. */
  lemma BandWithinRange(c: Config, k: nat)
    requires c.radiusStep > 0.0
    requires Kept(c, k)
    requires c.minradius <= c.maxradius
    ensures c.minradius <= Lower(c, k) <= Upper(c, k) <= c.maxradius
  {
  }

  /** Two neighbouring kept edges share a band boundary. */
  lemma NeighbourBandsMeet(c: Config, k: nat)
    requires Kept(c, k) && Kept(c, k + 1)
    ensures Upper(c, k) == Lower(c, k + 1)
  {
    EdgeSucc(c, k);
  }

  /** Every band of a successful plan lies inside [minradius, maxradius] and is not
      inverted, provided that range itself is not inverted. */
  lemma BandsInsideRange(o: Origin, c: Config, tt: TravelTimes)
    requires Plan(o, c, tt).Ok?
    requires c.minradius <= c.maxradius
    ensures forall i :: 0 <= i < |Plan(o, c, tt).value| ==>
      var band := BandOf(Plan(o, c, tt).value[i]);
      c.minradius <= band.0 <= band.1 <= c.maxradius
  {
    if Truthy(c.startrefphase) && Truthy(c.endrefphase) && c.radiusStep > 0.0 {
      PhasePlan(o, c, tt);
      var us, ks := Plan(o, c, tt).value, KeptIndices(c, 0);
      forall i | 0 <= i < |us|
        ensures c.minradius <= BandOf(us[i]).0 <= BandOf(us[i]).1 <= c.maxradius
      {
        assert ks[i] in ks;
        BandWithinRange(c, ks[i]);
      }
    }
  }

  /** The bands of a successful plan are contiguous: each one ends where the next begins. */
  lemma BandsContiguous(o: Origin, c: Config, tt: TravelTimes)
    requires Plan(o, c, tt).Ok?
    ensures forall i :: 0 <= i < |Plan(o, c, tt).value| - 1 ==>
      BandOf(Plan(o, c, tt).value[i]).1 == BandOf(Plan(o, c, tt).value[i + 1]).0
  {
    if Truthy(c.startrefphase) && Truthy(c.endrefphase) && c.radiusStep > 0.0 {
      PhasePlan(o, c, tt);
      KeptIndicesConsecutive(c, 0);
      var us, ks := Plan(o, c, tt).value, KeptIndices(c, 0);
      forall i | 0 <= i < |us| - 1
        ensures BandOf(us[i]).1 == BandOf(us[i + 1]).0
      {
        assert ks[i] in ks && ks[i + 1] in ks;
        NeighbourBandsMeet(c, ks[i]);
      }
    }
  }

  /** Some edge is kept whenever 0 <= minradius <= maxradius <= 180: the last edge
      not beyond maxradius. */
  lemma SomeEdgeKept(c: Config) returns (k: nat)
    requires c.radiusStep > 0.0
    requires 0.0 <= c.minradius <= c.maxradius <= 180.0
    ensures k < NumEdges(c.radiusStep) && Kept(c, k)
  {
    k := KeptFrom(c, 0);
  }

  /** Walking up from an edge not beyond maxradius, the last such edge is kept. */
  lemma {:induction false} KeptFrom(c: Config, k: nat) returns (j: nat)
    requires c.radiusStep > 0.0
    requires 0.0 <= c.minradius <= c.maxradius <= 180.0
    requires Edge(c, k) <= c.maxradius
    ensures j < NumEdges(c.radiusStep) && Kept(c, j)
    decreases NumEdges(c.radiusStep) - k
  {
    ArangeLength(c.radiusStep, k);
    EdgeSucc(c, k);
    if Edge(c, k + 1) <= c.maxradius {
      ArangeLength(c.radiusStep, k + 1);
      j := KeptFrom(c, k + 1);
    } else {
      j := k;
    }
  }

  /** The first kept edge is 0 or lies just past an edge skipped for ending below
      minradius, so its band starts at minradius. */
  lemma FirstKeptStartsAtMin(c: Config, first: nat)
    requires c.radiusStep > 0.0
    requires 0.0 <= c.minradius
    requires Kept(c, first)
    requires first > 0 ==> !Kept(c, first - 1)
    ensures Lower(c, first) == c.minradius
  {
    if first > 0 {
      EdgeSucc(c, first - 1);
    }
  }

  /** The last kept edge is the last candidate or lies just before an edge skipped for
      starting beyond maxradius, so its band ends at maxradius. */
  lemma LastKeptEndsAtMax(c: Config, last: nat)
    requires c.radiusStep > 0.0
    requires c.maxradius <= 180.0
    requires last < NumEdges(c.radiusStep) && Kept(c, last)
    requires last + 1 < NumEdges(c.radiusStep) ==> !Kept(c, last + 1)
    ensures Upper(c, last) == c.maxradius
  {
    EdgeSucc(c, last);
    if last + 1 >= NumEdges(c.radiusStep) {
      ArangeLength(c.radiusStep, last + 1);
    }
  }

  /** With 0 <= minradius <= maxradius <= 180, the first kept band starts exactly at
      minradius and the last ends exactly at maxradius. */
  lemma KeptBandsCoverRange(c: Config)
    requires c.radiusStep > 0.0
    requires 0.0 <= c.minradius <= c.maxradius <= 180.0
    ensures |KeptIndices(c, 0)| > 0
    ensures Lower(c, KeptIndices(c, 0)[0]) == c.minradius
    ensures Upper(c, KeptIndices(c, 0)[|KeptIndices(c, 0)| - 1]) == c.maxradius
  {
    var n := NumEdges(c.radiusStep);
    var ks := KeptIndices(c, 0);
    KeptIndicesMembers(c, 0);
    KeptIndicesIncreasing(c, 0);
    var some := SomeEdgeKept(c);
    assert some in ks;
    var first, last := ks[0], ks[|ks| - 1];
    assert first in ks && last in ks;
    if first > 0 && Kept(c, first - 1) {
      assert false;
    }
    FirstKeptStartsAtMin(c, first);
    if last + 1 < n && Kept(c, last + 1) {
      assert false;
    }
    LastKeptEndsAtMax(c, last);
  }

  /** For 0 <= minradius <= maxradius <= 180 and a positive step, a successful plan
      is non-empty and its bands run from exactly minradius to exactly maxradius. */
  lemma BandsCoverRange(o: Origin, c: Config, tt: TravelTimes)
    requires Plan(o, c, tt).Ok?
    requires c.radiusStep > 0.0
    requires 0.0 <= c.minradius <= c.maxradius <= 180.0
    ensures |Plan(o, c, tt).value| > 0
    ensures BandOf(Plan(o, c, tt).value[0]).0 == c.minradius
    ensures BandOf(Plan(o, c, tt).value[|Plan(o, c, tt).value| - 1]).1 == c.maxradius
  {
    if Truthy(c.startrefphase) && Truthy(c.endrefphase) {
      PhasePlan(o, c, tt);
      KeptBandsCoverRange(c);
    }
  }
}
