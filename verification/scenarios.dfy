/** Worked configurations of the phase path, including the one the v2 download
    script passes (0 to 90 degrees in steps of 30). */
module Scenarios {
  import opened Base
  import opened Planner
  import opened PlanProperties

  /** A stand-in model whose arrival at distance x is 60 + 2x seconds. */
  function LinearTravelTimes(): TravelTimes
  {
    (depth: real, distance: real, phases: seq<string>) => [60.0 + 2.0 * distance]
  }

  function PhaseConfig(minradius: real, maxradius: real, step: real): Config
  {
    Config(minradius, maxradius, Some(["ttp"]), Some(["ttp"]), -10.0, 30.0, step)
  }

  lemma ThirtyDegreeEdges()
    ensures NumEdges(30.0) == 7
  {
    assert (ArangeStop / 30.0).Floor == 6;
  }

  /** The bands of a plan, in order. */
  function Bands(us: seq<Unit>): seq<(real, real)>
  {
    seq(|us|, i requires 0 <= i < |us| => BandOf(us[i]))
  }

  /** Under a model that always answers, the plan's bands are those of the kept edges. */
  lemma BandsOfKeptEdges(o: Origin, c: Config, tt: TravelTimes)
    requires Truthy(c.startrefphase) && Truthy(c.endrefphase) && c.radiusStep > 0.0
    requires forall d, x, p :: |tt(d, x, p)| > 0
    ensures Plan(o, c, tt).Ok?
    ensures Bands(Plan(o, c, tt).value)
         == seq(|KeptIndices(c, 0)|, i requires 0 <= i < |KeptIndices(c, 0)| =>
                  (Lower(c, KeptIndices(c, 0)[i]), Upper(c, KeptIndices(c, 0)[i])))
  {
    PhasePlan(o, c, tt);
  }

  /** 0 to 90 by 30: four units, the last one the zero-width band [90, 90], because
      neither skip test fires at the edge 90 itself. */
  lemma ZeroWidthBandAtNinety(o: Origin, tt: TravelTimes)
    requires forall d, x, p :: |tt(d, x, p)| > 0
    ensures Plan(o, PhaseConfig(0.0, 90.0, 30.0), tt).Ok?
    ensures Bands(Plan(o, PhaseConfig(0.0, 90.0, 30.0), tt).value)
         == [(0.0, 30.0), (30.0, 60.0), (60.0, 90.0), (90.0, 90.0)]
  {
    var c := PhaseConfig(0.0, 90.0, 30.0);
    ThirtyDegreeEdges();
    BandsOfKeptEdges(o, c, tt);
    assert KeptIndices(c, 4) == [] by {
      assert KeptIndices(c, 7) == [];
      assert KeptIndices(c, 6) == [];
      assert KeptIndices(c, 5) == [];
    }
    assert KeptIndices(c, 0) == [0, 1, 2, 3];
  }

  /** 0 to 180 by 30: seven units, the last one the zero-width band [180, 180]. */
  lemma ZeroWidthBandAtOneEighty(o: Origin, tt: TravelTimes)
    requires forall d, x, p :: |tt(d, x, p)| > 0
    ensures Plan(o, PhaseConfig(0.0, 180.0, 30.0), tt).Ok?
    ensures Bands(Plan(o, PhaseConfig(0.0, 180.0, 30.0), tt).value)
         == [(0.0, 30.0), (30.0, 60.0), (60.0, 90.0), (90.0, 120.0),
             (120.0, 150.0), (150.0, 180.0), (180.0, 180.0)]
  {
    var c := PhaseConfig(0.0, 180.0, 30.0);
    ThirtyDegreeEdges();
    BandsOfKeptEdges(o, c, tt);
    assert KeptIndices(c, 4) == [4, 5, 6] by {
      assert KeptIndices(c, 7) == [];
      assert KeptIndices(c, 6) == [6];
      assert KeptIndices(c, 5) == [5, 6];
    }
    assert KeptIndices(c, 0) == [0, 1, 2, 3, 4, 5, 6];
  }

  /** 30 to 90 by 30: the edge 0 survives the strict test 0 + 30 < 30 and opens the
      plan with the zero-width band [30, 30]; the edge 90 closes it with [90, 90]. */
  lemma ZeroWidthBandAtThirty(o: Origin, tt: TravelTimes)
    requires forall d, x, p :: |tt(d, x, p)| > 0
    ensures Plan(o, PhaseConfig(30.0, 90.0, 30.0), tt).Ok?
    ensures Bands(Plan(o, PhaseConfig(30.0, 90.0, 30.0), tt).value)
         == [(30.0, 30.0), (30.0, 60.0), (60.0, 90.0), (90.0, 90.0)]
  {
    var c := PhaseConfig(30.0, 90.0, 30.0);
    ThirtyDegreeEdges();
    BandsOfKeptEdges(o, c, tt);
    assert KeptIndices(c, 4) == [] by {
      assert KeptIndices(c, 7) == [];
      assert KeptIndices(c, 6) == [];
      assert KeptIndices(c, 5) == [];
    }
    assert KeptIndices(c, 0) == [0, 1, 2, 3];
  }

  /** 40 to 70 by 30: the annuli [0, 30] and [90, 120] are dropped and the two kept
      ones are clipped to [40, 60] and [60, 70]. */
  lemma ClippedToRange(o: Origin, tt: TravelTimes)
    requires forall d, x, p :: |tt(d, x, p)| > 0
    ensures Plan(o, PhaseConfig(40.0, 70.0, 30.0), tt).Ok?
    ensures Bands(Plan(o, PhaseConfig(40.0, 70.0, 30.0), tt).value) == [(40.0, 60.0), (60.0, 70.0)]
  {
    var c := PhaseConfig(40.0, 70.0, 30.0);
    ThirtyDegreeEdges();
    BandsOfKeptEdges(o, c, tt);
    assert KeptIndices(c, 3) == [] by {
      assert KeptIndices(c, 7) == [];
      assert KeptIndices(c, 6) == [];
      assert KeptIndices(c, 5) == [];
      assert KeptIndices(c, 4) == [];
    }
    assert KeptIndices(c, 0) == [1, 2];
  }

  /** minradius 50 above maxradius 40: the edge 30 survives both skip tests and
      yields the inverted band [50, 40]. */
  lemma InvertedBand(o: Origin, tt: TravelTimes)
    requires forall d, x, p :: |tt(d, x, p)| > 0
    ensures Plan(o, PhaseConfig(50.0, 40.0, 30.0), tt).Ok?
    ensures Bands(Plan(o, PhaseConfig(50.0, 40.0, 30.0), tt).value) == [(50.0, 40.0)]
  {
    var c := PhaseConfig(50.0, 40.0, 30.0);
    ThirtyDegreeEdges();
    BandsOfKeptEdges(o, c, tt);
    assert KeptIndices(c, 2) == [] by {
      assert KeptIndices(c, 7) == [];
      assert KeptIndices(c, 6) == [];
      assert KeptIndices(c, 5) == [];
      assert KeptIndices(c, 4) == [];
      assert KeptIndices(c, 3) == [];
    }
    assert KeptIndices(c, 0) == [1];
  }

  /** With arrivals at 60 + 2x seconds, offsets -10 and +30 and 0 to 90 by 30, the
      windows are [t+50, t+150], [t+110, t+210], [t+170, t+270] and, for the
      zero-width band at 90, [t+230, t+270]. */
  lemma LinearModelWindows(o: Origin)
    ensures Plan(o, PhaseConfig(0.0, 90.0, 30.0), LinearTravelTimes()).Ok?
    ensures var us := Plan(o, PhaseConfig(0.0, 90.0, 30.0), LinearTravelTimes()).value;
      && |us| == 4
      && us[0].starttime == o.time + 50.0 && us[0].endtime == o.time + 150.0
      && us[1].starttime == o.time + 110.0 && us[1].endtime == o.time + 210.0
      && us[2].starttime == o.time + 170.0 && us[2].endtime == o.time + 270.0
      && us[3].starttime == o.time + 230.0 && us[3].endtime == o.time + 270.0
  {
    var c := PhaseConfig(0.0, 90.0, 30.0);
    var tt := LinearTravelTimes();
    ZeroWidthBandAtNinety(o, tt);
    PhasePlan(o, c, tt);
  }
}
