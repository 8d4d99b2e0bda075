/** The straight-line advisor: one bearing from start to destination, the
    sun at the route's midpoint at departure decides the sides (strict
    rule), a warning flags a sun close to the line of travel, and a
    simulation every 30 minutes at the same midpoint estimates how much of
    the trip each side spends in the sun.

    The heading from start to destination, the number of 30-minute steps
    (derived from the geodesic distance) and the sun's position at the
    midpoint at step i are given; step 0 is the departure instant, at which
    `train_sun_side.py` asks the astronomy library the same question twice. */
module TrainAdvisor {
  import opened Compass
  import opened Sides
  import opened SideCounts

  /** Minutes between two simulated instants. */
  const StepMinutes: int := 30

  /** The outcome shown to the user: a night message and nothing else, or
      a recommended side, the reported percentage, the warning flag, the
      simulation table and the simulated sun shares of both sides. */
  datatype Advice =
    | NightTrip
    | Advice(side: Side, pct: real, warn: bool, records: seq<Record>,
             percentLeft: real, percentRight: real)

  function Abs(x: real): real {
    if x < 0.0 then -x else x
  }

  /** The warning condition as `train_sun_side.py` writes it: within 20 degrees of
      90 or of 270, that is, with the sun nearly abeam, although the
      message reads "sun nearly ahead/behind". */
  function WarnAsWritten(delta: real): (w: bool)
    ensures w <==> (70.0 < delta < 110.0 || 250.0 < delta < 290.0)
  {
    Abs(delta - 90.0) < 20.0 || Abs(delta - 270.0) < 20.0
  }

  /** The condition the message describes: the sun within 20 degrees of the
      line of travel, ahead (delta near 0 or 360) or behind (near 180). */
  function NearlyAheadOrBehind(delta: real): (w: bool)
    ensures IsAngle(delta) ==>
      (w <==> (delta < 20.0 || 340.0 < delta || 160.0 < delta < 200.0))
  {
    Abs(delta) < 20.0 || Abs(delta - 180.0) < 20.0 || Abs(delta - 360.0) < 20.0
  }

  /** Why the message's condition is the useful one: when it does not fire,
      moving the sun by less than 20 degrees either way cannot change the
      sunny side. */
  lemma UnwarnedSideIsStable(delta: real, shift: real)
    requires IsAngle(delta) && !NearlyAheadOrBehind(delta)
    requires -20.0 < shift < 20.0
    ensures StrictSide(Mod360(delta + shift)) == StrictSide(delta)
  {
    Mod360OfAngle(delta + shift);
  }

  /** The condition as written fires with the sun exactly abeam (travelling
      north, sun due east), stays silent with the sun dead ahead, and stays
      silent at delta 10 although a shift of 15 degrees moves the sun to the
      other side. */
  lemma WarnAsWrittenMisfires()
    ensures WarnAsWritten(Delta(0.0, 90.0)) && !NearlyAheadOrBehind(Delta(0.0, 90.0))
    ensures !WarnAsWritten(Delta(0.0, 0.0)) && NearlyAheadOrBehind(Delta(0.0, 0.0))
    ensures !WarnAsWritten(10.0) && StrictSide(Mod360(10.0 - 15.0)) != StrictSide(10.0)
  {
    Mod360OfAngle(90.0);
    Mod360OfAngle(0.0);
    Mod360Unique(10.0 - 15.0, 355.0, -1);
  }

  /** The simulated sun share of one side (`percent_left` or
      `percent_right`). */
  function SunShare(side: Side, percentLeft: real, percentRight: real): real {
    if side == Links then percentLeft else percentRight
  }

  /** The reported percentage as `train_sun_side.py` computes it in both branches:
      the recommended side's SUN share, also when the message says it is
      the share of time in the shade. */
  function ReportedPctAsWritten(side: Side, percentLeft: real, percentRight: real): (p: real)
    ensures side == Links ==> p == percentLeft
    ensures side == Rechts ==> p == percentRight
  {
    SunShare(side, percentLeft, percentRight)
  }

  /** The reported percentage as the messages describe it: the share of
      time the recommended side is in the shade when shade is asked for,
      in the sun otherwise. */
  function ReportedPct(side: Side, pref: string, percentLeft: real, percentRight: real): (p: real)
    requires percentLeft + percentRight == 100.0
    ensures PrefersShade(pref) ==> p == SunShare(side.Other(), percentLeft, percentRight)
    ensures !PrefersShade(pref) ==> p == SunShare(side, percentLeft, percentRight)
  {
    if PrefersShade(pref) then 100.0 - SunShare(side, percentLeft, percentRight)
    else SunShare(side, percentLeft, percentRight)
  }

  /** The number of simulated instants at which the recommended side gets
      what the preference asks for: shade (the sun on the other side) or
      sun. */
  function WantedCount(records: seq<Record>, side: Side, pref: string): (n: nat)
    ensures n <= |records|
  {
    if PrefersShade(pref) then CountSide(records, side.Other()) else CountSide(records, side)
  }

  /** The simulation row of step i: the sun's azimuth at the midpoint
      30*i minutes after departure, classified with the strict rule. */
  function StepRecord(bearing: real, sunAt: nat -> SunPosition, i: nat): (r: Record)
    ensures r.side == StrictSide(Delta(r.bearing, r.azimuth))
  {
    Record(StepMinutes * i, bearing, sunAt(i).azimuth, StrictSide(Delta(bearing, sunAt(i).azimuth)))
  }

  /** The whole simulation table, steps 0 to `steps`. */
  function StepRecords(bearing: real, sunAt: nat -> SunPosition, steps: nat): (rs: seq<Record>)
    ensures |rs| == steps + 1
  {
    seq(steps + 1, i requires 0 <= i <= steps => StepRecord(bearing, sunAt, i))
  }

  /** The simulation records every instant whatever the sun's elevation:
      two astronomy oracles that agree on the azimuths give the same
      table, even if one of them puts the sun below the horizon. */
  lemma SimulationIgnoresElevation(bearing: real, sunA: nat -> SunPosition,
                                   sunB: nat -> SunPosition, steps: nat)
    requires forall i :: 0 <= i <= steps ==> sunA(i).azimuth == sunB(i).azimuth
    ensures StepRecords(bearing, sunA, steps) == StepRecords(bearing, sunB, steps)
  {
  }

  /** The simulation loop: one row per instant, counting the rows whose
      sunny side is the left. */
  method Simulate(bearing: real, sunAt: nat -> SunPosition, steps: nat)
    returns (records: seq<Record>, sunLeft: nat)
    ensures records == StepRecords(bearing, sunAt, steps)
    ensures |records| == steps + 1
    ensures sunLeft == CountSide(records, Links)
  {
    records := [];
    sunLeft := 0;
    var i := 0;
    while i <= steps
      invariant 0 <= i <= steps + 1
      invariant records == StepRecords(bearing, sunAt, steps)[..i]
      invariant sunLeft == CountSide(records, Links)
    {
      var azimuth := sunAt(i).azimuth;
      var side := StrictSide(Delta(bearing, azimuth));
      if side == Links {
        sunLeft := sunLeft + 1;
      }
      assert (records + [Record(StepMinutes * i, bearing, azimuth, side)])[..i] == records;
      records := records + [Record(StepMinutes * i, bearing, azimuth, side)];
      i := i + 1;
    }
  }

  /** `percent_left` and `percent_right`: the left share of the table, in
      percent, and the right share as its complement, which is the right
      rows' share. */
  function SimulatedShares(records: seq<Record>): (s: (real, real))
    requires |records| > 0
    ensures s.0 == Percent(CountSide(records, Links), |records|)
    ensures s.1 == Percent(CountSide(records, Rechts), |records|)
    ensures s.0 + s.1 == 100.0
  {
    var left := CountSide(records, Links);
    var right := CountSide(records, Rechts);
    CountSidesSum(records);
    assert |records| == left + right;
    PercentSplit(left, right);
    (Percent(left, |records|), 100.0 - Percent(left, |records|))
  }

  /** Each side's sun share is that side's count as a percentage of the
      table. */
  lemma SunShareOfTable(records: seq<Record>, side: Side)
    requires |records| > 0
    ensures var shares := SimulatedShares(records);
            SunShare(side, shares.0, shares.1) == Percent(CountSide(records, side), |records|)
  {
  }

  /** The decision once the simulation table exists, as the code computes
      it: the sides from the departure sample, the warning as written, the
      shares of the table, and as the report the recommended side's SUN
      share, for either preference. */
  function Decide(delta: real, records: seq<Record>, pref: string): (a: Advice)
    requires |records| > 0
    ensures a.Advice? && a.records == records
    ensures a.side == PreferredSide(delta, pref)
    ensures a.warn <==> (70.0 < delta < 110.0 || 250.0 < delta < 290.0)
    ensures a.percentLeft == Percent(CountSide(records, Links), |records|)
    ensures a.percentRight == Percent(CountSide(records, Rechts), |records|)
    ensures a.percentLeft + a.percentRight == 100.0
    ensures a.pct == Percent(CountSide(records, a.side), |records|)
  {
    var side := PreferredSide(delta, pref);
    var shares := SimulatedShares(records);
    SunShareOfTable(records, side);
    Advice(side, ReportedPctAsWritten(side, shares.0, shares.1), WarnAsWritten(delta),
           records, shares.0, shares.1)
  }

  /** The decision as the messages describe it: the warning fires with the
      sun near the line of travel, and the report is the percentage of
      instants at which the recommended side gets what the preference asks
      for. */
  function DecideIntended(delta: real, records: seq<Record>, pref: string): (a: Advice)
    requires |records| > 0
    ensures a.Advice? && a.records == records
    ensures a.side == PreferredSide(delta, pref)
    ensures a.warn == NearlyAheadOrBehind(delta)
    ensures a.percentLeft == Percent(CountSide(records, Links), |records|)
    ensures a.percentRight == Percent(CountSide(records, Rechts), |records|)
    ensures a.percentLeft + a.percentRight == 100.0
    ensures a.pct == Percent(WantedCount(records, a.side, pref), |records|)
  {
    var side := PreferredSide(delta, pref);
    var shares := SimulatedShares(records);
    SunShareOfTable(records, side);
    SunShareOfTable(records, side.Other());
    Advice(side, ReportedPct(side, pref, shares.0, shares.1), NearlyAheadOrBehind(delta),
           records, shares.0, shares.1)
  }

  /** The two decisions differ only in the warning and, when shade is asked
      for, in the report, where the intended value is the complement of the
      printed one. */
  lemma DecideVersionsDiffer(delta: real, records: seq<Record>, pref: string)
    requires |records| > 0
    ensures var printed := Decide(delta, records, pref);
            var intended := DecideIntended(delta, records, pref);
            intended == printed.(warn := NearlyAheadOrBehind(delta),
                                 pct := if PrefersShade(pref) then 100.0 - printed.pct
                                        else printed.pct)
  {
  }

  /** `train_sun_side.py` from the bearing on: the advice for one departure.
      A sun below the horizon at departure gives the night message and no
      simulation; otherwise the sides come from the departure sample alone,
      and the simulation supplies the percentages. */
  method Advise(heading: real, sunAt: nat -> SunPosition, steps: nat, pref: string)
    returns (a: Advice)
    ensures a.NightTrip? <==> IsNight(sunAt(0))
    ensures a.Advice? ==>
      var delta := Delta(NormalizeBearing(heading), sunAt(0).azimuth);
      && a == Decide(delta, StepRecords(NormalizeBearing(heading), sunAt, steps), pref)
      && |a.records| == steps + 1
  {
    var bearing := NormalizeBearing(heading);
    var sun := sunAt(0);
    if IsNight(sun) {
      return NightTrip;
    }
    var records, sunLeft := Simulate(bearing, sunAt, steps);
    a := Decide(Delta(bearing, sun.azimuth), records, pref);
  }

  /** The same advice with the intended warning and report. */
  method AdviseIntended(heading: real, sunAt: nat -> SunPosition, steps: nat, pref: string)
    returns (a: Advice)
    ensures a.NightTrip? <==> IsNight(sunAt(0))
    ensures a.Advice? ==>
      var delta := Delta(NormalizeBearing(heading), sunAt(0).azimuth);
      && a == DecideIntended(delta, StepRecords(NormalizeBearing(heading), sunAt, steps), pref)
      && |a.records| == steps + 1
  {
    var bearing := NormalizeBearing(heading);
    var sun := sunAt(0);
    if IsNight(sun) {
      return NightTrip;
    }
    var records, sunLeft := Simulate(bearing, sunAt, steps);
    a := DecideIntended(Delta(bearing, sun.azimuth), records, pref);
  }

  /** The advice as written misreports the shade case: one instant,
      travelling north with the sun due east, shade asked for. The left
      side is recommended and is in the shade at every instant, yet the
      code reports 0 percent and warns of a sun ahead or behind; the
      intended advice reports 100 and does not warn. */
  lemma ShadePctAsWrittenMisreports()
    ensures var records := StepRecords(0.0, _ => SunPosition(90.0, 30.0), 0);
            var printed := Decide(Delta(0.0, 90.0), records, ShadeChoice);
            var intended := DecideIntended(Delta(0.0, 90.0), records, ShadeChoice);
            && printed.side == Links
            && CountSide(records, Rechts) == |records|
            && printed.pct == 0.0 && printed.warn
            && intended.pct == 100.0 && !intended.warn
  {
    Mod360OfAngle(90.0);
    var records := StepRecords(0.0, _ => SunPosition(90.0, 30.0), 0);
    assert records[..0] == [];
    assert records[0].side == Rechts;
  }
}
