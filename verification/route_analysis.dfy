/** The multi-point rail advisor (`analyze_points`): walk the polyline of a
    journey, classify every daylight segment with the inclusive rule, count
    left and right, and turn the counts into percentages and a recommended
    side.

    The travel heading between two points (`atan2` on the coordinates) and
    the sun's position at a point (the astronomy library) are oracles given
    as parameters; only the normalisation of the heading to a compass
    bearing is modelled. */
module RouteAnalysis {
  import opened Optional
  import opened Compass
  import opened Sides
  import opened SideCounts

  /** A polyline point of the journey leg: latitude, longitude, instant. */
  datatype Point = Point(lat: real, lon: real, time: int)

  /** What the loop body knows about segment i: the departure instant, the
      bearing to the next point and the sun at the segment's first point. */
  datatype Sample = Sample(time: int, bearing: real, sun: SunPosition)

  /** The result tuple `(records, rec_side, pct, left_pct, right_pct)`.
      With no daylight sample the last two hold the raw counts, both 0. */
  datatype Analysis = Analysis(records: seq<Record>, verdict: Verdict)

  datatype Verdict = Verdict(side: Option<Side>, pct: real, leftPct: real, rightPct: real)

  /** `calc_bearing`: the raw heading from `p` to `q`, normalised to a
      compass bearing. */
  function CalcBearing(heading: (Point, Point) -> real, p: Point, q: Point): (r: real)
    ensures IsAngle(r)
  {
    NormalizeBearing(heading(p, q))
  }

  /** The number of segments of a polyline: one fewer than its points, and
      none for an empty polyline (`range(len(points) - 1)`). */
  function SegmentCount(points: seq<Point>): (n: nat)
    ensures |points| > 0 ==> n + 1 == |points|
    ensures |points| == 0 ==> n == 0
  {
    if |points| == 0 then 0 else |points| - 1
  }

  /** The sample of segment i: it leaves from points[i] and heads for
      points[i + 1]; the sun is taken at points[i]. */
  function SampleOf(points: seq<Point>, i: nat, heading: (Point, Point) -> real,
                    sunAt: Point -> SunPosition): (s: Sample)
    requires i + 1 < |points|
    ensures s.time == points[i].time
    ensures s.bearing == CalcBearing(heading, points[i], points[i + 1]) && IsAngle(s.bearing)
    ensures s.sun == sunAt(points[i])
  {
    Sample(points[i].time, CalcBearing(heading, points[i], points[i + 1]), sunAt(points[i]))
  }

  /** The samples of all segments, in route order. */
  function Samples(points: seq<Point>, heading: (Point, Point) -> real,
                   sunAt: Point -> SunPosition): (s: seq<Sample>)
    ensures |s| == SegmentCount(points)
    ensures forall i :: 0 <= i < |s| ==> s[i] == SampleOf(points, i, heading, sunAt)
  {
    seq(SegmentCount(points), i requires 0 <= i < SegmentCount(points) =>
      SampleOf(points, i, heading, sunAt))
  }

  /** The sun's position at the final point is never consulted: two
      astronomy oracles that agree on every other point give the same
      samples. */
  lemma LastPointNotClassified(points: seq<Point>, heading: (Point, Point) -> real,
                               sunA: Point -> SunPosition, sunB: Point -> SunPosition)
    requires forall i :: 0 <= i < |points| - 1 ==> sunA(points[i]) == sunB(points[i])
    ensures Samples(points, heading, sunA) == Samples(points, heading, sunB)
  {
  }

  /** The record of a daylight sample, classified with the inclusive rule
      `0 <= delta < 180` for the right side. */
  function RecordOf(s: Sample): (r: Record)
    ensures r.side == InclusiveSide(Delta(r.bearing, r.azimuth))
    ensures r.time == s.time && r.bearing == s.bearing && r.azimuth == s.sun.azimuth
  {
    Record(s.time, s.bearing, s.sun.azimuth, InclusiveSide(Delta(s.bearing, s.sun.azimuth)))
  }

  /** The records the loop appends: one per daylight sample, in order;
      night samples are skipped. */
  function Classified(samples: seq<Sample>): (rs: seq<Record>)
    ensures |rs| <= |samples|
  {
    if |samples| == 0 then []
    else
      var init := Classified(samples[..|samples| - 1]);
      var last := samples[|samples| - 1];
      if IsNight(last.sun) then init else init + [RecordOf(last)]
  }

  /** Classification distributes over concatenation of sample runs. */
  lemma {:induction false} ClassifiedAppend(a: seq<Sample>, b: seq<Sample>)
    ensures Classified(a + b) == Classified(a) + Classified(b)
    decreases |b|
  {
    if |b| == 0 {
      assert a + b == a;
    } else {
      assert (a + b)[..|a + b| - 1] == a + b[..|b| - 1];
      ClassifiedAppend(a, b[..|b| - 1]);
    }
  }

  /** A night sample anywhere in the run changes neither the records nor,
      therefore, the left and right counts. */
  lemma NightSampleIgnored(before: seq<Sample>, night: Sample, after: seq<Sample>)
    requires IsNight(night.sun)
    ensures Classified(before + [night] + after) == Classified(before + after)
  {
    ClassifiedAppend(before + [night], after);
    ClassifiedAppend(before, [night]);
    ClassifiedAppend(before, after);
    assert [night][..0] == [];
  }

  /** A daylight sample anywhere in the run adds exactly one record, whose
      side is its classification, and raises exactly that side's count. */
  lemma DaySampleCounted(before: seq<Sample>, day: Sample, after: seq<Sample>, side: Side)
    requires !IsNight(day.sun)
    ensures Classified(before + [day] + after)
            == Classified(before) + [RecordOf(day)] + Classified(after)
    ensures CountSide(Classified(before + [day] + after), side)
            == CountSide(Classified(before + after), side)
               + (if InclusiveSide(Delta(day.bearing, day.sun.azimuth)) == side then 1 else 0)
  {
    ClassifiedAppend(before + [day], after);
    ClassifiedAppend(before, [day]);
    ClassifiedAppend(before, after);
    assert [day][..0] == [];
    CountSideAppend(Classified(before) + [RecordOf(day)], Classified(after), side);
    CountSideAppend(Classified(before), [RecordOf(day)], side);
    CountSideAppend(Classified(before), Classified(after), side);
    assert [RecordOf(day)][..0] == [];
  }

  /** No record at all exactly when every sample is a night sample. */
  lemma {:induction false} NoRecordsIffAllNight(samples: seq<Sample>)
    ensures Classified(samples) == []
            <==> forall i :: 0 <= i < |samples| ==> IsNight(samples[i].sun)
  {
    if |samples| > 0 {
      var init := samples[..|samples| - 1];
      NoRecordsIffAllNight(init);
      if Classified(samples) == [] {
        forall i | 0 <= i < |samples|
          ensures IsNight(samples[i].sun)
        {
          if i < |samples| - 1 {
            assert samples[i] == init[i];
          }
        }
      }
    }
  }

  /** `r` is the record of some daylight sample of the run. */
  ghost predicate FromDaySample(samples: seq<Sample>, r: Record) {
    exists i :: 0 <= i < |samples| && !IsNight(samples[i].sun) && r == RecordOf(samples[i])
  }

  /** Every record comes from a daylight sample of the run. */
  lemma {:induction false} RecordsFromDaySamples(samples: seq<Sample>)
    ensures forall k :: 0 <= k < |Classified(samples)| ==>
              FromDaySample(samples, Classified(samples)[k])
  {
    if |samples| > 0 {
      var n := |samples| - 1;
      var init := samples[..n];
      RecordsFromDaySamples(init);
      forall k | 0 <= k < |Classified(samples)|
        ensures FromDaySample(samples, Classified(samples)[k])
      {
        if k < |Classified(init)| {
          var i :| 0 <= i < |init| && !IsNight(init[i].sun)
                   && Classified(init)[k] == RecordOf(init[i]);
          assert samples[i] == init[i];
          assert Classified(samples)[k] == Classified(init)[k];
        } else {
          assert Classified(samples)[k] == RecordOf(samples[n]);
        }
      }
    }
  }

  /** A transformation of a run of samples for stating a symmetry of the
      rule: every bearing turned by half a turn, at the same instants and
      with the same sun. (The great-circle bearing of the way back is not
      this in general; the transformation only turns each heading.) */
  function Reversed(samples: seq<Sample>): (r: seq<Sample>)
    ensures |r| == |samples|
    ensures forall i :: 0 <= i < |r| ==>
              r[i].time == samples[i].time && r[i].sun == samples[i].sun && IsAngle(r[i].bearing)
  {
    seq(|samples|, i requires 0 <= i < |samples| =>
      samples[i].(bearing := Mod360(samples[i].bearing + 180.0)))
  }

  /** Turning one sample's bearing by half a turn puts its record on the
      other side under the inclusive rule. */
  lemma TurnedSampleSide(s: Sample)
    ensures RecordOf(s.(bearing := Mod360(s.bearing + 180.0))).side == RecordOf(s).side.Other()
  {
    InclusiveSideReversal(s.bearing, s.sun.azimuth);
  }

  /** Turning every bearing by half a turn exchanges the left and right
      counts: the inclusive rule puts every daylight sample on the other
      side. */
  lemma {:induction false} ReversedSwapsCounts(samples: seq<Sample>, side: Side)
    ensures CountSide(Classified(Reversed(samples)), side)
            == CountSide(Classified(samples), side.Other())
  {
    if |samples| > 0 {
      var n := |samples| - 1;
      var last := samples[n];
      var rev := Reversed(samples);
      var turned := last.(bearing := Mod360(last.bearing + 180.0));
      assert rev[..n] == Reversed(samples[..n]);
      assert rev[n] == turned;
      ReversedSwapsCounts(samples[..n], side);
      if !IsNight(last.sun) {
        assert Classified(rev) == Classified(rev[..n]) + [RecordOf(turned)];
        assert Classified(samples) == Classified(samples[..n]) + [RecordOf(last)];
        TurnedSampleSide(last);
        CountSideAppend(Classified(rev[..n]), [RecordOf(turned)], side);
        CountSideAppend(Classified(samples[..n]), [RecordOf(last)], side.Other());
        CountSideSingle(RecordOf(turned), side);
        CountSideSingle(RecordOf(last), side.Other());
      } else {
        assert Classified(rev) == Classified(rev[..n]);
      }
    }
  }

  /** The end of `analyze_points`: percentages and recommendation from
      the two counts.
      Shade preference: the side with the smaller sun share (ties: left),
      reporting its shade share. Sun preference: the side with the larger
      sun share (ties: left), reporting that share. */
  function Recommend(left: nat, right: nat, pref: string): (v: Verdict)
    ensures left + right == 0 ==> v == Verdict(None, 0.0, 0.0, 0.0)
    ensures left + right > 0 ==>
      && v.side.Some?
      && v.leftPct + v.rightPct == 100.0
      && 0.0 <= v.leftPct <= 100.0 && 0.0 <= v.rightPct <= 100.0
      && v.leftPct * (left + right) as real == 100.0 * left as real
      && 50.0 <= v.pct <= 100.0
    ensures left + right > 0 && PrefersShade(pref) ==>
      && (v.side == Some(Links) <==> left <= right)
      && v.pct * (left + right) as real
         == 100.0 * (if v.side == Some(Links) then right else left) as real
    ensures left + right > 0 && !PrefersShade(pref) ==>
      && (v.side == Some(Links) <==> left >= right)
      && v.pct * (left + right) as real
         == 100.0 * (if v.side == Some(Links) then left else right) as real
  {
    var total := left + right;
    if total == 0 then
      Verdict(None, 0.0, left as real, right as real)
    else
      var leftPct := Percent(left, total);
      var rightPct := Percent(right, total);
      PercentSplit(left, right);
      if PrefersShade(pref) then
        if leftPct <= rightPct then Verdict(Some(Links), 100.0 - leftPct, leftPct, rightPct)
        else Verdict(Some(Rechts), 100.0 - rightPct, leftPct, rightPct)
      else
        if leftPct >= rightPct then Verdict(Some(Links), leftPct, leftPct, rightPct)
        else Verdict(Some(Rechts), rightPct, leftPct, rightPct)
  }

  /** Exchanging the counts (as travelling the route backwards does)
      exchanges the recommended side and keeps the reported share, unless
      the counts tie, where both directions recommend the left. */
  lemma RecommendMirror(left: nat, right: nat, pref: string)
    requires left + right > 0
    ensures left != right ==>
      && Recommend(right, left, pref).side == Some(Recommend(left, right, pref).side.value.Other())
      && Recommend(right, left, pref).pct == Recommend(left, right, pref).pct
    ensures left == right ==>
      Recommend(right, left, pref).side == Recommend(left, right, pref).side == Some(Links)
  {
  }

  /** Two daylight samples, one on each side: the tie goes to the left for
      either preference, with half the time in sun and half in shade. */
  lemma EvenSplitGoesLeft(pref: string)
    ensures Recommend(1, 1, pref) == Verdict(Some(Links), 50.0, 50.0, 50.0)
  {
    PercentSplit(1, 1);
  }

  /** `analyze_points`: one pass over the segments of the polyline,
      skipping night samples and counting the sunny side of the rest, then
      the recommendation from the counts. `sunAt` is the sun at a point's
      place and instant, the intent of the dashboard's `sun.azimuth` and
      `sun.elevation` calls, whose argument form is not checked here. */
  method AnalyzePoints(points: seq<Point>, heading: (Point, Point) -> real,
                       sunAt: Point -> SunPosition, pref: string)
    returns (a: Analysis)
    ensures a.records == Classified(Samples(points, heading, sunAt))
    ensures |a.records| <= SegmentCount(points)
    ensures a.verdict == Recommend(CountSide(a.records, Links), CountSide(a.records, Rechts), pref)
    ensures a.verdict.side.None?
            <==> forall i :: 0 <= i < |points| - 1 ==> IsNight(sunAt(points[i]))
  {
    ghost var samples := Samples(points, heading, sunAt);
    var left, right := 0, 0;
    var records := [];
    var i := 0;
    while i < SegmentCount(points)
      invariant 0 <= i <= SegmentCount(points)
      invariant records == Classified(samples[..i])
      invariant left == CountSide(records, Links)
      invariant right == CountSide(records, Rechts)
    {
      var bearing := CalcBearing(heading, points[i], points[i + 1]);
      var sun := sunAt(points[i]);
      assert samples[..i + 1][..i] == samples[..i];
      if !IsNight(sun) {
        var side := InclusiveSide(Delta(bearing, sun.azimuth));
        if side == Rechts {
          right := right + 1;
        } else {
          left := left + 1;
        }
        records := records + [Record(points[i].time, bearing, sun.azimuth, side)];
      }
      i := i + 1;
    }
    assert samples[..i] == samples;
    assert forall j :: 0 <= j < |samples| ==> samples[j].sun == sunAt(points[j]);
    CountSidesSum(records);
    NoRecordsIffAllNight(samples);
    a := Analysis(records, Recommend(left, right, pref));
  }
}
