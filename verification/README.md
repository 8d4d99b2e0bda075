# SunSide: which side of the train is in the sun

SunSide tells a traveller whether to sit on the left ("links") or the right
("rechts") of a train or car, given where the trip goes, when it starts,
and whether they want sun or shade. It comes as three small programs:

- `sun_side_app.py` is a rail dashboard. It takes the polyline of a real
  journey and classifies one sample per segment. Night segments are
  skipped. It counts left and right and recommends a side from the
  percentages.
- `train_sun_side.py` is a straight-line dashboard. It uses one bearing
  from start to destination and the sun at the route's midpoint at
  departure. A "sun nearly ahead/behind" warning can be shown. A
  30-minute simulation supplies the reported percentage.
- `server.py` is a web handler. It makes the same single-sample decision
  and returns an error, a night message, or a side.

All three use the same rule. They take the travel bearing B and the sun's
azimuth A and compute `delta = (A - B) mod 360`. The sun is on the right
when delta lies between 0 and 180, and on the left otherwise. The shaded
side is the other one. A preference text that starts with "Sch"
("Schatten bevorzugen") asks for shade; any other text asks for sun. The
variants differ at `delta == 0`, the sun dead ahead. The rail dashboard
counts it as right (`0 <= delta < 180`). The other two count it as left
(`0 < delta < 180`).

The Dafny model is organised by concern:

| module | file | contents |
|---|---|---|
| `Optional` | optional.dfy | `Option` for absent values |
| `Compass` | compass.dfy | `Mod360` (the source's `%` on floats), bearing normalisation, `Delta` |
| `Sides` | sides.dfy | `Side`, `SunPosition`, the inclusive and strict classifiers, the preference test |
| `SideCounts` | counts.dfy | the per-sample `Record`, counting records per side, percentages |
| `RouteAnalysis` | route_analysis.dfy | `analyze_points` of the rail dashboard |
| `TrainAdvisor` | train_advisor.dfy | the decision and simulation of the straight-line dashboard |
| `WebServer` | web_server.dfy | `calculate` of the web handler |

Angles and percentages are exact `real`s.

Two outside computations are passed in as function parameters:

- the heading from one place to another (the `atan2` step of `calc_bearing`);
- the sun's position for a place and instant (the astronomy library).

The web handler's geocoding and date-parsing outcomes are data instead: the
request carries each place as an `Option` and the date as a `DateField`.

The boundary difference looks unintended. The model keeps both rules, each where the source uses
it. It also proves what separates them:

- they disagree only at delta 0 (`Sides.ClassifiersDisagreeOnlyAhead`);
- the inclusive rule always puts the sun on the other side when the
  direction of travel is reversed (`Sides.InclusiveSideReversal`);
- the strict rule does not do so when the sun is dead ahead or dead
  behind (`Sides.StrictSideReversal`).

The model follows the code. Three consequences stand out:

- the straight-line simulation records night instants too;
- its reported shade percentage is a sun percentage (see Findings);
- with no daylight sample the rail dashboard returns `None` and zero
  values, with no separate night result.

For the two findings below, the code as written is modelled by
`TrainAdvisor.Decide` and `TrainAdvisor.Advise`. The intended behaviour is
modelled by `TrainAdvisor.DecideIntended` and `TrainAdvisor.AdviseIntended`.

## Model

| member | source | states |
|---|---|---|
| Compass.Mod360 | sun_side_app.py:65 | the result of `% 360` is an angle in [0, 360) that differs from its operand by a whole number of turns |
| Compass.Mod360Unique | sun_side_app.py:65 | any angle in [0, 360) that differs from x by whole turns is `x % 360`, so `%` is determined by its two properties |
| Compass.Mod360OfAngle | sun_side_app.py:50 | an angle already in [0, 360) is unchanged by `% 360` |
| Compass.Mod360Turns | sun_side_app.py:50 | adding whole turns does not change `x % 360`, so the `+ 360` in the normalisation is harmless |
| Compass.Mod360OfDifference | server.py:57 | reducing the bearing or the azimuth before subtracting does not change the delta |
| Compass.NormalizeBearing | sun_side_app.py:50 | `(heading + 360) % 360` is a compass angle; a heading in [-180, 0) gains a full turn and one in [0, 180] is kept as is |
| Compass.NormalizeBearingIsReduction | train_sun_side.py:66 | normalising any heading equals reducing it modulo 360 |
| Compass.Delta | sun_side_app.py:65 | the delta between any bearing and any azimuth is a compass angle in [0, 360) |
| Compass.DeltaOfAngles | sun_side_app.py:65 | for compass angles the delta is `azimuth - bearing`, plus 360 when the azimuth is counter-clockwise of the bearing |
| Compass.DeltaRotation | server.py:57 | turning bearing and azimuth by the same angle leaves the delta unchanged |
| Compass.DeltaReversed | train_sun_side.py:83 | reversing the direction of travel turns the delta by half a turn |
| Sides.Side.Other | server.py:58-61 | the other side of a side is never the side itself |
| Sides.Side.Label | sun_side_app.py:66 | a side's label is "links" or "rechts", and it is "links" exactly for the left side |
| Sides.OtherInvolution | server.py:58-61 | the shaded side is never the sunny side, and the other of the other side is the side itself |
| Sides.LabelInjective | sun_side_app.py:66 | the labels "links" and "rechts" name distinct sides |
| Sides.IsNight | sun_side_app.py:63 | a sample is at night exactly when the sun's elevation is negative; the same test guards server.py:55 and train_sun_side.py:80 |
| Sides.InclusiveSide | sun_side_app.py:66 | the rail rule: for a compass delta, left exactly on [180, 360), so the sun dead ahead counts as right |
| Sides.StrictSide | server.py:58 | the rule of the web handler and of train_sun_side.py:84 and :104: for a compass delta, left exactly at 0 and on [180, 360) |
| Sides.InclusiveSideMeaning | sun_side_app.py:66 | the rail rule says right exactly when the sun lies clockwise of the bearing by less than half a turn, dead ahead included |
| Sides.StrictSideMeaning | server.py:58-61 | the strict rule says right exactly when the sun lies strictly clockwise of the bearing by less than half a turn |
| Sides.ClassifiersDisagreeOnlyAhead | sun_side_app.py:66 | the inclusive and the strict rule differ only at delta 0, where the first says right and the second left |
| Sides.InclusiveSideReversal | sun_side_app.py:65-66 | under the inclusive rule, reversing the travel direction always moves the sun to the other side |
| Sides.StrictSideReversal | train_sun_side.py:83-89 | under the strict rule, reversal moves the sun to the other side unless it is dead ahead or behind; there both directions say left |
| Sides.SunAndShade | train_sun_side.py:84-89 | the sunny side is the strict classification and the shaded side is always the other one |
| Sides.PrefersShade | server.py:62 | a preference asks for shade exactly when its first three characters are "Sch" |
| Sides.ChoicesAreClassified | sun_side_app.py:122-124 | "Schatten bevorzugen" asks for shade and "Sonne bevorzugen" for sun; texts shorter than "Sch" ask for sun |
| Sides.PreferredSide | train_sun_side.py:116-123 | shade preference recommends the side that is not sunny; any other preference recommends the sunny side |
| Sides.PreferenceFlipsSide | server.py:62-65 | with the delta fixed, the shade and sun choices recommend opposite sides |
| SideCounts.CountSide | sun_side_app.py:67-70 | a side is counted at most once per record |
| SideCounts.CountSideAppend | sun_side_app.py:67-71 | counts over two runs of records add up |
| SideCounts.CountSideSingle | sun_side_app.py:67-70 | one record raises the count of its own side by one and no other count |
| SideCounts.CountSidesSum | sun_side_app.py:79 | each record is counted for exactly one side, so left + right equals the number of records |
| SideCounts.CountSideAll | sun_side_app.py:67-70 | a side's count equals the number of records exactly when every record names that side |
| SideCounts.Percent | sun_side_app.py:82 | `count / total * 100` times the total is 100 times the count, and lies in [0, 100] |
| SideCounts.PercentSplit | sun_side_app.py:82-83 | the left and right percentages add up to 100, and compare as the counts do |
| RouteAnalysis.CalcBearing | sun_side_app.py:43-50 | the bearing between two polyline points is a compass angle in [0, 360) |
| RouteAnalysis.SegmentCount | sun_side_app.py:57 | a polyline of n > 0 points has n - 1 segments, and an empty one has none |
| RouteAnalysis.SampleOf | sun_side_app.py:58-62 | sample i leaves at point i's instant, heads by the normalised bearing from point i to point i + 1, and sees the sun at point i |
| RouteAnalysis.Samples | sun_side_app.py:57-62 | there is one sample per consecutive pair of points; sample i heads from point i to point i + 1 with the sun at point i |
| RouteAnalysis.LastPointNotClassified | sun_side_app.py:57-62 | the sun at the final point is never consulted: oracles agreeing on the other points give the same samples |
| RouteAnalysis.RecordOf | sun_side_app.py:65-78 | a record keeps the sample's time, bearing and azimuth, and its side is the inclusive classification of their delta |
| RouteAnalysis.Classified | sun_side_app.py:63-78 | there are never more records than samples |
| RouteAnalysis.ClassifiedAppend | sun_side_app.py:57-78 | the records of two consecutive runs of samples are the records of each run, in order |
| RouteAnalysis.NightSampleIgnored | sun_side_app.py:63-64 | a sample with negative elevation anywhere in the run changes neither the records nor the counts |
| RouteAnalysis.DaySampleCounted | sun_side_app.py:65-78 | a daylight sample adds exactly one record, and raises only the count of its own side, by one |
| RouteAnalysis.NoRecordsIffAllNight | sun_side_app.py:79-81 | there are no records exactly when every sample has negative elevation |
| RouteAnalysis.RecordsFromDaySamples | sun_side_app.py:71-78 | every record is the record of some daylight sample of the run |
| RouteAnalysis.Reversed | sun_side_app.py:58-62 | a transformation of the samples, not something the code computes: every bearing turned by half a turn, at the same points, instants and sun |
| RouteAnalysis.TurnedSampleSide | sun_side_app.py:65-66 | turning one sample's bearing by half a turn puts its record on the other side |
| RouteAnalysis.ReversedSwapsCounts | sun_side_app.py:65-70 | with every bearing turned by half a turn, the left and right counts are exchanged |
| RouteAnalysis.Recommend | sun_side_app.py:79-93 | no daylight sample: no side, and all three values 0. Otherwise: percentages in [0, 100] that add to 100; shade picks left iff left <= right and reports the chosen side's shade share; sun picks left iff left >= right and reports its sun share; the report lies in [50, 100] |
| RouteAnalysis.RecommendMirror | sun_side_app.py:84-93 | exchanging the counts exchanges the recommended side and keeps the report, except on a tie, where both say left |
| RouteAnalysis.EvenSplitGoesLeft | sun_side_app.py:85-93 | one left and one right sample: either preference recommends left and reports 50 percent, with both shares at 50 |
| RouteAnalysis.AnalyzePoints | sun_side_app.py:53-94 | the records are the daylight samples' classifications, at most one per segment; the verdict comes from the two counts; there is no side exactly when every classified point is at night |
| TrainAdvisor.WarnAsWritten | train_sun_side.py:91-93 | the warning as written fires exactly for a delta in (70, 110) or (250, 290) |
| TrainAdvisor.NearlyAheadOrBehind | train_sun_side.py:93 | the corrected warning fires exactly for a sun within 20 degrees of dead ahead or dead behind |
| TrainAdvisor.UnwarnedSideIsStable | train_sun_side.py:91-93 | when the corrected warning is silent, moving the sun by less than 20 degrees cannot change the sunny side |
| TrainAdvisor.WarnAsWrittenMisfires | train_sun_side.py:92 | the warning as written fires with the sun exactly abeam, is silent with it dead ahead, and is silent at delta 10, where a 15-degree shift changes the side |
| TrainAdvisor.ReportedPctAsWritten | train_sun_side.py:118 | as written, the reported value is the recommended side's sun share in both branches |
| TrainAdvisor.ReportedPct | train_sun_side.py:116-127 | corrected: for shade the report is the other side's sun share, which is the recommended side's shade share; for sun it is the recommended side's sun share |
| TrainAdvisor.WantedCount | train_sun_side.py:116-124 | the number of instants where the recommended side gets what was asked for is at most the table's length |
| TrainAdvisor.StepRecord | train_sun_side.py:100-112 | the row of a step is classified with the strict rule |
| TrainAdvisor.StepRecords | train_sun_side.py:96-97 | the table has exactly steps + 1 rows, so it is never empty |
| TrainAdvisor.SimulationIgnoresElevation | train_sun_side.py:100-104 | every instant is recorded whatever the elevation: oracles that agree on azimuths give the same table |
| TrainAdvisor.Simulate | train_sun_side.py:96-112 | the loop builds the full table of steps + 1 rows, and `sun_left` is the number of rows whose sunny side is left |
| TrainAdvisor.SimulatedShares | train_sun_side.py:113-114 | the left share is the left rows' percentage; the complement is the right rows' percentage; the two add to 100 |
| TrainAdvisor.SunShareOfTable | train_sun_side.py:118 | each side's share is its own count's percentage of the table |
| TrainAdvisor.Decide | train_sun_side.py:83-127 | as written: the side depends only on the departure delta and the preference; the warning fires exactly for a delta in (70, 110) or (250, 290); the shares are the table's; the report is the recommended side's sun percentage for either preference |
| TrainAdvisor.DecideIntended | train_sun_side.py:83-127 | corrected: same side and shares, the warning fires near the line of travel, and the report is the percentage of instants where the side gets what was asked for |
| TrainAdvisor.DecideVersionsDiffer | train_sun_side.py:91-124 | the two decisions differ only in the warning and, for shade, in the report, where the intended value is 100 minus the printed one |
| TrainAdvisor.Advise | train_sun_side.py:80-127 | as written: night at departure gives the night result and no simulation; otherwise the decision over the full simulated table of steps + 1 rows |
| TrainAdvisor.AdviseIntended | train_sun_side.py:80-127 | corrected: the same flow with the intended decision |
| TrainAdvisor.ShadePctAsWrittenMisreports | train_sun_side.py:92-120 | one instant, heading north, sun due east, shade asked for: left is shaded throughout, yet the code reports 0 percent and warns; the intended advice reports 100 and does not warn |
| WebServer.StatusCode | server.py:38 | status 400 exactly for an invalid date; every other reply has 200 |
| WebServer.InstantOf | server.py:36 | the sun is computed for the parsed date, or for the current time when the field is missing or empty |
| WebServer.Answer | server.py:39-66 | once the date is known: a missing place is the geocoding error, a sun below the horizon the night reply, otherwise the side differs from the strict sunny side exactly when shade is asked for; never the date error |
| WebServer.Calculate | server.py:28-66 | an unparsable date is an error first. Then a missing place is an error. Then a sun below the horizon gives the night reply. Otherwise the side differs from the strict sunny side exactly when the preference asks for shade |
| WebServer.DefaultPreferenceIsShade | server.py:33 | a request without `pref` is answered like one asking for shade |
| WebServer.PreferenceFlipsRecommendation | server.py:62-65 | with all other inputs fixed, shade and sun give opposite sides, and identical non-recommendation replies |

## Findings

| source | as written | input that shows it | evidently intended | confidence | as-written member | corrected member |
|---|---|---|---|---|---|---|
| train_sun_side.py:92-93 | warns when `abs(delta - 90) < 20 or abs(delta - 270) < 20`, with the sun nearly abeam | bearing 0, azimuth 90 (north, sun due east) gives delta 90: the warning "sun nearly ahead/behind" fires while the sun is exactly to the right; delta 0 (sun dead ahead) gives no warning | warn when the sun is within 20 degrees of the line of travel (delta near 0, 180 or 360), where a small change flips the side | medium, not executed | TrainAdvisor.WarnAsWritten (TrainAdvisor.WarnAsWrittenMisfires, TrainAdvisor.Decide) | TrainAdvisor.NearlyAheadOrBehind (TrainAdvisor.UnwarnedSideIsStable, TrainAdvisor.DecideIntended) |
| train_sun_side.py:118-120 | for shade, reports `percent_left if shade_side == "links" else percent_right`, the shaded side's SUN share, as "% der Zeit im Schatten" | one step, bearing 0, azimuth 90, shade asked for: left is recommended and is shaded at the only instant, yet 0 % is reported | report 100 minus that share, the recommended side's shade share, as the rail dashboard does at sun_side_app.py:86-88 | high, not executed | TrainAdvisor.ReportedPctAsWritten (TrainAdvisor.Decide, TrainAdvisor.ShadePctAsWrittenMisreports) | TrainAdvisor.ReportedPct (TrainAdvisor.DecideIntended) |

`TrainAdvisor.Decide` and `TrainAdvisor.Advise` compute what the code
prints, using the as-written members. `TrainAdvisor.DecideIntended` and
`TrainAdvisor.AdviseIntended` use the corrected members.
`TrainAdvisor.DecideVersionsDiffer` states exactly where the two differ.

## Left out

- The trigonometry of `calc_bearing` (`sin`, `cos`, `atan2` in all three files) is left out. Dafny has no trigonometry and this is floating-point numerics. The heading is a parameter, and only the final `(heading + 360) % 360` is modelled.
- Floating-point rounding is left out. Angles and percentages are exact reals, and the `round(..., 1)` / `round(..., 2)` display values in the records are not modelled.
- Solar position (`astral` azimuth and elevation, `LocationInfo`) is an external astronomy library. It is a function parameter from place and instant to `SunPosition`.
- Geodesic distance and midpoint (`geopy.distance.geodesic`) are an external library on floats. The number of 30-minute steps, `int(distance_km / 120 * 2)` at train_sun_side.py:96, is a given natural number. The midpoint appears only through the sun oracle.
- Geocoding and station or journey lookup (`Nominatim`, `HafasClient`, `search_station`, `fetch_journey`) are network I/O. In the web handler the geocoding result is an `Option`. The dashboards' lookups, with their error messages, are not modelled: sun_side_app.py:127-148 and train_sun_side.py:44-54.
- Date parsing and time zones (`fromisoformat`, `pytz`, `strftime`, `timedelta`) are library behaviour. An instant is an opaque `int`, and a parse outcome is an `Option`. The simulation's instants are numbered by step, 30 minutes apart.
- The three-character check on station queries (sun_side_app.py:128-130) is left out. It is input validation of the dashboard form, outside the decision rule.
- All presentation is left out: Streamlit forms and messages, pandas tables, the matplotlib bar chart, folium maps (`create_map`), Flask routing and JSON, and the deployment note.
- RouteAnalysis.AnalyzePoints: the parameter `sunAt` gives the sun at point i, which is what `sun.azimuth(lat, lon, ts)` and `sun.elevation(lat, lon, ts)` at sun_side_app.py:61-62 evidently intend. Their argument form differs from the observer form `azimuth(obs.observer, dt)` used at train_sun_side.py:77-78 and server.py:53-54. If the astronomy library accepts only the observer form, these calls fail before any segment is classified, and the model does not cover that failure. The library is not part of this model.
- WebServer.Calculate: a `pref` field that is present but not a string (JSON `null`, a number) makes `pref.startswith` raise, and Flask answers with a server error. The model's preference is a string when present, so this path is not modelled.
- TrainAdvisor.Advise: the source asks the astronomy library for the departure sun twice, once for the decision and once for step 0 of the simulation. The model uses one oracle value for both, since the two calls take the same place and instant.
