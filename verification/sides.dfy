/** The side of the vehicle, relative to the direction of travel, that the
    sun shines on, and the seat preference that picks between sun and
    shade. The three programs use two classifiers: one counts a delta of 0
    (sun dead ahead) as the right side, the other as the left side. */
module Sides {
  import opened Compass

  /** A side of the vehicle, named as the programs name it ("links", "rechts"). */
  datatype Side = Links | Rechts {

    /** The opposite side. */
    function Other(): (r: Side)
      ensures r != this
    {
      match this
      case Links => Rechts
      case Rechts => Links
    }

    /** The label the programs write into records and messages. */
    function Label(): (r: string)
      ensures r == "links" || r == "rechts"
      ensures (r == "links") <==> Links?
    {
      match this
      case Links => "links"
      case Rechts => "rechts"
    }
  }

  /** The sun's position for one observer and instant, as supplied by the
      astronomy library: azimuth and elevation in degrees. */
  datatype SunPosition = SunPosition(azimuth: real, elevation: real)

  /** A sun below the horizon: the sample belongs to a night trip. */
  predicate IsNight(sun: SunPosition) {
    sun.elevation < 0.0
  }

  /** Taking the other side twice gives back the side. */
  lemma OtherInvolution(s: Side)
    ensures s.Other().Other() == s
    ensures s.Other() != s
  {
  }

  /** The label names the side: no two sides share one. */
  lemma LabelInjective(a: Side, b: Side)
    requires a.Label() == b.Label()
    ensures a == b
  {
  }

  /** Sun on the right for a delta in [0, 180): the multi-point
      aggregator's rule, whose lower boundary is inclusive. */
  function InclusiveSide(delta: real): (r: Side)
    ensures IsAngle(delta) ==> (r == Links <==> 180.0 <= delta)
  {
    if 0.0 <= delta < 180.0 then Rechts else Links
  }

  /** Sun on the right for a delta in (0, 180): the rule of the straight-line
      advisor and of the web handler, whose lower boundary is strict. */
  function StrictSide(delta: real): (r: Side)
    ensures IsAngle(delta) ==> (r == Links <==> delta == 0.0 || 180.0 <= delta)
  {
    if 0.0 < delta < 180.0 then Rechts else Links
  }

  /** The sun is on the right exactly when it lies clockwise of the
      direction of travel by less than half a turn (delta 0 included). */
  lemma InclusiveSideMeaning(bearing: real, azimuth: real)
    requires IsAngle(bearing) && IsAngle(azimuth)
    ensures InclusiveSide(Delta(bearing, azimuth)) == Rechts
            <==> (bearing <= azimuth < bearing + 180.0 || azimuth < bearing - 180.0)
  {
    DeltaOfAngles(bearing, azimuth);
  }

  /** The same for the strict rule, where the sun dead ahead is on the left. */
  lemma StrictSideMeaning(bearing: real, azimuth: real)
    requires IsAngle(bearing) && IsAngle(azimuth)
    ensures StrictSide(Delta(bearing, azimuth)) == Rechts
            <==> (bearing < azimuth < bearing + 180.0 || azimuth < bearing - 180.0)
  {
    DeltaOfAngles(bearing, azimuth);
  }

  /** The two rules disagree only when the sun is dead ahead. */
  lemma ClassifiersDisagreeOnlyAhead(delta: real)
    ensures InclusiveSide(delta) != StrictSide(delta) <==> delta == 0.0
    ensures delta == 0.0 ==> InclusiveSide(delta) == Rechts && StrictSide(delta) == Links
  {
  }

  /** Turning the direction of travel around always puts the sun on the
      other side under the inclusive rule: [0, 180) and [180, 360) are
      exchanged by half a turn. */
  lemma {:induction false} InclusiveSideReversal(bearing: real, azimuth: real)
    ensures InclusiveSide(Delta(Mod360(bearing + 180.0), azimuth))
            == InclusiveSide(Delta(bearing, azimuth)).Other()
  {
    var d := Delta(bearing, azimuth);
    DeltaReversed(bearing, azimuth);
    if d < 180.0 {
      Mod360Unique(d - 180.0, d + 180.0, -1);
    } else {
      Mod360Unique(d - 180.0, d - 180.0, 0);
    }
  }

  /** Under the strict rule the same holds except on the line of travel:
      with the sun dead ahead or dead behind both directions give the left. */
  lemma {:induction false} StrictSideReversal(bearing: real, azimuth: real)
    ensures Delta(bearing, azimuth) != 0.0 && Delta(bearing, azimuth) != 180.0
            ==> StrictSide(Delta(Mod360(bearing + 180.0), azimuth))
                == StrictSide(Delta(bearing, azimuth)).Other()
    ensures Delta(bearing, azimuth) == 0.0 || Delta(bearing, azimuth) == 180.0
            ==> StrictSide(Delta(Mod360(bearing + 180.0), azimuth)) == Links
                && StrictSide(Delta(bearing, azimuth)) == Links
  {
    var d := Delta(bearing, azimuth);
    DeltaReversed(bearing, azimuth);
    if d < 180.0 {
      Mod360Unique(d - 180.0, d + 180.0, -1);
    } else {
      Mod360Unique(d - 180.0, d - 180.0, 0);
    }
  }

  /** The sun-facing and shaded sides under the strict rule, as the pair
      `(sun_side, shade_side)` of `train_sun_side.py` and the web handler. */
  function SunAndShade(delta: real): (r: (Side, Side))
    ensures r.0 != r.1
    ensures r.1 == r.0.Other()
    ensures r.0 == StrictSide(delta)
  {
    if 0.0 < delta < 180.0 then (Rechts, Links) else (Links, Rechts)
  }

  /** A preference asks for shade when its text starts with "Sch"
      ("Schatten bevorzugen"); every other text asks for sun. */
  function PrefersShade(pref: string): (r: bool)
    ensures r <==> |pref| >= 3 && pref[0] == 'S' && pref[1] == 'c' && pref[2] == 'h'
  {
    "Sch" <= pref
  }

  /** The two choices offered to the user. */
  const ShadeChoice: string := "Schatten bevorzugen"
  const SunChoice: string := "Sonne bevorzugen"

  lemma ChoicesAreClassified()
    ensures PrefersShade(ShadeChoice)
    ensures !PrefersShade(SunChoice)
    ensures !PrefersShade("") && !PrefersShade("Sc") && PrefersShade("Sch")
  {
  }

  /** The recommended side for a single sample: the shaded side when the
      preference asks for shade, the sunny side otherwise. */
  function PreferredSide(delta: real, pref: string): (r: Side)
    ensures PrefersShade(pref) ==> r != StrictSide(delta)
    ensures !PrefersShade(pref) ==> r == StrictSide(delta)
  {
    var (sunSide, shadeSide) := SunAndShade(delta);
    if PrefersShade(pref) then shadeSide else sunSide
  }

  /** With everything else fixed, asking for shade instead of sun flips
      the recommended side. */
  lemma PreferenceFlipsSide(delta: real)
    ensures PreferredSide(delta, ShadeChoice) == PreferredSide(delta, SunChoice).Other()
  {
  }
}
