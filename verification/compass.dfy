/** Compass arithmetic in degrees.

    Angles are exact reals. The three Python programs work on floating-point degrees
    and use Python's `%`, whose result takes the sign of the (positive)
    divisor; `Mod360` is that operator for the divisor 360. */
module Compass {

  /** A compass angle: degrees clockwise from north, in [0, 360). */
  predicate IsAngle(x: real) {
    0.0 <= x < 360.0
  }

  /** `x % 360` with a non-negative result, as Python computes it for floats. */
  function Mod360(x: real): (r: real)
    ensures IsAngle(r)
    ensures (x - r) / 360.0 == ((x - r) / 360.0).Floor as real
  {
    x - 360.0 * (x / 360.0).Floor as real
  }

  /** `Mod360` is determined by its two properties: any angle that differs
      from `x` by a whole number of turns is `Mod360(x)`. */
  lemma Mod360Unique(x: real, r: real, k: int)
    requires IsAngle(r)
    requires x == r + 360.0 * k as real
    ensures Mod360(x) == r
  {
    assert x / 360.0 == r / 360.0 + k as real;
    assert (x / 360.0).Floor == k;
  }

  /** An angle already in [0, 360) is left unchanged. */
  lemma Mod360OfAngle(x: real)
    requires IsAngle(x)
    ensures Mod360(x) == x
  {
    Mod360Unique(x, x, 0);
  }

  /** Adding whole turns does not change the reduced angle. */
  lemma Mod360Turns(x: real, k: int)
    ensures Mod360(x + 360.0 * k as real) == Mod360(x)
  {
    var q := (x / 360.0).Floor;
    Mod360Unique(x + 360.0 * k as real, Mod360(x), q + k);
  }

  /** Reducing an operand before subtracting does not change the reduced
      difference. */
  lemma Mod360OfDifference(x: real, y: real)
    ensures Mod360(Mod360(x) - Mod360(y)) == Mod360(x - y)
  {
    var p := (x / 360.0).Floor;
    var q := (y / 360.0).Floor;
    assert Mod360(x) - Mod360(y) == (x - y) + 360.0 * (q - p) as real;
    Mod360Turns(x - y, q - p);
  }

  /** The last step of `calc_bearing`: the heading returned by
      `atan2`, in degrees, is shifted by a full turn and reduced, so a
      heading west of north becomes the matching compass bearing. */
  function NormalizeBearing(heading: real): (r: real)
    ensures IsAngle(r)
    ensures -180.0 <= heading < 0.0 ==> r == heading + 360.0
    ensures 0.0 <= heading <= 180.0 ==> r == heading
  {
    var r := Mod360(heading + 360.0);
    if -180.0 <= heading < 0.0 then
      Mod360OfAngle(heading + 360.0);
      r
    else if 0.0 <= heading <= 180.0 then
      Mod360Turns(heading, 1);
      Mod360OfAngle(heading);
      r
    else
      r
  }

  /** Normalising is the same as reducing the heading: the extra full turn
      only keeps the operand positive for headings in [-180, 180]. */
  lemma NormalizeBearingIsReduction(heading: real)
    ensures NormalizeBearing(heading) == Mod360(heading)
  {
    Mod360Turns(heading, 1);
  }

  /** The clockwise angle from the travel bearing to the sun's azimuth,
      `(azimuth - bearing) % 360`. */
  function Delta(bearing: real, azimuth: real): (r: real)
    ensures IsAngle(r)
  {
    Mod360(azimuth - bearing)
  }

  /** For compass angles the delta is the plain difference, wrapped once
      when the azimuth lies counter-clockwise of the bearing. */
  lemma DeltaOfAngles(bearing: real, azimuth: real)
    requires IsAngle(bearing) && IsAngle(azimuth)
    ensures bearing <= azimuth ==> Delta(bearing, azimuth) == azimuth - bearing
    ensures azimuth < bearing ==> Delta(bearing, azimuth) == azimuth - bearing + 360.0
  {
    if bearing <= azimuth {
      Mod360Unique(azimuth - bearing, azimuth - bearing, 0);
    } else {
      Mod360Unique(azimuth - bearing, azimuth - bearing + 360.0, -1);
    }
  }

  /** Turning both the bearing and the azimuth by the same angle leaves the
      delta unchanged: only the relative direction of the sun matters. */
  lemma DeltaRotation(bearing: real, azimuth: real, turn: real)
    ensures Delta(Mod360(bearing + turn), Mod360(azimuth + turn)) == Delta(bearing, azimuth)
  {
    Mod360OfDifference(azimuth + turn, bearing + turn);
    assert (azimuth + turn) - (bearing + turn) == azimuth - bearing;
  }

  /** Travelling the opposite way turns the delta by half a turn. */
  lemma DeltaReversed(bearing: real, azimuth: real)
    ensures Delta(Mod360(bearing + 180.0), azimuth) == Mod360(Delta(bearing, azimuth) - 180.0)
  {
    var p := ((bearing + 180.0) / 360.0).Floor;
    var q := ((azimuth - bearing) / 360.0).Floor;
    assert azimuth - Mod360(bearing + 180.0) == (azimuth - bearing - 180.0) + 360.0 * p as real;
    Mod360Turns(azimuth - bearing - 180.0, p);
    assert Delta(bearing, azimuth) - 180.0 == (azimuth - bearing - 180.0) + 360.0 * (-q) as real;
    Mod360Turns(azimuth - bearing - 180.0, -q);
  }
}
