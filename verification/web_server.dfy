/** The web handler `calculate`: read the request, resolve the date and
    both places, and answer with an error, the night message, or the
    recommended side for the sun at the route's midpoint.

    Date parsing, geocoding, the heading between the two places and the
    sun's position at their midpoint are outcomes supplied by the caller;
    the JSON transport is reduced to the reply's kind and status code. */
module WebServer {
  import opened Optional
  import opened Compass
  import opened Sides

  /** A resolved place: latitude and longitude in degrees. */
  datatype Coord = Coord(lat: real, lon: real)

  /** The `datetime` field: absent (the current time is used), or given as
      text whose parsing and localisation either produced an instant or
      failed. An empty text counts as absent, as a missing field does. */
  datatype DateField = Absent | Given(parsed: Option<int>)

  /** The handler's answers: the invalid-date error, the geocoding error,
      the night message, or a recommendation. */
  datatype Reply = InvalidDate | GeocodingFailed | Night | Recommendation(side: Side)

  /** The request as far as the decision needs it: the date field, the
      outcome of geocoding `start` and `dest` (None when a place was not
      found or the lookup failed), and the `pref` field if present. */
  datatype Request = Request(date: DateField, start: Option<Coord>, dest: Option<Coord>,
                             pref: Option<string>)

  /** The preference used when the request carries none. */
  const DefaultPref: string := ShadeChoice

  /** The HTTP status: 400 for an unusable date, the default 200 for every
      other reply, errors included. */
  function StatusCode(reply: Reply): (code: nat)
    ensures code == 400 <==> reply.InvalidDate?
    ensures code == 200 || code == 400
  {
    if reply.InvalidDate? then 400 else 200
  }

  /** The instant the sun is computed for: the parsed date, or the
      current time when the request has none. */
  function InstantOf(date: DateField, now: int): (t: int)
    requires date != Given(None)
    ensures date.Absent? ==> t == now
    ensures date.Given? ==> date.parsed == Some(t)
  {
    match date
    case Absent => now
    case Given(Some(t)) => t
  }

  /** `calculate` once the date is known: both places must be resolved;
      a sun below the horizon gives the night message, otherwise the
      preference picks the sunny or the shaded side under the strict rule. */
  function Answer(req: Request, time: int,
                  heading: (Coord, Coord) -> real,
                  sunAt: (Coord, Coord, int) -> SunPosition): (reply: Reply)
    ensures !reply.InvalidDate?
    ensures reply.GeocodingFailed? <==> req.start.None? || req.dest.None?
    ensures reply.Night? <==>
              req.start.Some? && req.dest.Some?
              && IsNight(sunAt(req.start.value, req.dest.value, time))
    ensures reply.Recommendation? ==>
              var sun := sunAt(req.start.value, req.dest.value, time);
              var bearing := NormalizeBearing(heading(req.start.value, req.dest.value));
              && req.start.Some? && req.dest.Some? && !IsNight(sun)
              && (reply.side != StrictSide(Delta(bearing, sun.azimuth))
                  <==> PrefersShade(req.pref.GetOr(DefaultPref)))
  {
    if req.start.None? || req.dest.None? then GeocodingFailed
    else
      var start, dest := req.start.value, req.dest.value;
      var bearing := NormalizeBearing(heading(start, dest));
      var sun := sunAt(start, dest, time);
      if IsNight(sun) then Night
      else
        var delta := Delta(bearing, sun.azimuth);
        var (sunSide, shadeSide) := SunAndShade(delta);
        Recommendation(if PrefersShade(req.pref.GetOr(DefaultPref)) then shadeSide else sunSide)
  }

  /** `calculate`: the date is checked first, then both places, then the
      sun at the midpoint. */
  function Calculate(req: Request, now: int,
                     heading: (Coord, Coord) -> real,
                     sunAt: (Coord, Coord, int) -> SunPosition): (reply: Reply)
    ensures reply.InvalidDate? <==> req.date == Given(None)
    ensures reply.GeocodingFailed?
            <==> req.date != Given(None) && (req.start.None? || req.dest.None?)
    ensures reply.Night? <==>
              && req.date != Given(None) && req.start.Some? && req.dest.Some?
              && IsNight(sunAt(req.start.value, req.dest.value, InstantOf(req.date, now)))
    ensures reply.Recommendation? ==>
              var sun := sunAt(req.start.value, req.dest.value, InstantOf(req.date, now));
              var bearing := NormalizeBearing(heading(req.start.value, req.dest.value));
              && req.date != Given(None) && req.start.Some? && req.dest.Some?
              && !IsNight(sun)
              && (reply.side != StrictSide(Delta(bearing, sun.azimuth))
                  <==> PrefersShade(req.pref.GetOr(DefaultPref)))
  {
    match req.date
    case Given(None) => InvalidDate
    case Given(Some(t)) => Answer(req, t, heading, sunAt)
    case Absent => Answer(req, now, heading, sunAt)
  }

  /** A request without a preference is answered as one asking for shade. */
  lemma DefaultPreferenceIsShade(req: Request, now: int,
                                 heading: (Coord, Coord) -> real,
                                 sunAt: (Coord, Coord, int) -> SunPosition)
    requires req.pref.None?
    ensures Calculate(req, now, heading, sunAt)
            == Calculate(req.(pref := Some(ShadeChoice)), now, heading, sunAt)
  {
  }

  /** With everything else fixed, asking for shade instead of sun turns a
      recommendation into the opposite side, and leaves every other reply
      as it is. */
  lemma PreferenceFlipsRecommendation(req: Request, now: int,
                                      heading: (Coord, Coord) -> real,
                                      sunAt: (Coord, Coord, int) -> SunPosition)
    ensures var shade := Calculate(req.(pref := Some(ShadeChoice)), now, heading, sunAt);
            var sun := Calculate(req.(pref := Some(SunChoice)), now, heading, sunAt);
            && (shade.Recommendation? <==> sun.Recommendation?)
            && (shade.Recommendation? ==> shade.side == sun.side.Other())
            && (!shade.Recommendation? ==> shade == sun)
  {
    ChoicesAreClassified();
  }
}
