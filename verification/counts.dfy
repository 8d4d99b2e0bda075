/** The per-sample table the dashboards build (time, bearing, azimuth, sunny
    side) and the number of rows that name a given side. */
module SideCounts {
  import opened Sides

  /** One row of the table: `Uhrzeit`/`Zeit`, `Kurs`, `Sonnen-Azimut`,
      `Sonnenseite`. The time has two meanings: in the rail dashboard's
      records it is the polyline point's instant, in the straight-line
      simulation's rows it is the minutes after departure (`30 * i`).
      Rounding for display is not modelled. */
  datatype Record = Record(time: int, bearing: real, azimuth: real, side: Side)

  /** The number of records whose sunny side is `side`. */
  function CountSide(records: seq<Record>, side: Side): (n: nat)
    ensures n <= |records|
  {
    if |records| == 0 then 0
    else
      CountSide(records[..|records| - 1], side)
      + (if records[|records| - 1].side == side then 1 else 0)
  }

  /** Counting distributes over concatenation. */
  lemma {:induction false} CountSideAppend(a: seq<Record>, b: seq<Record>, side: Side)
    ensures CountSide(a + b, side) == CountSide(a, side) + CountSide(b, side)
    decreases |b|
  {
    if |b| == 0 {
      assert a + b == a;
    } else {
      assert (a + b)[..|a + b| - 1] == a + b[..|b| - 1];
      CountSideAppend(a, b[..|b| - 1], side);
    }
  }

  /** A single record is counted for its own side only. */
  lemma CountSideSingle(r: Record, side: Side)
    ensures CountSide([r], side) == if r.side == side then 1 else 0
  {
    assert [r][..0] == [];
  }

  /** Every record names exactly one side, so the two counts add up to the
      number of records. */
  lemma {:induction false} CountSidesSum(records: seq<Record>)
    ensures CountSide(records, Links) + CountSide(records, Rechts) == |records|
  {
    if |records| > 0 {
      CountSidesSum(records[..|records| - 1]);
    }
  }

  /** A side is counted in every record exactly when no record names the
      other side. */
  lemma {:induction false} CountSideAll(records: seq<Record>, side: Side)
    ensures CountSide(records, side) == |records|
            <==> forall k :: 0 <= k < |records| ==> records[k].side == side
  {
    if |records| > 0 {
      var init := records[..|records| - 1];
      CountSideAll(init, side);
      if CountSide(records, side) == |records| {
        forall k | 0 <= k < |records|
          ensures records[k].side == side
        {
          if k < |records| - 1 {
            assert records[k] == init[k];
          }
        }
      } else {
        assert CountSide(init, side) < |init| || records[|records| - 1].side != side;
      }
    }
  }

  /** The share of `count` in `total`, in percent (`count / total * 100`). */
  function Percent(count: nat, total: nat): (p: real)
    requires count <= total && 0 < total
    ensures p * total as real == 100.0 * count as real
    ensures 0.0 <= p <= 100.0
  {
    var q := count as real / total as real;
    assert q * total as real == count as real;
    assert 0.0 <= q <= 1.0 by {
      ProductSign(q, total as real);
      ProductSign(q - 1.0, total as real);
    }
    q * 100.0
  }

  /** The two shares of a split total add up to 100, and the comparison of
      the shares is the comparison of the counts. */
  lemma PercentSplit(left: nat, right: nat)
    requires 0 < left + right
    ensures Percent(left, left + right) + Percent(right, left + right) == 100.0
    ensures Percent(left, left + right) <= Percent(right, left + right) <==> left <= right
    ensures 100.0 - Percent(left, left + right) == Percent(right, left + right)
  {
    var t := (left + right) as real;
    var pl := Percent(left, left + right);
    var pr := Percent(right, left + right);
    assert pl * t == 100.0 * left as real;
    assert pr * t == 100.0 * right as real;
    assert (pl + pr) * t == pl * t + pr * t;
    assert (pl + pr - 100.0) * t == 0.0;
    assert (pl - pr) * t == 100.0 * (left - right) as real;
    ProductSign(pl - pr, t);
    ProductSign(pl + pr - 100.0, t);
  }

  /** Multiplying by a positive factor keeps the sign. */
  lemma ProductSign(x: real, t: real)
    requires t > 0.0
    ensures x * t <= 0.0 <==> x <= 0.0
    ensures x * t == 0.0 <==> x == 0.0
  {
    if x > 0.0 {
      assert x * t > 0.0;
    } else if x < 0.0 {
      assert x * t < 0.0;
    }
  }
}
