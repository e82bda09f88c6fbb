/** Score interpretation shared by the pages: the percentage a probability is shown
    as, the five advisory tiers chosen on it, and the coloured bands of the gauge. */
module ScoreRules {
  import opened Thresholds

  // ---------------------------------------------------------------------------
  // Percentage and tiers
  // ---------------------------------------------------------------------------

  /** `response.json()["prediction"] * 100`, exactly (binary rounding is not modelled). */
  function Percent(raw: real): (p: real)
    ensures raw < 0.0 ==> p < 0.0
    ensures 0.0 <= raw <= 1.0 ==> 0.0 <= p <= 100.0
    ensures raw > 0.0 ==> p > raw
  {
    raw * 100.0
  }

  /** A larger probability gives a larger percentage. */
  lemma PercentStrictlyMonotone(a: real, b: real)
    requires a < b
    ensures Percent(a) < Percent(b)
  {
  }

  /** The five advisory tiers, from the lowest to the highest. */
  datatype Tier = VeryLow | Low | Moderate | High | Excellent

  const Tiers: seq<Tier> := [VeryLow, Low, Moderate, High, Excellent]

  /** Position of a tier in the order above. */
  function TierRank(t: Tier): (r: nat)
    ensures r < |Tiers| && Tiers[r] == t
  {
    match t
    case VeryLow => 0
    case Low => 1
    case Moderate => 2
    case High => 3
    case Excellent => 4
  }

  /** Lower bounds (inclusive) of the tiers from Low on. */
  const TierBounds: seq<real> := [20.0, 40.0, 60.0, 80.0]

  /** The percentages a tier covers: from its lower bound (inclusive) to the next
      tier's lower bound (exclusive). */
  ghost predicate InTier(t: Tier, p: real) {
    var r := TierRank(t);
    (r == 0 || TierBounds[r - 1] <= p) && (r == |TierBounds| || p < TierBounds[r])
  }

  /** The tier of a percentage: one step up for every bound it has reached. */
  function TierOf(p: real): (t: Tier)
    ensures InTier(t, p)
  {
    var k := CountReached(TierBounds, p);
    CountReachedIsGap(TierBounds, p, k);
    Tiers[k]
  }

  /** Every percentage lies in exactly the tier it is given, and in no other. */
  lemma TierOfIff(p: real, t: Tier)
    ensures TierOf(p) == t <==> InTier(t, p)
  {
    CountReachedIsGap(TierBounds, p, TierRank(t));
  }

  /** A larger percentage never gets a lower tier. */
  lemma TierMonotone(p: real, q: real)
    requires p <= q
    ensures TierRank(TierOf(p)) <= TierRank(TierOf(q))
  {
    CountReachedMonotone(TierBounds, p, q);
  }

  /** Bounds belong to the higher tier. */
  lemma TierBoundaries()
    ensures TierOf(80.0) == Excellent && TierOf(79.99) == High
    ensures TierOf(60.0) == High && TierOf(59.99) == Moderate
    ensures TierOf(40.0) == Moderate && TierOf(39.99) == Low
    ensures TierOf(20.0) == Low && TierOf(19.99) == VeryLow
    ensures TierOf(Percent(0.427)) == Moderate
  {
  }

  // The advisory messages, verbatim.
  const ExcellentMessage := "This score indicates an excellent likelihood of loan approval. Congratulations, this is a very strong candidate."
  const HighMessage := "This score indicates a high likelihood of loan approval based on our assessment criteria."
  const ModerateMessage := "This score shows a moderate likelihood of loan approval. There may be some conditions or additional verifications needed."
  const LowMessage := "This score suggests a lower likelihood of loan approval. Consider reviewing the client's details or criteria."
  const VeryLowMessage := "This score indicates a very low likelihood of loan approval. It's advisable to assess if the application aligns with the lending criteria."

  /** The advisory message shown for each tier. */
  function TierMessage(t: Tier): string {
    match t
    case Excellent => ExcellentMessage
    case High => HighMessage
    case Moderate => ModerateMessage
    case Low => LowMessage
    case VeryLow => VeryLowMessage
  }

  lemma MessageLengths()
    ensures |ExcellentMessage| == 112 && |HighMessage| == 89 && |ModerateMessage| == 121
    ensures |LowMessage| == 109 && |VeryLowMessage| == 138
  {
  }

  /** Distinct tiers show distinct messages (they even differ in length), so the
      message identifies the tier. */
  lemma TierMessageInjective(s: Tier, t: Tier)
    requires TierMessage(s) == TierMessage(t)
    ensures s == t
  {
    MessageLengths();
    assert |TierMessage(s)| == |TierMessage(t)|;
  }

  /** What a page shows once the scoring service has answered: the percentage, its
      advisory message and the gauge value, or the failure banner. A failed call is
      never shown as a score. */
  datatype ScoreView = Scored(percent: real, message: string, gauge: real) | ServerError

  // ---------------------------------------------------------------------------
  // Gauge bands
  // ---------------------------------------------------------------------------

  /** One step of the gauge: the range `[lo, hi]` drawn in `color`. */
  datatype Band = Band(lo: real, hi: real, color: string)

  /** The background colour, also used for the divider bands at the tier bounds. */
  const Neutral := "#fffef5"

  /** The colours of the five tier bands, from the lowest tier up. */
  const TierColors: seq<string> := ["#f13c0b", "#fe7900", "#ffcf15", "#88c817", "#01bf11"]

  /** The bands tile `[from, to]` in order: each starts where the previous one ends. */
  predicate Contiguous(bands: seq<Band>, from: real, to: real) {
    && |bands| > 0
    && bands[0].lo == from
    && bands[|bands| - 1].hi == to
    && forall i | 0 <= i < |bands| - 1 :: bands[i].hi == bands[i + 1].lo
  }

  /** No band is reversed. */
  predicate NonEmptyBands(bands: seq<Band>) {
    forall i | 0 <= i < |bands| :: bands[i].lo <= bands[i].hi
  }

  /** `b` is a divider of width `width` centred on `centre`. */
  predicate DividerAt(b: Band, centre: real, width: real) {
    b.color == Neutral && b.hi - b.lo == width && (b.lo + b.hi) / 2.0 == centre
  }

  /** The shape every gauge of the pages has, on a scale where the whole gauge is
      `top`: nine bands tiling `[0, top]`, the even ones in the tier colours and the odd
      ones dividers of width `top / 100` centred on the tier bounds. */
  ghost predicate GaugeShape(bands: seq<Band>, top: real) {
    && |bands| == 9
    && top > 0.0
    && Contiguous(bands, 0.0, top)
    && NonEmptyBands(bands)
    && (forall k | 0 <= k < 5 :: bands[2 * k].color == TierColors[k])
    && (forall k | 0 <= k < 4 :: DividerAt(bands[2 * k + 1], TierBounds[k] * top / 100.0, top / 100.0))
  }

  /** Every point of a contiguous, non-reversed tiling lies in one of its bands. */
  lemma {:induction false} ContiguousCovers(bands: seq<Band>, from: real, to: real, x: real)
    requires Contiguous(bands, from, to) && NonEmptyBands(bands)
    requires from <= x <= to
    ensures exists i | 0 <= i < |bands| :: bands[i].lo <= x <= bands[i].hi
    decreases |bands|
  {
    if x <= bands[0].hi {
      assert bands[0].lo <= x <= bands[0].hi;
    } else {
      var rest := bands[1..];
      assert |bands| > 1;
      assert Contiguous(rest, bands[0].hi, to) by {
        forall i | 0 <= i < |rest| - 1 ensures rest[i].hi == rest[i + 1].lo {
          assert rest[i] == bands[i + 1] && rest[i + 1] == bands[i + 2];
        }
      }
      assert NonEmptyBands(rest) by {
        forall i | 0 <= i < |rest| ensures rest[i].lo <= rest[i].hi {
          assert rest[i] == bands[i + 1];
        }
      }
      ContiguousCovers(rest, bands[0].hi, to, x);
      var j :| 0 <= j < |rest| && rest[j].lo <= x <= rest[j].hi;
      assert bands[j + 1] == rest[j];
    }
  }

  /** Every band of a gauge's table is a sub-range of `[0, top]`. */
  lemma {:induction false} ContiguousWithin(bands: seq<Band>, from: real, to: real, i: nat)
    requires Contiguous(bands, from, to) && NonEmptyBands(bands) && i < |bands|
    ensures from <= bands[i].lo && bands[i].hi <= to
    decreases |bands|
  {
    if |bands| > 1 {
      var rest := bands[1..];
      assert Contiguous(rest, bands[0].hi, to) by {
        forall j | 0 <= j < |rest| - 1 ensures rest[j].hi == rest[j + 1].lo {
          assert rest[j] == bands[j + 1] && rest[j + 1] == bands[j + 2];
        }
      }
      assert NonEmptyBands(rest) by {
        forall j | 0 <= j < |rest| ensures rest[j].lo <= rest[j].hi {
          assert rest[j] == bands[j + 1];
        }
      }
      if i == 0 {
        ContiguousWithin(rest, bands[0].hi, to, 0);
      } else {
        ContiguousWithin(rest, bands[0].hi, to, i - 1);
        assert rest[i - 1] == bands[i];
      }
    }
  }

  /** On a gauge of the pages' shape a value lies on some step exactly when it is
      within `[0, top]`. */
  lemma OnSomeStep(bands: seq<Band>, top: real, x: real)
    requires GaugeShape(bands, top)
    ensures (exists i | 0 <= i < |bands| :: bands[i].lo <= x <= bands[i].hi) <==> 0.0 <= x <= top
  {
    if 0.0 <= x <= top {
      ContiguousCovers(bands, 0.0, top, x);
    } else {
      forall i | 0 <= i < |bands| ensures !(bands[i].lo <= x <= bands[i].hi) {
        ContiguousWithin(bands, 0.0, top, i);
      }
    }
  }

  /** On the percentage scale, every point of the `k`-th coloured band is in the `k`-th
      tier: the colour under the marker agrees with the advisory message. */
  lemma ColourBandTier(bands: seq<Band>, k: nat, p: real)
    requires GaugeShape(bands, 100.0) && k < 5
    requires bands[2 * k].lo <= p <= bands[2 * k].hi
    ensures TierOf(p) == Tiers[k]
  {
    if k > 0 {
      assert DividerAt(bands[2 * k - 1], TierBounds[k - 1], 1.0);
      assert bands[2 * k - 1].hi == bands[2 * k].lo;
    }
    if k < 4 {
      assert DividerAt(bands[2 * k + 1], TierBounds[k], 1.0);
      assert bands[2 * k].hi == bands[2 * k + 1].lo;
    }
    TierOfIff(p, Tiers[k]);
  }
}
