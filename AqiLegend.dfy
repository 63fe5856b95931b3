/** The collapsible map legend: one row per severity tier, with the AQI range that
    tier covers. */
module AqiLegend {
  import opened Numbers
  import opened Constants
  import opened Aqi

  /** A row's lower bound: 0 for the first tier, the previous tier's max + 1 after. */
  function LowerBound(i: nat): int
    requires i < |AqiBreakpoints|
  {
    if i > 0 then AqiBreakpoints[i - 1].max.n + 1 else 0
  }

  /** `bp.max === Infinity ? `${prevMax}+` : `${prevMax}–${bp.max}``. */
  function RangeLabel(i: nat): string
    requires i < |AqiBreakpoints|
  {
    match AqiBreakpoints[i].max
    case Infinity => IntToString(LowerBound(i)) + "+"
    case Finite(m) => IntToString(LowerBound(i)) + "–" + IntToString(m)
  }

  /** The rows, one per tier in table order. */
  function RangeLabels(): (rows: seq<string>)
    ensures |rows| == |AqiBreakpoints|
  {
    seq(|AqiBreakpoints|, i requires 0 <= i < |AqiBreakpoints| => RangeLabel(i))
  }

  /** The Good row reads 0–50. */
  lemma GoodRowLabel()
    ensures RangeLabel(0) == "0–50"
  {
    assert AqiBreakpoints[0].max == Finite(50);
    assert NatToString(50) == [DigitChar(5), DigitChar(0)];
  }

  /** The Moderate row reads 51–100. */
  lemma ModerateRowLabel()
    ensures RangeLabel(1) == "51–100"
  {
    assert NatToString(51) == [DigitChar(5), DigitChar(1)];
    RowLabel(1, 51, 100, "51", "100");
  }

  /** The Unhealthy for Sensitive row reads 101–150. */
  lemma SensitiveRowLabel()
    ensures RangeLabel(2) == "101–150"
  {
    ThreeDigits(101);
    RowLabel(2, 101, 150, "101", "150");
  }

  /** The Unhealthy row reads 151–200. */
  lemma UnhealthyRowLabel()
    ensures RangeLabel(3) == "151–200"
  {
    ThreeDigits(151);
    RowLabel(3, 151, 200, "151", "200");
  }

  /** The Very Unhealthy row reads 201–300. */
  lemma VeryUnhealthyRowLabel()
    ensures RangeLabel(4) == "201–300"
  {
    ThreeDigits(201);
    RowLabel(4, 201, 300, "201", "300");
  }

  /** The open-ended Hazardous row reads 301+. */
  lemma HazardousRowLabel()
    ensures RangeLabel(5) == "301+"
  {
    assert AqiBreakpoints[4].max == Finite(300) && AqiBreakpoints[5].max == Infinity;
    ThreeDigits(301);
  }

  /** Row `i`, from `lo` to `hi`, reads `slo–shi` when those are the renderings of
      the bounds. */
  lemma RowLabel(i: nat, lo: nat, hi: nat, slo: string, shi: string)
    requires 0 < i < |AqiBreakpoints| - 1 && AqiBreakpoints[i - 1].max == Finite(lo - 1)
    requires AqiBreakpoints[i].max == Finite(hi)
    requires 100 <= hi < 1000 && slo == NatToString(lo) && shi == [DigitChar(hi / 100), DigitChar(hi / 10 % 10), DigitChar(hi % 10)]
    ensures RangeLabel(i) == slo + "–" + shi
  {
    ThreeDigits(hi);
  }

  /** A three-digit number renders as its three digits. */
  lemma ThreeDigits(n: nat)
    requires 100 <= n < 1000
    ensures NatToString(n) == [DigitChar(n / 100), DigitChar(n / 10 % 10), DigitChar(n % 10)]
  {
    assert NatToString(n / 10) == [DigitChar(n / 100), DigitChar(n / 10 % 10)];
  }

  /** The rows tile the non-negative AQIs with neither gap nor overlap: a
      non-negative AQI falls in row `i`'s range exactly when it belongs to tier `i`,
      the tier its colour and label come from. */
  lemma RangesMatchTiers(aqi: int, i: nat)
    requires 0 <= aqi && i < |AqiBreakpoints|
    ensures TierOf(aqi) == i <==> LowerBound(i) <= aqi && Admits(AqiBreakpoints[i], aqi)
  {
    TiersIncreasing();
    var t := TierOf(aqi);
    if t < i {
      assert aqi <= AqiBreakpoints[t].max.n <= AqiBreakpoints[i - 1].max.n;
    } else if t == i && i > 0 {
      assert !Admits(AqiBreakpoints[i - 1], aqi);
    }
  }

  /** The `expanded` flag. */
  class Legend {
    var expanded: bool

    /** The legend starts expanded. */
    constructor ()
      ensures expanded
    {
      expanded := true;
    }

    /** A click on the button flips it. */
    method Toggle()
      modifies this
      ensures expanded == !old(expanded)
    {
      expanded := !expanded;
    }
  }
}
