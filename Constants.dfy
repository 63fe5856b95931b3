/** The AQI severity tiers (upper bound, colour, label) and the named colour table. */
module Constants {

  /** A tier's inclusive upper bound; the last tier's is `Infinity`. */
  datatype Bound = Finite(n: int) | Infinity

  datatype Tier = Tier(max: Bound, color: string, labelText: string)

  /** `aqi <= bp.max`. */
  predicate Admits(t: Tier, aqi: int) {
    t.max.Infinity? || aqi <= t.max.n
  }

  const AqiBreakpoints: seq<Tier> := [
    Tier(Finite(50), "#22c55e", "Good"),
    Tier(Finite(100), "#eab308", "Moderate"),
    Tier(Finite(150), "#f97316", "Unhealthy for Sensitive"),
    Tier(Finite(200), "#ef4444", "Unhealthy"),
    Tier(Finite(300), "#a855f7", "Very Unhealthy"),
    Tier(Infinity, "#7c3aed", "Hazardous")
  ]

  /** The `AQI_COLORS` record, entries in declaration order. */
  const AqiColors: seq<(string, string)> := [
    ("good", "#22c55e"),
    ("moderate", "#eab308"),
    ("unhealthySensitive", "#f97316"),
    ("unhealthy", "#ef4444"),
    ("veryUnhealthy", "#a855f7"),
    ("hazardous", "#7c3aed")
  ]

  predicate IsHexDigit(c: char) {
    ('0' <= c <= '9') || ('a' <= c <= 'f') || ('A' <= c <= 'F')
  }

  /** `/^#[0-9a-f]{6}$/i`. */
  predicate IsHexColor(s: string) {
    |s| == 7 && s[0] == '#' && forall i :: 1 <= i < 7 ==> IsHexDigit(s[i])
  }

  /** Six tiers; the first five bounds are finite and strictly increasing
      (50, 100, 150, 200, 300) and only the last is unbounded. */
  lemma TiersIncreasing()
    ensures |AqiBreakpoints| == 6
    ensures forall i :: 0 <= i < 5 ==> AqiBreakpoints[i].max.Finite?
    ensures AqiBreakpoints[5].max == Infinity
    ensures forall i, j :: 0 <= i < j < 5 ==> AqiBreakpoints[i].max.n < AqiBreakpoints[j].max.n
    ensures AqiBreakpoints[0].max.n == 50 && AqiBreakpoints[4].max.n == 300
  {
  }

  /** Because the last bound is `Infinity`, every AQI is admitted by some tier. */
  lemma LastTierAdmitsAll(aqi: int)
    ensures Admits(AqiBreakpoints[|AqiBreakpoints| - 1], aqi)
  {
  }

  /** Every tier colour is a six-digit hex colour. */
  lemma TierColorsAreHex()
    ensures forall i :: 0 <= i < |AqiBreakpoints| ==> IsHexColor(AqiBreakpoints[i].color)
  {
    forall i | 0 <= i < |AqiBreakpoints| ensures IsHexColor(AqiBreakpoints[i].color) {
      var c := AqiBreakpoints[i].color;
      assert c[0] == '#' && IsHexDigit(c[1]) && IsHexDigit(c[2]) && IsHexDigit(c[3])
        && IsHexDigit(c[4]) && IsHexDigit(c[5]) && IsHexDigit(c[6]);
    }
  }

  /** The colour record lists the tier colours, in tier order, and the tier labels
      are pairwise distinct. */
  lemma ColorsMatchTiers()
    ensures |AqiColors| == |AqiBreakpoints|
    ensures forall i :: 0 <= i < |AqiColors| ==> AqiColors[i].1 == AqiBreakpoints[i].color
    ensures forall i, j :: 0 <= i < j < |AqiBreakpoints| ==> AqiBreakpoints[i].labelText != AqiBreakpoints[j].labelText
  {
  }
}
