/** The AQI badge: the number on the tier colour, a pulse for unhealthy air, and a
    label that may be hidden or shortened to fit. */
module AqiBadge {
  import opened Numbers
  import opened Types
  import opened Constants
  import opened Aqi

  datatype Size = Sm | Md | Lg

  /** The badge's own label lookup, searching the table from tier `i` on and
      falling back to 'Hazardous'. */
  function LabelFrom(aqi: int, i: nat): string
    requires i <= |AqiBreakpoints|
    decreases |AqiBreakpoints| - i
  {
    if i == |AqiBreakpoints| then "Hazardous"
    else if Admits(AqiBreakpoints[i], aqi) then AqiBreakpoints[i].labelText
    else LabelFrom(aqi, i + 1)
  }

  /** `getAQILabel` of the badge. */
  function BadgeLabel(aqi: int): string {
    LabelFrom(aqi, 0)
  }

  /** Searching from a tier no later than the AQI's own finds that tier's label. */
  lemma {:induction false} LabelFromTier(aqi: int, i: nat)
    requires i <= TierOf(aqi)
    ensures LabelFrom(aqi, i) == AqiBreakpoints[TierOf(aqi)].labelText
    decreases |AqiBreakpoints| - i
  {
    if i < TierOf(aqi) {
      LabelFromTier(aqi, i + 1);
    }
  }

  /** The badge's label is the one `getAQILabel` gives. */
  lemma BadgeLabelIsGetAqiLabel(aqi: int)
    ensures BadgeLabel(aqi) == GetAqiLabel(aqi)
  {
    LabelFromTier(aqi, 0);
  }

  /** `isUnhealthy`: the pulse animation is on. */
  predicate Pulses(aqi: int) {
    aqi > 150
  }

  /** The badge pulses exactly from the 'Unhealthy' tier on. */
  lemma PulsesFromUnhealthyTier(aqi: int)
    ensures Pulses(aqi) <==> TierOf(aqi) >= 3
    ensures Pulses(aqi) <==> BadgeLabel(aqi) in ["Unhealthy", "Very Unhealthy", "Hazardous"]
  {
    BadgeLabelIsGetAqiLabel(aqi);
  }

  /** `showLabel ?? (size !== 'sm')`. */
  function ShouldShowLabel(size: Size, showLabel: Option<bool>): bool {
    Override(showLabel, size != Sm)
  }

  /** An explicit choice wins; otherwise 'md' and 'lg' show the label and 'sm' hides it. */
  lemma ShouldShowLabelCases(size: Size, showLabel: Option<bool>)
    ensures showLabel.Some? ==> ShouldShowLabel(size, showLabel) == showLabel.value
    ensures showLabel.None? ==> (ShouldShowLabel(size, showLabel) <==> size != Sm)
  {
  }

  /** Position of the first space in `s`, or |s|. */
  function SpaceAt(s: string): (k: nat)
    ensures k <= |s|
    ensures k < |s| ==> s[k] == ' '
    ensures forall j :: 0 <= j < k ==> s[j] != ' '
    decreases |s|
  {
    if s == [] then 0 else if s[0] == ' ' then 0 else 1 + SpaceAt(s[1..])
  }

  /** `label.split(' ')[0]`. */
  function FirstWord(s: string): string {
    s[..SpaceAt(s)]
  }

  /** `label.length > 12 ? label.split(' ')[0] : label`. */
  function ShownLabel(lbl: string): (shown: string)
    ensures shown <= lbl
    ensures |lbl| > 12 ==> ' ' !in shown
    ensures |lbl| <= 12 ==> shown == lbl
  {
    if |lbl| > 12 then FirstWord(lbl) else lbl
  }

  /** The first word of `w + " " + rest` is `w`. */
  lemma {:induction false} FirstWordOf(w: string, rest: string)
    requires ' ' !in w
    ensures FirstWord(w + " " + rest) == w
    decreases |w|
  {
    var s := w + " " + rest;
    if w == [] {
      assert s[0] == ' ';
    } else {
      assert s[1..] == w[1..] + " " + rest;
      FirstWordOf(w[1..], rest);
    }
  }

  /** The tier labels of at most 12 characters are shown whole ... */
  lemma ShortTierLabelsKept()
    ensures ShownLabel("Good") == "Good" && ShownLabel("Moderate") == "Moderate"
    ensures ShownLabel("Unhealthy") == "Unhealthy" && ShownLabel("Hazardous") == "Hazardous"
  {
  }

  /** ... and only the two longer ones are cut to their first word: "Unhealthy for
      Sensitive" shows as "Unhealthy" ... */
  lemma SensitiveLabelCut()
    ensures ShownLabel("Unhealthy for Sensitive") == "Unhealthy"
  {
    LongLabelCut("Unhealthy", "for Sensitive");
    assert "Unhealthy for Sensitive" == "Unhealthy" + " " + "for Sensitive";
  }

  /** ... and "Very Unhealthy" as "Very". */
  lemma VeryUnhealthyLabelCut()
    ensures ShownLabel("Very Unhealthy") == "Very"
  {
    LongLabelCut("Very", "Unhealthy");
    assert "Very Unhealthy" == "Very" + " " + "Unhealthy";
  }

  /** A label longer than 12 characters is shown as the word before its first space. */
  lemma LongLabelCut(w: string, rest: string)
    requires ' ' !in w && |w| + 1 + |rest| > 12
    ensures ShownLabel(w + " " + rest) == w
  {
    FirstWordOf(w, rest);
  }

  /** `AQI: ${aqi} — ${label}`. */
  function AriaLabel(aqi: int, lbl: string): string {
    "AQI: " + IntToString(aqi) + " — " + lbl
  }

  /** The accessible label carries the full, untruncated label at its end, and for
      a non-negative AQI the digits after "AQI: " read back as the AQI. */
  lemma AriaLabelParts(aqi: int, lbl: string)
    ensures var a := AriaLabel(aqi, lbl);
      a[|a| - |lbl|..] == lbl && a[..5] == "AQI: "
    ensures aqi >= 0 ==>
      var a := AriaLabel(aqi, lbl);
      var n := |NatToString(aqi)|;
      5 + n <= |a| && ParseDigits(NatToString(aqi)) == aqi && a[5..5 + n] == NatToString(aqi)
  {
    var a := AriaLabel(aqi, lbl);
    var mid := "AQI: " + IntToString(aqi) + " — ";
    assert a == mid + lbl;
    assert a[|a| - |lbl|..] == lbl;
    assert a[..5] == mid[..5];
    if aqi >= 0 {
      var n := |NatToString(aqi)|;
      assert mid == "AQI: " + NatToString(aqi) + " — ";
      assert a[5..5 + n] == mid[5..5 + n];
      NatToStringRoundTrip(aqi);
    }
  }
}
