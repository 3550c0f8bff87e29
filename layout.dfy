/** createParameterLayout: the seven parameters the processor registers, with
    their ranges, defaults and, for the two slope parameters, the choice labels
    built in a loop. */
module ParameterLayout {
  import opened Settings

  /** juce::NormalisableRange<float>(start, end, interval, skew). */
  datatype NormalisableRange = NormalisableRange(start: real, end: real, interval: real, skew: real)

  datatype Parameter =
    | FloatParameter(id: string, name: string, range: NormalisableRange, defaultValue: real)
    | ChoiceParameter(id: string, name: string, choices: seq<string>, defaultIndex: int)

  function DigitChar(d: nat): char
    requires d < 10
  {
    "0123456789"[d]
  }

  /** The decimal text of a non-negative int, as `String << int` writes it. */
  function DecimalString(n: nat): (s: string)
    ensures |s| >= 1 && forall i :: 0 <= i < |s| ==> '0' <= s[i] <= '9'
  {
    if n < 10 then [DigitChar(n)] else DecimalString(n / 10) + [DigitChar(n % 10)]
  }

  /** The number a string of decimal digits denotes. */
  function DecimalValue(s: string): nat
    requires forall i :: 0 <= i < |s| ==> '0' <= s[i] <= '9'
  {
    if s == [] then 0 else 10 * DecimalValue(s[..|s| - 1]) + (s[|s| - 1] - '0') as nat
  }

  /** Reading back the decimal text gives the number written. */
  lemma {:induction false} DecimalRoundTrip(n: nat)
    ensures DecimalValue(DecimalString(n)) == n
  {
    DigitValue(n % 10);
    if n < 10 {
      DecimalValueAppend([], DigitChar(n));
    } else {
      DecimalRoundTrip(n / 10);
      DecimalValueAppend(DecimalString(n / 10), DigitChar(n % 10));
    }
  }

  /** Appending a digit multiplies the value by ten and adds the digit. */
  lemma DecimalValueAppend(front: string, c: char)
    requires forall i :: 0 <= i < |front| ==> '0' <= front[i] <= '9'
    requires '0' <= c <= '9'
    ensures DecimalValue(front + [c]) == 10 * DecimalValue(front) + (c - '0') as nat
  {
  }

  /** The digit character for d stands for d. */
  lemma DigitValue(d: nat)
    requires d < 10
    ensures (DigitChar(d) - '0') as nat == d
  {
  }

  /** The label of slope choice i: 12 + 12 i followed by " db/Oct". */
  function SlopeLabel(i: nat): string
  {
    DecimalString(12 + i * 12) + " db/Oct"
  }

  /** The slope choices, index by index. */
  const SlopeChoices: seq<string> := ["12 db/Oct", "24 db/Oct", "36 db/Oct", "48 db/Oct"]

  const FrequencyRange := NormalisableRange(20.0, 20000.0, 1.0, 0.25)
  const GainRange := NormalisableRange(-24.0, 24.0, 0.5, 1.0)
  const QualityRange := NormalisableRange(0.1, 10.0, 0.05, 1.0)

  /** The layout createParameterLayout returns, parameter by parameter. */
  const ParameterTable: seq<Parameter> := [
    FloatParameter(LowCutFreqId, LowCutFreqId, FrequencyRange, 20.0),
    FloatParameter(HighCutFreqId, HighCutFreqId, FrequencyRange, 750.0),
    FloatParameter(PeakFreqId, PeakFreqId, FrequencyRange, 750.0),
    FloatParameter(PeakGainId, PeakGainId, GainRange, 0.0),
    FloatParameter(PeakQualityId, PeakQualityId, QualityRange, 1.0),
    ChoiceParameter(LowCutSlopeId, LowCutSlopeId, SlopeChoices, 0),
    ChoiceParameter(HighCutSlopeId, HighCutSlopeId, SlopeChoices, 0)]

  /** createParameterLayout: the five float parameters, then the slope labels
      "12 + 12 i" followed by " db/Oct" for i = 0..3, shared by both slope
      choice parameters, each added in turn. */
  method CreateParameterLayout() returns (layout: seq<Parameter>)
    ensures layout == ParameterTable
  {
    layout := [];
    layout := layout + [FloatParameter(LowCutFreqId, LowCutFreqId, NormalisableRange(20.0, 20000.0, 1.0, 0.25), 20.0)];
    layout := layout + [FloatParameter(HighCutFreqId, HighCutFreqId, NormalisableRange(20.0, 20000.0, 1.0, 0.25), 750.0)];
    layout := layout + [FloatParameter(PeakFreqId, PeakFreqId, NormalisableRange(20.0, 20000.0, 1.0, 0.25), 750.0)];
    layout := layout + [FloatParameter(PeakGainId, PeakGainId, NormalisableRange(-24.0, 24.0, 0.5, 1.0), 0.0)];
    layout := layout + [FloatParameter(PeakQualityId, PeakQualityId, NormalisableRange(0.1, 10.0, 0.05, 1.0), 1.0)];

    var stringArray: seq<string> := [];
    for i := 0 to 4
      invariant |stringArray| == i
      invariant forall k :: 0 <= k < i ==> stringArray[k] == SlopeLabel(k)
    {
      var str := DecimalString(12 + i * 12);
      str := str + " db/Oct";
      stringArray := stringArray + [str];
    }
    SlopeLabelsSpelled();
    assert stringArray == SlopeChoices;

    layout := layout + [ChoiceParameter(LowCutSlopeId, LowCutSlopeId, stringArray, 0)];
    layout := layout + [ChoiceParameter(HighCutSlopeId, HighCutSlopeId, stringArray, 0)];
  }

  /** The four labels the loop builds read "12 db/Oct" .. "48 db/Oct". */
  lemma SlopeLabelsSpelled()
    ensures forall k :: 0 <= k < 4 ==> SlopeLabel(k) == SlopeChoices[k]
  {
    forall k | 0 <= k < 4 ensures SlopeLabel(k) == SlopeChoices[k] {
      var n := 12 + k * 12;
      TwoDigits(n);
      if k == 0 {
        assert n / 10 == 1 && n % 10 == 2;
      } else if k == 1 {
        assert n / 10 == 2 && n % 10 == 4;
      } else if k == 2 {
        assert n / 10 == 3 && n % 10 == 6;
      } else {
        assert n / 10 == 4 && n % 10 == 8;
      }
    }
  }

  /** A two-digit number is written as its tens digit, then its units digit. */
  lemma TwoDigits(n: nat)
    requires 10 <= n < 100
    ensures DecimalString(n) == [DigitChar(n / 10), DigitChar(n % 10)]
  {
  }

  /** The label at choice index k names the attenuation of the slope
      enumerator whose value is k, so choosing a label selects that slope. */
  lemma SlopeLabelNamesSlope(s: Slope)
    ensures SlopeChoices[s.Value()] == DecimalString(s.DbPerOctave()) + " db/Oct"
  {
    SlopeLabelsSpelled();
    SlopeNumbering(s, s);
    assert SlopeChoices[s.Value()] == SlopeLabel(s.Value());
  }

  /** A real number with no fractional part. */
  predicate IsWhole(x: real)
  {
    x == x.Floor as real
  }

  /** A parameter is well formed when its range is non-empty with a positive
      step, its default lies in the range on a whole number of steps from the
      start, and a choice default indexes a choice. */
  predicate WellFormed(p: Parameter)
  {
    match p
    case FloatParameter(_, _, r, v) =>
      r.start < r.end && r.interval > 0.0 && r.start <= v <= r.end && IsWhole((v - r.start) / r.interval)
    case ChoiceParameter(_, _, choices, k) =>
      0 <= k < |choices|
  }

  /** No two parameters share an ID. */
  predicate DistinctIds(ps: seq<Parameter>)
  {
    forall i, j :: 0 <= i < j < |ps| ==> ps[i].id != ps[j].id
  }

  /** Every parameter of the layout is well formed, its name is its ID, and
      the IDs are distinct. */
  lemma LayoutWellFormed()
    ensures forall i :: 0 <= i < |ParameterTable| ==> WellFormed(ParameterTable[i])
    ensures forall i :: 0 <= i < |ParameterTable| ==> ParameterTable[i].name == ParameterTable[i].id
    ensures DistinctIds(ParameterTable)
  {
  }

  /** The raw value a parameter holds at its default: the value itself, or the
      choice index as a float. */
  function DefaultRaw(p: Parameter): real
  {
    match p
    case FloatParameter(_, _, _, v) => v
    case ChoiceParameter(_, _, _, k) => k as real
  }

  /** The raw values of a freshly created state tree: every parameter at its
      default, keyed by its ID. */
  function DefaultRawValues(ps: seq<Parameter>): (raw: RawParameters)
    ensures raw.Keys == set i | 0 <= i < |ps| :: ps[i].id
  {
    if ps == [] then map[]
    else
      var rest := DefaultRawValues(ps[..|ps| - 1]);
      assert forall i :: 0 <= i < |ps| - 1 ==> ps[..|ps| - 1][i] == ps[i];
      rest[ps[|ps| - 1].id := DefaultRaw(ps[|ps| - 1])]
  }

  /** With distinct IDs, each parameter's ID looks up its own default. */
  lemma {:induction false} DefaultRawValuesLookup(ps: seq<Parameter>, i: nat)
    requires DistinctIds(ps) && i < |ps|
    ensures DefaultRawValues(ps)[ps[i].id] == DefaultRaw(ps[i])
  {
    var init := ps[..|ps| - 1];
    if i < |ps| - 1 {
      assert init[i] == ps[i];
      assert DistinctIds(init) by {
        forall a, b | 0 <= a < b < |init| ensures init[a].id != init[b].id {
          assert init[a] == ps[a] && init[b] == ps[b];
        }
      }
      DefaultRawValuesLookup(init, i);
    }
  }

  /** Every ID getChainSettings reads is registered, and at the defaults it
      yields low cut 20 Hz, high cut 750 Hz, peak 750 Hz at 0 dB with Q 1, and
      both slopes Slope_12. */
  lemma SettingsAtDefaults()
    ensures HasChainParameters(DefaultRawValues(ParameterTable))
    ensures GetChainSettings(DefaultRawValues(ParameterTable)) ==
      ChainSettings(750.0, 0.0, 1.0, 20.0, 750.0, Slope_12.Value(), Slope_12.Value())
  {
    var t := ParameterTable;
    var raw := DefaultRawValues(t);
    LayoutWellFormed();
    DefaultRawValuesLookup(t, 0);
    DefaultRawValuesLookup(t, 1);
    DefaultRawValuesLookup(t, 2);
    DefaultRawValuesLookup(t, 3);
    DefaultRawValuesLookup(t, 4);
    DefaultRawValuesLookup(t, 5);
    DefaultRawValuesLookup(t, 6);
    assert t[0].id == LowCutFreqId && t[1].id == HighCutFreqId && t[2].id == PeakFreqId;
    assert t[3].id == PeakGainId && t[4].id == PeakQualityId;
    assert t[5].id == LowCutSlopeId && t[6].id == HighCutSlopeId;
  }
}
