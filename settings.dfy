/** The parameter types declared in Source/PluginProcessor.h (the Slope enum and
    the ChainSettings struct) and getChainSettings, which fills a ChainSettings
    from the raw parameter values. Floating-point values are modelled as reals. */
module Settings {
  import opened Wrappers

  /** The four cut-filter slopes, in the order the enum declares them. */
  datatype Slope = Slope_12 | Slope_24 | Slope_36 | Slope_48
  {
    /** The enumerator's underlying value: its position in the declaration. */
    function Value(): (v: int)
      ensures 0 <= v <= 3
    {
      match this
      case Slope_12 => 0
      case Slope_24 => 1
      case Slope_36 => 2
      case Slope_48 => 3
    }

    /** The attenuation rate the enumerator's name stands for, in dB per octave. */
    function DbPerOctave(): int
    {
      match this
      case Slope_12 => 12
      case Slope_24 => 24
      case Slope_36 => 36
      case Slope_48 => 48
    }
  }

  /** The enumerator whose underlying value is v, if any. Slope has no fixed
      underlying type, so its values are exactly 0..3; casting anything else
      to it is undefined in C++. None stands for what compiled code commonly
      does instead: keep the converted integer, which no enumerator names. */
  function SlopeOf(v: int): (r: Option<Slope>)
    ensures r.Some? <==> 0 <= v <= 3
    ensures r.Some? ==> r.value.Value() == v
  {
    if v == 0 then Some(Slope_12)
    else if v == 1 then Some(Slope_24)
    else if v == 2 then Some(Slope_36)
    else if v == 3 then Some(Slope_48)
    else None
  }

  /** The enumerators are numbered 0..3 in increasing steepness, 12 dB/oct apart,
      and each is recovered from its value. */
  lemma SlopeNumbering(s: Slope, t: Slope)
    ensures SlopeOf(s.Value()) == Some(s)
    ensures s.DbPerOctave() == 12 * (s.Value() + 1)
    ensures s.Value() < t.Value() <==> s.DbPerOctave() < t.DbPerOctave()
    ensures s.Value() == t.Value() <==> s == t
  {
  }

  /** The order passed to the Butterworth designer for a low-cut slope value. */
  function ButterworthOrder(slope: int): int
  {
    2 * (slope + 1)
  }

  /** Slopes 12, 24, 36, 48 dB/oct ask for orders 2, 4, 6, 8: an even order
      giving one second-order section per enumerator step, and 6 dB/oct per
      order as for any Butterworth filter. */
  lemma ButterworthOrderOfSlope(s: Slope)
    ensures ButterworthOrder(s.Value()) % 2 == 0
    ensures ButterworthOrder(s.Value()) / 2 == s.Value() + 1
    ensures 6 * ButterworthOrder(s.Value()) == s.DbPerOctave()
    ensures s == Slope_12 ==> ButterworthOrder(s.Value()) == 2
    ensures s == Slope_48 ==> ButterworthOrder(s.Value()) == 8
  {
  }

  /** ChainSettings. The slopes are kept as the converted int, so that a raw
      value outside the enum's range (an undefined cast in C++) is kept as the
      integer compiled code commonly holds rather than ruled out. */
  datatype ChainSettings = ChainSettings(
    peakFreq: real, peakGainInDecibels: real, peakQuality: real,
    lowCutFreq: real, highCutFreq: real,
    lowCutSlope: int, highCutSlope: int)

  /** The member initialisers of ChainSettings. */
  const DefaultChainSettings := ChainSettings(0.0, 0.0, 1.0, 0.0, 0.0, Slope_12.Value(), Slope_12.Value())

  /** Every frequency and the gain start at 0, the quality at 1, both slopes at Slope_12. */
  lemma DefaultChainSettingsValues()
    ensures DefaultChainSettings.peakFreq == DefaultChainSettings.lowCutFreq == DefaultChainSettings.highCutFreq == 0.0
    ensures DefaultChainSettings.peakGainInDecibels == 0.0 && DefaultChainSettings.peakQuality == 1.0
    ensures SlopeOf(DefaultChainSettings.lowCutSlope) == Some(Slope_12)
    ensures SlopeOf(DefaultChainSettings.highCutSlope) == Some(Slope_12)
  {
  }

  /** The parameter IDs, as registered by createParameterLayout and read by
      getChainSettings. */
  const LowCutFreqId := "LowCut Freq"
  const HighCutFreqId := "HighCut Freq"
  const PeakFreqId := "Peak Freq"
  const PeakGainId := "Peak Gain"
  const PeakQualityId := "Peak Quality"
  const LowCutSlopeId := "LowCut Slope"
  const HighCutSlopeId := "HighCut Slope"

  /** The raw value of every parameter, by ID, as getRawParameterValue(id)->load()
      returns it. A choice parameter's raw value is its index, as a float. */
  type RawParameters = map<string, real>

  /** getRawParameterValue returns a null pointer for an unknown ID, which
      getChainSettings dereferences: every ID it reads must be present. */
  predicate HasChainParameters(raw: RawParameters)
  {
    LowCutFreqId in raw && HighCutFreqId in raw && PeakFreqId in raw &&
    PeakGainId in raw && PeakQualityId in raw &&
    LowCutSlopeId in raw && HighCutSlopeId in raw
  }

  /** C++ conversion of a floating-point value to an integer type: the
      fractional part is discarded, rounding toward zero. */
  function TruncateToInt(x: real): (n: int)
    ensures x >= 0.0 ==> n >= 0 && n as real <= x < n as real + 1.0
    ensures x < 0.0 ==> n <= 0 && n as real - 1.0 < x <= n as real
  {
    if x >= 0.0 then x.Floor else -((-x).Floor)
  }

  /** getChainSettings: every field is loaded from the parameter of the same
      name; the slopes go through static_cast<Slope>. */
  function GetChainSettings(raw: RawParameters): ChainSettings
    requires HasChainParameters(raw)
  {
    ChainSettings(
      peakFreq := raw[PeakFreqId],
      peakGainInDecibels := raw[PeakGainId],
      peakQuality := raw[PeakQualityId],
      lowCutFreq := raw[LowCutFreqId],
      highCutFreq := raw[HighCutFreqId],
      lowCutSlope := TruncateToInt(raw[LowCutSlopeId]),
      highCutSlope := TruncateToInt(raw[HighCutSlopeId]))
  }

  /** A choice index k of a slope parameter arrives as the k-th enumerator. */
  lemma ChoiceIndexSelectsSlope(raw: RawParameters, s: Slope, t: Slope)
    requires HasChainParameters(raw)
    requires raw[LowCutSlopeId] == s.Value() as real
    requires raw[HighCutSlopeId] == t.Value() as real
    ensures SlopeOf(GetChainSettings(raw).lowCutSlope) == Some(s)
    ensures SlopeOf(GetChainSettings(raw).highCutSlope) == Some(t)
  {
    SlopeNumbering(s, s);
    SlopeNumbering(t, t);
  }

  /** The cast yields an enumerator exactly when the raw value lies strictly
      between -1 and 4. For any other value the C++ cast is undefined; the
      model keeps the truncated integer, which no enumerator names. */
  lemma SlopeCastDefinedIff(raw: RawParameters)
    requires HasChainParameters(raw)
    ensures SlopeOf(GetChainSettings(raw).lowCutSlope).Some? <==> -1.0 < raw[LowCutSlopeId] < 4.0
    ensures SlopeOf(GetChainSettings(raw).highCutSlope).Some? <==> -1.0 < raw[HighCutSlopeId] < 4.0
  {
  }
}
