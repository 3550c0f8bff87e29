/** SimpleEQAudioProcessor: the two mono chains, and the steps of prepareToPlay
    and processBlock that configure them. Sample filtering itself is JUCE code
    and is not part of this model; the processor's configuration is. */
module PluginProcessor {
  import opened JuceDsp
  import opened Settings
  import opened Cascade
  import opened Chains
  import opened AudioBuffers

  /** The peak filter's coefficients for a sample rate and settings. */
  function PeakDesign(d: Designers, sampleRate: real, s: ChainSettings): Coeffs
  {
    d.makePeakFilter(sampleRate, s.peakFreq, s.peakQuality, d.decibelsToGain(s.peakGainInDecibels))
  }

  /** The low-cut Butterworth design for a sample rate and settings. */
  function LowCutDesign(d: Designers, sampleRate: real, s: ChainSettings): seq<Coeffs>
  {
    d.butterworthHighpass(s.lowCutFreq, sampleRate, ButterworthOrder(s.lowCutSlope))
  }

  /** For a slope enumerator k the design has exactly the k + 1 sections the
      configure step reads. */
  lemma LowCutDesignCoversSlope(d: Designers, sampleRate: real, s: ChainSettings)
    requires SectionsPerOrder(d)
    ensures 0 <= s.lowCutSlope <= 3 ==> |LowCutDesign(d, sampleRate, s)| == s.lowCutSlope + 1
  {
  }

  class SimpleEQAudioProcessor {
    const leftChain: MonoChain
    const rightChain: MonoChain

    /** Two chains that share no object. */
    ghost predicate Valid()
      reads this, leftChain, rightChain, leftChain.lowCut, leftChain.highCut, rightChain.lowCut, rightChain.highCut
    {
      leftChain != rightChain && leftChain.Valid() && rightChain.Valid() &&
      leftChain.peak != rightChain.peak &&
      {leftChain.lowCut, leftChain.highCut} !! {rightChain.lowCut, rightChain.highCut}
    }

    /** Stereo link: at every position the two chains have the same bypass
        flags and coefficients. Only the delay lines differ. */
    ghost predicate Linked()
      reads this, leftChain, rightChain, leftChain.lowCut, leftChain.highCut, rightChain.lowCut, rightChain.highCut
      reads leftChain.peak, rightChain.peak
      requires Valid()
    {
      Agree(leftChain.lowCut.stages, rightChain.lowCut.stages) &&
      leftChain.bypassed == rightChain.bypassed &&
      leftChain.peak.coefficients == rightChain.peak.coefficients &&
      Agree(leftChain.highCut.stages, rightChain.highCut.stages)
    }

    /** Both chains are built with every filter holding the same initial
        coefficients and state and no position bypassed. */
    constructor (c: Coeffs, h: History)
      ensures Valid() && Linked()
      ensures fresh(leftChain) && fresh(leftChain.lowCut) && fresh(leftChain.peak) && fresh(leftChain.highCut)
      ensures fresh(rightChain) && fresh(rightChain.lowCut) && fresh(rightChain.peak) && fresh(rightChain.highCut)
      ensures leftChain.bypassed == rightChain.bypassed == [false, false, false]
      ensures leftChain.lowCut.stages == rightChain.lowCut.stages == [Stage(false, c, h), Stage(false, c, h), Stage(false, c, h), Stage(false, c, h)]
      ensures leftChain.PeakStage() == rightChain.PeakStage() == Stage(false, c, h)
      ensures leftChain.highCut.stages == rightChain.highCut.stages == [Stage(false, c, h), Stage(false, c, h), Stage(false, c, h), Stage(false, c, h)]
    {
      leftChain := new MonoChain(c, h);
      rightChain := new MonoChain(c, h);
    }

    /** updateCoefficients: `*old = *replacements`. Only the coefficient values
        of the target filter change. */
    static method UpdateCoefficients(target: Filter, replacements: Coeffs)
      modifies target
      ensures target.coefficients == replacements
      ensures target.history == old(target.history)
    {
      target.coefficients := replacements;
    }

    /** updatePeakFilter: one peak design, copied into the Peak filter of both
        chains, then copied again through updateCoefficients. */
    method UpdatePeakFilter(chainSettings: ChainSettings, sampleRate: real, d: Designers)
      requires Valid() && Linked()
      modifies leftChain.peak, rightChain.peak
      ensures Valid() && Linked()
      ensures leftChain.peak.coefficients == PeakDesign(d, sampleRate, chainSettings)
      ensures rightChain.peak.coefficients == PeakDesign(d, sampleRate, chainSettings)
      ensures leftChain.peak.history == old(leftChain.peak.history)
      ensures rightChain.peak.history == old(rightChain.peak.history)
    {
      var peakCoefficients := PeakDesign(d, sampleRate, chainSettings);
      leftChain.peak.coefficients := peakCoefficients;
      rightChain.peak.coefficients := peakCoefficients;
      UpdateCoefficients(leftChain.peak, peakCoefficients);
      UpdateCoefficients(rightChain.peak, peakCoefficients);
    }

    /** prepareToPlay: reset both chains, install the peak design for the new
        sample rate, then run the low-cut configure step on the left and on
        the right LowCut with the same design. The Peak filters first receive
        updatePeakFilter's design for the host's current rate; the design for
        the rate passed in overwrites it. HighCut keeps its flags and
        coefficients. */
    method PrepareToPlay(sampleRate: real, samplesPerBlock: int, raw: RawParameters,
                         hostSampleRate: real, d: Designers, cleared: History)
      requires Valid() && Linked() && SectionsPerOrder(d) && HasChainParameters(raw)
      modifies leftChain.lowCut, leftChain.peak, leftChain.highCut
      modifies rightChain.lowCut, rightChain.peak, rightChain.highCut
      ensures Valid() && Linked()
      ensures var s := GetChainSettings(raw);
        && leftChain.lowCut.stages == Configured(Reset(old(leftChain.lowCut.stages), cleared), LowCutDesign(d, sampleRate, s), s.lowCutSlope)
        && rightChain.lowCut.stages == Configured(Reset(old(rightChain.lowCut.stages), cleared), LowCutDesign(d, sampleRate, s), s.lowCutSlope)
        && leftChain.PeakStage() == old(leftChain.PeakStage()).(coeffs := PeakDesign(d, sampleRate, s), history := cleared)
        && rightChain.PeakStage() == old(rightChain.PeakStage()).(coeffs := PeakDesign(d, sampleRate, s), history := cleared)
      ensures leftChain.highCut.stages == Reset(old(leftChain.highCut.stages), cleared)
      ensures rightChain.highCut.stages == Reset(old(rightChain.highCut.stages), cleared)
    {
      leftChain.Prepare(cleared);
      rightChain.Prepare(cleared);
      ResetPreservesAgreement(old(leftChain.lowCut.stages), old(rightChain.lowCut.stages), cleared);
      ResetPreservesAgreement(old(leftChain.highCut.stages), old(rightChain.highCut.stages), cleared);

      var chainSettings := GetChainSettings(raw);
      UpdatePeakFilter(chainSettings, hostSampleRate, d);
      var peakCoefficients := PeakDesign(d, sampleRate, chainSettings);
      leftChain.peak.coefficients := peakCoefficients;
      rightChain.peak.coefficients := peakCoefficients;

      var cutCoefficients := LowCutDesign(d, sampleRate, chainSettings);
      LowCutDesignCoversSlope(d, sampleRate, chainSettings);
      ConfigureLowCuts(cutCoefficients, chainSettings.lowCutSlope);
    }

    /** processBlock, up to the point where the chains process the block:
        clear the surplus output channels, install the peak design for the
        host's current rate, and run the low-cut configure step on the left
        and on the right LowCut with the same design. HighCut is untouched. */
    method ProcessBlock(buffer: array2<real>, totalNumInputChannels: nat, totalNumOutputChannels: nat,
                        raw: RawParameters, hostSampleRate: real, d: Designers)
      requires Valid() && Linked() && SectionsPerOrder(d) && HasChainParameters(raw)
      requires totalNumInputChannels < totalNumOutputChannels ==> totalNumOutputChannels <= buffer.Length0
      modifies buffer, leftChain.lowCut, leftChain.peak, rightChain.lowCut, rightChain.peak
      ensures Valid() && Linked()
      ensures forall ch, s :: 0 <= ch < buffer.Length0 && 0 <= s < buffer.Length1 ==>
        buffer[ch, s] == if totalNumInputChannels <= ch < totalNumOutputChannels then 0.0 else old(buffer[ch, s])
      ensures var s := GetChainSettings(raw);
        && leftChain.lowCut.stages == Configured(old(leftChain.lowCut.stages), LowCutDesign(d, hostSampleRate, s), s.lowCutSlope)
        && rightChain.lowCut.stages == Configured(old(rightChain.lowCut.stages), LowCutDesign(d, hostSampleRate, s), s.lowCutSlope)
        && leftChain.PeakStage() == old(leftChain.PeakStage()).(coeffs := PeakDesign(d, hostSampleRate, s))
        && rightChain.PeakStage() == old(rightChain.PeakStage()).(coeffs := PeakDesign(d, hostSampleRate, s))
      ensures unchanged(leftChain.highCut, rightChain.highCut)
      ensures unchanged(leftChain, rightChain)
    {
      ClearSurplusOutputs(buffer, totalNumInputChannels, totalNumOutputChannels);

      var chainSettings := GetChainSettings(raw);
      UpdatePeakFilter(chainSettings, hostSampleRate, d);

      var cutCoefficients := LowCutDesign(d, hostSampleRate, chainSettings);
      LowCutDesignCoversSlope(d, hostSampleRate, chainSettings);
      ConfigureLowCuts(cutCoefficients, chainSettings.lowCutSlope);
    }

    /** The low-cut configure step applied to the left LowCut, then to the
        right one, with the same design and slope, as both prepareToPlay and
        processBlock write it. */
    method ConfigureLowCuts(cutCoefficients: seq<Coeffs>, slope: int)
      requires Valid() && Linked()
      requires 0 <= slope <= 3 ==> |cutCoefficients| > slope
      modifies leftChain.lowCut, rightChain.lowCut
      ensures Valid() && Linked()
      ensures leftChain.lowCut.stages == Configured(old(leftChain.lowCut.stages), cutCoefficients, slope)
      ensures rightChain.lowCut.stages == Configured(old(rightChain.lowCut.stages), cutCoefficients, slope)
    {
      leftChain.lowCut.Configure(cutCoefficients, slope);
      rightChain.lowCut.Configure(cutCoefficients, slope);
      ConfiguredPreservesAgreement(old(leftChain.lowCut.stages), old(rightChain.lowCut.stages), cutCoefficients, slope);
    }
  }
}
