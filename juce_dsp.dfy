/** The part of JUCE's DSP library that the processor calls but does not
    implement: coefficient design and decibel conversion. Coefficient sets and
    a filter's delay-line state are opaque values here; the design routines are
    handed to the processor as total functions whose only assumed property is
    the number of sections the Butterworth designer returns. */
module JuceDsp {
  /** One second-order section's coefficients (juce::dsp::IIR::Coefficients<float>). */
  type Coeffs(==)

  /** The delay-line state of one juce::dsp::IIR::Filter<float>. */
  type History(==)

  /** The JUCE design calls made by the processor. */
  datatype Designers = Designers(
    // IIR::Coefficients::makePeakFilter(sampleRate, frequency, Q, gainFactor)
    makePeakFilter: (real, real, real, real) -> Coeffs,
    // FilterDesign::designIIRHighpassHighOrderButterworthMethod(frequency, sampleRate, order)
    butterworthHighpass: (real, real, int) -> seq<Coeffs>,
    // Decibels::decibelsToGain(decibels)
    decibelsToGain: real -> real)

  /** What the processor relies on from JUCE's Butterworth designer: an even
      order of at least 2 is returned as order / 2 second-order sections, so
      order 2 gives one section. */
  ghost predicate SectionsPerOrder(d: Designers)
  {
    forall frequency, sampleRate, order ::
      order >= 2 && order % 2 == 0 ==>
        |d.butterworthHighpass(frequency, sampleRate, order)| == order / 2
  }
}
