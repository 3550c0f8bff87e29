/** The part of juce::AudioBuffer<float> that processBlock uses directly:
    clearing a range of samples of one channel. The buffer's samples are an
    array indexed by channel, then sample. */
module AudioBuffers {
  /** AudioBuffer::clear(channel, startSample, numSamples): those samples of
      that channel become 0; every other sample keeps its value. */
  method Clear(buffer: array2<real>, channel: nat, startSample: nat, numSamples: nat)
    requires channel < buffer.Length0 && startSample + numSamples <= buffer.Length1
    modifies buffer
    ensures forall ch, s :: 0 <= ch < buffer.Length0 && 0 <= s < buffer.Length1 ==>
      buffer[ch, s] == if ch == channel && startSample <= s < startSample + numSamples then 0.0 else old(buffer[ch, s])
  {
    for n := startSample to startSample + numSamples
      invariant forall ch, s :: 0 <= ch < buffer.Length0 && 0 <= s < buffer.Length1 ==>
        buffer[ch, s] == if ch == channel && startSample <= s < n then 0.0 else old(buffer[ch, s])
    {
      buffer[channel, n] := 0.0;
    }
  }

  /** The loop that opens processBlock: every output channel that has no
      input channel behind it, index totalNumInputChannels up to
      totalNumOutputChannels, is cleared over the whole block; every other
      channel is left as it is. */
  method ClearSurplusOutputs(buffer: array2<real>, totalNumInputChannels: nat, totalNumOutputChannels: nat)
    requires totalNumInputChannels < totalNumOutputChannels ==> totalNumOutputChannels <= buffer.Length0
    modifies buffer
    ensures forall ch, s :: 0 <= ch < buffer.Length0 && 0 <= s < buffer.Length1 ==>
      buffer[ch, s] == if totalNumInputChannels <= ch < totalNumOutputChannels then 0.0 else old(buffer[ch, s])
  {
    var i := totalNumInputChannels;
    while i < totalNumOutputChannels
      invariant i == totalNumInputChannels || totalNumInputChannels < i <= totalNumOutputChannels
      invariant forall ch, s :: 0 <= ch < buffer.Length0 && 0 <= s < buffer.Length1 ==>
        buffer[ch, s] == if totalNumInputChannels <= ch < i then 0.0 else old(buffer[ch, s])
    {
      Clear(buffer, i, 0, buffer.Length1);
      i := i + 1;
    }
  }
}
