# SimpleEQ filter-chain configuration, in Dafny

SimpleEQ is a JUCE audio plugin: a stereo equaliser with a low-cut filter, a
peak filter and a high-cut filter. The processor keeps two mono chains,
`leftChain` and `rightChain`. Each chain has three positions in fixed order:

- LowCut, a cascade of four IIR filters;
- Peak, one IIR filter;
- HighCut, a cascade of four IIR filters.

The only logic the plugin implements itself is the configuration of these
chains. Coefficient design, sample filtering and dB-to-gain conversion are
JUCE library code. This project models that configuration and proves what it
guarantees:

- the Butterworth order requested for each slope;
- the low-cut configure step, which leaves a contiguous prefix of stages in use;
- the unenumerated-slope path, which bypasses every LowCut stage;
- the left/right link, which keeps both channels with the same flags and coefficients;
- the peak update;
- the clearing of surplus output channels;
- the parameter layout, with its ranges, defaults and slope labels.

Modules:

- `Wrappers`: `Option`.
- `JuceDsp`: the JUCE side, kept opaque.
  - `Coeffs` is a coefficient set and `History` a filter's delay-line state. Both are abstract types with equality.
  - `Designers` bundles the three design calls as functions the caller passes in: `makePeakFilter`, `designIIRHighpassHighOrderButterworthMethod` and `decibelsToGain`.
  - `SectionsPerOrder` states the one fact assumed about the Butterworth designer: an even order n yields n/2 second-order sections.
- `Settings`:
  - the `Slope` enum and the `ChainSettings` struct with its defaults;
  - the parameter IDs;
  - `getChainSettings`, as a function of the raw parameter values keyed by ID;
  - the slope-to-order mapping.
- `Cascade`: a cut filter's four stages as values, each holding a bypass flag, coefficients and history.
  - `Configured` is the low-cut configure step, written once.
  - The module also holds the lemmas about that step.
- `Chains`: the processing objects as classes whose methods update them in place.
  - `Filter` holds coefficients and history.
  - `CutFilter` is a ProcessorChain of four filters; it holds the filters inline, each with its bypass flag.
  - `MonoChain` is `CutFilter, Filter, CutFilter`, indexed LowCut = 0, Peak = 1, HighCut = 2.
- `AudioBuffers`: `AudioBuffer::clear` on one channel, and the loop in processBlock that clears surplus output channels.
- `PluginProcessor`: the `SimpleEQAudioProcessor` class with its two chains.
  - It models `prepareToPlay`, `processBlock` up to the point where the chains process the block, `updatePeakFilter` and `updateCoefficients`.
  - `Linked` is the invariant that both chains carry the same flags and coefficients at every position.
- `ParameterLayout`: `createParameterLayout`, with the loop that builds the slope labels and the table of ranges and defaults.

Floating-point values are modelled as reals. The enum cast
`static_cast<Slope>(float)` is modelled as truncation toward zero to an
`int`. A raw value outside (-1, 4) makes that cast undefined in C++, since
`Slope` has no fixed underlying type and its values are exactly 0..3; the model
keeps the truncated integer, as compiled code commonly does.

## Model

| member | source | states |
|---|---|---|
| Settings.Slope.Value | Source/PluginProcessor.h:14-20 | Each enumerator's underlying value lies in 0..3 |
| Settings.SlopeOf | Source/PluginProcessor.h:14-20 | An int names an enumerator exactly when it is in 0..3, and the enumerator it names has that value |
| Settings.SlopeNumbering | Source/PluginProcessor.h:14-20 | Values 0..3 go to 12, 24, 36, 48 dB/oct; numbering is strictly monotone in steepness and injective; each enumerator is recovered from its value |
| Settings.ButterworthOrderOfSlope | Source/PluginProcessor.cpp:147-157 | Order 2*(slope+1) is even, gives slope+1 sections, is 2 for Slope_12 and 8 for Slope_48, and 6 dB/oct per order gives the enumerator's dB/oct |
| Settings.DefaultChainSettingsValues | Source/PluginProcessor.h:22-27 | ChainSettings defaults: every frequency and the gain are 0, the quality is 1, both slopes are Slope_12 |
| Settings.ButterworthOrder | Source/PluginProcessor.cpp:155-157 | The order passed to the Butterworth designer, `2 * (slope + 1)`; what it means for each enumerator is stated by ButterworthOrderOfSlope and ConfiguredMatchesOrder |
| Settings.GetChainSettings | Source/PluginProcessor.cpp:486-499 | Reads each field from the parameter with the same ID and casts the two slopes; it has no contract of its own, and what it guarantees is stated by ChoiceIndexSelectsSlope, SlopeCastDefinedIff and SettingsAtDefaults |
| Settings.TruncateToInt | Source/PluginProcessor.cpp:495 | Float-to-integer conversion discards the fraction toward zero: bounds on both sides for positive and negative inputs |
| Settings.ChoiceIndexSelectsSlope | Source/PluginProcessor.cpp:486-499 | getChainSettings turns a choice index k of either slope parameter into the k-th enumerator |
| Settings.SlopeCastDefinedIff | Source/PluginProcessor.cpp:495-496 | The cast names an enumerator if and only if the raw value lies strictly between -1 and 4 |
| Cascade.BypassAll | Source/PluginProcessor.cpp:162-165 | The four setBypassed<i>(true) calls bypass every stage and change nothing else |
| Cascade.ActivatePrefix | Source/PluginProcessor.cpp:175-210 | Installing section i and un-bypassing stage i for i < n leaves stages below n in use with cut[i] and their history; stages from n on are untouched |
| Cascade.Reset | Source/PluginProcessor.cpp:109-110 | Preparing a cascade resets every stage's history and keeps its flag and coefficients |
| Cascade.Configured | Source/PluginProcessor.cpp:160-211 | After the configure step, stage i is in use iff slope is in 0..3 and i <= slope. A stage in use holds cut[i]; a bypassed stage keeps its coefficients. No history changes |
| Cascade.ConfiguredIsPrefix | Source/PluginProcessor.cpp:169-211 | The stages in use form a contiguous prefix from stage 0, as many as the slope has sections (none for an unknown slope) |
| Cascade.ConfiguredMatchesOrder | Source/PluginProcessor.cpp:155-157 | For an enumerator, the number of stages in use is half the Butterworth order requested |
| Cascade.UnknownSlopeBypassesAll | Source/PluginProcessor.cpp:326-333 | A slope value no enumerator names leaves all four stages bypassed with their coefficients and history unchanged, because the switch has no default case |
| Cascade.ConfiguredIdempotent | Source/PluginProcessor.cpp:324-375 | Running the configure step twice with the same design and slope equals running it once |
| Cascade.ConfiguredForgetsBypass | Source/PluginProcessor.cpp:326-329 | The flags a cascade held before configuration do not affect the result |
| Cascade.ResetPreservesAgreement | Source/PluginProcessor.cpp:109-110 | Preparing two cascades whose flags and coefficients agree keeps them agreeing |
| Cascade.ConfiguredPreservesAgreement | Source/PluginProcessor.cpp:160-259 | Configuring two agreeing cascades with the same design and slope keeps them agreeing, which is what keeps left and right identical |
| Cascade.ConfiguredActiveStagesAgree | Source/PluginProcessor.cpp:324-423 | Whatever two cascades held before, configuring them gives the same flags, and the same coefficients in every stage in use |
| Chains.Filter.constructor | Source/PluginProcessor.h:90 | A filter starts with the given coefficients and history |
| Chains.Filter.Prepare | Source/PluginProcessor.cpp:109-110 | prepare resets the delay line and keeps the coefficients |
| Chains.CutFilter.constructor | Source/PluginProcessor.h:93 | A cut filter has exactly four stages, none bypassed |
| Chains.CutFilter.SetBypassed | Source/PluginProcessor.cpp:162-165 | setBypassed<i>(b) changes stage i's flag and nothing else |
| Chains.CutFilter.SetCoefficients | Source/PluginProcessor.cpp:177 | `*get<i>().coefficients = c` changes stage i's coefficients and nothing else |
| Chains.CutFilter.Configure | Source/PluginProcessor.cpp:160-211 | The in-place configure step, with the four setBypassed calls and the switch without a default, leaves the cascade equal to Configured of its old value |
| Chains.CutFilter.Prepare | Source/PluginProcessor.cpp:109-110 | A loop over the four stages leaves the cascade equal to Reset of its old value |
| Chains.ChainPositionNumbering | Source/PluginProcessor.h:99-104 | The ChainPositions are numbered LowCut = 0, Peak = 1, HighCut = 2, and distinct positions have distinct indices |
| Chains.MonoChain.constructor | Source/PluginProcessor.h:95 | A mono chain holds fresh LowCut, Peak and HighCut objects, with no position bypassed |
| Chains.MonoChain.Prepare | Source/PluginProcessor.cpp:109-110 | prepare on the chain resets every filter's history; flags and coefficients stay |
| AudioBuffers.Clear | Source/PluginProcessor.cpp:313 | buffer.clear(ch, 0, n) zeroes samples [start, start+n) of that channel and changes nothing else |
| AudioBuffers.ClearSurplusOutputs | Source/PluginProcessor.cpp:312-313 | Every sample of each channel in [numInputs, numOutputs) becomes 0; every other channel is unchanged |
| PluginProcessor.PeakDesign | Source/PluginProcessor.cpp:503-508 | The peak design for a sample rate: makePeakFilter of the peak frequency, the quality and the gain converted from decibels; an opaque JUCE result, used by UpdatePeakFilter, PrepareToPlay and ProcessBlock |
| PluginProcessor.LowCutDesign | Source/PluginProcessor.cpp:319-321 | The low-cut Butterworth design for a sample rate, at the order ButterworthOrder gives for the low-cut slope; its length is stated by LowCutDesignCoversSlope |
| PluginProcessor.LowCutDesignCoversSlope | Source/PluginProcessor.cpp:155-157 | Under the section-count assumption, the design for an enumerator has exactly slope+1 sections, enough for the switch to index |
| PluginProcessor.SimpleEQAudioProcessor.constructor | Source/PluginProcessor.h:95-97 | Both chains and all six of their filter objects are fresh and shared with nothing; every filter holds the given state, and no position of either chain is bypassed. So the chains start linked |
| PluginProcessor.SimpleEQAudioProcessor.Linked | Source/PluginProcessor.h:97 | The stereo link: at every position the two chains carry the same bypass flags and coefficients, and only the delay lines differ. The constructor establishes it, and UpdatePeakFilter, PrepareToPlay, ProcessBlock and ConfigureLowCuts preserve it |
| PluginProcessor.SimpleEQAudioProcessor.UpdateCoefficients | Source/PluginProcessor.cpp:518-521 | `*old = *replacements`: the target's coefficients become the replacement and its history is kept; a repeat call changes nothing more |
| PluginProcessor.SimpleEQAudioProcessor.UpdatePeakFilter | Source/PluginProcessor.cpp:501-516 | Both Peak filters hold the one peak design for the host's rate; histories are kept; the chains stay linked |
| PluginProcessor.SimpleEQAudioProcessor.PrepareToPlay | Source/PluginProcessor.cpp:94-260 | After prepare, LowCut on both sides is Configured with the low-cut design for the new rate. Both Peaks hold the peak design for the new rate; the earlier updatePeakFilter write is overwritten. HighCut is only reset. The chains stay linked |
| PluginProcessor.SimpleEQAudioProcessor.ProcessBlock | Source/PluginProcessor.cpp:300-423 | Surplus output channels are cleared. Both LowCuts are Configured with the design for the host's rate, and both Peaks hold the peak design. HighCut and the chain flags are unchanged. The chains stay linked |
| PluginProcessor.SimpleEQAudioProcessor.ConfigureLowCuts | Source/PluginProcessor.cpp:324-423 | One configure method used for the left and then the right LowCut at both call sites; the results are Configured of each old cascade, and the chains stay linked |
| ParameterLayout.DecimalString | Source/PluginProcessor.cpp:559 | `String << int` writes a non-empty string of decimal digits |
| ParameterLayout.DecimalRoundTrip | Source/PluginProcessor.cpp:559 | Reading back the decimal text of n gives n |
| ParameterLayout.CreateParameterLayout | Source/PluginProcessor.cpp:523-570 | The layout is the seven-parameter table, with the slope labels built by the loop |
| ParameterLayout.SlopeLabelsSpelled | Source/PluginProcessor.cpp:555-562 | The loop's labels are "12 db/Oct", "24 db/Oct", "36 db/Oct", "48 db/Oct" |
| ParameterLayout.SlopeLabelNamesSlope | Source/PluginProcessor.cpp:555-565 | The label at choice index k names the dB/oct of the Slope enumerator with value k |
| ParameterLayout.LayoutWellFormed | Source/PluginProcessor.cpp:527-565 | Every range is non-empty with a positive step. Every default lies in its range, a whole number of steps from the start. Choice defaults index a label. Names equal IDs, and IDs are distinct |
| ParameterLayout.DefaultRawValues | Source/PluginProcessor.cpp:527-565 | The raw values at the defaults are keyed by exactly the layout's IDs |
| ParameterLayout.DefaultRawValuesLookup | Source/PluginProcessor.cpp:527-565 | With distinct IDs, each parameter's ID looks up its own default |
| ParameterLayout.SettingsAtDefaults | Source/PluginProcessor.cpp:486-499 | Every ID getChainSettings reads is registered. At the defaults it yields LowCut 20, HighCut 750, Peak 750 Hz at 0 dB with Q 1, and both slopes Slope_12 |

## Left out

- Cascade.UnknownSlopeBypassesAll: outside 0..3 the C++ cast `static_cast<Slope>` is undefined. The model keeps the truncated integer, which matches no case of the switch. The lemma states what compiled code commonly does, not what the language defines.
- Sample filtering is not modelled. This covers `leftChain.process` / `rightChain.process`, the `AudioBlock` and `ProcessContextReplacing` wrappers, and what an IIR filter does to samples. It is JUCE floating-point code, so a filter's delay-line state is an opaque `History`.
- Coefficient design is not modelled. `makePeakFilter`, `designIIRHighpassHighOrderButterworthMethod` and `decibelsToGain` are uninterpreted functions the caller passes in. The only assumption made about them is that the Butterworth designer returns order/2 sections for an even order. Frequency-response claims are out of reach.
- `prepare(spec)` is modelled only as the reset of every filter's delay line to a given cleared state. The block size and channel count it records are JUCE internals.
- getSampleRate() is host state. It is a parameter (`hostSampleRate`) of the methods that read it.
- The parameter tree (`apvts`) is modelled as a map from parameter ID to raw value. The atomic loads and thread interaction between the GUI and the audio thread are concurrency and are left out.
- Floats are modelled as reals, so rounding of the 32-bit values is not captured. This applies to the layout constants such as 0.1 and 0.05, and to the float-to-int cast, which is modelled for any real.
- Settings.ButterworthOrder: `2 * (slope + 1)` is computed on unbounded integers. In C++ a slope value near the int limits could overflow, but such a value cannot come from the float cast of a choice index.
- `ScopedNoDenormals` is left out: it changes only the CPU's floating-point mode.
- The `isClear` flag that JUCE's AudioBuffer keeps is left out. The model clears samples only.
- `isBusesLayoutSupported` is left out. So is the consequence that a mono layout is accepted while processBlock reads channel 1, which belongs to the sample path.
- MIDI, program and name boilerplate, the empty `getStateInformation` / `setStateInformation`, `releaseResources`, `createEditor` and the empty per-channel loop at Source/PluginProcessor.cpp:447-452 are left out. They are host glue or do nothing.
- Source/PluginEditor.cpp is not part of this model. It contains only GUI layout and painting.
- The HighCut cascades are never configured by the source. The model shows them only reset by prepare and untouched by processBlock.
- PluginProcessor.SimpleEQAudioProcessor.ProcessBlock stops before the chains process the block, because that part is JUCE sample processing.
- Settings.GetChainSettings, Settings.ButterworthOrder, PluginProcessor.PeakDesign and PluginProcessor.LowCutDesign have no contract of their own. Each only reads fields or applies an opaque design call. The lemmas named in their rows state what they guarantee.
- updatePeakFilter, updateCoefficients and the `Coefficients` alias are used by Source/PluginProcessor.cpp but not declared in Source/PluginProcessor.h. The model follows their definitions at Source/PluginProcessor.cpp:501-521.
