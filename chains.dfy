/** The processing objects declared in Source/PluginProcessor.h:
    Filter (juce::dsp::IIR::Filter<float>), CutFilter (a ProcessorChain of four
    Filters) and MonoChain (a ProcessorChain of CutFilter, Filter, CutFilter).
    A ProcessorChain keeps one bypass flag per link; a Filter owns its
    coefficients and its delay-line state. */
module Chains {
  import opened JuceDsp
  import opened Settings
  import opened Cascade

  /** One IIR filter: its coefficient set and its delay-line state. */
  class Filter {
    var coefficients: Coeffs
    var history: History

    constructor (c: Coeffs, h: History)
      ensures coefficients == c && history == h
    {
      coefficients := c;
      history := h;
    }

    /** Filter::prepare: the delay line is reset; coefficients stay. */
    method Prepare(cleared: History)
      modifies this
      ensures history == cleared && coefficients == old(coefficients)
    {
      history := cleared;
    }
  }

  /** CutFilter: a ProcessorChain of four filters. The chain holds its
      filters inline, each with the chain's bypass flag for it, so its state
      is the four stages as values: get<i>() is stage i. */
  class CutFilter {
    var stages: seq<Stage>

    ghost predicate Valid()
      reads this
    {
      |stages| == CutStages
    }

    /** A new chain holds four filters with the given state, none bypassed. */
    constructor (c: Coeffs, h: History)
      ensures Valid()
      ensures stages == [Stage(false, c, h), Stage(false, c, h), Stage(false, c, h), Stage(false, c, h)]
    {
      stages := [Stage(false, c, h), Stage(false, c, h), Stage(false, c, h), Stage(false, c, h)];
    }

    /** setBypassed<i>(b). */
    method SetBypassed(i: nat, b: bool)
      requires Valid() && i < CutStages
      modifies this
      ensures Valid() && stages == Cascade.SetBypassed(old(stages), i, b)
    {
      stages := stages[i := stages[i].(bypassed := b)];
    }

    /** `*get<i>().coefficients = c`: the coefficient values are copied into
        stage i's own coefficient object. */
    method SetCoefficients(i: nat, c: Coeffs)
      requires Valid() && i < CutStages
      modifies this
      ensures Valid() && stages == Install(old(stages), i, c)
    {
      stages := stages[i := stages[i].(coeffs := c)];
    }

    /** The low-cut configure step, written out once for both channels and
        both call sites: bypass every stage, then switch on the slope with one
        case per enumerator and no default case. */
    method Configure(cut: seq<Coeffs>, slope: int)
      requires Valid()
      requires 0 <= slope <= 3 ==> |cut| > slope
      modifies this
      ensures Valid() && stages == Configured(old(stages), cut, slope)
    {
      SetBypassed(0, true);
      SetBypassed(1, true);
      SetBypassed(2, true);
      SetBypassed(3, true);
      match SlopeOf(slope)
      case Some(Slope_12) =>
        SetCoefficients(0, cut[0]);
        SetBypassed(0, false);
      case Some(Slope_24) =>
        SetCoefficients(0, cut[0]);
        SetBypassed(0, false);
        SetCoefficients(1, cut[1]);
        SetBypassed(1, false);
      case Some(Slope_36) =>
        SetCoefficients(0, cut[0]);
        SetBypassed(0, false);
        SetCoefficients(1, cut[1]);
        SetBypassed(1, false);
        SetCoefficients(2, cut[2]);
        SetBypassed(2, false);
      case Some(Slope_48) =>
        SetCoefficients(0, cut[0]);
        SetBypassed(0, false);
        SetCoefficients(1, cut[1]);
        SetBypassed(1, false);
        SetCoefficients(2, cut[2]);
        SetBypassed(2, false);
        SetCoefficients(3, cut[3]);
        SetBypassed(3, false);
      case None =>
    }

    /** ProcessorChain::prepare: every filter's delay line is reset; flags and
        coefficients stay. */
    method Prepare(cleared: History)
      requires Valid()
      modifies this
      ensures Valid() && stages == Reset(old(stages), cleared)
    {
      for n := 0 to CutStages
        invariant |stages| == CutStages
        invariant forall i :: 0 <= i < n ==> stages[i] == old(stages[i]).(history := cleared)
        invariant forall i :: n <= i < CutStages ==> stages[i] == old(stages[i])
      {
        stages := stages[n := stages[n].(history := cleared)];
      }
    }
  }

  /** ChainPositions: the positions of a MonoChain, in series order. */
  datatype ChainPosition = LowCut | Peak | HighCut
  {
    /** The enumerator's underlying value, which get<i>() takes as index. */
    function Index(): (i: nat)
      ensures i < 3
    {
      match this
      case LowCut => 0
      case Peak => 1
      case HighCut => 2
    }
  }

  /** The positions are numbered LowCut = 0, Peak = 1, HighCut = 2, and each
      index names one position. */
  lemma ChainPositionNumbering(p: ChainPosition, q: ChainPosition)
    ensures LowCut.Index() == 0 && Peak.Index() == 1 && HighCut.Index() == 2
    ensures p.Index() == q.Index() <==> p == q
  {
  }

  /** MonoChain: LowCut, Peak and HighCut in fixed series order, with the
      chain's own bypass flag per position, indexed by ChainPosition (nothing
      in the processor sets these). */
  class MonoChain {
    const lowCut: CutFilter
    const peak: Filter
    const highCut: CutFilter
    var bypassed: seq<bool>

    /** LowCut and HighCut are distinct chains. */
    ghost predicate Valid()
      reads this, lowCut, highCut
    {
      lowCut != highCut && lowCut.Valid() && highCut.Valid() && |bypassed| == 3
    }

    /** The Peak position as a stage: the chain's flag and the filter's state. */
    ghost function PeakStage(): Stage
      reads this, peak
      requires |bypassed| == 3
    {
      Stage(bypassed[Peak.Index()], peak.coefficients, peak.history)
    }

    constructor (c: Coeffs, h: History)
      ensures Valid() && fresh(lowCut) && fresh(peak) && fresh(highCut)
      ensures lowCut.stages == [Stage(false, c, h), Stage(false, c, h), Stage(false, c, h), Stage(false, c, h)]
      ensures highCut.stages == [Stage(false, c, h), Stage(false, c, h), Stage(false, c, h), Stage(false, c, h)]
      ensures bypassed == [false, false, false] && peak.coefficients == c && peak.history == h
    {
      lowCut := new CutFilter(c, h);
      peak := new Filter(c, h);
      highCut := new CutFilter(c, h);
      bypassed := [false, false, false];
    }

    /** ProcessorChain::prepare on the whole chain: every filter's delay line is
        reset, nothing else changes. */
    method Prepare(cleared: History)
      requires Valid()
      modifies lowCut, peak, highCut
      ensures Valid()
      ensures lowCut.stages == Reset(old(lowCut.stages), cleared)
      ensures highCut.stages == Reset(old(highCut.stages), cleared)
      ensures PeakStage() == old(PeakStage()).(history := cleared)
    {
      lowCut.Prepare(cleared);
      peak.Prepare(cleared);
      highCut.Prepare(cleared);
    }
  }
}
