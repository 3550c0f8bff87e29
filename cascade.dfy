/** The state of a cut filter (four filter stages run in series, each with a
    bypass flag) seen as a value, and the low-cut configure step written once:
    bypass all four stages, then, for slope enumerator k, install section i of
    the Butterworth design into stage i and un-bypass it, for i = 0..k. */
module Cascade {
  import opened JuceDsp
  import opened Settings

  /** The number of stages in a CutFilter. */
  const CutStages := 4

  /** One stage: the chain's bypass flag for it, and the filter's own
      coefficients and delay-line state. */
  datatype Stage = Stage(bypassed: bool, coeffs: Coeffs, history: History)

  /** setBypassed<i>(b) on the stage values. */
  function SetBypassed(s: seq<Stage>, i: nat, b: bool): seq<Stage>
    requires i < |s|
  {
    s[i := s[i].(bypassed := b)]
  }

  /** `*get<i>().coefficients = c` on the stage values. */
  function Install(s: seq<Stage>, i: nat, c: Coeffs): seq<Stage>
    requires i < |s|
  {
    s[i := s[i].(coeffs := c)]
  }

  /** The four setBypassed<i>(true) calls that open the configure step. */
  function BypassAll(s: seq<Stage>): (r: seq<Stage>)
    requires |s| == CutStages
    ensures |r| == CutStages
    ensures forall i :: 0 <= i < CutStages ==> r[i] == s[i].(bypassed := true)
  {
    SetBypassed(SetBypassed(SetBypassed(SetBypassed(s, 0, true), 1, true), 2, true), 3, true)
  }

  /** Install section i and un-bypass stage i, for i = 0..n-1 in that order. */
  function ActivatePrefix(s: seq<Stage>, cut: seq<Coeffs>, n: nat): (r: seq<Stage>)
    requires n <= |s| && n <= |cut|
    ensures |r| == |s|
    ensures forall i :: 0 <= i < n ==> r[i] == Stage(false, cut[i], s[i].history)
    ensures forall i :: n <= i < |s| ==> r[i] == s[i]
    decreases n
  {
    if n == 0 then s
    else
      var done := ActivatePrefix(s, cut, n - 1);
      SetBypassed(Install(done, n - 1, cut[n - 1]), n - 1, false)
  }

  /** The stages after every filter's delay line is reset to `cleared`. */
  function Reset(s: seq<Stage>, cleared: History): (r: seq<Stage>)
    ensures |r| == |s|
    ensures forall i :: 0 <= i < |s| ==> r[i] == s[i].(history := cleared)
  {
    seq(|s|, i requires 0 <= i < |s| => s[i].(history := cleared))
  }

  /** Whether stage i ends up in use for the low-cut slope value `slope`. */
  predicate Activates(slope: int, i: int)
  {
    0 <= slope <= 3 && 0 <= i <= slope
  }

  /** The number of sections a slope value puts in use: one per enumerator
      step, none for a value no enumerator names. */
  function SectionCount(slope: int): nat
  {
    if 0 <= slope <= 3 then slope + 1 else 0
  }

  /** The low-cut configure step. The switch over the slope has no default
      case, so a value outside 0..3 (from an out-of-range cast, undefined in
      C++, modelled as the truncated integer) leaves the four stages bypassed. */
  function Configured(s: seq<Stage>, cut: seq<Coeffs>, slope: int): (r: seq<Stage>)
    requires |s| == CutStages
    requires 0 <= slope <= 3 ==> |cut| > slope
    ensures |r| == CutStages
    ensures forall i :: 0 <= i < CutStages ==> r[i].bypassed == !Activates(slope, i)
    ensures forall i :: 0 <= i < CutStages ==>
      r[i].coeffs == if Activates(slope, i) then cut[i] else s[i].coeffs
    ensures forall i :: 0 <= i < CutStages ==> r[i].history == s[i].history
  {
    var off := BypassAll(s);
    match SlopeOf(slope)
    case Some(k) => ActivatePrefix(off, cut, k.Value() + 1)
    case None => off
  }

  /** Number of stages not bypassed. */
  function ActiveCount(s: seq<Stage>): nat
  {
    if s == [] then 0 else Used(s[0]) + ActiveCount(s[1..])
  }

  /** The stages in use form a contiguous prefix starting at stage 0, and there
      are as many of them as the slope has sections. */
  lemma {:induction false} ConfiguredIsPrefix(s: seq<Stage>, cut: seq<Coeffs>, slope: int)
    requires |s| == CutStages
    requires 0 <= slope <= 3 ==> |cut| > slope
    ensures var r := Configured(s, cut, slope);
      (forall i, j :: 0 <= i <= j < CutStages && !r[j].bypassed ==> !r[i].bypassed)
      && ActiveCount(r) == SectionCount(slope)
  {
    var r := Configured(s, cut, slope);
    ActiveCountOfFour(r);
  }

  /** ActiveCount of a four-stage cascade, stage by stage. */
  lemma {:induction false} ActiveCountOfFour(r: seq<Stage>)
    requires |r| == CutStages
    ensures ActiveCount(r) == Used(r[0]) + Used(r[1]) + Used(r[2]) + Used(r[3])
  {
    assert r[1..][1..] == r[2..] && r[2..][1..] == r[3..] && r[3..][1..] == [];
    assert ActiveCount(r[3..]) == Used(r[3]);
    assert ActiveCount(r[2..]) == Used(r[2]) + ActiveCount(r[3..]);
    assert ActiveCount(r[1..]) == Used(r[1]) + ActiveCount(r[2..]);
  }

  function Used(st: Stage): nat
  {
    if st.bypassed then 0 else 1
  }

  /** For a slope enumerator, the number of stages in use is half the order
      requested from the Butterworth designer. */
  lemma ConfiguredMatchesOrder(s: seq<Stage>, cut: seq<Coeffs>, k: Slope)
    requires |s| == CutStages && |cut| > k.Value()
    ensures ActiveCount(Configured(s, cut, k.Value())) == ButterworthOrder(k.Value()) / 2
  {
    ConfiguredIsPrefix(s, cut, k.Value());
  }

  /** A slope value no enumerator names bypasses every stage and changes no
      coefficients. Such a value comes only from a cast that is undefined in
      C++; this is what the switch does with the integer compiled code
      commonly keeps. */
  lemma UnknownSlopeBypassesAll(s: seq<Stage>, cut: seq<Coeffs>, slope: int)
    requires |s| == CutStages && SlopeOf(slope).None?
    ensures forall i :: 0 <= i < CutStages ==>
      Configured(s, cut, slope)[i] == s[i].(bypassed := true)
  {
  }

  /** Configuring twice with the same design and slope is the same as once. */
  lemma ConfiguredIdempotent(s: seq<Stage>, cut: seq<Coeffs>, slope: int)
    requires |s| == CutStages
    requires 0 <= slope <= 3 ==> |cut| > slope
    ensures Configured(Configured(s, cut, slope), cut, slope) == Configured(s, cut, slope)
  {
  }

  /** The flags a cascade had before configuration make no difference. */
  lemma ConfiguredForgetsBypass(s: seq<Stage>, t: seq<Stage>, cut: seq<Coeffs>, slope: int)
    requires |s| == |t| == CutStages
    requires 0 <= slope <= 3 ==> |cut| > slope
    requires forall i :: 0 <= i < CutStages ==> s[i].coeffs == t[i].coeffs && s[i].history == t[i].history
    ensures Configured(s, cut, slope) == Configured(t, cut, slope)
  {
  }

  /** Two cascades agree when they have the same length and, stage by stage,
      the same bypass flag and coefficients; their delay lines may differ. */
  predicate Agree(s: seq<Stage>, t: seq<Stage>)
  {
    |s| == |t| && forall i :: 0 <= i < |s| ==> s[i].bypassed == t[i].bypassed && s[i].coeffs == t[i].coeffs
  }

  /** Resetting the delay lines of two agreeing cascades keeps them agreeing. */
  lemma ResetPreservesAgreement(s: seq<Stage>, t: seq<Stage>, cleared: History)
    requires Agree(s, t)
    ensures Agree(Reset(s, cleared), Reset(t, cleared))
  {
  }

  /** Configuring two agreeing cascades with the same design and slope leaves
      them agreeing: this is how the left and right channels stay identical. */
  lemma ConfiguredPreservesAgreement(s: seq<Stage>, t: seq<Stage>, cut: seq<Coeffs>, slope: int)
    requires |s| == CutStages && Agree(s, t)
    requires 0 <= slope <= 3 ==> |cut| > slope
    ensures Agree(Configured(s, cut, slope), Configured(t, cut, slope))
  {
  }

  /** The stages in use agree whatever the two cascades held before; only the
      coefficients left in bypassed stages can differ. */
  lemma ConfiguredActiveStagesAgree(s: seq<Stage>, t: seq<Stage>, cut: seq<Coeffs>, slope: int)
    requires |s| == |t| == CutStages
    requires 0 <= slope <= 3 ==> |cut| > slope
    ensures forall i :: 0 <= i < CutStages ==>
      Configured(s, cut, slope)[i].bypassed == Configured(t, cut, slope)[i].bypassed
    ensures forall i :: 0 <= i < CutStages && Activates(slope, i) ==>
      Configured(s, cut, slope)[i].coeffs == Configured(t, cut, slope)[i].coeffs
  {
  }
}
