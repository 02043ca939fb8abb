/** The reaction network of the ADM1-style anaerobic digestion model with its
    iron/EDTA extension: the 29 named state variables, their initial values,
    the kinetic rate laws, and the map from a state vector to its rate vector.
    All arithmetic is over `real`; the floating-point behaviour of the Python code
    (NaN, overflow) is not modelled. */
module Adm1Model {

  /* ---------------------------------------------------------------------- */
  /* Kinetic parameters                                                     */
  /* ---------------------------------------------------------------------- */

  /** The constants of the model, one field per attribute of the parameter record. */
  datatype Parameters = Parameters(
    // disintegration and hydrolysis (carried, unused by the rate function)
    kDis: real, kHydCh: real, kHydPr: real, kHydLi: real,
    // monosaccharide degraders
    kmSu: real, ksSu: real, ySu: real,
    // amino-acid degraders
    kmAa: real, ksAa: real, yAa: real,
    // long-chain fatty acid degraders
    kmFa: real, ksFa: real, yFa: real,
    // valerate/butyrate and propionate degraders (no yield fields: the rate function uses literals)
    kmC4: real, ksC4: real, kmPro: real, ksPro: real,
    // acetate and hydrogen degraders
    kmAc: real, ksAc: real, yAc: real, kmH2: real, ksH2: real, yH2: real,
    // inhibition constants
    kiH2Fa: real, kiH2C4: real, kiH2Pro: real, kiNh3: real,
    // iron extension: complexation forward/reverse and FeS precipitation
    kEdtaFe: real, kEdtaFeRev: real, kPrecipFeS: real)

  /** Every constant is strictly positive. */
  predicate PositiveParameters(p: Parameters) {
    && p.kDis > 0.0 && p.kHydCh > 0.0 && p.kHydPr > 0.0 && p.kHydLi > 0.0
    && p.kmSu > 0.0 && p.ksSu > 0.0 && p.ySu > 0.0
    && p.kmAa > 0.0 && p.ksAa > 0.0 && p.yAa > 0.0
    && p.kmFa > 0.0 && p.ksFa > 0.0 && p.yFa > 0.0
    && p.kmC4 > 0.0 && p.ksC4 > 0.0 && p.kmPro > 0.0 && p.ksPro > 0.0
    && p.kmAc > 0.0 && p.ksAc > 0.0 && p.yAc > 0.0
    && p.kmH2 > 0.0 && p.ksH2 > 0.0 && p.yH2 > 0.0
    && p.kiH2Fa > 0.0 && p.kiH2C4 > 0.0 && p.kiH2Pro > 0.0 && p.kiNh3 > 0.0
    && p.kEdtaFe > 0.0 && p.kEdtaFeRev > 0.0 && p.kPrecipFeS > 0.0
  }

  /** The literature defaults of the parameter record. */
  function DefaultParameters(): (p: Parameters)
    ensures PositiveParameters(p)
    ensures p.kmSu == 30.0 && p.ksH2 == 0.000007 && p.kiNh3 == 0.0018 && p.kEdtaFe == 100000.0
  {
    Parameters(
      kDis := 0.5, kHydCh := 10.0, kHydPr := 10.0, kHydLi := 10.0,
      kmSu := 30.0, ksSu := 0.5, ySu := 0.1,
      kmAa := 50.0, ksAa := 0.3, yAa := 0.08,
      kmFa := 6.0, ksFa := 0.4, yFa := 0.06,
      kmC4 := 20.0, ksC4 := 0.2, kmPro := 13.0, ksPro := 0.1,
      kmAc := 8.0, ksAc := 0.15, yAc := 0.05,
      kmH2 := 35.0, ksH2 := 0.000007, yH2 := 0.06,
      kiH2Fa := 0.000005, kiH2C4 := 0.00001, kiH2Pro := 0.0000035, kiNh3 := 0.0018,
      kEdtaFe := 100000.0, kEdtaFeRev := 0.1, kPrecipFeS := 0.01)
  }

  /* ---------------------------------------------------------------------- */
  /* State variables                                                        */
  /* ---------------------------------------------------------------------- */

  const NumStates: nat := 29

  /** The state variable names, in state-vector order. */
  const StateVariables: seq<string> := [
    "S_su", "S_aa", "S_fa", "S_va", "S_bu", "S_pro", "S_ac", "S_h2",
    "S_ch4", "S_IC", "S_IN", "S_I",
    "X_ch", "X_pr", "X_li", "X_su", "X_aa", "X_fa", "X_c4", "X_pro", "X_ac", "X_h2", "X_I",
    "S_cat", "S_an",
    "S_Fe2", "S_EDTA", "S_FeEDTA", "X_FeS"
  ]

  // Indices of the state variables the rate function reads or writes.
  const SSu := 0
  const SAa := 1
  const SFa := 2
  const SVa := 3
  const SBu := 4
  const SPro := 5
  const SAc := 6
  const SH2 := 7
  const SIn := 10
  const XSu := 15
  const XAa := 16
  const XFa := 17
  const XC4 := 18
  const XPro := 19
  const XAc := 20
  const XH2 := 21
  const XI := 22
  const SFe2 := 25
  const SEdta := 26
  const SFeEdta := 27
  const XFeS := 28

  /** The default initial concentrations, one per state variable. */
  function InitialConditions(): (y: seq<real>)
    ensures |y| == NumStates == |StateVariables|
    ensures forall i :: 0 <= i < |y| ==> y[i] >= 0.0
    ensures y[SVa] + y[SBu] > 0.0
  {
    [ 5.0, 2.0, 0.1, 0.05, 0.05, 0.1, 0.5, 0.000001, 0.1, 0.1, 0.05, 0.1,
      10.0, 8.0, 6.0, 1.0, 0.8, 0.6, 0.5, 0.4, 0.3, 0.2, 2.0,
      0.01, 0.01,
      0.01, 0.001, 0.0, 0.0 ]
  }

  /** The 29 names are pairwise distinct. */
  lemma StateVariablesDistinct()
    ensures |StateVariables| == NumStates
    ensures forall i, j :: 0 <= i < j < |StateVariables| ==> StateVariables[i] != StateVariables[j]
  {
  }

  /** The name-to-index dictionary built from the name list. */
  function VariableIndex(): (index: map<string, int>)
    ensures forall i :: 0 <= i < |StateVariables| ==> StateVariables[i] in index && index[StateVariables[i]] == i
    ensures forall name :: name in index ==> name in StateVariables
  {
    StateVariablesDistinct();
    map i | 0 <= i < |StateVariables| :: StateVariables[i] := i
  }

  /** The index of a state variable by name, or -1 for an unknown name. */
  function GetVariableIndex(name: string): (index: int)
    ensures -1 <= index < NumStates
    ensures index == -1 <==> name !in StateVariables
    ensures index != -1 ==> StateVariables[index] == name
  {
    var variableIndex := VariableIndex();
    if name in variableIndex then variableIndex[name] else -1
  }

  /** The name of the state variable at an index, or "UNKNOWN" out of range. */
  function GetVariableName(index: int): (name: string)
    ensures 0 <= index < NumStates ==> name == StateVariables[index]
    ensures name == "UNKNOWN" <==> !(0 <= index < NumStates)
  {
    if 0 <= index < |StateVariables| then StateVariables[index] else "UNKNOWN"
  }

  /** Name and index are inverse on the valid range. */
  lemma NameIndexRoundTrip(index: int)
    requires 0 <= index < NumStates
    ensures GetVariableIndex(GetVariableName(index)) == index
  {
  }

  /** The rate function locates the iron species by name; these are their positions. */
  lemma MetalIndicesByName()
    ensures "S_Fe2" in VariableIndex() && VariableIndex()["S_Fe2"] == SFe2
    ensures "S_EDTA" in VariableIndex() && VariableIndex()["S_EDTA"] == SEdta
    ensures "S_FeEDTA" in VariableIndex() && VariableIndex()["S_FeEDTA"] == SFeEdta
    ensures "X_FeS" in VariableIndex() && VariableIndex()["X_FeS"] == XFeS
  {
    assert StateVariables[SFe2] == "S_Fe2" && StateVariables[SEdta] == "S_EDTA";
    assert StateVariables[SFeEdta] == "S_FeEDTA" && StateVariables[XFeS] == "X_FeS";
  }

  /* ---------------------------------------------------------------------- */
  /* Rate laws                                                              */
  /* ---------------------------------------------------------------------- */

  /** Monod uptake: k_m * S / (K_S + S) * X. */
  function Monod(substrate: real, ks: real, km: real, biomass: real): real
    requires ks > 0.0 && substrate >= 0.0
  {
    km * substrate / (ks + substrate) * biomass
  }

  /** Monod uptake lies between zero and the maximum rate k_m * X, and with a
      positive maximum rate it vanishes exactly when there is no substrate or
      no biomass. */
  lemma MonodBounds(substrate: real, ks: real, km: real, biomass: real)
    requires ks > 0.0 && substrate >= 0.0 && km > 0.0 && biomass >= 0.0
    ensures 0.0 <= Monod(substrate, ks, km, biomass) <= km * biomass
    ensures Monod(substrate, ks, km, biomass) == 0.0 <==> substrate == 0.0 || biomass == 0.0
  {
  }

  /** Non-competitive inhibition factor 1 / (1 + S / K_I), used for hydrogen. */
  function HydrogenInhibition(s: real, ki: real): real
    requires ki > 0.0 && s >= 0.0
  {
    1.0 / (1.0 + s / ki)
  }

  /** The inhibition factor lies in (0, 1] and is 1 exactly when no inhibitor is present. */
  lemma InhibitionRange(s: real, ki: real)
    requires ki > 0.0 && s >= 0.0
    ensures 0.0 < HydrogenInhibition(s, ki) <= 1.0
    ensures HydrogenInhibition(s, ki) == 1.0 <==> s == 0.0
  {
  }

  /** Ammonia inhibition of acetate uptake has the same form, with the constant K_I,nh3. */
  function AmmoniaInhibition(p: Parameters, sIn: real): (factor: real)
    requires p.kiNh3 > 0.0 && sIn >= 0.0
    ensures factor == HydrogenInhibition(sIn, p.kiNh3)
  {
    1.0 / (1.0 + sIn / p.kiNh3)
  }

  /** The inhibition factor strictly decreases as the inhibitor concentration rises. */
  lemma InhibitionStrictlyDecreasing(s1: real, s2: real, ki: real)
    requires ki > 0.0 && 0.0 <= s1 < s2
    ensures HydrogenInhibition(s2, ki) < HydrogenInhibition(s1, ki)
  {
  }

  /* ---------------------------------------------------------------------- */
  /* The rate function                                                      */
  /* ---------------------------------------------------------------------- */

  /** The inputs on which the rate function is defined over the reals: a full,
      non-negative state vector, positive constants, and a non-empty C4 pool
      (at S_va + S_bu = 0 the valerate/butyrate split divides zero by zero). */
  predicate RatesDefined(p: Parameters, y: seq<real>) {
    && PositiveParameters(p)
    && |y| >= NumStates
    && (forall i :: 0 <= i < |y| ==> y[i] >= 0.0)
    && y[SVa] + y[SBu] > 0.0
  }

  /** Process 1: monosaccharide uptake. */
  function SugarUptake(p: Parameters, y: seq<real>): real
    requires RatesDefined(p, y)
  {
    Monod(y[SSu], p.ksSu, p.kmSu, y[XSu])
  }

  /** Process 2: amino-acid uptake. */
  function AminoAcidUptake(p: Parameters, y: seq<real>): real
    requires RatesDefined(p, y)
  {
    Monod(y[SAa], p.ksAa, p.kmAa, y[XAa])
  }

  /** Process 3: LCFA uptake, inhibited by hydrogen. */
  function FattyAcidUptake(p: Parameters, y: seq<real>): real
    requires RatesDefined(p, y)
  {
    Monod(y[SFa], p.ksFa, p.kmFa, y[XFa]) * HydrogenInhibition(y[SH2], p.kiH2Fa)
  }

  /** Process 4: combined valerate + butyrate uptake, inhibited by hydrogen. */
  function C4Uptake(p: Parameters, y: seq<real>): real
    requires RatesDefined(p, y)
  {
    Monod(y[SVa] + y[SBu], p.ksC4, p.kmC4, y[XC4]) * HydrogenInhibition(y[SH2], p.kiH2C4)
  }

  /** Process 5: propionate uptake, inhibited by hydrogen. */
  function PropionateUptake(p: Parameters, y: seq<real>): real
    requires RatesDefined(p, y)
  {
    Monod(y[SPro], p.ksPro, p.kmPro, y[XPro]) * HydrogenInhibition(y[SH2], p.kiH2Pro)
  }

  /** Process 6: acetate uptake, inhibited by ammonia (inorganic nitrogen). */
  function AcetateUptake(p: Parameters, y: seq<real>): real
    requires RatesDefined(p, y)
  {
    Monod(y[SAc], p.ksAc, p.kmAc, y[XAc]) * AmmoniaInhibition(p, y[SIn])
  }

  /** Process 7: hydrogen uptake. */
  function HydrogenUptake(p: Parameters, y: seq<real>): real
    requires RatesDefined(p, y)
  {
    Monod(y[SH2], p.ksH2, p.kmH2, y[XH2])
  }

  /** Every uptake process rate is non-negative. */
  lemma UptakesNonNegative(p: Parameters, y: seq<real>)
    requires RatesDefined(p, y)
    ensures SugarUptake(p, y) >= 0.0 && AminoAcidUptake(p, y) >= 0.0
    ensures FattyAcidUptake(p, y) >= 0.0 && C4Uptake(p, y) >= 0.0
    ensures PropionateUptake(p, y) >= 0.0 && AcetateUptake(p, y) >= 0.0
    ensures HydrogenUptake(p, y) >= 0.0
  {
    MonodBounds(y[SSu], p.ksSu, p.kmSu, y[XSu]);
    MonodBounds(y[SAa], p.ksAa, p.kmAa, y[XAa]);
    MonodBounds(y[SFa], p.ksFa, p.kmFa, y[XFa]);
    MonodBounds(y[SVa] + y[SBu], p.ksC4, p.kmC4, y[XC4]);
    MonodBounds(y[SPro], p.ksPro, p.kmPro, y[XPro]);
    MonodBounds(y[SAc], p.ksAc, p.kmAc, y[XAc]);
    MonodBounds(y[SH2], p.ksH2, p.kmH2, y[XH2]);
    InhibitionRange(y[SH2], p.kiH2Fa);
    InhibitionRange(y[SH2], p.kiH2C4);
    InhibitionRange(y[SH2], p.kiH2Pro);
    InhibitionRange(y[SIn], p.kiNh3);
  }

  /** The seven uptake process rates, in the order the rate function computes them. */
  datatype ProcessRates = ProcessRates(
    sugar: real, aminoAcid: real, fattyAcid: real, c4: real,
    propionate: real, acetate: real, hydrogen: real)

  /** The process rates at state `y`. */
  function Processes(p: Parameters, y: seq<real>): (r: ProcessRates)
    requires RatesDefined(p, y)
    ensures r.sugar == SugarUptake(p, y) && r.c4 == C4Uptake(p, y) && r.hydrogen == HydrogenUptake(p, y)
  {
    ProcessRates(SugarUptake(p, y), AminoAcidUptake(p, y), FattyAcidUptake(p, y), C4Uptake(p, y),
                 PropionateUptake(p, y), AcetateUptake(p, y), HydrogenUptake(p, y))
  }

  /** Rate contributed at index `i` by process rates `r`. Each process removes
      substrate and adds yield-scaled growth; from the C4 process on, growth
      lands one index past the degrader it belongs to (X_pro, X_ac, X_h2, X_I
      rather than X_c4, X_pro, X_ac, X_h2), and the C4 and propionate yields
      are the literals 0.1 and 0.08. */
  function UptakeEntry(p: Parameters, y: seq<real>, r: ProcessRates, i: int): real
    requires |y| >= NumStates && y[SVa] + y[SBu] != 0.0
  {
    if i == SSu then -r.sugar
    else if i == XSu then r.sugar * p.ySu
    else if i == SAa then -r.aminoAcid
    else if i == XAa then r.aminoAcid * p.yAa
    else if i == SFa then -r.fattyAcid
    else if i == XFa then r.fattyAcid * p.yFa
    else if i == SVa then -r.c4 * (y[SVa] / (y[SVa] + y[SBu]))
    else if i == SBu then -r.c4 * (y[SBu] / (y[SVa] + y[SBu]))
    else if i == XPro then r.c4 * 0.1
    else if i == SPro then -r.propionate
    else if i == XAc then r.propionate * 0.08
    else if i == SAc then -r.acetate
    else if i == XH2 then r.acetate * p.yAc
    else if i == SH2 then -r.hydrogen
    else if i == XI then r.hydrogen * p.yH2
    else 0.0
  }

  /** Rate of reversible Fe2+ + EDTA <-> FeEDTA complexation (net forward). */
  function ComplexationRate(p: Parameters, y: seq<real>): real
    requires |y| >= NumStates
  {
    p.kEdtaFe * y[SFe2] * y[SEdta] - p.kEdtaFeRev * y[SFeEdta]
  }

  /** Rate of irreversible FeS precipitation. */
  function PrecipitationRate(p: Parameters, y: seq<real>): real
    requires |y| >= NumStates
  {
    p.kPrecipFeS * y[SFe2]
  }

  /** The iron sub-network's rate vector: complexation moves Fe2+ and EDTA into
      FeEDTA, precipitation moves Fe2+ into FeS. It touches only the four iron
      species and conserves total EDTA and total iron. */
  function MetalRates(p: Parameters, y: seq<real>): (m: seq<real>)
    requires |y| >= NumStates
    ensures |m| == |y|
    ensures forall i :: 0 <= i < |m| && !(SFe2 <= i <= XFeS) ==> m[i] == 0.0
    ensures m[SEdta] + m[SFeEdta] == 0.0
    ensures m[SFe2] + m[SFeEdta] + m[XFeS] == 0.0
    ensures m[SFeEdta] == ComplexationRate(p, y) && m[XFeS] == PrecipitationRate(p, y)
  {
    var c, q := ComplexationRate(p, y), PrecipitationRate(p, y);
    seq(|y|, i =>
      if i == SFe2 then -c - q
      else if i == SEdta then -c
      else if i == SFeEdta then c
      else if i == XFeS then q
      else 0.0)
  }

  /** The biochemical part of the rate vector, one entry per state variable. */
  function UptakeRates(p: Parameters, y: seq<real>): (u: seq<real>)
    requires RatesDefined(p, y)
    ensures |u| == |y|
  {
    var r := Processes(p, y);
    seq(|y|, i requires 0 <= i < |y| => UptakeEntry(p, y, r, i))
  }

  /** The full rate vector dy/dt: the uptake processes plus the iron sub-network. */
  function Rates(p: Parameters, y: seq<real>): (r: seq<real>)
    requires RatesDefined(p, y)
    ensures |r| == |y|
  {
    var u, m := UptakeRates(p, y), MetalRates(p, y);
    seq(|y|, i requires 0 <= i < |y| => u[i] + m[i])
  }

  /** Writing the fifteen uptake entries one after another into a zero vector,
      as the rate function does, yields the entry-wise definition. `pool` is the
      C4 pool S_va + S_bu. */
  lemma UptakeEntriesInTurn(p: Parameters, y: seq<real>, sugar: real, aminoAcid: real, fattyAcid: real,
                            c4: real, propionate: real, acetate: real, hydrogen: real, pool: real)
    requires |y| >= NumStates && pool == y[SVa] + y[SBu] && pool != 0.0
    ensures var r := ProcessRates(sugar, aminoAcid, fattyAcid, c4, propionate, acetate, hydrogen);
      seq(|y|, i requires 0 <= i < |y| => UptakeEntry(p, y, r, i))
      == seq(|y|, _ => 0.0)
              [SSu := -sugar][XSu := sugar * p.ySu]
              [SAa := -aminoAcid][XAa := aminoAcid * p.yAa]
              [SFa := -fattyAcid][XFa := fattyAcid * p.yFa]
              [SVa := -c4 * (y[SVa] / pool)][SBu := -c4 * (y[SBu] / pool)][XPro := c4 * 0.1]
              [SPro := -propionate][XAc := propionate * 0.08]
              [SAc := -acetate][XH2 := acetate * p.yAc]
              [SH2 := -hydrogen][XI := hydrogen * p.yH2]
  {
    var r := ProcessRates(sugar, aminoAcid, fattyAcid, c4, propionate, acetate, hydrogen);
    var written := seq(|y|, _ => 0.0)
              [SSu := -sugar][XSu := sugar * p.ySu]
              [SAa := -aminoAcid][XAa := aminoAcid * p.yAa]
              [SFa := -fattyAcid][XFa := fattyAcid * p.yFa]
              [SVa := -c4 * (y[SVa] / pool)][SBu := -c4 * (y[SBu] / pool)][XPro := c4 * 0.1]
              [SPro := -propionate][XAc := propionate * 0.08]
              [SAc := -acetate][XH2 := acetate * p.yAc]
              [SH2 := -hydrogen][XI := hydrogen * p.yH2];
    forall k | 0 <= k < |y|
      ensures written[k] == UptakeEntry(p, y, r, k)
    {
    }
  }

  /** Looks the four iron species up in the name-to-index dictionary. */
  method IronIndices() returns (iFe2: int, iEdta: int, iFeEdta: int, iFeS: int)
    ensures iFe2 == SFe2 && iEdta == SEdta && iFeEdta == SFeEdta && iFeS == XFeS
  {
    var variableIndex := VariableIndex();
    MetalIndicesByName();
    iFe2 := variableIndex["S_Fe2"];
    iEdta := variableIndex["S_EDTA"];
    iFeEdta := variableIndex["S_FeEDTA"];
    iFeS := variableIndex["X_FeS"];
  }

  /** The iron sub-network, filling a zero vector entry by entry as the
      Python code does. The iron species are located by name. */
  method MetalReactions(p: Parameters, y: seq<real>) returns (metalRates: seq<real>)
    requires |y| >= NumStates
    ensures metalRates == MetalRates(p, y)
  {
    metalRates := seq(|y|, _ => 0.0);
    var iFe2, iEdta, iFeEdta, iFeS := IronIndices();

    var rFeEdta := p.kEdtaFe * y[iFe2] * y[iEdta] - p.kEdtaFeRev * y[iFeEdta];
    metalRates := metalRates[iFe2 := -rFeEdta];
    metalRates := metalRates[iEdta := -rFeEdta];
    metalRates := metalRates[iFeEdta := rFeEdta];

    var rPrecip := p.kPrecipFeS * y[iFe2];
    metalRates := metalRates[iFe2 := metalRates[iFe2] - rPrecip];
    metalRates := metalRates[iFeS := metalRates[iFeS] + rPrecip];

    ghost var spec := MetalRates(p, y);
    forall k | 0 <= k < |metalRates|
      ensures metalRates[k] == spec[k]
    {
    }
  }

  /** The rate function handed to the integrator. The time `t` is accepted for
      the ODE interface and not used: the result is a function of `p` and `y`. */
  method BiochemicalReactions(p: Parameters, t: real, y: seq<real>) returns (reactionRates: seq<real>)
    requires RatesDefined(p, y)
    ensures reactionRates == Rates(p, y)
  {
    var rates := seq(|y|, _ => 0.0);

    var rSu := Monod(y[SSu], p.ksSu, p.kmSu, y[XSu]);
    assert rSu == SugarUptake(p, y);
    rates := rates[SSu := -rSu];
    rates := rates[XSu := rSu * p.ySu];

    var rAa := Monod(y[SAa], p.ksAa, p.kmAa, y[XAa]);
    assert rAa == AminoAcidUptake(p, y);
    rates := rates[SAa := -rAa];
    rates := rates[XAa := rAa * p.yAa];

    var inhibitionH2Fa := HydrogenInhibition(y[SH2], p.kiH2Fa);
    var rFa := Monod(y[SFa], p.ksFa, p.kmFa, y[XFa]) * inhibitionH2Fa;
    assert rFa == FattyAcidUptake(p, y);
    rates := rates[SFa := -rFa];
    rates := rates[XFa := rFa * p.yFa];

    var sC4 := y[SVa] + y[SBu];
    var inhibitionH2C4 := HydrogenInhibition(y[SH2], p.kiH2C4);
    var rC4 := Monod(sC4, p.ksC4, p.kmC4, y[XC4]) * inhibitionH2C4;
    assert rC4 == C4Uptake(p, y);
    rates := rates[SVa := -rC4 * (y[SVa] / sC4)];
    rates := rates[SBu := -rC4 * (y[SBu] / sC4)];
    rates := rates[XPro := rC4 * 0.1];

    var inhibitionH2Pro := HydrogenInhibition(y[SH2], p.kiH2Pro);
    var rPro := Monod(y[SPro], p.ksPro, p.kmPro, y[XPro]) * inhibitionH2Pro;
    assert rPro == PropionateUptake(p, y);
    rates := rates[SPro := -rPro];
    rates := rates[XAc := rPro * 0.08];

    var inhibitionNh3 := AmmoniaInhibition(p, y[SIn]);
    var rAc := Monod(y[SAc], p.ksAc, p.kmAc, y[XAc]) * inhibitionNh3;
    assert rAc == AcetateUptake(p, y);
    rates := rates[SAc := -rAc];
    rates := rates[XH2 := rAc * p.yAc];

    var rH2 := Monod(y[SH2], p.ksH2, p.kmH2, y[XH2]);
    assert rH2 == HydrogenUptake(p, y);
    rates := rates[SH2 := -rH2];
    rates := rates[XI := rH2 * p.yH2];

    UptakeEntriesInTurn(p, y, rSu, rAa, rFa, rC4, rPro, rAc, rH2, sC4);

    var rMetal := MetalReactions(p, y);
    reactionRates := seq(|y|, i requires 0 <= i < |y| => rates[i] + rMetal[i]);
  }

  /* ---------------------------------------------------------------------- */
  /* Properties of the rate vector                                          */
  /* ---------------------------------------------------------------------- */

  /** The default initial state lies where the rate function is defined. */
  lemma InitialConditionsDefined(p: Parameters)
    requires PositiveParameters(p)
    ensures RatesDefined(p, InitialConditions())
  {
  }

  /** Substrates 0..7 are only consumed; the seven growth entries only grow. */
  lemma RateSigns(p: Parameters, y: seq<real>)
    requires RatesDefined(p, y)
    ensures forall i :: SSu <= i <= SH2 ==> Rates(p, y)[i] <= 0.0
    ensures Rates(p, y)[XSu] >= 0.0 && Rates(p, y)[XAa] >= 0.0 && Rates(p, y)[XFa] >= 0.0
    ensures Rates(p, y)[XPro] >= 0.0 && Rates(p, y)[XAc] >= 0.0
    ensures Rates(p, y)[XH2] >= 0.0 && Rates(p, y)[XI] >= 0.0
  {
    UptakesNonNegative(p, y);
    var c4, pool := C4Uptake(p, y), y[SVa] + y[SBu];
    assert c4 * (y[SVa] / pool) >= 0.0 && c4 * (y[SBu] / pool) >= 0.0 by {
      assert y[SVa] / pool >= 0.0 && y[SBu] / pool >= 0.0;
    }
    var rates := Rates(p, y);
    forall i | SSu <= i <= SH2
      ensures rates[i] <= 0.0
    {
      assert rates[i] == UptakeEntry(p, y, Processes(p, y), i);
    }
  }

  /** For any process rates, each growth entry the code writes is the negated
      substrate entry scaled by its yield. */
  lemma EntryGrowthIsYieldTimesUptake(p: Parameters, y: seq<real>, r: ProcessRates)
    requires |y| >= NumStates && y[SVa] + y[SBu] != 0.0
    ensures UptakeEntry(p, y, r, XSu) == -p.ySu * UptakeEntry(p, y, r, SSu)
    ensures UptakeEntry(p, y, r, XAa) == -p.yAa * UptakeEntry(p, y, r, SAa)
    ensures UptakeEntry(p, y, r, XFa) == -p.yFa * UptakeEntry(p, y, r, SFa)
    ensures UptakeEntry(p, y, r, XAc) == -0.08 * UptakeEntry(p, y, r, SPro)
    ensures UptakeEntry(p, y, r, XH2) == -p.yAc * UptakeEntry(p, y, r, SAc)
    ensures UptakeEntry(p, y, r, XI) == -p.yH2 * UptakeEntry(p, y, r, SH2)
  {
  }

  /** Each growth entry is the negated substrate entry scaled by its yield. */
  lemma GrowthIsYieldTimesUptake(p: Parameters, y: seq<real>)
    requires RatesDefined(p, y)
    ensures Rates(p, y)[XSu] == -p.ySu * Rates(p, y)[SSu]
    ensures Rates(p, y)[XAa] == -p.yAa * Rates(p, y)[SAa]
    ensures Rates(p, y)[XFa] == -p.yFa * Rates(p, y)[SFa]
    ensures Rates(p, y)[XAc] == -0.08 * Rates(p, y)[SPro]
    ensures Rates(p, y)[XH2] == -p.yAc * Rates(p, y)[SAc]
    ensures Rates(p, y)[XI] == -p.yH2 * Rates(p, y)[SH2]
  {
    EntryGrowthIsYieldTimesUptake(p, y, Processes(p, y));
  }

  /** The C4 uptake is split between valerate and butyrate in proportion to
      their concentrations; the two shares add up to the whole uptake, of which
      a tenth is credited as growth at index 19. */
  lemma C4Split(p: Parameters, y: seq<real>)
    requires RatesDefined(p, y)
    ensures Rates(p, y)[SVa] + Rates(p, y)[SBu] == -C4Uptake(p, y)
    ensures Rates(p, y)[SVa] * y[SBu] == Rates(p, y)[SBu] * y[SVa]
    ensures Rates(p, y)[XPro] == 0.1 * C4Uptake(p, y)
  {
  }

  /** No statement writes S_ch4, S_IC, S_IN, S_I, X_ch, X_pr, X_li, X_c4,
      S_cat, S_an or any entry past the iron species: their rates are zero.
      In particular no product is ever formed and X_c4 never grows. */
  lemma UnwrittenEntriesZero(p: Parameters, y: seq<real>)
    requires RatesDefined(p, y)
    ensures forall i :: 8 <= i <= 14 ==> Rates(p, y)[i] == 0.0
    ensures Rates(p, y)[XC4] == 0.0
    ensures Rates(p, y)[23] == 0.0 && Rates(p, y)[24] == 0.0
    ensures forall i :: NumStates <= i < |y| ==> Rates(p, y)[i] == 0.0
  {
  }

  /** Adding the iron sub-network changes only the four iron entries, and there
      the rate is exactly the iron sub-network's. */
  lemma MetalAddsOnlyIronEntries(p: Parameters, y: seq<real>)
    requires RatesDefined(p, y)
    ensures forall i :: 0 <= i < |y| && !(SFe2 <= i <= XFeS) ==> Rates(p, y)[i] == UptakeRates(p, y)[i]
    ensures forall i :: SFe2 <= i <= XFeS ==> Rates(p, y)[i] == MetalRates(p, y)[i]
  {
  }

  /** The uninhibited processes run no faster than their degraders' maximum
      rate k_m * X. */
  lemma UninhibitedBoundedByMaximum(p: Parameters, y: seq<real>)
    requires RatesDefined(p, y)
    ensures SugarUptake(p, y) <= p.kmSu * y[XSu]
    ensures AminoAcidUptake(p, y) <= p.kmAa * y[XAa]
    ensures HydrogenUptake(p, y) <= p.kmH2 * y[XH2]
  {
    MonodBounds(y[SSu], p.ksSu, p.kmSu, y[XSu]);
    MonodBounds(y[SAa], p.ksAa, p.kmAa, y[XAa]);
    MonodBounds(y[SH2], p.ksH2, p.kmH2, y[XH2]);
  }

  /** The inhibited processes run no faster than their degraders' maximum
      rate either: the inhibition factors only slow uptake down. */
  lemma InhibitedBoundedByMaximum(p: Parameters, y: seq<real>)
    requires RatesDefined(p, y)
    ensures FattyAcidUptake(p, y) <= p.kmFa * y[XFa]
    ensures C4Uptake(p, y) <= p.kmC4 * y[XC4]
    ensures PropionateUptake(p, y) <= p.kmPro * y[XPro]
    ensures AcetateUptake(p, y) <= p.kmAc * y[XAc]
  {
    assert FattyAcidUptake(p, y) <= p.kmFa * y[XFa] by {
      InhibitedBelowMaximum(y[SFa], p.ksFa, p.kmFa, y[XFa], y[SH2], p.kiH2Fa);
    }
    assert C4Uptake(p, y) <= p.kmC4 * y[XC4] by {
      InhibitedBelowMaximum(y[SVa] + y[SBu], p.ksC4, p.kmC4, y[XC4], y[SH2], p.kiH2C4);
    }
    assert PropionateUptake(p, y) <= p.kmPro * y[XPro] by {
      InhibitedBelowMaximum(y[SPro], p.ksPro, p.kmPro, y[XPro], y[SH2], p.kiH2Pro);
    }
    InhibitedBelowMaximum(y[SAc], p.ksAc, p.kmAc, y[XAc], y[SIn], p.kiNh3);
  }

  /** An inhibited Monod rate also stays below the maximum rate. */
  lemma InhibitedBelowMaximum(substrate: real, ks: real, km: real, biomass: real, inhibitor: real, ki: real)
    requires ks > 0.0 && substrate >= 0.0 && km > 0.0 && biomass >= 0.0
    requires ki > 0.0 && inhibitor >= 0.0
    ensures Monod(substrate, ks, km, biomass) * HydrogenInhibition(inhibitor, ki) <= km * biomass
  {
    MonodBounds(substrate, ks, km, biomass);
    InhibitionRange(inhibitor, ki);
  }

  /** Every substrate is consumed no faster than its degraders' maximum rate. */
  lemma UptakeBoundedByMaximum(p: Parameters, y: seq<real>)
    requires RatesDefined(p, y)
    ensures Rates(p, y)[SSu] >= -p.kmSu * y[XSu]
    ensures Rates(p, y)[SAa] >= -p.kmAa * y[XAa]
    ensures Rates(p, y)[SFa] >= -p.kmFa * y[XFa]
    ensures Rates(p, y)[SVa] + Rates(p, y)[SBu] >= -p.kmC4 * y[XC4]
    ensures Rates(p, y)[SPro] >= -p.kmPro * y[XPro]
    ensures Rates(p, y)[SAc] >= -p.kmAc * y[XAc]
    ensures Rates(p, y)[SH2] >= -p.kmH2 * y[XH2]
  {
    UninhibitedBoundedByMaximum(p, y);
    InhibitedBoundedByMaximum(p, y);
    C4Split(p, y);
    var rates, r := Rates(p, y), Processes(p, y);
    assert rates[SSu] == -r.sugar && rates[SAa] == -r.aminoAcid && rates[SFa] == -r.fattyAcid;
    assert rates[SPro] == -r.propionate && rates[SAc] == -r.acetate && rates[SH2] == -r.hydrogen;
  }

  /* ---------------------------------------------------------------------- */
  /* Growth credited to the degrader that carries out the process           */
  /* ---------------------------------------------------------------------- */

  /** The uptake entries with the growth of processes 4..7 credited to their
      own degraders X_c4, X_pro, X_ac and X_h2 (indices 18..21) instead of one
      index further on; X_I receives nothing. */
  function IntendedUptakeEntry(p: Parameters, y: seq<real>, r: ProcessRates, i: int): real
    requires |y| >= NumStates && y[SVa] + y[SBu] != 0.0
  {
    if i == XC4 then r.c4 * 0.1
    else if i == XPro then r.propionate * 0.08
    else if i == XAc then r.acetate * p.yAc
    else if i == XH2 then r.hydrogen * p.yH2
    else if i == XI then 0.0
    else UptakeEntry(p, y, r, i)
  }

  /** The rate vector with every growth term on its own degrader. */
  function IntendedRates(p: Parameters, y: seq<real>): (r: seq<real>)
    requires RatesDefined(p, y)
    ensures |r| == |y|
  {
    var pr, m := Processes(p, y), MetalRates(p, y);
    seq(|y|, i requires 0 <= i < |y| => IntendedUptakeEntry(p, y, pr, i) + m[i])
  }

  /** For any process rates, the intended entries credit the C4, propionate,
      acetate and hydrogen degraders with their yield times the uptake of their
      own substrate and leave the inerts X_I alone. */
  lemma IntendedEntryGrowth(p: Parameters, y: seq<real>, r: ProcessRates)
    requires |y| >= NumStates && y[SVa] >= 0.0 && y[SBu] >= 0.0 && y[SVa] + y[SBu] > 0.0
    ensures IntendedUptakeEntry(p, y, r, XC4)
         == -0.1 * (IntendedUptakeEntry(p, y, r, SVa) + IntendedUptakeEntry(p, y, r, SBu))
    ensures IntendedUptakeEntry(p, y, r, XPro) == -0.08 * IntendedUptakeEntry(p, y, r, SPro)
    ensures IntendedUptakeEntry(p, y, r, XAc) == -p.yAc * IntendedUptakeEntry(p, y, r, SAc)
    ensures IntendedUptakeEntry(p, y, r, XH2) == -p.yH2 * IntendedUptakeEntry(p, y, r, SH2)
    ensures IntendedUptakeEntry(p, y, r, XI) == 0.0
  {
  }

  /** In the intended rate vector the C4, propionate, acetate and hydrogen
      degraders grow by their yield times the uptake of their own substrate,
      and the inerts X_I are left alone. The first three processes are as
      written (see GrowthIsYieldTimesUptake and IntendedAgreesOutsideGrowth). */
  lemma IntendedGrowthOnOwnDegrader(p: Parameters, y: seq<real>)
    requires RatesDefined(p, y)
    ensures IntendedRates(p, y)[XC4] == -0.1 * (IntendedRates(p, y)[SVa] + IntendedRates(p, y)[SBu])
    ensures IntendedRates(p, y)[XPro] == -0.08 * IntendedRates(p, y)[SPro]
    ensures IntendedRates(p, y)[XAc] == -p.yAc * IntendedRates(p, y)[SAc]
    ensures IntendedRates(p, y)[XH2] == -p.yH2 * IntendedRates(p, y)[SH2]
    ensures IntendedRates(p, y)[XI] == 0.0
  {
    IntendedEntryGrowth(p, y, Processes(p, y));
  }

  /** Outside X_c4..X_I the intended rate vector is the one the code computes. */
  lemma IntendedAgreesOutsideGrowth(p: Parameters, y: seq<real>)
    requires RatesDefined(p, y)
    ensures forall i :: 0 <= i < |y| && !(XC4 <= i <= XI) ==> IntendedRates(p, y)[i] == Rates(p, y)[i]
  {
  }

  /** At the default constants and initial state the C4 degraders take up
      substrate, yet as written X_c4 does not grow while the inerts X_I do;
      with growth on the right degrader X_c4 grows. */
  lemma GrowthOffByOneAtDefaults()
    ensures RatesDefined(DefaultParameters(), InitialConditions())
    ensures C4Uptake(DefaultParameters(), InitialConditions()) > 0.0
    ensures Rates(DefaultParameters(), InitialConditions())[XC4] == 0.0
    ensures Rates(DefaultParameters(), InitialConditions())[XI] > 0.0
    ensures IntendedRates(DefaultParameters(), InitialConditions())[XC4] > 0.0
  {
  }
}
