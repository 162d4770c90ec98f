/** The analysis parameters, passed around as one immutable record. `Default`
    holds the values the package ships with; every operation that reads a
    parameter takes the record as an argument instead of a global table. */
module Config {

  /** Parameters of the rational switching function of one bond type. */
  datatype SwitchParams = SwitchParams(R0: real, NN: nat, MM: nat, D0: real, Dmax: real)

  /** The three bond types the coordination analysis distinguishes. */
  datatype BondType = PtPt | PtSn | SnSn

  datatype CoordinationConfig = CoordinationConfig(
    rcutPtPt: real, rcutPtSn: real, rcutSnSn: real,
    ptPt: SwitchParams, ptSn: SwitchParams, snSn: SwitchParams)

  /** An exponential GCN term exp(-d / r0), dropped beyond `cutoff`. */
  datatype ExpParams = ExpParams(r0: real, cutoff: real)

  datatype WeightedParams = WeightedParams(r0: real, ptWeight: real, snWeight: real, cutoff: real)

  /** A closed distance window [rMin, rMax] with a weight per species. */
  datatype Window = Window(rMin: real, rMax: real, ptWeight: real, snWeight: real)

  datatype GcnConfig = GcnConfig(
    enable: bool,
    standard: ExpParams,
    weighted: WeightedParams,
    snWeighted: Window,
    shells: seq<Window>)

  datatype QConfig = QConfig(q6Cutoff: real, includeOxygenInLocal: bool, lQ6: nat, lQ4: nat)

  datatype ElementsConfig = ElementsConfig(targetElements: seq<string>, metalElements: seq<string>)

  datatype Config = Config(
    coordination: CoordinationConfig,
    gcn: GcnConfig,
    q: QConfig,
    elements: ElementsConfig)

  const Default: Config := Config(
    CoordinationConfig(
      3.0, 3.2, 3.4,
      SwitchParams(2.9, 6, 12, 0.1, 10.0),
      SwitchParams(3.1, 6, 12, 0.1, 10.0),
      SwitchParams(3.3, 6, 12, 0.1, 10.0)),
    GcnConfig(
      true,
      ExpParams(0.3, 3.0),
      WeightedParams(0.3, 1.0, 2.0, 3.0),
      Window(2.0, 2.8, 0.8, 2.5),
      [Window(2.0, 2.5, 1.0, 3.0), Window(2.5, 3.0, 0.8, 2.0), Window(3.0, 3.5, 0.2, 0.6)]),
    QConfig(3.5, false, 6, 4),
    ElementsConfig(["Pt", "Sn", "O"], ["Pt", "Sn"]))

  /** The switching parameters of a bond type. */
  function SwitchFor(c: CoordinationConfig, bond: BondType): SwitchParams
  {
    match bond
    case PtPt => c.ptPt
    case PtSn => c.ptSn
    case SnSn => c.snSn
  }

  /** No length scale the formulas divide by is zero. */
  predicate Valid(c: Config)
  {
    && c.coordination.ptPt.R0 != 0.0
    && c.coordination.ptSn.R0 != 0.0
    && c.coordination.snSn.R0 != 0.0
    && c.gcn.standard.r0 != 0.0
    && c.gcn.weighted.r0 != 0.0
  }

  lemma DefaultValid()
    ensures Valid(Default)
  {
  }
}
