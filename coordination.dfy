/** Model of the coordination and GCN descriptors: the PLUMED-style rational
    switching function with its zero-denominator patch and clamps, the smooth
    coordination number built on it, the bond-specific coordination record of a
    Pt or Sn centre, and the four generalised-coordination (GCN) variants. */
module Coordination {
  import opened Seqs
  import opened MathUtils
  import opened Config

  /** The value written over a denominator that is exactly zero. */
  const DenominatorPatch: real := 0.00000001

  /** The mean neighbour distance only looks at distances below this multiple of the bond cutoff. */
  const AverageCutoffFactor: real := 1.5

  // ---------------------------------------------------------------------------
  // The switching function, one stage per masked array pass

  function Ratio(d: real, p: SwitchParams): real
    requires p.R0 != 0.0
  {
    (d - p.D0) / p.R0
  }

  function Numerator(d: real, p: SwitchParams): real
    requires p.R0 != 0.0
  {
    1.0 - Pow(Ratio(d, p), p.NN)
  }

  function RawDenominator(d: real, p: SwitchParams): real
    requires p.R0 != 0.0
  {
    1.0 - Pow(Ratio(d, p), p.MM)
  }

  /** The denominator after the patch: never zero. */
  function Denominator(d: real, p: SwitchParams): (r: real)
    requires p.R0 != 0.0
    ensures r != 0.0
    ensures RawDenominator(d, p) != 0.0 ==> r == RawDenominator(d, p)
  {
    if RawDenominator(d, p) == 0.0 then DenominatorPatch else RawDenominator(d, p)
  }

  function Quotient(d: real, p: SwitchParams): real
    requires p.R0 != 0.0
  {
    Numerator(d, p) / Denominator(d, p)
  }

  function Capped(d: real, p: SwitchParams): real
    requires p.R0 != 0.0
  {
    if d > p.Dmax then 0.0 else Quotient(d, p)
  }

  /** sw(d) = (1 - x^NN) / (1 - x^MM) with x = (d - D0) / R0, zero beyond Dmax
      and never negative. */
  function SwitchValue(d: real, p: SwitchParams): (r: real)
    requires p.R0 != 0.0
    ensures r >= 0.0
    ensures d > p.Dmax ==> r == 0.0
    ensures d <= p.Dmax && Quotient(d, p) >= 0.0 ==> r == Quotient(d, p)
    ensures r == 0.0 || r == Quotient(d, p)
  {
    var c := Capped(d, p);
    if c < 0.0 then 0.0 else c
  }

  /** The switching function evaluated over an array of distances, one masked
      pass per step: ratio powers, the zero-denominator patch, the division,
      the Dmax cap and the clamp at zero. */
  method PlumedSwitch(distances: seq<real>, p: SwitchParams) returns (sw: seq<real>)
    requires p.R0 != 0.0
    ensures |sw| == |distances|
    ensures forall i :: 0 <= i < |distances| ==> sw[i] == SwitchValue(distances[i], p)
  {
    var num, den := RatioPowers(distances, p);
    PatchZeroDenominators(den, distances, p);
    var s := Divide(num, den, distances, p);
    CapBeyondDmax(s, distances, p);
    ClampAtZero(s, distances, p);
    sw := s[..];
  }

  /** 1 - x^NN and 1 - x^MM for every distance. */
  method RatioPowers(distances: seq<real>, p: SwitchParams) returns (num: array<real>, den: array<real>)
    requires p.R0 != 0.0
    ensures fresh(num) && fresh(den) && num != den
    ensures num.Length == |distances| && den.Length == |distances|
    ensures forall j :: 0 <= j < |distances| ==> num[j] == Numerator(distances[j], p)
    ensures forall j :: 0 <= j < |distances| ==> den[j] == RawDenominator(distances[j], p)
  {
    var n := |distances|;
    num := new real[n];
    den := new real[n];
    for i := 0 to n
      invariant forall j :: 0 <= j < i ==> num[j] == Numerator(distances[j], p)
      invariant forall j :: 0 <= j < i ==> den[j] == RawDenominator(distances[j], p)
    {
      var x := (distances[i] - p.D0) / p.R0;
      num[i] := 1.0 - Pow(x, p.NN);
      den[i] := 1.0 - Pow(x, p.MM);
    }
  }

  /** Every denominator that is exactly zero becomes the patch value. */
  method PatchZeroDenominators(den: array<real>, distances: seq<real>, p: SwitchParams)
    requires p.R0 != 0.0 && den.Length == |distances|
    requires forall j :: 0 <= j < |distances| ==> den[j] == RawDenominator(distances[j], p)
    modifies den
    ensures forall j :: 0 <= j < |distances| ==> den[j] == Denominator(distances[j], p)
  {
    for i := 0 to den.Length
      invariant forall j :: 0 <= j < i ==> den[j] == Denominator(distances[j], p)
      invariant forall j :: i <= j < den.Length ==> den[j] == RawDenominator(distances[j], p)
    {
      if den[i] == 0.0 {
        den[i] := DenominatorPatch;
      }
    }
  }

  /** The element-wise quotient, in a new array. */
  method Divide(num: array<real>, den: array<real>, distances: seq<real>, p: SwitchParams) returns (s: array<real>)
    requires p.R0 != 0.0 && num.Length == |distances| && den.Length == |distances|
    requires forall j :: 0 <= j < |distances| ==> num[j] == Numerator(distances[j], p)
    requires forall j :: 0 <= j < |distances| ==> den[j] == Denominator(distances[j], p)
    ensures fresh(s) && s.Length == |distances|
    ensures forall j :: 0 <= j < |distances| ==> s[j] == Quotient(distances[j], p)
  {
    s := new real[|distances|];
    for i := 0 to |distances|
      invariant forall j :: 0 <= j < i ==> s[j] == Quotient(distances[j], p)
    {
      s[i] := num[i] / den[i];
    }
  }

  /** Every value whose distance lies beyond Dmax becomes 0. */
  method CapBeyondDmax(s: array<real>, distances: seq<real>, p: SwitchParams)
    requires p.R0 != 0.0 && s.Length == |distances|
    requires forall j :: 0 <= j < |distances| ==> s[j] == Quotient(distances[j], p)
    modifies s
    ensures forall j :: 0 <= j < |distances| ==> s[j] == Capped(distances[j], p)
  {
    for i := 0 to s.Length
      invariant forall j :: 0 <= j < i ==> s[j] == Capped(distances[j], p)
      invariant forall j :: i <= j < s.Length ==> s[j] == Quotient(distances[j], p)
    {
      if distances[i] > p.Dmax {
        s[i] := 0.0;
      }
    }
  }

  /** Every negative value becomes 0. */
  method ClampAtZero(s: array<real>, distances: seq<real>, p: SwitchParams)
    requires p.R0 != 0.0 && s.Length == |distances|
    requires forall j :: 0 <= j < |distances| ==> s[j] == Capped(distances[j], p)
    modifies s
    ensures forall j :: 0 <= j < |distances| ==> s[j] == SwitchValue(distances[j], p)
  {
    for i := 0 to s.Length
      invariant forall j :: 0 <= j < i ==> s[j] == SwitchValue(distances[j], p)
      invariant forall j :: i <= j < s.Length ==> s[j] == Capped(distances[j], p)
    {
      if s[i] < 0.0 {
        s[i] := 0.0;
      }
    }
  }

  /** At d = D0 the ratio is 0, so both powers vanish and the switch is exactly 1. */
  lemma SwitchAtD0(p: SwitchParams)
    requires p.R0 != 0.0 && p.NN > 0 && p.MM > 0 && p.D0 <= p.Dmax
    ensures SwitchValue(p.D0, p) == 1.0
  {
    assert Ratio(p.D0, p) == 0.0;
    PowZero(p.NN);
    PowZero(p.MM);
  }

  /** At (d - D0) / R0 = 1 numerator and denominator are both 0; the patched
      denominator makes the switch 0 rather than undefined. */
  lemma SwitchAtUnitRatio(d: real, p: SwitchParams)
    requires p.R0 != 0.0 && Ratio(d, p) == 1.0
    ensures RawDenominator(d, p) == 0.0 && Denominator(d, p) == DenominatorPatch
    ensures SwitchValue(d, p) == 0.0
  {
    PowOne(p.NN);
    PowOne(p.MM);
  }

  lemma CancelFactor(q: real, a: real, b: real, c: real)
    requires a != 0.0 && c == a * b && q * c == a
    ensures q * b == 1.0
  {
    assert (q * b - 1.0) * a == q * c - a;
  }

  lemma RationalAtMostOne(y: real)
    requires y >= 0.0 && y != 1.0
    ensures 1.0 - y * y != 0.0
    ensures 0.0 < (1.0 - y) / (1.0 - y * y) <= 1.0
  {
    var a, b := 1.0 - y, 1.0 + y;
    assert 1.0 - y * y == a * b;
    assert a * b != 0.0;
    var c := a * b;
    var q := a / c;
    assert q == (1.0 - y) / (1.0 - y * y);
    assert q * c == a;
    CancelFactor(q, a, b, c);
  }

  /** With MM = 2 NN and NN even (the shipped 6/12 shape) the switch reduces to
      1 / (1 + x^NN) away from x^NN = 1 and never exceeds 1. */
  lemma SwitchAtMostOne(d: real, p: SwitchParams)
    requires p.R0 != 0.0 && p.MM == 2 * p.NN && p.NN % 2 == 0
    ensures SwitchValue(d, p) <= 1.0
  {
    var x := Ratio(d, p);
    var y := Pow(x, p.NN);
    PowEvenNonNegative(x, p.NN);
    PowAdd(x, p.NN, p.NN);
    assert RawDenominator(d, p) == 1.0 - y * y;
    if y == 1.0 {
      assert Numerator(d, p) == 0.0;
    } else {
      RationalAtMostOne(y);
      assert Quotient(d, p) == (1.0 - y) / (1.0 - y * y);
    }
  }

  // ---------------------------------------------------------------------------
  // Smooth coordination number

  /** The smooth coordination number of one bond type: the sum of the switch
      over the distances. */
  function CnSmooth(c: CoordinationConfig, dists: seq<real>, bond: BondType): (r: real)
    requires SwitchFor(c, bond).R0 != 0.0
    ensures r >= 0.0
    ensures dists == [] ==> r == 0.0
  {
    var p := SwitchFor(c, bond);
    SumOfNonNegativeAll(dists, d => SwitchValue(d, p));
    SumOf(dists, d => SwitchValue(d, p))
  }

  lemma CnSmoothSnoc(c: CoordinationConfig, dists: seq<real>, d: real, bond: BondType)
    requires SwitchFor(c, bond).R0 != 0.0
    ensures CnSmooth(c, dists + [d], bond) == CnSmooth(c, dists, bond) + SwitchValue(d, SwitchFor(c, bond))
  {
    var p := SwitchFor(c, bond);
    SumOfSnoc(dists, d, x => SwitchValue(x, p));
  }

  lemma CnSmoothPermutation(c: CoordinationConfig, a: seq<real>, b: seq<real>, bond: BondType)
    requires SwitchFor(c, bond).R0 != 0.0
    requires multiset(a) == multiset(b)
    ensures CnSmooth(c, a, bond) == CnSmooth(c, b, bond)
  {
    var p := SwitchFor(c, bond);
    SumOfPermutation(a, b, d => SwitchValue(d, p));
  }

  /** Under the 6/12-shaped parameters each neighbour contributes at most 1. */
  lemma CnSmoothAtMostCount(c: CoordinationConfig, dists: seq<real>, bond: BondType)
    requires SwitchFor(c, bond).R0 != 0.0
    requires SwitchFor(c, bond).MM == 2 * SwitchFor(c, bond).NN && SwitchFor(c, bond).NN % 2 == 0
    ensures CnSmooth(c, dists, bond) <= |dists| as real
  {
    var p := SwitchFor(c, bond);
    forall d | d in dists
      ensures 0.0 <= SwitchValue(d, p) <= 1.0
    {
      SwitchAtMostOne(d, p);
    }
    SumOfAtMost(dists, d => SwitchValue(d, p), 0.0, 1.0);
  }

  lemma DefaultSwitchShape(bond: BondType)
    ensures SwitchFor(Default.coordination, bond).R0 != 0.0
    ensures SwitchFor(Default.coordination, bond).MM == 2 * SwitchFor(Default.coordination, bond).NN
    ensures SwitchFor(Default.coordination, bond).NN % 2 == 0
  {
  }

  // ---------------------------------------------------------------------------
  // Distances

  /** Distances from `center` to each position, in order. */
  function Distances(t: Transcendentals, positions: seq<Vec3>, center: Vec3): (r: seq<real>)
    requires SignFacts(t)
    ensures |r| == |positions|
    ensures forall i :: 0 <= i < |r| ==> r[i] == Distance(t, positions[i], center) && r[i] >= 0.0
  {
    Map(positions, q => Distance(t, q, center))
  }

  /** The distances strictly above the self-distance threshold. */
  function WithoutSelf(dists: seq<real>): (r: seq<real>)
    ensures forall d :: d in r ==> d in dists && d > SelfDistance
    ensures forall d :: d in dists && d > SelfDistance ==> d in r
    ensures forall d :: d in dists ==> multiset(r)[d] == if d > SelfDistance then multiset(dists)[d] else 0
  {
    FilterMultiset(dists, d => d > SelfDistance);
    Filter(dists, d => d > SelfDistance)
  }

  /** The distances strictly below `cutoff`. */
  function Below(dists: seq<real>, cutoff: real): (r: seq<real>)
    ensures forall d :: d in r ==> d in dists && d < cutoff
    ensures forall d :: d in dists && d < cutoff ==> d in r
    ensures forall d :: d in dists ==> multiset(r)[d] == if d < cutoff then multiset(dists)[d] else 0
  {
    FilterMultiset(dists, d => d < cutoff);
    Filter(dists, d => d < cutoff)
  }

  /** A position equal to the centre is at distance 0. */
  lemma SelfDistanceIsZero(t: Transcendentals, center: Vec3)
    requires SignFacts(t)
    ensures Distance(t, center, center) == 0.0
  {
    VectorSubSelf(center);
  }

  lemma DistancesPermutation(t: Transcendentals, a: seq<Vec3>, b: seq<Vec3>, center: Vec3)
    requires SignFacts(t)
    requires multiset(a) == multiset(b)
    ensures multiset(Distances(t, a, center)) == multiset(Distances(t, b, center))
  {
    MapPermutation(a, b, q => Distance(t, q, center));
  }

  // ---------------------------------------------------------------------------
  // Bond-specific coordination

  datatype BondCn = BondCn(
    cnCenterCenter: real,
    cnCenterOther: real,
    cnTotal: real,
    avgDistCenterCenter: real,
    avgDistCenterOther: real,
    centralElement: string)

  predicate SwitchesValid(c: CoordinationConfig)
  {
    c.ptPt.R0 != 0.0 && c.ptSn.R0 != 0.0 && c.snSn.R0 != 0.0
  }

  /** Coordination of a centre of the given element against the Pt and Sn
      neighbour lists. Only the same-species list is cleared of the centre
      itself (distances <= 0.1); the mixed bond always uses the Pt-Sn
      parameters; a centre that is neither Pt nor Sn keeps every number at 0. */
  method CalcBondSpecificCnSmooth(t: Transcendentals, c: CoordinationConfig, central: Vec3,
                                  centralElement: string, ptPositions: seq<Vec3>, snPositions: seq<Vec3>)
    returns (r: BondCn)
    requires SignFacts(t) && SwitchesValid(c)
    ensures r.centralElement == centralElement
    ensures r.cnTotal == r.cnCenterCenter + r.cnCenterOther
    ensures r.cnCenterCenter >= 0.0 && r.cnCenterOther >= 0.0
    ensures centralElement == "Pt" ==>
      var same := WithoutSelf(Distances(t, ptPositions, central));
      var other := Distances(t, snPositions, central);
      && r.cnCenterCenter == CnSmooth(c, same, PtPt)
      && r.avgDistCenterCenter == Mean(Below(same, c.rcutPtPt * AverageCutoffFactor))
      && r.cnCenterOther == CnSmooth(c, other, PtSn)
      && r.avgDistCenterOther == Mean(Below(other, c.rcutPtSn * AverageCutoffFactor))
    ensures centralElement == "Sn" ==>
      var same := WithoutSelf(Distances(t, snPositions, central));
      var other := Distances(t, ptPositions, central);
      && r.cnCenterCenter == CnSmooth(c, same, SnSn)
      && r.avgDistCenterCenter == Mean(Below(same, c.rcutSnSn * AverageCutoffFactor))
      && r.cnCenterOther == CnSmooth(c, other, PtSn)
      && r.avgDistCenterOther == Mean(Below(other, c.rcutPtSn * AverageCutoffFactor))
    ensures centralElement != "Pt" && centralElement != "Sn" ==>
      r == BondCn(0.0, 0.0, 0.0, 0.0, 0.0, centralElement)
  {
    if centralElement == "Pt" {
      r := PtCentreCn(t, c, central, ptPositions, snPositions);
    } else if centralElement == "Sn" {
      r := SnCentreCn(t, c, central, ptPositions, snPositions);
    } else {
      r := BondCn(0.0, 0.0, 0.0, 0.0, 0.0, centralElement);
    }
  }

  /** The Pt branch: Pt neighbours are the same species, Sn the other. */
  method PtCentreCn(t: Transcendentals, c: CoordinationConfig, central: Vec3,
                    ptPositions: seq<Vec3>, snPositions: seq<Vec3>)
    returns (r: BondCn)
    requires SignFacts(t) && SwitchesValid(c)
    ensures r.centralElement == "Pt"
    ensures r.cnTotal == r.cnCenterCenter + r.cnCenterOther
    ensures r.cnCenterCenter >= 0.0 && r.cnCenterOther >= 0.0
    ensures var same := WithoutSelf(Distances(t, ptPositions, central));
            var other := Distances(t, snPositions, central);
            && r.cnCenterCenter == CnSmooth(c, same, PtPt)
            && r.avgDistCenterCenter == Mean(Below(same, c.rcutPtPt * AverageCutoffFactor))
            && r.cnCenterOther == CnSmooth(c, other, PtSn)
            && r.avgDistCenterOther == Mean(Below(other, c.rcutPtSn * AverageCutoffFactor))
  {
    r := BondCn(0.0, 0.0, 0.0, 0.0, 0.0, "Pt");
    if |ptPositions| > 0 {
      var ptDists := WithoutSelf(Distances(t, ptPositions, central));
      r := r.(cnCenterCenter := CnSmooth(c, ptDists, PtPt));
      var validPt := Below(ptDists, c.rcutPtPt * AverageCutoffFactor);
      if |validPt| > 0 {
        r := r.(avgDistCenterCenter := Mean(validPt));
      }
    }
    if |snPositions| > 0 {
      var snDists := Distances(t, snPositions, central);
      r := r.(cnCenterOther := CnSmooth(c, snDists, PtSn));
      var validSn := Below(snDists, c.rcutPtSn * AverageCutoffFactor);
      if |validSn| > 0 {
        r := r.(avgDistCenterOther := Mean(validSn));
      }
    }
    r := r.(cnTotal := r.cnCenterCenter + r.cnCenterOther);
  }

  /** The Sn branch: Sn neighbours are the same species, Pt the other. */
  method SnCentreCn(t: Transcendentals, c: CoordinationConfig, central: Vec3,
                    ptPositions: seq<Vec3>, snPositions: seq<Vec3>)
    returns (r: BondCn)
    requires SignFacts(t) && SwitchesValid(c)
    ensures r.centralElement == "Sn"
    ensures r.cnTotal == r.cnCenterCenter + r.cnCenterOther
    ensures r.cnCenterCenter >= 0.0 && r.cnCenterOther >= 0.0
    ensures var same := WithoutSelf(Distances(t, snPositions, central));
            var other := Distances(t, ptPositions, central);
            && r.cnCenterCenter == CnSmooth(c, same, SnSn)
            && r.avgDistCenterCenter == Mean(Below(same, c.rcutSnSn * AverageCutoffFactor))
            && r.cnCenterOther == CnSmooth(c, other, PtSn)
            && r.avgDistCenterOther == Mean(Below(other, c.rcutPtSn * AverageCutoffFactor))
  {
    r := BondCn(0.0, 0.0, 0.0, 0.0, 0.0, "Sn");
    if |ptPositions| > 0 {
      var ptDists := Distances(t, ptPositions, central);
      r := r.(cnCenterOther := CnSmooth(c, ptDists, PtSn));
      var validPt := Below(ptDists, c.rcutPtSn * AverageCutoffFactor);
      if |validPt| > 0 {
        r := r.(avgDistCenterOther := Mean(validPt));
      }
    }
    if |snPositions| > 0 {
      var snDists := WithoutSelf(Distances(t, snPositions, central));
      r := r.(cnCenterCenter := CnSmooth(c, snDists, SnSn));
      var validSn := Below(snDists, c.rcutSnSn * AverageCutoffFactor);
      if |validSn| > 0 {
        r := r.(avgDistCenterCenter := Mean(validSn));
      }
    }
    r := r.(cnTotal := r.cnCenterOther + r.cnCenterCenter);
  }

  /** Every average distance is non-negative and stays below 1.5 times its cutoff. */
  lemma AverageDistanceBounds(dists: seq<real>, cutoff: real)
    requires forall d :: d in dists ==> d >= 0.0
    ensures Mean(Below(dists, cutoff)) >= 0.0
    ensures Below(dists, cutoff) != [] ==> Mean(Below(dists, cutoff)) < cutoff
  {
    var v := Below(dists, cutoff);
    if v != [] {
      var hi := v[0];
      var i := 1;
      while i < |v|
        invariant 1 <= i <= |v|
        invariant hi in v
        invariant forall j :: 0 <= j < i ==> v[j] <= hi
      {
        if v[i] > hi {
          hi := v[i];
        }
        i := i + 1;
      }
      forall j | 0 <= j < |v|
        ensures 0.0 <= v[j] <= hi
      {
        assert v[j] in v;
      }
      MeanBounds(v, 0.0, hi);
    }
  }

  // ---------------------------------------------------------------------------
  // GCN descriptors

  datatype Gcn = Gcn(gcnLoc: real, wGcnLoc: real, snWGcnLoc: real, shellGcnLoc: real)

  /** exp(-d / r0), or 0 beyond the cutoff. */
  function ExpTerm(t: Transcendentals, r0: real, cutoff: real, d: real): (r: real)
    requires SignFacts(t) && r0 != 0.0
    ensures r >= 0.0
    ensures d > cutoff ==> r == 0.0
  {
    if d > cutoff then 0.0 else t.exp(-d / r0)
  }

  /** Standard GCN: one exponential term per Pt and per Sn distance. */
  function StandardGcn(t: Transcendentals, e: ExpParams, pt: seq<real>, sn: seq<real>): (r: real)
    requires SignFacts(t) && e.r0 != 0.0
    ensures r >= 0.0
  {
    SumOfNonNegativeAll(pt + sn, d => ExpTerm(t, e.r0, e.cutoff, d));
    SumOf(pt + sn, d => ExpTerm(t, e.r0, e.cutoff, d))
  }

  /** Weighted GCN: the Pt terms and the Sn terms scaled by their species weights. */
  function WeightedGcn(t: Transcendentals, w: WeightedParams, pt: seq<real>, sn: seq<real>): (r: real)
    requires SignFacts(t) && w.r0 != 0.0
    ensures w.ptWeight >= 0.0 && w.snWeight >= 0.0 ==> r >= 0.0
  {
    var fp := d => w.ptWeight * ExpTerm(t, w.r0, w.cutoff, d);
    var fs := d => w.snWeight * ExpTerm(t, w.r0, w.cutoff, d);
    assert w.ptWeight >= 0.0 && w.snWeight >= 0.0 ==> SumOf(pt, fp) >= 0.0 && SumOf(sn, fs) >= 0.0 by {
      if w.ptWeight >= 0.0 && w.snWeight >= 0.0 {
        forall d | d in pt
          ensures fp(d) >= 0.0
        {
          assert ExpTerm(t, w.r0, w.cutoff, d) >= 0.0;
        }
        forall d | d in sn
          ensures fs(d) >= 0.0
        {
          assert ExpTerm(t, w.r0, w.cutoff, d) >= 0.0;
        }
        SumOfNonNegativeAll(pt, fp);
        SumOfNonNegativeAll(sn, fs);
      }
    }
    SumOf(pt, fp) + SumOf(sn, fs)
  }

  /** Both ends of the window are included. */
  predicate InWindow(w: Window, d: real)
  {
    w.rMin <= d <= w.rMax
  }

  /** The window test as a predicate on distances. */
  function Inside(w: Window): real -> bool
  {
    d => InWindow(w, d)
  }

  /** Weighted count of the Pt and Sn distances inside a window: with
      non-negative weights it lies between 0 and the score of every distance
      counted. */
  function WindowScore(w: Window, pt: seq<real>, sn: seq<real>): (r: real)
    ensures w.ptWeight >= 0.0 && w.snWeight >= 0.0 ==> 0.0 <= r <= Score(w, |pt|, |sn|)
  {
    var ptCount, snCount := Count(pt, Inside(w)), Count(sn, Inside(w));
    ScoreMonotone(w, ptCount, snCount, |pt|, |sn|);
    Score(w, ptCount, snCount)
  }

  /** With non-negative weights the score grows with both counts. */
  lemma ScoreMonotone(w: Window, ptCount: nat, snCount: nat, ptMax: nat, snMax: nat)
    requires ptCount <= ptMax && snCount <= snMax
    ensures w.ptWeight >= 0.0 && w.snWeight >= 0.0 ==> 0.0 <= Score(w, ptCount, snCount) <= Score(w, ptMax, snMax)
  {
    if w.ptWeight >= 0.0 && w.snWeight >= 0.0 {
      ScaleMonotone(w.ptWeight, ptCount, ptMax);
      ScaleMonotone(w.snWeight, snCount, snMax);
    }
  }

  lemma ScaleMonotone(k: real, a: nat, b: nat)
    requires k >= 0.0 && a <= b
    ensures 0.0 <= k * a as real <= k * b as real
  {
  }

  /** The window's weights applied to a Pt count and an Sn count. */
  function Score(w: Window, ptCount: nat, snCount: nat): real
  {
    w.ptWeight * ptCount as real + w.snWeight * snCount as real
  }

  /** Shell GCN: the window scores of every shell added up; overlapping shells
      are not deduplicated. */
  function ShellGcn(shells: seq<Window>, pt: seq<real>, sn: seq<real>): (r: real)
    ensures (forall w :: w in shells ==> w.ptWeight >= 0.0 && w.snWeight >= 0.0) ==> r >= 0.0
  {
    if shells == [] then 0.0
    else ShellGcn(shells[..|shells| - 1], pt, sn) + WindowScore(shells[|shells| - 1], pt, sn)
  }

  /** One more shell adds its window score to the running shell GCN. */
  lemma ShellGcnStep(shells: seq<Window>, i: nat, pt: seq<real>, sn: seq<real>)
    requires i < |shells|
    ensures ShellGcn(shells[..i + 1], pt, sn) == ShellGcn(shells[..i], pt, sn) + WindowScore(shells[i], pt, sn)
  {
    assert shells[..i + 1][..i] == shells[..i];
  }

  /** The Pt distances used by every GCN variant: the centre itself removed. */
  function GcnPtDistances(t: Transcendentals, ptPositions: seq<Vec3>, central: Vec3): seq<real>
    requires SignFacts(t)
  {
    WithoutSelf(Distances(t, ptPositions, central))
  }

  predicate GcnValid(g: GcnConfig)
  {
    g.enable ==> g.standard.r0 != 0.0 && g.weighted.r0 != 0.0
  }

  /** The four GCN variants of a centre; all zero when GCN is disabled. Only the
      Pt list is cleared of the centre, so an Sn centre sees itself at distance 0. */
  method CalcGcnDescriptors(t: Transcendentals, g: GcnConfig, central: Vec3,
                            ptPositions: seq<Vec3>, snPositions: seq<Vec3>)
    returns (r: Gcn)
    requires SignFacts(t) && GcnValid(g)
    ensures !g.enable ==> r == Gcn(0.0, 0.0, 0.0, 0.0)
    ensures g.enable ==>
      var pt := GcnPtDistances(t, ptPositions, central);
      var sn := Distances(t, snPositions, central);
      && r.gcnLoc == StandardGcn(t, g.standard, pt, sn)
      && r.wGcnLoc == WeightedGcn(t, g.weighted, pt, sn)
      && r.snWGcnLoc == WindowScore(g.snWeighted, pt, sn)
      && r.shellGcnLoc == ShellGcn(g.shells, pt, sn)
  {
    if !g.enable {
      return Gcn(0.0, 0.0, 0.0, 0.0);
    }
    var ptDists := Distances(t, ptPositions, central);
    var snDists := Distances(t, snPositions, central);
    ptDists := WithoutSelf(ptDists);

    var gcnLoc := StandardGcn(t, g.standard, ptDists, snDists);
    var wGcnLoc := WeightedGcn(t, g.weighted, ptDists, snDists);
    var snWGcnLoc := WindowScore(g.snWeighted, ptDists, snDists);

    var shellGcnLoc := 0.0;
    for i := 0 to |g.shells|
      invariant shellGcnLoc == ShellGcn(g.shells[..i], ptDists, snDists)
    {
      ShellGcnStep(g.shells, i, ptDists, snDists);
      shellGcnLoc := shellGcnLoc + WindowScore(g.shells[i], ptDists, snDists);
    }
    assert g.shells[..|g.shells|] == g.shells;
    r := Gcn(gcnLoc, wGcnLoc, snWGcnLoc, shellGcnLoc);
  }

  /** A term beyond the cutoff adds nothing to the standard GCN. */
  lemma StandardGcnIgnoresBeyondCutoff(t: Transcendentals, e: ExpParams, pt: seq<real>, sn: seq<real>, d: real)
    requires SignFacts(t) && e.r0 != 0.0
    requires d > e.cutoff
    ensures StandardGcn(t, e, pt + [d], sn) == StandardGcn(t, e, pt, sn)
  {
    var f := x => ExpTerm(t, e.r0, e.cutoff, x);
    assert multiset((pt + [d]) + sn) == multiset((pt + sn) + [d]);
    SumOfPermutation((pt + [d]) + sn, (pt + sn) + [d], f);
    SumOfSnoc(pt + sn, d, f);
  }

  lemma DistancesSnoc(t: Transcendentals, positions: seq<Vec3>, q: Vec3, center: Vec3)
    requires SignFacts(t)
    ensures Distances(t, positions + [q], center) == Distances(t, positions, center) + [Distance(t, q, center)]
  {
    var l, r := Distances(t, positions + [q], center), Distances(t, positions, center) + [Distance(t, q, center)];
    assert |l| == |r|;
    forall i | 0 <= i < |l|
      ensures l[i] == r[i]
    {
      if i < |positions| {
        assert (positions + [q])[i] == positions[i];
      }
    }
  }

  /** The centre itself, if it is listed among the Pt atoms, is dropped. */
  lemma PtSelfExcluded(t: Transcendentals, ptPositions: seq<Vec3>, central: Vec3)
    requires SignFacts(t)
    ensures GcnPtDistances(t, ptPositions + [central], central) == GcnPtDistances(t, ptPositions, central)
  {
    SelfDistanceIsZero(t, central);
    DistancesSnoc(t, ptPositions, central, central);
    FilterSnoc(Distances(t, ptPositions, central), 0.0, d => d > SelfDistance);
  }

  /** An Sn centre listed among the Sn atoms contributes exp(0) > 0 to the
      standard GCN through its own zero distance. */
  lemma SnSelfCounted(t: Transcendentals, e: ExpParams, pt: seq<real>, snPositions: seq<Vec3>, central: Vec3, k: nat)
    requires SignFacts(t) && e.r0 != 0.0 && e.cutoff >= 0.0
    requires k < |snPositions| && snPositions[k] == central
    ensures StandardGcn(t, e, pt, Distances(t, snPositions, central)) >= t.exp(0.0) > 0.0
  {
    SelfDistanceInList(t, snPositions, central, k);
    ZeroTermCounts(t, e, pt, Distances(t, snPositions, central), k);
  }

  lemma SelfDistanceInList(t: Transcendentals, positions: seq<Vec3>, central: Vec3, k: nat)
    requires SignFacts(t)
    requires k < |positions| && positions[k] == central
    ensures Distances(t, positions, central)[k] == 0.0
  {
    SelfDistanceIsZero(t, central);
  }

  lemma ZeroTermCounts(t: Transcendentals, e: ExpParams, pt: seq<real>, sn: seq<real>, k: nat)
    requires SignFacts(t) && e.r0 != 0.0 && e.cutoff >= 0.0
    requires k < |sn| && sn[k] == 0.0
    ensures StandardGcn(t, e, pt, sn) >= t.exp(0.0) > 0.0
  {
    var f := x => ExpTerm(t, e.r0, e.cutoff, x);
    var all := pt + sn;
    assert all[|pt| + k] == 0.0;
    assert f(all[|pt| + k]) == t.exp(0.0) by {
      assert -0.0 / e.r0 == 0.0;
    }
    SumOfNonNegative(all, f, |pt| + k);
  }

  /** With the shipped shells a Pt distance of 2.5 lies in the first two
      windows and is counted in both: 1.0 + 0.8. */
  lemma SharedShellBoundary()
    ensures ShellGcn(Default.gcn.shells, [2.5], []) == 1.8
  {
    var s := Default.gcn.shells;
    assert s[..2][..1] == s[..1] == [s[0]];
    assert s[..1][..0] == [];
    assert ShellGcn(s[..1], [2.5], []) == 1.0;
    assert ShellGcn(s[..2], [2.5], []) == 1.8;
    assert WindowScore(s[0], [2.5], []) == 1.0;
    assert WindowScore(s[1], [2.5], []) == 0.8;
    assert WindowScore(s[2], [2.5], []) == 0.0;
  }

  /** The Sn-weighted window includes both of its ends. */
  lemma SnWindowInclusive(w: Window)
    requires w.rMin <= w.rMax
    ensures WindowScore(w, [w.rMin, w.rMax], []) == 2.0 * w.ptWeight
    ensures WindowScore(w, [], [w.rMin, w.rMax]) == 2.0 * w.snWeight
  {
    var both := [w.rMin, w.rMax];
    BothEndsInside(w);
    assert Score(w, 2, 0) == 2.0 * w.ptWeight;
    assert Score(w, 0, 2) == 2.0 * w.snWeight;
  }

  lemma BothEndsInside(w: Window)
    requires w.rMin <= w.rMax
    ensures Count([w.rMin, w.rMax], Inside(w)) == 2 && Count([], Inside(w)) == 0
  {
    var inside := Inside(w);
    assert inside(w.rMin) && inside(w.rMax);
    FilterSnoc([], w.rMin, inside);
    FilterSnoc([w.rMin], w.rMax, inside);
    assert [] + [w.rMin] == [w.rMin];
    assert [w.rMin] + [w.rMax] == [w.rMin, w.rMax];
  }

  lemma WindowScorePermutation(w: Window, pt: seq<real>, pt': seq<real>, sn: seq<real>, sn': seq<real>)
    requires multiset(pt) == multiset(pt') && multiset(sn) == multiset(sn')
    ensures WindowScore(w, pt, sn) == WindowScore(w, pt', sn')
  {
    CountPermutation(pt, pt', Inside(w));
    CountPermutation(sn, sn', Inside(w));
  }

  lemma {:induction false} ShellGcnPermutation(shells: seq<Window>, pt: seq<real>, pt': seq<real>, sn: seq<real>, sn': seq<real>)
    requires multiset(pt) == multiset(pt') && multiset(sn) == multiset(sn')
    ensures ShellGcn(shells, pt, sn) == ShellGcn(shells, pt', sn')
    decreases |shells|
  {
    if shells != [] {
      ShellGcnPermutation(shells[..|shells| - 1], pt, pt', sn, sn');
      WindowScorePermutation(shells[|shells| - 1], pt, pt', sn, sn');
    }
  }

  /** Reordering the Pt atoms and the Sn atoms leaves every GCN variant unchanged. */
  lemma GcnPermutation(t: Transcendentals, g: GcnConfig, central: Vec3,
                       ptPositions: seq<Vec3>, ptPositions': seq<Vec3>,
                       snPositions: seq<Vec3>, snPositions': seq<Vec3>)
    requires SignFacts(t) && g.standard.r0 != 0.0 && g.weighted.r0 != 0.0
    requires multiset(ptPositions) == multiset(ptPositions')
    requires multiset(snPositions) == multiset(snPositions')
    ensures var pt, pt' := GcnPtDistances(t, ptPositions, central), GcnPtDistances(t, ptPositions', central);
            var sn, sn' := Distances(t, snPositions, central), Distances(t, snPositions', central);
            && StandardGcn(t, g.standard, pt, sn) == StandardGcn(t, g.standard, pt', sn')
            && WeightedGcn(t, g.weighted, pt, sn) == WeightedGcn(t, g.weighted, pt', sn')
            && WindowScore(g.snWeighted, pt, sn) == WindowScore(g.snWeighted, pt', sn')
            && ShellGcn(g.shells, pt, sn) == ShellGcn(g.shells, pt', sn')
  {
    var all, all' := Distances(t, ptPositions, central), Distances(t, ptPositions', central);
    DistancesPermutation(t, ptPositions, ptPositions', central);
    DistancesPermutation(t, snPositions, snPositions', central);
    FilterPermutation(all, all', d => d > SelfDistance);
    var pt, pt' := GcnPtDistances(t, ptPositions, central), GcnPtDistances(t, ptPositions', central);
    var sn, sn' := Distances(t, snPositions, central), Distances(t, snPositions', central);
    assert multiset(pt + sn) == multiset(pt' + sn');
    SumOfPermutation(pt + sn, pt' + sn', d => ExpTerm(t, g.standard.r0, g.standard.cutoff, d));
    var w := g.weighted;
    SumOfPermutation(pt, pt', d => w.ptWeight * ExpTerm(t, w.r0, w.cutoff, d));
    SumOfPermutation(sn, sn', d => w.snWeight * ExpTerm(t, w.r0, w.cutoff, d));
    WindowScorePermutation(g.snWeighted, pt, pt', sn, sn');
    ShellGcnPermutation(g.shells, pt, pt', sn, sn');
  }
}
