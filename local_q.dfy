/** Model of the local Steinhardt order parameters Q_l of one atom: neighbour
    selection (optionally metal atoms only, then 0.1 < d < cutoff), the
    sentinel 0.0 for fewer than four neighbours, the q_lm vector assembled
    slot by slot from the external spherical-harmonic routine, the Q6/Q4
    wrappers and the (Q4, Q6) structure classifier. */
module LocalQ {
  import opened Seqs
  import opened MathUtils
  import opened Config
  import opened Wrappers

  /** Fewer valid neighbours than this give the sentinel 0.0. */
  const MinNeighbours: nat := 4

  predicate IsMetal(e: string)
  {
    e == "Pt" || e == "Sn"
  }

  predicate IsMetalAtom(atom: (Vec3, string))
  {
    IsMetal(atom.1)
  }

  function AtomPosition(atom: (Vec3, string)): Vec3
  {
    atom.0
  }

  /** The metal candidates are the positions selected by the Pt/Sn flags of the
      elements, in order, one per Pt or Sn atom. */
  lemma MetalCandidatesSelected(positions: seq<Vec3>, elements: seq<string>)
    requires |positions| == |elements|
    ensures var r := Map(Filter(Zip(positions, elements), IsMetalAtom), AtomPosition);
            r == Select(positions, Map(elements, IsMetal)) && |r| == Count(elements, IsMetal)
  {
    FilterZipSelects(positions, elements, IsMetal, IsMetalAtom, AtomPosition);
    SelectedCount(Map(elements, IsMetal));
    CountMapped(elements, IsMetal);
  }

  /** Each metal atom's position is a metal candidate, and each metal candidate is
      a metal atom's position. */
  lemma MetalCandidatesMembers(positions: seq<Vec3>, elements: seq<string>)
    requires |positions| == |elements|
    ensures var r := Map(Filter(Zip(positions, elements), IsMetalAtom), AtomPosition);
            && (forall i :: 0 <= i < |positions| && IsMetal(elements[i]) ==> positions[i] in r)
            && (forall v :: v in r ==> exists i :: 0 <= i < |positions| && IsMetal(elements[i]) && positions[i] == v)
  {
    var atoms := Zip(positions, elements);
    var metals := Filter(atoms, IsMetalAtom);
    var r := Map(metals, AtomPosition);
    forall i | 0 <= i < |positions| && IsMetal(elements[i])
      ensures positions[i] in r
    {
      assert atoms[i] in metals;
      var k :| 0 <= k < |metals| && metals[k] == atoms[i];
      assert r[k] == positions[i];
    }
    forall v | v in r
      ensures exists i :: 0 <= i < |positions| && IsMetal(elements[i]) && positions[i] == v
    {
      var k :| 0 <= k < |r| && r[k] == v;
      assert metals[k] in atoms;
      var i :| 0 <= i < |atoms| && atoms[i] == metals[k];
      assert positions[i] == v && IsMetal(elements[i]);
    }
  }

  /** The atoms a centre may take as neighbours: every position, or with
      `metalOnly` only those whose element is Pt or Sn. */
  function Candidates(positions: seq<Vec3>, elements: seq<string>, metalOnly: bool): (r: seq<Vec3>)
    requires metalOnly ==> |positions| == |elements|
    ensures !metalOnly ==> r == positions
    ensures metalOnly ==> |r| <= |positions|
    ensures metalOnly ==> forall i :: 0 <= i < |positions| && IsMetal(elements[i]) ==> positions[i] in r
    ensures metalOnly ==> forall v :: v in r ==> exists i :: 0 <= i < |positions| && IsMetal(elements[i]) && positions[i] == v
    ensures metalOnly ==> r == Select(positions, Map(elements, IsMetal))
    ensures metalOnly ==> |r| == Count(elements, IsMetal)
  {
    if metalOnly then
      MetalCandidatesSelected(positions, elements);
      MetalCandidatesMembers(positions, elements);
      Map(Filter(Zip(positions, elements), IsMetalAtom), AtomPosition)
    else positions
  }

  /** A neighbour is strictly farther than 0.1 and strictly closer than the cutoff. */
  predicate IsValidNeighbour(t: Transcendentals, v: Vec3, cutoff: real)
    requires SignFacts(t)
  {
    SelfDistance < VectorNorm(t, v) < cutoff
  }

  function ValidNeighbours(t: Transcendentals, vectors: seq<Vec3>, cutoff: real): (r: seq<Vec3>)
    requires SignFacts(t)
    ensures |r| <= |vectors|
    ensures forall v :: v in r ==> v in vectors && SelfDistance < VectorNorm(t, v) < cutoff
    ensures forall v :: v in vectors && SelfDistance < VectorNorm(t, v) < cutoff ==> v in r
    ensures forall v :: v in vectors ==>
              multiset(r)[v] == if SelfDistance < VectorNorm(t, v) < cutoff then multiset(vectors)[v] else 0
  {
    FilterMultiset(vectors, v => IsValidNeighbour(t, v, cutoff));
    Filter(vectors, v => IsValidNeighbour(t, v, cutoff))
  }

  /** Polar angle arccos(clip(z / r, -1, 1)) of a displacement. */
  function Polar(t: Transcendentals, v: Vec3): real
    requires SignFacts(t) && VectorNorm(t, v) != 0.0
  {
    t.arccos(Clip(v.z / VectorNorm(t, v), -1.0, 1.0))
  }

  /** Azimuth atan2(y, x) of a displacement. */
  function Azimuth(t: Transcendentals, v: Vec3): real
  {
    t.atan2(v.y, v.x)
  }

  /** Y_l^m in the direction of one neighbour, by the external routine whose
      arguments are (order, degree, azimuth, polar). */
  function Harmonic(t: Transcendentals, l: nat, m: int, v: Vec3): Complex
    requires SignFacts(t) && VectorNorm(t, v) > SelfDistance
  {
    t.sphHarm(m, l, Azimuth(t, v), Polar(t, v))
  }

  function Re(z: Complex): real { z.re }
  function Im(z: Complex): real { z.im }

  /** Every displacement is longer than the self-distance threshold. */
  predicate Separated(t: Transcendentals, valid: seq<Vec3>)
    requires SignFacts(t)
  {
    forall v :: v in valid ==> VectorNorm(t, v) > SelfDistance
  }

  /** Mean of complex values, part by part, 0 for no values. */
  function MeanComplex(zs: seq<Complex>): (r: Complex)
    ensures zs == [] ==> r == Complex(0.0, 0.0)
    ensures IsMean(r.re, Map(zs, Re)) && IsMean(r.im, Map(zs, Im))
  {
    Complex(Mean(Map(zs, Re)), Mean(Map(zs, Im)))
  }

  /** q_lm: the mean of Y_l^m over the valid neighbours. */
  function QlmEntry(t: Transcendentals, l: nat, m: int, valid: seq<Vec3>): Complex
    requires SignFacts(t)
    requires Separated(t, valid)
  {
    MeanComplex(Harmonics(t, l, m, valid))
  }

  /** Y_l^m towards each valid neighbour, in order. */
  function Harmonics(t: Transcendentals, l: nat, m: int, valid: seq<Vec3>): (r: seq<Complex>)
    requires SignFacts(t)
    requires Separated(t, valid)
    ensures |r| == |valid|
    ensures forall i :: 0 <= i < |valid| ==> r[i] == Harmonic(t, l, m, valid[i])
  {
    seq(|valid|, i requires 0 <= i < |valid| => Harmonic(t, l, m, valid[i]))
  }

  /** The q_l vector: slot m + l holds q_lm for m = -l .. l. */
  function QlmVector(t: Transcendentals, l: nat, valid: seq<Vec3>): (r: seq<Complex>)
    requires SignFacts(t)
    requires Separated(t, valid)
    ensures |r| == 2 * l + 1
    ensures forall i :: 0 <= i < 2 * l + 1 ==> r[i] == QlmEntry(t, l, i - l, valid)
  {
    seq(2 * l + 1, i requires 0 <= i < 2 * l + 1 => QlmEntry(t, l, i - l, valid))
  }

  /** |z|^2. */
  function NormSquared(z: Complex): (r: real)
    ensures r >= 0.0
  {
    z.re * z.re + z.im * z.im
  }

  /** sqrt(4 pi / (2l + 1) * sum |q_lm|^2). */
  function QlOf(t: Transcendentals, l: nat, qlm: seq<Complex>): (r: real)
    requires SignFacts(t)
    ensures r >= 0.0
  {
    t.sqrt(4.0 * Pi / (2 * l + 1) as real * SumOf(qlm, NormSquared))
  }

  /** The local Q_l of one centre, with the two sentinel cases; never negative. */
  function QLocal(t: Transcendentals, central: Vec3, positions: seq<Vec3>, elements: seq<string>,
                  cutoff: real, l: nat, metalOnly: bool): (r: real)
    requires SignFacts(t)
    requires metalOnly ==> |positions| == |elements|
    ensures r >= 0.0
  {
    var candidates := Candidates(positions, elements, metalOnly);
    if |candidates| == 0 then 0.0
    else
      var valid := ValidNeighbours(t, DisplacementsFrom(candidates, central), cutoff);
      if |valid| < MinNeighbours then 0.0
      else QlOf(t, l, QlmVector(t, l, valid))
  }

  /** Fills the 2l + 1 slots of q_lm one order at a time. */
  method AssembleQlm(t: Transcendentals, l: nat, valid: seq<Vec3>) returns (qlm: seq<Complex>)
    requires SignFacts(t)
    requires Separated(t, valid)
    ensures |qlm| == 2 * l + 1
    ensures forall i :: 0 <= i < 2 * l + 1 ==> qlm[i] == QlmEntry(t, l, i - l, valid)
  {
    var entry := m => QlmEntry(t, l, m, valid);
    qlm := FillOrders(l, entry);
    forall i | 0 <= i < 2 * l + 1
      ensures qlm[i] == QlmEntry(t, l, i - l, valid)
    {
      var m := i - l;
      assert qlm[m + l] == entry(m);
    }
  }

  /** The loop over the orders m = -l .. l, writing slot m + l of a zeroed array. */
  method FillOrders(l: nat, entry: int -> Complex) returns (qlm: seq<Complex>)
    ensures |qlm| == 2 * l + 1
    ensures forall m :: -(l as int) <= m <= l ==> qlm[m + l] == entry(m)
  {
    var a := new Complex[2 * l + 1](_ => Complex(0.0, 0.0));
    for m := -(l as int) to l + 1
      invariant forall k :: -(l as int) <= k < m ==> a[k + l] == entry(k)
    {
      a[m + l] := entry(m);
    }
    qlm := a[..];
  }

  /** The local Q_l of one centre, step by step: candidates, displacements,
      valid neighbours, the sentinel checks and the q_lm loop. */
  method CalcQLocal(t: Transcendentals, central: Vec3, positions: seq<Vec3>, elements: seq<string>,
                    cutoff: real, l: nat, metalOnly: bool) returns (q: real)
    requires SignFacts(t)
    requires metalOnly ==> |positions| == |elements|
    ensures q == QLocal(t, central, positions, elements, cutoff, l, metalOnly)
    ensures q >= 0.0
  {
    var neighbours := Candidates(positions, elements, metalOnly);
    if |neighbours| == 0 {
      return 0.0;
    }
    var vectors := DisplacementsFrom(neighbours, central);
    vectors := ValidNeighbours(t, vectors, cutoff);
    if |vectors| < MinNeighbours {
      return 0.0;
    }
    var qlm := AssembleQlm(t, l, vectors);
    assert qlm == QlmVector(t, l, vectors);
    q := QlOf(t, l, qlm);
  }

  /** No candidate atoms, or fewer than four valid neighbours, give 0.0. */
  lemma QLocalSentinel(t: Transcendentals, central: Vec3, positions: seq<Vec3>, elements: seq<string>,
                       cutoff: real, l: nat, metalOnly: bool)
    requires SignFacts(t)
    requires metalOnly ==> |positions| == |elements|
    requires |Candidates(positions, elements, metalOnly)| == 0
          || |ValidNeighbours(t, DisplacementsFrom(Candidates(positions, elements, metalOnly), central), cutoff)| < MinNeighbours
    ensures QLocal(t, central, positions, elements, cutoff, l, metalOnly) == 0.0
  {
  }

  /** With metal atoms only, atoms of any other element never influence Q_l. */
  lemma NonMetalIgnored(t: Transcendentals, central: Vec3, positions: seq<Vec3>, elements: seq<string>,
                        p: Vec3, e: string, cutoff: real, l: nat)
    requires SignFacts(t) && |positions| == |elements| && !IsMetal(e)
    ensures QLocal(t, central, positions + [p], elements + [e], cutoff, l, true)
         == QLocal(t, central, positions, elements, cutoff, l, true)
  {
    var atoms := Zip(positions, elements);
    assert Zip(positions + [p], elements + [e]) == atoms + [(p, e)];
    FilterSnoc(atoms, (p, e), IsMetalAtom);
  }

  lemma {:induction false} MeanComplexPermutation(a: seq<Complex>, b: seq<Complex>)
    requires multiset(a) == multiset(b)
    ensures MeanComplex(a) == MeanComplex(b)
  {
    MapPermutation(a, b, Re);
    MapPermutation(a, b, Im);
    MeanPermutation(Map(a, Re), Map(b, Re));
    MeanPermutation(Map(a, Im), Map(b, Im));
  }

  /** Q_l depends only on the multiset of valid neighbour displacements. */
  lemma QlPermutation(t: Transcendentals, l: nat, valid: seq<Vec3>, valid': seq<Vec3>)
    requires SignFacts(t)
    requires Separated(t, valid)
    requires multiset(valid) == multiset(valid')
    ensures Separated(t, valid')
    ensures QlmVector(t, l, valid) == QlmVector(t, l, valid')
  {
    SeparatedPermutation(t, valid, valid');
    var u, u' := QlmVector(t, l, valid), QlmVector(t, l, valid');
    forall i | 0 <= i < 2 * l + 1
      ensures u[i] == u'[i]
    {
      SlotPermutation(t, l, i, valid, valid');
    }
  }

  lemma SeparatedPermutation(t: Transcendentals, valid: seq<Vec3>, valid': seq<Vec3>)
    requires SignFacts(t)
    requires Separated(t, valid)
    requires multiset(valid) == multiset(valid')
    ensures Separated(t, valid')
  {
    forall v | v in valid'
      ensures VectorNorm(t, v) > SelfDistance
    {
      assert v in multiset(valid');
    }
  }

  lemma SlotPermutation(t: Transcendentals, l: nat, i: int, valid: seq<Vec3>, valid': seq<Vec3>)
    requires SignFacts(t)
    requires Separated(t, valid) && Separated(t, valid')
    requires multiset(valid) == multiset(valid')
    requires 0 <= i < 2 * l + 1
    ensures QlmVector(t, l, valid)[i] == QlmVector(t, l, valid')[i]
  {
    HarmonicMapPermutation(t, l, i - l, valid, valid');
  }

  lemma HarmonicMapPermutation(t: Transcendentals, l: nat, m: int, valid: seq<Vec3>, valid': seq<Vec3>)
    requires SignFacts(t)
    requires Separated(t, valid)
    requires Separated(t, valid')
    requires multiset(valid) == multiset(valid')
    ensures QlmEntry(t, l, m, valid) == QlmEntry(t, l, m, valid')
  {
    var h := Harmonics(t, l, m, valid);
    var h' := Harmonics(t, l, m, valid');
    var g := (v: Vec3) => if VectorNorm(t, v) > SelfDistance then Harmonic(t, l, m, v) else Complex(0.0, 0.0);
    assert h == Map(valid, g);
    assert h' == Map(valid', g);
    MapPermutation(valid, valid', g);
    MeanComplexPermutation(h, h');
  }

  /** The local Q_l of a centre does not depend on the order in which the atoms
      (with their elements, when only metals count) are listed. */
  lemma QLocalPermutation(t: Transcendentals, central: Vec3, positions: seq<Vec3>, elements: seq<string>,
                          positions': seq<Vec3>, elements': seq<string>, cutoff: real, l: nat, metalOnly: bool)
    requires SignFacts(t)
    requires metalOnly ==> |positions| == |elements| && |positions'| == |elements'|
    requires metalOnly ==> multiset(Zip(positions, elements)) == multiset(Zip(positions', elements'))
    requires !metalOnly ==> multiset(positions) == multiset(positions')
    ensures QLocal(t, central, positions, elements, cutoff, l, metalOnly)
         == QLocal(t, central, positions', elements', cutoff, l, metalOnly)
  {
    var c, c' := Candidates(positions, elements, metalOnly), Candidates(positions', elements', metalOnly);
    if metalOnly {
      var atoms, atoms' := Zip(positions, elements), Zip(positions', elements');
      FilterPermutation(atoms, atoms', IsMetalAtom);
      MapPermutation(Filter(atoms, IsMetalAtom), Filter(atoms', IsMetalAtom), AtomPosition);
    }
    assert multiset(c) == multiset(c');
    assert |c| == |multiset(c)| == |multiset(c')| == |c'|;
    var d, d' := DisplacementsFrom(c, central), DisplacementsFrom(c', central);
    MapPermutation(c, c', q => VectorSub(q, central));
    FilterPermutation(d, d', v => IsValidNeighbour(t, v, cutoff));
    var valid, valid' := ValidNeighbours(t, d, cutoff), ValidNeighbours(t, d', cutoff);
    assert |valid| == |multiset(valid)| == |multiset(valid')| == |valid'|;
    QlPermutation(t, l, valid, valid');
  }

  // ---------------------------------------------------------------------------
  // Q6 and Q4 wrappers

  /** The cutoff a wrapper uses: the caller's, or the configured Q6 cutoff. */
  function EffectiveCutoff(cfg: QConfig, cutoff: Option<real>): (r: real)
    ensures cutoff.Some? ==> r == cutoff.value
    ensures cutoff.None? ==> r == cfg.q6Cutoff
  {
    if cutoff.Some? then cutoff.value else cfg.q6Cutoff
  }

  /** Local Q6: degree 6, metal atoms only unless oxygen is configured in. */
  method CalcQ6Fast(t: Transcendentals, cfg: QConfig, central: Vec3, positions: seq<Vec3>,
                    elements: seq<string>, cutoff: Option<real>) returns (q: real)
    requires SignFacts(t)
    requires !cfg.includeOxygenInLocal ==> |positions| == |elements|
    ensures q == QLocal(t, central, positions, elements, EffectiveCutoff(cfg, cutoff), 6, !cfg.includeOxygenInLocal)
    ensures q >= 0.0
  {
    var c := EffectiveCutoff(cfg, cutoff);
    var metalOnly := !cfg.includeOxygenInLocal;
    q := CalcQLocal(t, central, positions, elements, c, 6, metalOnly);
  }

  /** Local Q4: degree 4, with the same (Q6) cutoff and neighbour rule as Q6. */
  method CalcQ4Fast(t: Transcendentals, cfg: QConfig, central: Vec3, positions: seq<Vec3>,
                    elements: seq<string>, cutoff: Option<real>) returns (q: real)
    requires SignFacts(t)
    requires !cfg.includeOxygenInLocal ==> |positions| == |elements|
    ensures q == QLocal(t, central, positions, elements, EffectiveCutoff(cfg, cutoff), 4, !cfg.includeOxygenInLocal)
    ensures q >= 0.0
  {
    var c := EffectiveCutoff(cfg, cutoff);
    var metalOnly := !cfg.includeOxygenInLocal;
    q := CalcQLocal(t, central, positions, elements, c, 4, metalOnly);
  }

  // ---------------------------------------------------------------------------
  // Structure classification

  datatype Structure = FccLike | IcoLike | HcpLike | BccLike | PartiallyOrdered | LiquidLike | Disordered

  function Label(s: Structure): string
  {
    match s
    case FccLike => "FCC-like"
    case IcoLike => "ICO-like"
    case HcpLike => "HCP-like"
    case BccLike => "BCC-like"
    case PartiallyOrdered => "Partially-Ordered"
    case LiquidLike => "Liquid-like"
    case Disordered => "Disordered"
  }

  /** The (Q4, Q6) decision tree. Each label is characterised by a region of
      the plane; FCC-like is reached from both ordered Q6 bands. */
  function ClassifyStructure(q4: real, q6: real): (s: Structure)
    ensures s == FccLike <==> q6 > 0.50 && q4 > 0.15
    ensures s == IcoLike <==> q6 > 0.60 && q4 <= 0.15
    ensures s == HcpLike <==> 0.50 < q6 <= 0.60 && 0.08 < q4 <= 0.15
    ensures s == BccLike <==> 0.50 < q6 <= 0.60 && q4 <= 0.08
    ensures s == PartiallyOrdered <==> 0.35 < q6 <= 0.50
    ensures s == LiquidLike <==> 0.25 < q6 <= 0.35
    ensures s == Disordered <==> q6 <= 0.25
  {
    if q6 > 0.60 then
      if q4 > 0.15 then FccLike else IcoLike
    else if q6 > 0.50 then
      if q4 > 0.15 then FccLike
      else if q4 > 0.08 then HcpLike
      else BccLike
    else if q6 > 0.35 then PartiallyOrdered
    else if q6 > 0.25 then LiquidLike
    else Disordered
  }

  /** Q4 is only consulted when Q6 exceeds 0.50. */
  lemma ClassifierIgnoresQ4(q4: real, q4': real, q6: real)
    requires q6 <= 0.50
    ensures ClassifyStructure(q4, q6) == ClassifyStructure(q4', q6)
  {
  }

  lemma ClassifierExamples()
    ensures Label(ClassifyStructure(0.2, 0.65)) == "FCC-like"
    ensures Label(ClassifyStructure(0.05, 0.55)) == "BCC-like"
    ensures Label(ClassifyStructure(0.1, 0.20)) == "Disordered"
  {
  }

  /** The seven labels are distinct strings. */
  lemma LabelInjective(a: Structure, b: Structure)
    requires Label(a) == Label(b)
    ensures a == b
  {
  }
}
