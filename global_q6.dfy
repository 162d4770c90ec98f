/** Model of the global Q6 statistics of a frame: the local Q6 of every atom
    selected by an element mask, each computed against the whole frame,
    averaged while skipping NaN values (but not the 0.0 sentinel), for the
    whole cluster, the metal atoms, the Pt atoms and the Sn atoms. */
module GlobalQ6 {
  import opened Seqs
  import opened MathUtils
  import opened Config
  import opened Wrappers
  import opened LocalQ

  /** A floating-point value that may be NaN; `None` stands for NaN. */
  predicate IsNan(value: Option<real>)
  {
    value.None?
  }

  /** A mask with every flag set selects every index. */
  lemma {:induction false} AllSelected(n: nat)
    ensures |SelectedIndices(seq(n, _ => true))| == n
  {
    if n > 0 {
      AllSelected(n - 1);
      assert seq(n, _ => true)[..n - 1] == seq(n - 1, _ => true);
    }
  }

  /** The non-NaN values, in order. */
  function Numbers(values: seq<Option<real>>): (r: seq<real>)
    ensures |r| <= |values|
    ensures forall x :: x in r ==> Some(x) in values
    ensures forall x :: Some(x) in values ==> x in r
    ensures forall x :: multiset(r)[x] == multiset(values)[Some(x)]
  {
    if values == [] then []
    else
      var rest := Numbers(values[..|values| - 1]);
      var v := values[|values| - 1];
      assert values == values[..|values| - 1] + [v];
      if IsNan(v) then rest else rest + [v.value]
  }

  /** The mean of the non-NaN values; 0.0 when there are none. */
  function NanSkippingMean(values: seq<Option<real>>): (r: real)
    ensures IsMean(r, Numbers(values))
  {
    Mean(Numbers(values))
  }

  /** A NaN contributes nothing to the mean. */
  lemma NanSkipped(values: seq<Option<real>>)
    ensures NanSkippingMean(values + [None]) == NanSkippingMean(values)
  {
    assert (values + [None])[..|values|] == values;
  }

  /** A 0.0 sentinel is a number like any other: it is averaged in. */
  lemma ZeroAveragedIn(values: seq<Option<real>>)
    ensures Numbers(values + [Some(0.0)]) == Numbers(values) + [0.0]
    ensures Numbers(values) != [] && Sum(Numbers(values)) > 0.0 ==>
              NanSkippingMean(values + [Some(0.0)]) < NanSkippingMean(values)
  {
    NumbersSnoc(values, Some(0.0));
    var ns := Numbers(values);
    if ns != [] && Sum(ns) > 0.0 {
      AppendedZeroLowersMean(ns);
    }
  }

  /** Appending 0.0 to numbers with a positive sum lowers their mean. */
  lemma AppendedZeroLowersMean(ns: seq<real>)
    requires ns != [] && Sum(ns) > 0.0
    ensures Mean(ns + [0.0]) < Mean(ns)
  {
    var longer := ns + [0.0];
    SumSnoc(ns, 0.0);
    assert |longer| == |ns| + 1;
    var n := |ns| as real;
    var total := Sum(ns);
    assert Mean(longer) == total / (n + 1.0);
    assert Mean(ns) == total / n;
    DivShrinks(total, n);
  }

  lemma DivShrinks(total: real, n: real)
    requires total > 0.0 && n >= 1.0
    ensures total / (n + 1.0) < total / n
  {
  }

  lemma NumbersSnoc(values: seq<Option<real>>, v: Option<real>)
    ensures Numbers(values + [v]) == if IsNan(v) then Numbers(values) else Numbers(values) + [v.value]
  {
    assert (values + [v])[..|values|] == values;
  }

  lemma NumbersNonNegative(values: seq<Option<real>>)
    requires forall v :: v in values && !IsNan(v) ==> v.value >= 0.0
    ensures NanSkippingMean(values) >= 0.0
  {
    var ns := Numbers(values);
    forall i | 0 <= i < |ns|
      ensures ns[i] >= 0.0
    {
      assert ns[i] in ns;
      assert Some(ns[i]) in values;
    }
    MeanNonNegative(ns);
  }

  /** Q6 of every selected atom, each against all positions and elements of
      the frame, with the cutoff passed through: one value per set flag, in
      increasing atom order. */
  function MaskValues(t: Transcendentals, cfg: QConfig, positions: seq<Vec3>, elements: seq<string>,
                      mask: seq<bool>, cutoff: real): (r: seq<Option<real>>)
    requires SignFacts(t)
    requires |mask| <= |positions|
    requires !cfg.includeOxygenInLocal ==> |positions| == |elements|
    ensures var idx := SelectedIndices(mask);
            |r| == |idx| &&
            forall k :: 0 <= k < |idx| ==>
              r[k] == Some(QLocal(t, positions[idx[k]], positions, elements,
                                  EffectiveCutoff(cfg, Some(cutoff)), 6, !cfg.includeOxygenInLocal))
    ensures |r| == Count(mask, Holds)
  {
    SelectedCount(mask);
    var idx := SelectedIndices(mask);
    seq(|idx|, k requires 0 <= k < |idx| =>
      Some(QLocal(t, positions[idx[k]], positions, elements, EffectiveCutoff(cfg, Some(cutoff)), 6, !cfg.includeOxygenInLocal)))
  }

  /** The average Q6 over the atoms a mask selects: 0.0 when it selects none. */
  function MaskAverage(t: Transcendentals, cfg: QConfig, positions: seq<Vec3>, elements: seq<string>,
                       mask: seq<bool>, cutoff: real): (r: real)
    requires SignFacts(t)
    requires |mask| <= |positions|
    requires !cfg.includeOxygenInLocal ==> |positions| == |elements|
    ensures SelectedIndices(mask) == [] ==> r == 0.0
    ensures r >= 0.0
  {
    var values := MaskValues(t, cfg, positions, elements, mask, cutoff);
    forall v | v in values && !IsNan(v)
      ensures v.value >= 0.0
    {
      var k :| 0 <= k < |values| && values[k] == v;
    }
    NumbersNonNegative(values);
    if SelectedIndices(mask) == [] then 0.0 else NanSkippingMean(values)
  }

  /** The averaging loop: Q6 of each selected atom, NaN values skipped, then the
      plain mean of what remains. */
  method AverageQ6ForMask(t: Transcendentals, cfg: QConfig, positions: seq<Vec3>, elements: seq<string>,
                          mask: seq<bool>, cutoff: real) returns (r: real)
    requires SignFacts(t)
    requires |mask| <= |positions|
    requires !cfg.includeOxygenInLocal ==> |positions| == |elements|
    ensures r == MaskAverage(t, cfg, positions, elements, mask, cutoff)
  {
    if |SelectedIndices(mask)| == 0 {
      return 0.0;
    }
    var values := CollectQ6(t, cfg, positions, elements, mask, cutoff);
    MaskAverageOfValues(t, cfg, positions, elements, mask, cutoff);
    if |values| == 0 {
      return 0.0;
    }
    r := Sum(values) / |values| as real;
  }

  /** The non-NaN Q6 values of the selected atoms, in index order. */
  method CollectQ6(t: Transcendentals, cfg: QConfig, positions: seq<Vec3>, elements: seq<string>,
                   mask: seq<bool>, cutoff: real) returns (values: seq<real>)
    requires SignFacts(t)
    requires |mask| <= |positions|
    requires !cfg.includeOxygenInLocal ==> |positions| == |elements|
    ensures values == Numbers(MaskValues(t, cfg, positions, elements, mask, cutoff))
  {
    var indices := SelectedIndices(mask);
    ghost var all := MaskValues(t, cfg, positions, elements, mask, cutoff);
    values := [];
    for k := 0 to |indices|
      invariant values == Numbers(all[..k])
    {
      var value := SelectedQ6(t, cfg, positions, elements, mask, cutoff, k);
      NumbersStep(all, k, value, values);
      if !IsNan(value) {
        values := values + [value.value];
      }
    }
    assert all[..|indices|] == all;
  }

  /** Q6 of the k-th selected atom, against the whole frame. */
  method SelectedQ6(t: Transcendentals, cfg: QConfig, positions: seq<Vec3>, elements: seq<string>,
                    mask: seq<bool>, cutoff: real, k: nat) returns (value: Option<real>)
    requires SignFacts(t)
    requires |mask| <= |positions|
    requires !cfg.includeOxygenInLocal ==> |positions| == |elements|
    requires k < |SelectedIndices(mask)|
    ensures value == MaskValues(t, cfg, positions, elements, mask, cutoff)[k]
  {
    var q := CalcQ6Fast(t, cfg, positions[SelectedIndices(mask)[k]], positions, elements, Some(cutoff));
    value := Some(q);
  }

  lemma NumbersStep(all: seq<Option<real>>, k: nat, value: Option<real>, values: seq<real>)
    requires k < |all| && all[k] == value && values == Numbers(all[..k])
    ensures Numbers(all[..k + 1]) == if IsNan(value) then values else values + [value.value]
  {
    TakeSnoc(all, k);
    NumbersSnoc(all[..k], value);
  }

  /** With at least one atom selected, the mask average is the NaN-skipping mean of the selected Q6 values. */
  lemma MaskAverageOfValues(t: Transcendentals, cfg: QConfig, positions: seq<Vec3>, elements: seq<string>,
                            mask: seq<bool>, cutoff: real)
    requires SignFacts(t)
    requires |mask| <= |positions|
    requires !cfg.includeOxygenInLocal ==> |positions| == |elements|
    requires SelectedIndices(mask) != []
    ensures MaskAverage(t, cfg, positions, elements, mask, cutoff)
            == Mean(Numbers(MaskValues(t, cfg, positions, elements, mask, cutoff)))
  {
  }

  /** Count and average Q6 of one group of atoms. */
  datatype Group = Group(count: nat, q6Global: real)

  /** The four groups; `metal` is `None` (an empty record) when no atom is a metal. */
  datatype ClusterAnalysis = ClusterAnalysis(cluster: Group, metal: Option<Group>, pt: Group, sn: Group)

  /** The test "is one of the metal elements". */
  function InMetals(metals: seq<string>): string -> bool
  {
    e => e in metals
  }

  /** One flag per atom, set exactly at the metal entries; it has as many set
      flags as there are metal atoms. */
  function MetalMask(elements: seq<string>, metals: seq<string>): (r: seq<bool>)
    ensures |r| == |elements|
    ensures forall i :: 0 <= i < |r| ==> r[i] == (elements[i] in metals)
    ensures Count(r, Holds) == Count(elements, InMetals(metals))
  {
    CountMapped(elements, InMetals(metals));
    Map(elements, InMetals(metals))
  }

  const EmptyAnalysis: ClusterAnalysis :=
    ClusterAnalysis(Group(0, 0.0), None, Group(0, 0.0), Group(0, 0.0))

  /** Global Q6 statistics of a frame. Empty positions or elements give zero
      counts and an empty metal record; otherwise each group holds the number
      of exact symbol matches and the average Q6 of its atoms. */
  method CalcClusterAnalysis(t: Transcendentals, cfg: Config, positions: seq<Vec3>, elements: seq<string>,
                             cutoff: Option<real>) returns (r: ClusterAnalysis)
    requires SignFacts(t)
    requires |positions| > 0 && |elements| > 0 ==> |positions| == |elements|
    ensures |positions| == 0 || |elements| == 0 ==> r == EmptyAnalysis
    ensures |positions| > 0 && |elements| > 0 ==>
      var c := EffectiveCutoff(cfg.q, cutoff);
      var ptMask, snMask := ElementMask(elements, "Pt"), ElementMask(elements, "Sn");
      var metalMask := MetalMask(elements, cfg.elements.metalElements);
      && r.cluster == Group(|elements|, MaskAverage(t, cfg.q, positions, elements, seq(|elements|, _ => true), c))
      && r.pt == Group(Count(ptMask, Holds), MaskAverage(t, cfg.q, positions, elements, ptMask, c))
      && r.sn == Group(Count(snMask, Holds), MaskAverage(t, cfg.q, positions, elements, snMask, c))
      && (r.metal.Some? <==> exists i :: 0 <= i < |elements| && elements[i] in cfg.elements.metalElements)
      && (r.metal.Some? ==>
            r.metal.value == Group(Count(metalMask, Holds), MaskAverage(t, cfg.q, positions, elements, metalMask, c)))
    ensures |positions| > 0 && |elements| > 0 ==>
      && r.pt.count == Count(elements, IsSymbol("Pt"))
      && r.sn.count == Count(elements, IsSymbol("Sn"))
      && (r.metal.Some? ==> r.metal.value.count == Count(elements, InMetals(cfg.elements.metalElements)))
    ensures r.cluster.q6Global >= 0.0 && r.pt.q6Global >= 0.0 && r.sn.q6Global >= 0.0
    ensures r.metal.Some? ==> r.metal.value.q6Global >= 0.0
  {
    var c := EffectiveCutoff(cfg.q, cutoff);
    if |positions| == 0 || |elements| == 0 {
      return EmptyAnalysis;
    }
    var ptMask := ElementMask(elements, "Pt");
    var snMask := ElementMask(elements, "Sn");
    var metalMask := MetalMask(elements, cfg.elements.metalElements);
    var allMask := seq(|elements|, _ => true);

    var clusterQ6 := AverageQ6ForMask(t, cfg.q, positions, elements, allMask, c);
    var ptQ6 := AverageQ6ForMask(t, cfg.q, positions, elements, ptMask, c);
    var snQ6 := AverageQ6ForMask(t, cfg.q, positions, elements, snMask, c);
    r := ClusterAnalysis(
      Group(|elements|, clusterQ6),
      None,
      Group(Count(ptMask, Holds), ptQ6),
      Group(Count(snMask, Holds), snQ6));

    AnyMetal(elements, cfg.elements.metalElements);
    if exists i :: 0 <= i < |metalMask| && metalMask[i] {
      var metalQ6 := AverageQ6ForMask(t, cfg.q, positions, elements, metalMask, c);
      r := r.(metal := Some(Group(Count(metalMask, Holds), metalQ6)));
    }
  }

  /** The same entry point as the driver actually calls it, with each frame's
      positions as an (n, 3) array: the guard's `not positions` raises for any
      non-empty frame, so no analysis comes back (the driver's `except` then
      skips the frame), and an empty frame short-circuits to the empty analysis. */
  function ClusterAnalysisOnArrays(positions: seq<Vec3>, elements: seq<string>): (r: Option<ClusterAnalysis>)
    ensures r.None? <==> positions != []
    ensures r.Some? ==> r.value == EmptyAnalysis
  {
    var noPositions := NotArray(positions);
    if noPositions.None? then None else Some(EmptyAnalysis)
  }

  /** A one-atom Pt frame, for instance, gets no global Q6 row. */
  lemma OneAtomFrameGetsNoAnalysis()
    ensures ClusterAnalysisOnArrays([Vec3(0.0, 0.0, 0.0)], ["Pt"]).None?
  {
  }

  /** The metal mask has a set flag exactly when some element is a metal. */
  lemma AnyMetal(elements: seq<string>, metals: seq<string>)
    ensures (exists i :: 0 <= i < |MetalMask(elements, metals)| && MetalMask(elements, metals)[i])
            <==> (exists i :: 0 <= i < |elements| && elements[i] in metals)
  {
    var mask := MetalMask(elements, metals);
    if exists i :: 0 <= i < |elements| && elements[i] in metals {
      var i :| 0 <= i < |elements| && elements[i] in metals;
      assert mask[i];
    }
  }

  /** The cluster group counts every atom. */
  lemma ClusterCountsEveryAtom(elements: seq<string>)
    ensures |SelectedIndices(seq(|elements|, _ => true))| == |elements|
  {
    AllSelected(|elements|);
  }

  /** The atoms averaged for a species are exactly its entries, each once and
      in order, so the group count is also the number of atoms whose Q6 enters
      the average. */
  lemma SymbolCount(elements: seq<string>, symbol: string)
    ensures var idx := SelectedIndices(ElementMask(elements, symbol));
            && (forall k :: 0 <= k < |idx| ==> elements[idx[k]] == symbol)
            && (forall i :: 0 <= i < |elements| && elements[i] == symbol ==> i in idx)
            && |idx| == Count(elements, IsSymbol(symbol))
  {
    SelectedCount(ElementMask(elements, symbol));
  }
}
