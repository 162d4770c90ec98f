/** Model of the coarse geometry descriptors of a frame: the centroid, the
    displacement of every atom from it, the radius of gyration and the mean
    distance of the Sn and of the Pt atoms to the centroid. */
module Geometry {
  import opened Seqs
  import opened MathUtils
  import opened Wrappers

  datatype GeometryStats = GeometryStats(snAvgDistToCenter: real, ptAvgDistToCenter: real, gyrationRadius: real)

  const ZeroStats: GeometryStats := GeometryStats(0.0, 0.0, 0.0)

  function X(v: Vec3): real { v.x }
  function Y(v: Vec3): real { v.y }
  function Z(v: Vec3): real { v.z }

  function First(pair: (real, bool)): real { pair.0 }
  predicate Flagged(pair: (real, bool)) { pair.1 }

  /** The distances whose flag is set, pairing the two lists as far as the
      shorter one reaches. */
  function FlaggedDistances(radial: seq<real>, mask: seq<bool>): (r: seq<real>)
    ensures forall d :: d in r ==> d in radial
    ensures forall d :: d in r ==> exists i :: 0 <= i < |radial| && i < |mask| && mask[i] && radial[i] == d
    ensures forall i :: 0 <= i < |radial| && i < |mask| && mask[i] ==> radial[i] in r
    ensures |radial| == |mask| ==> r == Select(radial, mask)
  {
    var pairs := Zip(radial, mask);
    var flagged := Filter(pairs, Flagged);
    var r := Map(flagged, First);
    forall d | d in r
      ensures exists i :: 0 <= i < |radial| && i < |mask| && mask[i] && radial[i] == d
    {
      var k :| 0 <= k < |flagged| && r[k] == d;
      assert flagged[k] in pairs;
      var i :| 0 <= i < |pairs| && pairs[i] == flagged[k];
      assert radial[i] == d && mask[i];
    }
    forall i | 0 <= i < |radial| && i < |mask| && mask[i]
      ensures radial[i] in r
    {
      assert pairs[i] in pairs && Flagged(pairs[i]);
      var k :| 0 <= k < |flagged| && flagged[k] == pairs[i];
      assert r[k] == radial[i];
    }
    if |radial| == |mask| then FlaggedSelects(radial, mask); r else r
  }

  /** The flagged distances are the radial distances at the selected indices. */
  lemma FlaggedSelects(radial: seq<real>, mask: seq<bool>)
    requires |radial| == |mask|
    ensures Map(Filter(Zip(radial, mask), Flagged), First) == Select(radial, mask)
  {
    FilterZipSelects(radial, mask, Holds, Flagged, First);
    assert Map(mask, Holds) == mask;
  }

  /** Mean of the flagged distances; 0.0 when there are no distances or no flag is set. */
  function AverageDistance(radial: seq<real>, mask: seq<bool>): (r: real)
    ensures radial == [] || true !in mask ==> r == 0.0
    ensures IsMean(r, FlaggedDistances(radial, mask))
  {
    var f := FlaggedDistances(radial, mask);
    assert f != [] ==> radial != [] && true in mask by {
      if f != [] {
        assert f[0] in f;
        var i :| 0 <= i < |radial| && i < |mask| && mask[i] && radial[i] == f[0];
        assert mask[i] in mask;
      }
    }
    if radial == [] || true !in mask then 0.0
    else Mean(f)
  }

  lemma AverageDistanceNonNegative(radial: seq<real>, mask: seq<bool>)
    requires forall d :: d in radial ==> d >= 0.0
    ensures AverageDistance(radial, mask) >= 0.0
  {
    var f := FlaggedDistances(radial, mask);
    forall i | 0 <= i < |f|
      ensures f[i] >= 0.0
    {
      assert f[i] in f;
    }
    MeanNonNegative(f);
  }

  /** The centroid: the componentwise sum divided by the number of atoms. */
  function Center(positions: seq<Vec3>): (r: Vec3)
    requires positions != []
    ensures var n := |positions| as real;
            n * r.x == SumOf(positions, X) && n * r.y == SumOf(positions, Y) && n * r.z == SumOf(positions, Z)
  {
    var n := |positions| as real;
    TimesQuotient(SumOf(positions, X), n);
    TimesQuotient(SumOf(positions, Y), n);
    TimesQuotient(SumOf(positions, Z), n);
    Vec3(SumOf(positions, X) / n, SumOf(positions, Y) / n, SumOf(positions, Z) / n)
  }

  function RadialDistances(t: Transcendentals, displacements: seq<Vec3>): (r: seq<real>)
    requires SignFacts(t)
    ensures |r| == |displacements|
    ensures forall i :: 0 <= i < |r| ==> r[i] == VectorNorm(t, displacements[i]) && r[i] >= 0.0
  {
    Map(displacements, v => VectorNorm(t, v))
  }

  /** Mean squared displacement from the centroid. */
  function MeanSquare(positions: seq<Vec3>): (r: real)
    requires positions != []
    ensures r >= 0.0
    ensures |positions| as real * r == SumOf(DisplacementsFrom(positions, Center(positions)), SquaredNorm)
  {
    var d := DisplacementsFrom(positions, Center(positions));
    forall v | v in d
      ensures SquaredNorm(v) >= 0.0
    {
      SquaredNormNonNegative(v);
    }
    SumOfNonNegativeAll(d, SquaredNorm);
    TimesQuotient(SumOf(d, SquaredNorm), |positions| as real);
    SumOf(d, SquaredNorm) / |positions| as real
  }

  function GyrationRadius(t: Transcendentals, positions: seq<Vec3>): (r: real)
    requires SignFacts(t) && positions != []
    ensures r >= 0.0
  {
    t.sqrt(MeanSquare(positions))
  }

  /** The three descriptors of a frame; zeros when positions or elements are empty. */
  function CalcGeometryStatistics(t: Transcendentals, positions: seq<Vec3>, elements: seq<string>): (r: GeometryStats)
    requires SignFacts(t)
    ensures positions == [] || elements == [] ==> r == ZeroStats
    ensures r.snAvgDistToCenter >= 0.0 && r.ptAvgDistToCenter >= 0.0 && r.gyrationRadius >= 0.0
  {
    if positions == [] || elements == [] then ZeroStats
    else
      var center := Center(positions);
      var displacements := DisplacementsFrom(positions, center);
      var radial := RadialDistances(t, displacements);
      AverageDistanceNonNegative(radial, ElementMask(elements, "Sn"));
      AverageDistanceNonNegative(radial, ElementMask(elements, "Pt"));
      GeometryStats(
        AverageDistance(radial, ElementMask(elements, "Sn")),
        AverageDistance(radial, ElementMask(elements, "Pt")),
        GyrationRadius(t, positions))
  }

  /** The same entry point as the driver actually calls it, with each frame's
      positions as an (n, 3) array: the guard's `not positions` raises for any
      non-empty frame, so no statistics come back (the driver's bare `except`
      then skips the frame), and an empty frame short-circuits to the zeros. */
  function GeometryStatisticsOnArrays(positions: seq<Vec3>, elements: seq<string>): (r: Option<GeometryStats>)
    ensures r.None? <==> positions != []
    ensures r.Some? ==> r.value == ZeroStats
  {
    var noPositions := NotArray(positions);
    if noPositions.None? then None else Some(ZeroStats)
  }

  /** As the driver calls it, no frame with an atom ever gets the statistics
      the descriptor definitions give it. */
  lemma GeometryOnArraysDropsEveryFrame(t: Transcendentals, positions: seq<Vec3>, elements: seq<string>)
    requires SignFacts(t)
    requires positions != []
    ensures GeometryStatisticsOnArrays(positions, elements) != Some(CalcGeometryStatistics(t, positions, elements))
  {
  }

  // ---------------------------------------------------------------------------
  // Properties

  lemma {:induction false} ShiftedSum(s: seq<real>, c: real)
    ensures Sum(Map(s, x => x - c)) == Sum(s) - |s| as real * c
    decreases |s|
  {
    if s != [] {
      var n := |s| - 1;
      ShiftedSum(s[..n], c);
      assert Map(s, x => x - c)[..n] == Map(s[..n], x => x - c);
    }
  }

  /** Summing the displacements along one axis gives the axis sum minus n times the centre's coordinate. */
  lemma DisplacementAxisSum(positions: seq<Vec3>, c: Vec3, axis: Vec3 -> real, k: real)
    requires forall p :: axis(VectorSub(p, c)) == axis(p) - k
    ensures SumOf(DisplacementsFrom(positions, c), axis) == SumOf(positions, axis) - |positions| as real * k
  {
    var d := DisplacementsFrom(positions, c);
    var shifted := Map(Map(positions, axis), x => x - k);
    assert |Map(d, axis)| == |shifted|;
    forall i | 0 <= i < |shifted|
      ensures Map(d, axis)[i] == shifted[i]
    {
    }
    assert Map(d, axis) == shifted;
    ShiftedSum(Map(positions, axis), k);
  }

  /** The displacements from the centroid add up to the zero vector. */
  lemma DisplacementsBalance(positions: seq<Vec3>)
    requires positions != []
    ensures var d := DisplacementsFrom(positions, Center(positions));
            SumOf(d, X) == 0.0 && SumOf(d, Y) == 0.0 && SumOf(d, Z) == 0.0
  {
    var c := Center(positions);
    DisplacementAxisSum(positions, c, X, c.x);
    DisplacementAxisSum(positions, c, Y, c.y);
    DisplacementAxisSum(positions, c, Z, c.z);
    var n := |positions| as real;
    TimesQuotient(SumOf(positions, X), n);
    TimesQuotient(SumOf(positions, Y), n);
    TimesQuotient(SumOf(positions, Z), n);
  }

  lemma TimesQuotient(total: real, n: real)
    requires n > 0.0
    ensures n * (total / n) == total
  {
  }

  /** A single atom is its own centroid, so the gyration radius is 0. */
  lemma SingleAtomGyration(t: Transcendentals, p: Vec3)
    requires SignFacts(t)
    ensures GyrationRadius(t, [p]) == 0.0
  {
    SumOfSingleton(p, X);
    SumOfSingleton(p, Y);
    SumOfSingleton(p, Z);
    assert Center([p]) == p;
    VectorSubSelf(p);
    assert DisplacementsFrom([p], p) == [ZeroVector];
    SumOfSingleton(ZeroVector, SquaredNorm);
  }

  lemma SumOfSingleton<A>(x: A, f: A -> real)
    ensures SumOf([x], f) == f(x)
  {
    assert Map([x], f) == [f(x)];
    SumSnoc([], f(x));
    assert [] + [f(x)] == [f(x)];
  }

  lemma CenterPermutation(positions: seq<Vec3>, positions': seq<Vec3>)
    requires positions != [] && multiset(positions) == multiset(positions')
    ensures positions' != [] && |positions| == |positions'|
    ensures Center(positions) == Center(positions')
  {
    assert |positions| == |multiset(positions)| == |multiset(positions')| == |positions'|;
    SumOfPermutation(positions, positions', X);
    SumOfPermutation(positions, positions', Y);
    SumOfPermutation(positions, positions', Z);
  }

  /** Listing the atoms in another order permutes the flagged distances. */
  lemma FlaggedPermutation(t: Transcendentals, positions: seq<Vec3>, elements: seq<string>,
                           positions': seq<Vec3>, elements': seq<string>, c: Vec3, symbol: string)
    requires SignFacts(t)
    requires |positions| == |elements| && |positions'| == |elements'|
    requires multiset(Zip(positions, elements)) == multiset(Zip(positions', elements'))
    ensures multiset(FlaggedDistances(RadialDistances(t, DisplacementsFrom(positions, c)), ElementMask(elements, symbol)))
         == multiset(FlaggedDistances(RadialDistances(t, DisplacementsFrom(positions', c)), ElementMask(elements', symbol)))
  {
    var atoms, atoms' := Zip(positions, elements), Zip(positions', elements');
    var radial := RadialDistances(t, DisplacementsFrom(positions, c));
    var radial' := RadialDistances(t, DisplacementsFrom(positions', c));
    var mask, mask' := ElementMask(elements, symbol), ElementMask(elements', symbol);
    var h := (pr: (Vec3, string)) => (VectorNorm(t, VectorSub(pr.0, c)), pr.1 == symbol);
    assert Zip(radial, mask) == Map(atoms, h);
    assert Zip(radial', mask') == Map(atoms', h);
    MapPermutation(atoms, atoms', h);
    FilterPermutation(Map(atoms, h), Map(atoms', h), Flagged);
    MapPermutation(Filter(Map(atoms, h), Flagged), Filter(Map(atoms', h), Flagged), First);
  }

  /** Listing the atoms in another order keeps the number of distances and
      whether any atom is flagged. */
  lemma MaskPermutation(t: Transcendentals, positions: seq<Vec3>, elements: seq<string>,
                        positions': seq<Vec3>, elements': seq<string>, c: Vec3, symbol: string)
    requires SignFacts(t)
    requires |positions| == |elements| && |positions'| == |elements'|
    requires multiset(Zip(positions, elements)) == multiset(Zip(positions', elements'))
    ensures |RadialDistances(t, DisplacementsFrom(positions, c))| == |RadialDistances(t, DisplacementsFrom(positions', c))|
    ensures (true in ElementMask(elements, symbol)) == (true in ElementMask(elements', symbol))
  {
    var atoms, atoms' := Zip(positions, elements), Zip(positions', elements');
    var mask, mask' := ElementMask(elements, symbol), ElementMask(elements', symbol);
    var flag := (pr: (Vec3, string)) => pr.1 == symbol;
    assert mask == Map(atoms, flag);
    assert mask' == Map(atoms', flag);
    MapPermutation(atoms, atoms', flag);
    assert (true in mask) == (true in multiset(mask)) == (true in multiset(mask')) == (true in mask');
    assert |positions| == |atoms| == |multiset(atoms)| == |multiset(atoms')| == |atoms'| == |positions'|;
  }

  /** Per-species averages depend only on the multiset of (position, element) atoms. */
  lemma AverageDistancePermutation(t: Transcendentals, positions: seq<Vec3>, elements: seq<string>,
                                   positions': seq<Vec3>, elements': seq<string>, c: Vec3, symbol: string)
    requires SignFacts(t)
    requires |positions| == |elements| && |positions'| == |elements'|
    requires multiset(Zip(positions, elements)) == multiset(Zip(positions', elements'))
    ensures AverageDistance(RadialDistances(t, DisplacementsFrom(positions, c)), ElementMask(elements, symbol))
         == AverageDistance(RadialDistances(t, DisplacementsFrom(positions', c)), ElementMask(elements', symbol))
  {
    var radial := RadialDistances(t, DisplacementsFrom(positions, c));
    var radial' := RadialDistances(t, DisplacementsFrom(positions', c));
    var mask, mask' := ElementMask(elements, symbol), ElementMask(elements', symbol);
    FlaggedPermutation(t, positions, elements, positions', elements', c, symbol);
    MaskPermutation(t, positions, elements, positions', elements', c, symbol);
    MeanPermutation(FlaggedDistances(radial, mask), FlaggedDistances(radial', mask'));
  }

  lemma MeanSquarePermutation(positions: seq<Vec3>, positions': seq<Vec3>)
    requires positions != [] && multiset(positions) == multiset(positions')
    ensures positions' != []
    ensures MeanSquare(positions) == MeanSquare(positions')
  {
    CenterPermutation(positions, positions');
    var c := Center(positions);
    MapPermutation(positions, positions', p => VectorSub(p, c));
    SumOfPermutation(DisplacementsFrom(positions, c), DisplacementsFrom(positions', c), SquaredNorm);
  }

  /** Listing the atoms (each with its element) in another order changes none of
      the three descriptors. */
  lemma GeometryPermutation(t: Transcendentals, positions: seq<Vec3>, elements: seq<string>,
                            positions': seq<Vec3>, elements': seq<string>)
    requires SignFacts(t)
    requires |positions| == |elements| && |positions'| == |elements'|
    requires multiset(Zip(positions, elements)) == multiset(Zip(positions', elements'))
    ensures CalcGeometryStatistics(t, positions, elements) == CalcGeometryStatistics(t, positions', elements')
  {
    var atoms, atoms' := Zip(positions, elements), Zip(positions', elements');
    MapPermutation(atoms, atoms', Fst);
    ZipFirst(positions, elements);
    ZipFirst(positions', elements');
    assert multiset(positions) == multiset(positions');
    assert |positions| == |multiset(positions)| == |multiset(positions')| == |positions'|;
    if positions != [] {
      CenterPermutation(positions, positions');
      MeanSquarePermutation(positions, positions');
      var c := Center(positions);
      AverageDistancePermutation(t, positions, elements, positions', elements', c, "Sn");
      AverageDistancePermutation(t, positions, elements, positions', elements', c, "Pt");
    }
  }
}
