/** Model of the output validator's core: the per-column statistics
    accumulator, the range check driven by column-name markers, the filter
    choosing the columns worth summarising, and the key-token check of the
    detection report. */
module OutputCheck {
  import opened Seqs
  import opened Wrappers

  /** What converting a cell's text to a float gives: a finite number, NaN or
      an infinity. A conversion that raises is `None` at the parse parameter. */
  datatype FloatValue = Number(value: real) | NotANumber | Infinity(positive: bool)

  predicate Finite(parsed: Option<FloatValue>)
  {
    parsed.Some? && parsed.value.Number?
  }

  /** Running statistics of one CSV column. `values` records the finite values
      seen so far, in order, so that the invariants can speak about them. */
  class ColumnStats {
    const name: string
    var count: nat
    var missing: nat
    var nan: nat
    var minValue: Option<real>
    var maxValue: Option<real>
    var sumValue: real
    ghost var calls: nat
    ghost var values: seq<real>

    ghost predicate Valid()
      reads this
    {
      && count + missing + nan == calls
      && count == |values|
      && sumValue == Sum(values)
      && (count == 0 <==> minValue.None?)
      && (count == 0 <==> maxValue.None?)
      && (count > 0 ==> minValue.value <= maxValue.value)
      && (count > 0 ==> minValue.value in values && maxValue.value in values)
      && (count > 0 ==> forall i :: 0 <= i < |values| ==> minValue.value <= values[i] <= maxValue.value)
    }

    constructor (name: string)
      ensures Valid()
      ensures this.name == name && calls == 0 && values == []
      ensures count == 0 && missing == 0 && nan == 0 && minValue.None? && maxValue.None?
    {
      this.name := name;
      count := 0;
      missing := 0;
      nan := 0;
      minValue := None;
      maxValue := None;
      sumValue := 0.0;
      calls := 0;
      values := [];
    }

    /** Records one raw cell: an absent or empty cell is missing; text that does
        not convert, NaN and infinities count as nan; a finite value is counted,
        summed, and widens the minimum and maximum. */
    method Register(raw: Option<string>, parseFloat: string -> Option<FloatValue>)
      requires Valid()
      modifies this
      ensures Valid() && calls == old(calls) + 1
      ensures raw.None? || raw.value == "" ==>
        missing == old(missing) + 1 && count == old(count) && nan == old(nan) && values == old(values)
      ensures raw.Some? && raw.value != "" && !Finite(parseFloat(raw.value)) ==>
        nan == old(nan) + 1 && count == old(count) && missing == old(missing) && values == old(values)
      ensures raw.Some? && raw.value != "" && Finite(parseFloat(raw.value)) ==>
        var v := parseFloat(raw.value).value.value;
        && count == old(count) + 1 && missing == old(missing) && nan == old(nan)
        && values == old(values) + [v]
        && minValue == Some(if old(minValue).None? || v < old(minValue).value then v else old(minValue).value)
        && maxValue == Some(if old(maxValue).None? || v > old(maxValue).value then v else old(maxValue).value)
      ensures sumValue == Sum(values)
    {
      if raw.None? || raw.value == "" {
        missing := missing + 1;
        calls := calls + 1;
        return;
      }
      var parsed := parseFloat(raw.value);
      if parsed.None? || !parsed.value.Number? {
        nan := nan + 1;
        calls := calls + 1;
        return;
      }
      RecordFinite(parsed.value.value);
    }

    /** The finite-value branch of `Register`. */
    method RecordFinite(v: real)
      requires Valid()
      modifies this
      ensures Valid() && calls == old(calls) + 1
      ensures count == old(count) + 1 && missing == old(missing) && nan == old(nan)
      ensures values == old(values) + [v]
      ensures minValue == Some(if old(minValue).None? || v < old(minValue).value then v else old(minValue).value)
      ensures maxValue == Some(if old(maxValue).None? || v > old(maxValue).value then v else old(maxValue).value)
    {
      var lo := if minValue.None? || v < minValue.value then v else minValue.value;
      var hi := if maxValue.None? || v > maxValue.value then v else maxValue.value;
      SumSnoc(values, v);
      WidenBounds(values, minValue, maxValue, v, lo, hi);
      calls := calls + 1;
      count := count + 1;
      sumValue := sumValue + v;
      values := values + [v];
      minValue := Some(lo);
      maxValue := Some(hi);
    }

    /** The mean of the finite values, or `None` before any was registered. */
    function Mean(): (r: Option<real>)
      reads this
      requires Valid()
      ensures count == 0 <==> r.None?
      ensures r.Some? ==> r.value * count as real == Sum(values)
      ensures r.Some? ==> minValue.value <= r.value <= maxValue.value
    {
      if count == 0 then None
      else
        SumBounds(values, minValue.value, maxValue.value);
        MeanBetween(sumValue, count as real, minValue.value, maxValue.value);
        Some(sumValue / count as real)
    }

    /** The share of rows that are not missing; NaN cells count as present. */
    function Completeness(totalRows: int): (r: real)
      reads this
      ensures totalRows == 0 ==> r == 0.0
      ensures totalRows != 0 ==> r * totalRows as real == (totalRows - missing) as real
      ensures totalRows > 0 && missing <= totalRows ==> 0.0 <= r <= 1.0
    {
      if totalRows == 0 then 0.0
      else (totalRows - missing) as real / totalRows as real
    }
  }

  /** Adding `v` to values bounded by the old minimum and maximum keeps them
      bounded by the widened ones, which are themselves among the values. */
  lemma WidenBounds(values: seq<real>, minValue: Option<real>, maxValue: Option<real>, v: real, lo: real, hi: real)
    requires minValue.None? <==> values == []
    requires maxValue.None? <==> values == []
    requires values != [] ==> minValue.value in values && maxValue.value in values
    requires values != [] ==> forall i :: 0 <= i < |values| ==> minValue.value <= values[i] <= maxValue.value
    requires lo == if minValue.None? || v < minValue.value then v else minValue.value
    requires hi == if maxValue.None? || v > maxValue.value then v else maxValue.value
    ensures lo <= hi && lo in values + [v] && hi in values + [v]
    ensures forall i :: 0 <= i < |values + [v]| ==> lo <= (values + [v])[i] <= hi
  {
    if values != [] {
      assert minValue.value <= maxValue.value by {
        assert minValue.value <= values[0] <= maxValue.value;
      }
    }
  }

  lemma MeanBetween(total: real, n: real, lo: real, hi: real)
    requires n > 0.0 && lo * n <= total <= hi * n
    ensures lo <= total / n <= hi
  {
  }

  /** A frozen view of a column's statistics, as the range check reads them. */
  datatype Summary = Summary(name: string, count: nat, minValue: Option<real>, maxValue: Option<real>)

  predicate StartsWith(s: string, prefix: string)
  {
    |prefix| <= |s| && s[..|prefix|] == prefix
  }

  /** Whether `sub` occurs in `s` as a contiguous piece. */
  predicate Contains(s: string, sub: string)
    decreases |s|
  {
    StartsWith(s, sub) || (s != [] && Contains(s[1..], sub))
  }

  /** `Contains` is substring occurrence: it holds exactly when some
      position of `s` starts a copy of `sub`. */
  lemma {:induction false} ContainsFound(s: string, sub: string) returns (i: nat)
    requires Contains(s, sub)
    ensures i + |sub| <= |s| && s[i..i + |sub|] == sub
    decreases |s|
  {
    if StartsWith(s, sub) {
      i := 0;
    } else {
      var j := ContainsFound(s[1..], sub);
      assert s[1..][j..j + |sub|] == s[j + 1..j + 1 + |sub|];
      i := j + 1;
    }
  }

  lemma {:induction false} ContainsAt(s: string, sub: string, i: nat)
    requires i + |sub| <= |s| && s[i..i + |sub|] == sub
    ensures Contains(s, sub)
    decreases i
  {
    if i > 0 {
      assert s[1..][i - 1..i - 1 + |sub|] == sub;
      ContainsAt(s[1..], sub, i - 1);
    }
  }

  /** A marker, the smallest acceptable value and the largest, `None` standing for infinity. */
  datatype Range = Range(marker: string, lower: real, upper: Option<real>)

  /** The markers in the order they are tried. */
  const Ranges: seq<Range> := [
    Range("frame", 0.0, None),
    Range("time_ps", 0.0, None),
    Range("_cn_", 0.0, Some(20.0)),
    Range("_q6", 0.0, Some(1.5)),
    Range("_q4", 0.0, Some(1.5)),
    Range("gcn", 0.0, Some(30.0)),
    Range("dist", 0.0, None),
    Range("radius", 0.0, None)
  ]

  /** The index of the first marker contained in the column name, if any. */
  function FirstMarker(name: string, from: nat): (r: Option<nat>)
    ensures r.Some? ==> from <= r.value < |Ranges| && Contains(name, Ranges[r.value].marker)
    ensures r.Some? ==> forall k :: from <= k < r.value ==> !Contains(name, Ranges[k].marker)
    ensures r.None? ==> forall k :: from <= k < |Ranges| ==> !Contains(name, Ranges[k].marker)
    decreases |Ranges| - from
  {
    if from >= |Ranges| then None
    else if Contains(name, Ranges[from].marker) then Some(from)
    else FirstMarker(name, from + 1)
  }

  datatype RangeIssue = BelowLower(column: string, lower: real, minimum: real)
                      | AboveUpper(column: string, upper: real, maximum: real)

  /** The issues raised for one column against one range. */
  function IssuesAgainst(c: Summary, range: Range): seq<RangeIssue>
  {
    (if c.minValue.Some? && c.minValue.value < range.lower
     then [BelowLower(c.name, range.lower, c.minValue.value)] else [])
    + (if c.maxValue.Some? && range.upper.Some? && c.maxValue.value > range.upper.value
       then [AboveUpper(c.name, range.upper.value, c.maxValue.value)] else [])
  }

  /** The issues raised for one column: none without finite values or without a matching marker. */
  function ColumnIssues(c: Summary): seq<RangeIssue>
  {
    if c.count == 0 then []
    else
      var k := FirstMarker(c.name, 0);
      if k.None? then [] else IssuesAgainst(c, Ranges[k.value])
  }

  function RangeIssues(stats: seq<Summary>): seq<RangeIssue>
  {
    if stats == [] then [] else RangeIssues(stats[..|stats| - 1]) + ColumnIssues(stats[|stats| - 1])
  }

  /** At most two issues per column: one exactly when its minimum is below the
      first matching range's lower bound, one exactly when its maximum is above
      that range's finite upper bound. */
  lemma ColumnIssuesCharacterised(c: Summary)
    ensures |ColumnIssues(c)| <= 2
    ensures c.count == 0 || FirstMarker(c.name, 0).None? ==> ColumnIssues(c) == []
    ensures c.count > 0 && FirstMarker(c.name, 0).Some? ==>
      var range := Ranges[FirstMarker(c.name, 0).value];
      && ((exists lo, m :: BelowLower(c.name, lo, m) in ColumnIssues(c))
            <==> c.minValue.Some? && c.minValue.value < range.lower)
      && ((exists hi, m :: AboveUpper(c.name, hi, m) in ColumnIssues(c))
            <==> c.maxValue.Some? && range.upper.Some? && c.maxValue.value > range.upper.value)
  {
  }

  /** A name that mentions neither the frame nor the time marker but holds
      `_cn_` is checked against the coordination range. */
  lemma CoordinationMarkerFirst(name: string)
    requires !Contains(name, "frame") && !Contains(name, "time_ps") && Contains(name, "_cn_")
    ensures FirstMarker(name, 0) == Some(2)
  {
    assert FirstMarker(name, 2) == Some(2);
  }

  /** Only the first matching marker applies: a coordination column is held to
      the coordination range even when its name also mentions "dist", "gcn" or
      another later marker. */
  lemma FirstMarkerWins(c: Summary)
    requires c.count > 0
    requires !Contains(c.name, "frame") && !Contains(c.name, "time_ps") && Contains(c.name, "_cn_")
    ensures ColumnIssues(c) == IssuesAgainst(c, Range("_cn_", 0.0, Some(20.0)))
  {
    CoordinationMarkerFirst(c.name);
  }

  /** Runs the range check over every column, in order. */
  method CheckRanges(stats: seq<Summary>) returns (issues: seq<RangeIssue>)
    ensures issues == RangeIssues(stats)
  {
    issues := [];
    for i := 0 to |stats|
      invariant issues == RangeIssues(stats[..i])
    {
      assert stats[..i + 1][..i] == stats[..i];
      var found := CheckColumn(stats[i]);
      issues := issues + found;
    }
    assert stats[..|stats|] == stats;
  }

  /** The range check of one column: scan the markers in order and stop at the first that matches. */
  method CheckColumn(column: Summary) returns (found: seq<RangeIssue>)
    ensures found == ColumnIssues(column)
  {
    found := [];
    if column.count == 0 {
      return;
    }
    var k := 0;
    while k < |Ranges|
      invariant 0 <= k <= |Ranges|
      invariant FirstMarker(column.name, 0) == FirstMarker(column.name, k)
    {
      var range := Ranges[k];
      if Contains(column.name, range.marker) {
        if column.minValue.Some? && column.minValue.value < range.lower {
          found := found + [BelowLower(column.name, range.lower, column.minValue.value)];
        }
        if column.maxValue.Some? && range.upper.Some? && column.maxValue.value > range.upper.value {
          found := found + [AboveUpper(column.name, range.upper.value, column.maxValue.value)];
        }
        return;
      }
      k := k + 1;
    }
  }

  /** The markers of the columns worth summarising. */
  const SummaryMarkers: seq<string> := ["_cn_", "_q6", "_q4", "gcn"]

  predicate Important(c: Summary)
  {
    exists k :: 0 <= k < |SummaryMarkers| && Contains(c.name, SummaryMarkers[k])
  }

  /** The columns summarised: exactly those naming a coordination number, Q6, Q4 or GCN, in order. */
  function ImportantColumns(stats: seq<Summary>): (r: seq<Summary>)
    ensures forall c :: c in r <==> c in stats && Important(c)
  {
    Filter(stats, Important)
  }

  /** The tokens the detection report must contain. */
  const RequiredTokens: seq<string> := ["元素检测结果", "金属元素", "总帧数"]

  datatype ReportIssue = Unreadable | MissingToken(token: string)

  /** The detection-report check: one issue when the file cannot be read,
      otherwise one issue per required token absent from the text, in token order. */
  method CheckDetectionInfo(content: Option<string>) returns (issues: seq<ReportIssue>)
    ensures content.None? ==> issues == [Unreadable]
    ensures content.Some? ==> |issues| <= |RequiredTokens|
    ensures content.Some? ==> forall t :: MissingToken(t) in issues <==> t in RequiredTokens && !Contains(content.value, t)
    ensures content.Some? ==> Unreadable !in issues
  {
    if content.None? {
      return [Unreadable];
    }
    issues := [];
    for k := 0 to |RequiredTokens|
      invariant |issues| <= k
      invariant Unreadable !in issues
      invariant forall t :: MissingToken(t) in issues <==> t in RequiredTokens[..k] && !Contains(content.value, t)
    {
      assert RequiredTokens[..k + 1] == RequiredTokens[..k] + [RequiredTokens[k]];
      var token := RequiredTokens[k];
      if !Contains(content.value, token) {
        issues := issues + [MissingToken(token)];
      }
    }
    assert RequiredTokens[..|RequiredTokens|] == RequiredTokens;
  }
}
