/**
 * How a `QSPRDataset` frames its target property: rows with a missing SMILES or target, or an
 * unparsable SMILES, are dropped; the target is optionally transformed; for classification it
 * is binarised at one threshold or binned into intervals, or else checked to be integral.
 */
module DatasetTargets {
  import opened Errors
  import opened Strings
  import opened Seqs
  import opened Frames
  import opened MoleculeTables

  datatype Task = Regression | Classification

  /** `task.name` of `ModelTasks`, as `save` records it. */
  function TaskName(t: Task): string {
    match t
    case Regression => "REGRESSION"
    case Classification => "CLASSIFICATION"
  }

  // ---------------------------------------------------------------------------------------
  // Invalid rows

  /** The cell of column `c` at row `k` is present (not `NaN`/`None`). */
  predicate Present(df: Frame, c: Name, k: Key) {
    c in df.cells && k in df.cells[c] && df.cells[c][k] != Missing
  }

  /** The rows `dropna(subset=[smilescol, target])` keeps. */
  function NotNa(df: Frame, smilescol: Name, target: Name): Key -> bool {
    k => Present(df, smilescol, k) && Present(df, target, k)
  }

  /** The rows whose SMILES RDKit can parse. */
  function ParsesAt(df: Frame, smilescol: Name, parses: Cell -> bool): Key -> bool {
    k => smilescol in df.cells && k in df.cells[smilescol] && parses(df.cells[smilescol][k])
  }

  /**
   * `dropInvalids()`: rows with a missing SMILES or target are dropped, then rows whose SMILES
   * does not parse; naming a column the table lacks raises `KeyError`.
   */
  function DropInvalidsSpec(df: Frame, smilescol: Name, target: Name, parses: Cell -> bool): (r: Result<Frame>)
    requires WellFormed(df)
    ensures r.Ok? <==> smilescol in df.columns && target in df.columns
    ensures r.Err? ==> r.error.KeyError?
    ensures r.Ok? ==> WellFormed(r.value) && r.value.columns == df.columns
  {
    if smilescol !in df.columns then Err(KeyError(smilescol))
    else if target !in df.columns then Err(KeyError(target))
    else
      var d := FilterRows(df, NotNa(df, smilescol, target));
      Ok(FilterRows(d, ParsesAt(d, smilescol, parses)))
  }

  /** A row that survives `dropInvalids`: SMILES and target present, SMILES parsable. */
  predicate ValidRow(df: Frame, smilescol: Name, target: Name, parses: Cell -> bool, k: Key)
    requires WellFormed(df) && smilescol in df.columns && target in df.columns
    requires k in df.index
  {
    df.cells[smilescol][k] != Missing && df.cells[target][k] != Missing && parses(df.cells[smilescol][k])
  }

  /** The rows kept are some of the original rows, in their original order and with their cells unchanged. */
  lemma DropInvalidsSubFrame(df: Frame, smilescol: Name, target: Name, parses: Cell -> bool)
    requires WellFormed(df) && smilescol in df.columns && target in df.columns
    ensures SubFrame(DropInvalidsSpec(df, smilescol, target, parses).value, df)
  {
    var d := FilterRows(df, NotNa(df, smilescol, target));
    var r := FilterRows(d, ParsesAt(d, smilescol, parses));
    SubFrameTransitive(r, d, df);
  }

  /** The rows kept are exactly the valid ones. */
  lemma DropInvalidsRows(df: Frame, smilescol: Name, target: Name, parses: Cell -> bool)
    requires WellFormed(df) && smilescol in df.columns && target in df.columns
    ensures forall k :: k in DropInvalidsSpec(df, smilescol, target, parses).value.index <==>
      (k in df.index && ValidRow(df, smilescol, target, parses, k))
  {
    var d := FilterRows(df, NotNa(df, smilescol, target));
    var r := FilterRows(d, ParsesAt(d, smilescol, parses));
    forall k ensures k in r.index <==> (k in df.index && ValidRow(df, smilescol, target, parses, k)) {
      assert k in d.index <==> k in df.index && NotNa(df, smilescol, target)(k);
      assert k in r.index <==> k in d.index && ParsesAt(d, smilescol, parses)(k);
      if k in d.index {
        assert d.cells[smilescol][k] == df.cells[smilescol][k];
      }
    }
  }

  /** Dropping invalid rows a second time changes nothing. */
  lemma DropInvalidsIdempotent(df: Frame, smilescol: Name, target: Name, parses: Cell -> bool)
    requires WellFormed(df) && smilescol in df.columns && target in df.columns
    ensures DropInvalidsSpec(DropInvalidsSpec(df, smilescol, target, parses).value, smilescol, target, parses) ==
      DropInvalidsSpec(df, smilescol, target, parses)
  {
    var r := DropInvalidsSpec(df, smilescol, target, parses).value;
    KeptRowsValid(df, smilescol, target, parses);
    FilterRowsAll(r, NotNa(r, smilescol, target));
    FilterRowsAll(r, ParsesAt(r, smilescol, parses));
    assert DropInvalidsSpec(r, smilescol, target, parses) ==
      Ok(FilterRows(FilterRows(r, NotNa(r, smilescol, target)), ParsesAt(FilterRows(r, NotNa(r, smilescol, target)), smilescol, parses)));
  }

  /** Every kept row passes both tests again. */
  lemma KeptRowsValid(df: Frame, smilescol: Name, target: Name, parses: Cell -> bool)
    requires WellFormed(df) && smilescol in df.columns && target in df.columns
    ensures var r := DropInvalidsSpec(df, smilescol, target, parses).value;
      && (forall k :: k in r.index ==> NotNa(r, smilescol, target)(k))
      && (forall k :: k in r.index ==> ParsesAt(r, smilescol, parses)(k))
  {
    var r := DropInvalidsSpec(df, smilescol, target, parses).value;
    forall k | k in r.index ensures NotNa(r, smilescol, target)(k) && ParsesAt(r, smilescol, parses)(k) {
      KeptRowValid(df, smilescol, target, parses, k);
    }
  }

  lemma KeptRowValid(df: Frame, smilescol: Name, target: Name, parses: Cell -> bool, k: Key)
    requires WellFormed(df) && smilescol in df.columns && target in df.columns
    requires k in DropInvalidsSpec(df, smilescol, target, parses).value.index
    ensures var r := DropInvalidsSpec(df, smilescol, target, parses).value;
      Present(r, smilescol, k) && Present(r, target, k) && parses(r.cells[smilescol][k])
  {
    var r := DropInvalidsSpec(df, smilescol, target, parses).value;
    DropInvalidsSubFrame(df, smilescol, target, parses);
    DropInvalidsRows(df, smilescol, target, parses);
    assert k in r.cells[smilescol] && k in r.cells[target];
    assert r.cells[smilescol][k] == df.cells[smilescol][k];
    assert r.cells[target][k] == df.cells[target][k];
  }

  // ---------------------------------------------------------------------------------------
  // Classification

  /** Thresholds that `pd.cut` accepts as bin edges: strictly increasing. */
  predicate Increasing(th: seq<real>) {
    forall i, j :: 0 <= i < j < |th| ==> th[i] < th[j]
  }

  function MaxOf(s: seq<real>): (m: real)
    requires s != []
    ensures m in s && forall x :: x in s ==> x <= m
  {
    if |s| == 1 then s[0]
    else
      var m := MaxOf(s[1..]);
      assert forall x :: x in s ==> x == s[0] || x in s[1..];
      if s[0] >= m then s[0] else m
  }

  function MinOf(s: seq<real>): (m: real)
    requires s != []
    ensures m in s && forall x :: x in s ==> m <= x
  {
    if |s| == 1 then s[0]
    else
      var m := MinOf(s[1..]);
      assert forall x :: x in s ==> x == s[0] || x in s[1..];
      if s[0] <= m then s[0] else m
  }

  /** Increasing thresholds have their least value first and their greatest last. */
  lemma IncreasingBounds(th: seq<real>)
    requires th != [] && Increasing(th)
    ensures MinOf(th) == th[0] && MaxOf(th) == th[|th| - 1]
  {
    var lo, hi := MinOf(th), MaxOf(th);
    var i :| 0 <= i < |th| && th[i] == lo;
    var j :| 0 <= j < |th| && th[j] == hi;
    assert th[0] <= lo && hi >= th[|th| - 1];
  }

  /**
   * `v` lies in interval `j` of `pd.cut(bins=th, include_lowest=True)`: `[th[0], th[1]]` for the
   * first interval, `(th[j], th[j + 1]]` for the others.
   */
  predicate InBin(th: seq<real>, v: real, j: nat) {
    j + 1 < |th| && (if j == 0 then th[0] <= v else th[j] < v) && v <= th[j + 1]
  }

  function BinFrom(th: seq<real>, v: real, j: nat): (b: nat)
    requires Increasing(th) && j + 1 < |th| && v <= th[|th| - 1]
    requires if j == 0 then th[0] <= v else th[j] < v
    ensures InBin(th, v, b)
    decreases |th| - j
  {
    if v <= th[j + 1] then j else BinFrom(th, v, j + 1)
  }

  /** The interval of a value between the first and the last threshold; no other interval holds it. */
  function Bin(th: seq<real>, v: real): (j: nat)
    requires |th| >= 2 && Increasing(th) && th[0] <= v <= th[|th| - 1]
    ensures InBin(th, v, j)
    ensures forall i :: InBin(th, v, i) ==> i == j
  {
    var j := BinFrom(th, v, 0);
    forall i | InBin(th, v, i) ensures i == j {
      BinUnique(th, v, i, j);
    }
    j
  }

  /** The intervals do not overlap. */
  lemma BinUnique(th: seq<real>, v: real, i: nat, j: nat)
    requires Increasing(th) && InBin(th, v, i) && InBin(th, v, j)
    ensures i == j
  {
    BinBelow(th, v, i, j);
    BinBelow(th, v, j, i);
  }

  /** A value in one interval is in none further up. */
  lemma BinBelow(th: seq<real>, v: real, i: nat, j: nat)
    requires Increasing(th) && InBin(th, v, i)
    ensures i < j ==> !InBin(th, v, j)
  {
    if i + 1 < j < |th| {
      assert th[i + 1] < th[j];
    }
  }

  /**
   * Values that several increasing thresholds can bin: numbers and `NaN`s, led by a number
   * (`max` and `min` of a column led by `NaN` are `NaN`, which fails both bound assertions),
   * with every number within the thresholds.
   */
  predicate Binnable(col: seq<Cell>, th: seq<real>) {
    && |th| >= 2 && Increasing(th) && col != [] && col[0].Num? && AllComparable(col)
    && forall i :: 0 <= i < |col| && col[i].Num? ==> th[0] <= col[i].x <= th[|th| - 1]
  }

  /** The interval of every number of a column that the thresholds can bin; `NaN` has none. */
  function Bins(th: seq<real>, col: seq<Cell>): (bins: seq<Option<nat>>)
    requires Binnable(col, th)
    ensures |bins| == |col|
    ensures forall i :: 0 <= i < |col| ==> (bins[i].None? <==> col[i].Missing?)
    ensures forall i :: 0 <= i < |col| && col[i].Num? ==>
      bins[i].Some? && InBin(th, col[i].x, bins[i].value) && bins[i].value < |th| - 1
  {
    seq(|col|, i requires 0 <= i < |col| => if col[i].Num? then Some(Bin(th, col[i].x)) else None)
  }

  /** `str` of the `NaN` that `pd.cut` gives a missing value. */
  const NanLabel := "nan"

  /** The label `astype(str)` gives a bin: the interval's own label, or `"nan"` for no interval. */
  function LabelOfBin(labelOf: nat -> string, b: Option<nat>): string {
    if b.Some? then labelOf(b.value) else NanLabel
  }

  /** The interval labels (`str` of each `pd.Interval`) are pairwise different and none reads `"nan"`. */
  predicate DistinctLabels(labelOf: nat -> string, n: nat) {
    && (forall i: nat, j: nat :: i < j < n ==> labelOf(i) != labelOf(j))
    && (forall i: nat :: i < n ==> labelOf(i) != NanLabel)
  }

  /** `LabelEncoder.classes_`: the distinct labels in string order. */
  function Classes(labels: seq<string>): (classes: seq<string>)
    ensures Sorted(classes) && Distinct(classes)
    ensures forall x :: x in classes <==> x in labels
    ensures |classes| == |Dedup(labels)|
  {
    var c := Sort(Dedup(labels));
    SortSorted(Dedup(labels));
    DistinctPermutation(Dedup(labels), c);
    assert forall x :: x in c <==> x in multiset(c);
    c
  }

  /** `LabelEncoder().fit_transform(labels)`: each label's position among the sorted classes. */
  function Encode(labels: seq<string>): (codes: seq<nat>)
    ensures |codes| == |labels|
    ensures forall i :: 0 <= i < |labels| ==> codes[i] < |Classes(labels)| && Classes(labels)[codes[i]] == labels[i]
  {
    seq(|labels|, i requires 0 <= i < |labels| => IndexOf(Classes(labels), labels[i]))
  }

  /**
   * Two labels get the same code exactly when they are equal, every class is used, and there
   * are as many distinct codes as distinct labels.
   */
  lemma EncodeSpec(labels: seq<string>)
    ensures forall i, j :: 0 <= i < |labels| && 0 <= j < |labels| ==>
      (Encode(labels)[i] == Encode(labels)[j] <==> labels[i] == labels[j])
    ensures forall c: nat :: c < |Classes(labels)| ==> c in Encode(labels)
    ensures |Dedup(Encode(labels))| == |Dedup(labels)|
  {
    var classes, codes := Classes(labels), Encode(labels);
    forall c: nat | c < |classes| ensures c in codes {
      assert classes[c] in labels;
      var i :| 0 <= i < |labels| && labels[i] == classes[c];
      IndexOfDistinct(classes, c);
      assert codes[i] == c;
    }
    DedupSameShape(codes, labels);
  }

  function TextCell(s: string): Cell { Text(s) }
  function CodeCell(n: nat): Cell { Num(n as real) }

  /** A cell `>` compares with a number: a number or `NaN`. */
  predicate Comparable(c: Cell) { c.Num? || c.Missing? }

  /** `(x > t).astype(float)`: `NaN > t` is false. */
  function Above(c: Cell, t: real): Cell {
    Num(if c.Num? && c.x > t then 1.0 else 0.0)
  }

  /** `(column > t).astype(float)`; a string or molecule raises `TypeError`. */
  function Binarize(col: seq<Cell>, t: real): (r: Result<seq<Cell>>)
    ensures r.Ok? <==> forall i :: 0 <= i < |col| ==> Comparable(col[i])
    ensures r.Ok? ==> |r.value| == |col| && forall i :: 0 <= i < |col| ==> r.value[i] == Above(col[i], t)
    ensures r.Err? ==> r.error.TypeError?
  {
    if forall i :: 0 <= i < |col| ==> Comparable(col[i]) then Ok(seq(|col|, i requires 0 <= i < |col| => Above(col[i], t)))
    else Err(TypeError(NotComparable))
  }

  /** Every cell of the column compares with a number. */
  predicate AllComparable(col: seq<Cell>) {
    forall i :: 0 <= i < |col| ==> Comparable(col[i])
  }

  /** `a > b` between two comparable cells: false whenever either is `NaN`. */
  predicate Greater(a: Cell, b: Cell) { a.Num? && b.Num? && a.x > b.x }

  /** `a < b` between two comparable cells: false whenever either is `NaN`. */
  predicate Less(a: Cell, b: Cell) { a.Num? && b.Num? && a.x < b.x }

  /**
   * The builtin `max` over numbers and `NaN`s: the running maximum starts at the first value and
   * a later value replaces it only when it is `>` the running maximum. A leading `NaN` is
   * therefore the result, and a later `NaN` is never taken.
   */
  function PyMax(col: seq<Cell>): (m: Cell)
    requires col != [] && AllComparable(col)
    ensures m in col
    ensures col[0].Missing? ==> m == Missing
    ensures col[0].Num? ==> m.Num? && forall i :: 0 <= i < |col| && col[i].Num? ==> col[i].x <= m.x
    decreases |col|
  {
    if |col| == 1 then col[0]
    else
      var init := col[..|col| - 1];
      assert forall i :: 0 <= i < |init| ==> init[i] == col[i];
      var m := PyMax(init);
      assert m in col by { var j :| 0 <= j < |init| && init[j] == m; assert col[j] == m; }
      if Greater(col[|col| - 1], m) then col[|col| - 1] else m
  }

  /** The builtin `min`, by the same rule with `<`. */
  function PyMin(col: seq<Cell>): (m: Cell)
    requires col != [] && AllComparable(col)
    ensures m in col
    ensures col[0].Missing? ==> m == Missing
    ensures col[0].Num? ==> m.Num? && forall i :: 0 <= i < |col| && col[i].Num? ==> m.x <= col[i].x
    decreases |col|
  {
    if |col| == 1 then col[0]
    else
      var init := col[..|col| - 1];
      assert forall i :: 0 <= i < |init| ==> init[i] == col[i];
      var m := PyMin(init);
      assert m in col by { var j :| 0 <= j < |init| && init[j] == m; assert col[j] == m; }
      if Less(col[|col| - 1], m) then col[|col| - 1] else m
  }

  /** The name of the classification target: `<target>_class` for a new column. */
  const ClassSuffix := "_class"

  function ClassProp(target: Name, asNew: bool): Name {
    if asNew then target + ClassSuffix else target
  }

  const IntervalsSuffix := "_intervals"

  function IntervalsColumn(prop: Name): Name {
    prop + IntervalsSuffix
  }

  /**
   * `makeClassification(th, as_new)` on the frame: the new frame and the new target name. One
   * threshold binarises; several (more than three) bin the values into the intervals between
   * consecutive thresholds, store each row's interval label and encode the labels.
   */
  function MakeClassificationSpec(df: Frame, target: Name, th: seq<real>, asNew: bool, labelOf: nat -> string): (r: Result<(Frame, Name)>)
    requires WellFormed(df)
    ensures r.Ok? ==> WellFormed(r.value.0) && r.value.0.index == df.index && r.value.1 == ClassProp(target, asNew)
    ensures r.Ok? ==> forall c :: c in df.columns ==> c in r.value.0.columns
    ensures r.Ok? ==> target in df.columns && ClassProp(target, asNew) in r.value.0.columns
    ensures |th| == 0 || 1 < |th| <= 3 ==> r.Err? && r.error.AssertionError?
  {
    var prop := ClassProp(target, asNew);
    if |th| == 0 then Err(AssertionError(NoThresholds))
    else if 1 < |th| <= 3 then Err(AssertionError(TooFewThresholds))
    else if target !in df.columns then Err(KeyError(target))
    else if |th| == 1 then WithTarget(BinarySpec(df, target, th[0], prop), prop)
    else WithTarget(MultiClassSpec(df, target, th, prop, labelOf), prop)
  }

  /** The new frame paired with the new target name. */
  function WithTarget(r: Result<Frame>, prop: Name): (p: Result<(Frame, Name)>)
    ensures p.Ok? <==> r.Ok?
    ensures p.Ok? ==> p.value == (r.value, prop)
    ensures p.Err? ==> p.error == r.error
  {
    if r.Err? then Err(r.error) else Ok((r.value, prop))
  }

  /** The binarising branch: `(df[target] > th[0]).astype(float)` stored under `prop`. */
  function BinarySpec(df: Frame, target: Name, t: real, prop: Name): (r: Result<Frame>)
    requires WellFormed(df) && target in df.columns
    ensures r.Ok? ==> WellFormed(r.value) && r.value.index == df.index && prop in r.value.columns
    ensures r.Ok? ==> forall c :: c in df.columns ==> c in r.value.columns
  {
    var cells := Binarize(Column(df, target), t);
    if cells.Err? then Err(cells.error) else Ok(SetColumn(df, prop, ZipMap(df.index, cells.value)))
  }

  /**
   * A column of numbers and `NaN`s can be binned exactly when it is not empty, `max` of it is
   * a number at most the largest threshold, `min` of it a number at least the least
   * threshold, and the thresholds increase.
   */
  lemma BinnableByBounds(col: seq<Cell>, th: seq<real>)
    requires AllComparable(col) && |th| >= 2
    ensures Binnable(col, th) <==> (
      && col != [] && PyMax(col).Num? && PyMax(col).x <= MaxOf(th)
      && PyMin(col).Num? && PyMin(col).x >= MinOf(th) && Increasing(th))
  {
    if col != [] && Increasing(th) {
      IncreasingBounds(th);
      assert Comparable(col[0]);
      if col[0].Num? {
        var hi, lo := PyMax(col), PyMin(col);
        var i :| 0 <= i < |col| && col[i] == hi;
        var j :| 0 <= j < |col| && col[j] == lo;
      }
    }
  }

  /**
   * The binning branch: `max` and `min` of the target, taken with the builtin rules, must be
   * numbers within the thresholds, and the thresholds must increase. A string or molecule
   * among the values makes `max` or the comparison after it raise `TypeError`.
   */
  function MultiClassSpec(df: Frame, target: Name, th: seq<real>, prop: Name, labelOf: nat -> string): (r: Result<Frame>)
    requires WellFormed(df) && target in df.columns && |th| >= 2
    ensures r.Ok? <==> Binnable(Column(df, target), th)
    ensures r.Ok? ==> r.value == BinnedFrame(df, target, th, prop, labelOf)
    ensures r.Err? ==> (r.error.TypeError? <==> !AllComparable(Column(df, target)))
  {
    var col := Column(df, target);
    if !AllComparable(col) then Err(TypeError(NotComparable))
    else if col == [] then Err(ValueError(EmptyMax))
    else
      BinnableByBounds(col, th);
      if !(PyMax(col).Num? && PyMax(col).x <= MaxOf(th)) then Err(AssertionError(ThresholdBelowMax))
      else if !(PyMin(col).Num? && PyMin(col).x >= MinOf(th)) then Err(AssertionError(ThresholdAboveMin))
      else if !Increasing(th) then Err(ValueError(NotMonotonic))
      else Ok(BinnedFrame(df, target, th, prop, labelOf))
  }

  /** A target led by `NaN` fails the first bound assertion, since `max` of it is `NaN`. */
  lemma LeadingNanFails(df: Frame, target: Name, th: seq<real>, prop: Name, labelOf: nat -> string)
    requires WellFormed(df) && target in df.columns && |th| >= 2
    requires AllComparable(Column(df, target)) && df.index != [] && df.cells[target][df.index[0]] == Missing
    ensures MultiClassSpec(df, target, th, prop, labelOf) == Err(AssertionError(ThresholdBelowMax))
  {
    assert Column(df, target)[0] == Missing;
  }

  /** The interval label of every row. */
  function BinLabels(df: Frame, target: Name, th: seq<real>, labelOf: nat -> string): (labels: seq<string>)
    requires WellFormed(df) && target in df.columns && Binnable(Column(df, target), th)
    ensures |labels| == |df.index|
  {
    Map(Bins(th, Column(df, target)), b => LabelOfBin(labelOf, b))
  }

  /** The frame with the interval column `<prop>_intervals` and the code column `prop`. */
  function BinnedFrame(df: Frame, target: Name, th: seq<real>, prop: Name, labelOf: nat -> string): (r: Frame)
    requires WellFormed(df) && target in df.columns && Binnable(Column(df, target), th)
    ensures WellFormed(r) && r.index == df.index
    ensures forall c :: c in df.columns ==> c in r.columns
    ensures prop in r.columns
  {
    var labels := BinLabels(df, target, th, labelOf);
    var d := SetColumn(df, IntervalsColumn(prop), ZipMap(df.index, Map(labels, TextCell)));
    SetColumn(d, prop, ZipMap(df.index, Map(Encode(labels), CodeCell)))
  }

  /** Row by row: the interval column holds the labels, the code column their codes. */
  lemma BinnedFrameCells(df: Frame, target: Name, th: seq<real>, prop: Name, labelOf: nat -> string)
    requires WellFormed(df) && target in df.columns && Binnable(Column(df, target), th)
    ensures var r := BinnedFrame(df, target, th, prop, labelOf);
      var labels := BinLabels(df, target, th, labelOf);
      && (forall i :: 0 <= i < |df.index| ==> r.cells[IntervalsColumn(prop)][df.index[i]] == Text(labels[i]))
      && (forall i :: 0 <= i < |df.index| ==> r.cells[prop][df.index[i]] == CodeCell(Encode(labels)[i]))
  {
    var labels := BinLabels(df, target, th, labelOf);
    var texts := ZipMap(df.index, Map(labels, TextCell));
    var codes := ZipMap(df.index, Map(Encode(labels), CodeCell));
    var d := SetColumn(df, IntervalsColumn(prop), texts);
    var r := SetColumn(d, prop, codes);
    assert r == BinnedFrame(df, target, th, prop, labelOf);
    assert IntervalsColumn(prop) != prop by { assert |IntervalsColumn(prop)| > |prop|; }
    forall i | 0 <= i < |df.index|
      ensures r.cells[IntervalsColumn(prop)][df.index[i]] == Text(labels[i])
      ensures r.cells[prop][df.index[i]] == CodeCell(Encode(labels)[i])
    {
      var k := df.index[i];
      assert texts[k] == Text(labels[i]);
      assert codes[k] == CodeCell(Encode(labels)[i]);
      assert d.cells[IntervalsColumn(prop)][k] == Text(labels[i]);
    }
  }

  /** A `NaN` target is labelled `"nan"`, and no number is when no interval label reads `"nan"`. */
  lemma NanLabelled(df: Frame, target: Name, th: seq<real>, labelOf: nat -> string)
    requires WellFormed(df) && target in df.columns && Binnable(Column(df, target), th)
    requires DistinctLabels(labelOf, |th|)
    ensures forall i :: 0 <= i < |df.index| ==>
      (BinLabels(df, target, th, labelOf)[i] == NanLabel <==> Column(df, target)[i] == Missing)
  {
    var col := Column(df, target);
    var bins := Bins(th, col);
    var labels := BinLabels(df, target, th, labelOf);
    forall i | 0 <= i < |df.index|
      ensures labels[i] == NanLabel <==> col[i] == Missing
    {
      assert labels[i] == LabelOfBin(labelOf, bins[i]);
      if col[i].Num? {
        assert bins[i].value < |th| - 1;
      }
    }
  }

  /**
   * With interval labels that differ from each other and from `"nan"`, the `NaN` targets share
   * one code that no number has: `LabelEncoder` treats `"nan"` as one more class.
   */
  lemma NanOwnCode(df: Frame, target: Name, th: seq<real>, prop: Name, labelOf: nat -> string)
    requires WellFormed(df) && target in df.columns && Binnable(Column(df, target), th)
    requires DistinctLabels(labelOf, |th|)
    ensures var codes := Column(BinnedFrame(df, target, th, prop, labelOf), prop);
      var col := Column(df, target);
      forall i, j :: 0 <= i < |col| && 0 <= j < |col| && col[i] == Missing ==>
        (codes[i] == codes[j] <==> col[j] == Missing)
  {
    var col := Column(df, target);
    var bins := Bins(th, col);
    BinnedFrameCodes(df, target, th, prop, labelOf);
  }

  /** Equal labels come exactly from equal intervals when no two intervals share a label. */
  lemma BinLabelsShape(df: Frame, target: Name, th: seq<real>, labelOf: nat -> string)
    requires WellFormed(df) && target in df.columns && Binnable(Column(df, target), th)
    requires DistinctLabels(labelOf, |th|)
    ensures SamePattern(BinLabels(df, target, th, labelOf), Bins(th, Column(df, target)))
  {
    var col := Column(df, target);
    var bins := Bins(th, col);
    var labels := BinLabels(df, target, th, labelOf);
    assert forall i :: 0 <= i < |bins| ==> labels[i] == LabelOfBin(labelOf, bins[i]);
    assert forall i :: 0 <= i < |bins| && bins[i].Some? ==> col[i].Num? && bins[i].value < |th| - 1;
  }

  /** The code column, read in row order, is the codes of the labels. */
  lemma BinnedColumn(df: Frame, target: Name, th: seq<real>, prop: Name, labelOf: nat -> string)
    requires WellFormed(df) && target in df.columns && Binnable(Column(df, target), th)
    ensures Column(BinnedFrame(df, target, th, prop, labelOf), prop) ==
      Map(Encode(BinLabels(df, target, th, labelOf)), CodeCell)
  {
    BinnedFrameCells(df, target, th, prop, labelOf);
  }

  /** Codes agree exactly where intervals agree, and there are as many codes as occupied intervals. */
  lemma BinnedFrameCodes(df: Frame, target: Name, th: seq<real>, prop: Name, labelOf: nat -> string)
    requires WellFormed(df) && target in df.columns && Binnable(Column(df, target), th)
    requires DistinctLabels(labelOf, |th|)
    ensures var column := Column(BinnedFrame(df, target, th, prop, labelOf), prop);
      var bins := Bins(th, Column(df, target));
      SamePattern(column, bins) && |Dedup(column)| == |Dedup(bins)|
  {
    BinnedColumn(df, target, th, prop, labelOf);
    BinLabelsShape(df, target, th, labelOf);
    CodesFollowBins(BinLabels(df, target, th, labelOf), Bins(th, Column(df, target)));
  }

  /** Chaining equality patterns: cells of codes of labels of intervals. */
  lemma CodesFollowBins(labels: seq<string>, bins: seq<Option<nat>>)
    requires SamePattern(labels, bins)
    ensures SamePattern(Map(Encode(labels), CodeCell), bins) && |Dedup(Map(Encode(labels), CodeCell))| == |Dedup(bins)|
  {
    EncodeSpec(labels);
    DedupSameShape(Map(Encode(labels), CodeCell), bins);
  }

  /**
   * With one threshold the new column is 1.0 exactly where the value exceeds it and 0.0
   * elsewhere (missing values included); only non-numeric values fail.
   */
  lemma MakeClassificationBinary(df: Frame, target: Name, t: real, asNew: bool, labelOf: nat -> string)
    requires WellFormed(df) && target in df.columns
    ensures var r := MakeClassificationSpec(df, target, [t], asNew, labelOf);
      && (r.Ok? <==> forall k :: k in df.index ==> Comparable(df.cells[target][k]))
      && (r.Err? ==> r.error.TypeError?)
      && (r.Ok? ==> forall k :: k in df.index ==> r.value.0.cells[ClassProp(target, asNew)][k] == Above(df.cells[target][k], t))
      && (r.Ok? ==> forall c :: c in df.columns && c != ClassProp(target, asNew) ==> r.value.0.cells[c] == df.cells[c])
  {
    ComparableColumn(df, target);
    var b := Binarize(Column(df, target), t);
    if b.Ok? {
      BinarizedCells(df, target, t, ClassProp(target, asNew));
    }
  }

  /** The column of `target` is comparable throughout exactly when every row's target cell is. */
  lemma ComparableColumn(df: Frame, target: Name)
    requires WellFormed(df) && target in df.columns
    ensures (forall i :: 0 <= i < |Column(df, target)| ==> Comparable(Column(df, target)[i])) <==>
      forall k :: k in df.index ==> Comparable(df.cells[target][k])
  {
    var col := Column(df, target);
    if forall i :: 0 <= i < |col| ==> Comparable(col[i]) {
      forall k | k in df.index ensures Comparable(df.cells[target][k]) {
        var i :| 0 <= i < |df.index| && df.index[i] == k;
        assert col[i] == df.cells[target][k];
      }
    }
    if forall k :: k in df.index ==> Comparable(df.cells[target][k]) {
      forall i | 0 <= i < |col| ensures Comparable(col[i]) {
        assert col[i] == df.cells[target][df.index[i]];
      }
    }
  }

  /** Setting `prop` to the binarised column puts each row's own comparison result in it. */
  lemma BinarizedCells(df: Frame, target: Name, t: real, prop: Name)
    requires WellFormed(df) && target in df.columns
    requires Binarize(Column(df, target), t).Ok?
    ensures var r := SetColumn(df, prop, ZipMap(df.index, Binarize(Column(df, target), t).value));
      forall k :: k in df.index ==> r.cells[prop][k] == Above(df.cells[target][k], t)
  {
    var cells := Binarize(Column(df, target), t).value;
    var m := ZipMap(df.index, cells);
    forall k | k in df.index ensures k in m && m[k] == Above(df.cells[target][k], t) {
      var i :| 0 <= i < |df.index| && df.index[i] == k;
      assert m[df.index[i]] == cells[i];
    }
  }

  /**
   * With four or more increasing thresholds spanning every value, binning succeeds under the
   * class name and yields the binned frame (whose cells `BinnedFrameCells` and
   * `BinnedFrameCodes` describe).
   */
  lemma MakeClassificationMulti(df: Frame, target: Name, th: seq<real>, asNew: bool, labelOf: nat -> string)
    requires WellFormed(df) && target in df.columns && |th| > 3
    requires Binnable(Column(df, target), th)
    ensures MakeClassificationSpec(df, target, th, asNew, labelOf) ==
      Ok((BinnedFrame(df, target, th, ClassProp(target, asNew), labelOf), ClassProp(target, asNew)))
  {
    var prop := ClassProp(target, asNew);
    var binned := MultiClassSpec(df, target, th, prop, labelOf);
    assert binned.Ok? && binned.value == BinnedFrame(df, target, th, prop, labelOf);
    assert MakeClassificationSpec(df, target, th, asNew, labelOf) == Ok((binned.value, prop));
  }

  // ---------------------------------------------------------------------------------------
  // Class counting

  /** `nClasses`: the number of distinct target values for classification, 0 otherwise. */
  function NClasses(df: Frame, task: Task, target: Name): (r: Result<nat>)
    requires WellFormed(df)
    ensures task == Regression ==> r == Ok(0)
    ensures task == Classification ==> (r.Ok? <==> target in df.columns)
    ensures r.Ok? ==> r.value <= |df.index|
    ensures r.Ok? && task == Classification && df.index != [] ==> r.value >= 1
    ensures r.Err? ==> r == Err(KeyError(target))
  {
    if task == Regression then Ok(0)
    else if target !in df.columns then Err(KeyError(target))
    else
      var col := Column(df, target);
      assert df.index != [] ==> col[0] in Dedup(col);
      Ok(|Dedup(col)|)
  }

  /** `isMultiClass()`: a classification task with more than two classes. */
  function IsMultiClass(df: Frame, task: Task, target: Name): (r: Result<bool>)
    requires WellFormed(df)
    ensures task == Regression ==> r == Ok(false)
    ensures r.Ok? && r.value ==> task == Classification && NClasses(df, task, target).Ok? && NClasses(df, task, target).value > 2
    ensures task == Classification ==> (r.Ok? <==> NClasses(df, task, target).Ok?)
    ensures task == Classification && r.Ok? ==> (r.value <==> NClasses(df, task, target).value > 2)
    ensures r.Err? ==> r == Err(KeyError(target))
  {
    if task != Classification then Ok(false)
    else
      var n :- NClasses(df, task, target);
      Ok(n > 2)
  }

  /** A binarised target never makes a multi-class task. */
  lemma BinaryNotMultiClass(df: Frame, target: Name, t: real, asNew: bool, labelOf: nat -> string)
    requires WellFormed(df) && target in df.columns
    requires MakeClassificationSpec(df, target, [t], asNew, labelOf).Ok?
    ensures var r := MakeClassificationSpec(df, target, [t], asNew, labelOf).value;
      IsMultiClass(r.0, Classification, r.1) == Ok(false)
  {
    var r := MakeClassificationSpec(df, target, [t], asNew, labelOf).value;
    BinaryValues(df, target, t, asNew, labelOf);
    TwoValuedClasses(Column(r.0, r.1));
  }

  /** A column of zeros and ones has at most two distinct values. */
  lemma TwoValuedClasses(col: seq<Cell>)
    requires forall i :: 0 <= i < |col| ==> col[i] in {Num(0.0), Num(1.0)}
    ensures |Dedup(col)| <= 2
  {
    var d := Dedup(col);
    forall i | 0 <= i < |d| ensures d[i] in {Num(0.0), Num(1.0)} {
      assert d[i] in col;
    }
    DistinctBound(d, {Num(0.0), Num(1.0)});
  }

  /** A binarised column holds only 0.0 and 1.0. */
  lemma BinaryValues(df: Frame, target: Name, t: real, asNew: bool, labelOf: nat -> string)
    requires WellFormed(df) && target in df.columns
    requires MakeClassificationSpec(df, target, [t], asNew, labelOf).Ok?
    ensures var r := MakeClassificationSpec(df, target, [t], asNew, labelOf).value;
      forall i :: 0 <= i < |r.0.index| ==> Column(r.0, r.1)[i] in {Num(0.0), Num(1.0)}
  {
    MakeClassificationBinary(df, target, t, asNew, labelOf);
    var r := MakeClassificationSpec(df, target, [t], asNew, labelOf).value;
    forall i | 0 <= i < |r.0.index| ensures Column(r.0, r.1)[i] in {Num(0.0), Num(1.0)} {
      assert Column(r.0, r.1)[i] == Above(df.cells[target][df.index[i]], t);
    }
  }

  /** After binning, the number of classes is the number of occupied intervals. */
  lemma MultiClassCount(df: Frame, target: Name, th: seq<real>, asNew: bool, labelOf: nat -> string)
    requires WellFormed(df) && target in df.columns && |th| > 3 && DistinctLabels(labelOf, |th|)
    requires Binnable(Column(df, target), th)
    ensures var r := MakeClassificationSpec(df, target, th, asNew, labelOf);
      r.Ok? && NClasses(r.value.0, Classification, r.value.1) == Ok(|Dedup(Bins(th, Column(df, target)))|)
  {
    MakeClassificationMulti(df, target, th, asNew, labelOf);
    BinnedClassCount(df, target, th, ClassProp(target, asNew), labelOf);
  }

  /** The binned frame has as many classes as occupied intervals. */
  lemma BinnedClassCount(df: Frame, target: Name, th: seq<real>, prop: Name, labelOf: nat -> string)
    requires WellFormed(df) && target in df.columns && DistinctLabels(labelOf, |th|)
    requires Binnable(Column(df, target), th)
    ensures NClasses(BinnedFrame(df, target, th, prop, labelOf), Classification, prop) ==
      Ok(|Dedup(Bins(th, Column(df, target)))|)
  {
    BinnedFrameCodes(df, target, th, prop, labelOf);
  }

  /** What `float(s)` gives for a string: a finite number or a non-finite one (`inf`, `nan`). */
  datatype Float = Finite(x: real) | NonFinite

  /** `float.is_integer()`: a finite number without fractional part. */
  predicate IsInteger(f: Float) {
    f.Finite? && f.x == f.x.Floor as real
  }

  /**
   * `float(x).is_integer()` holds for cell `x`; `toFloat` is `float` on strings, with `None`
   * where it raises `ValueError`. `NaN` is not integral, and `float` of a molecule raises.
   */
  predicate Integral(c: Cell, toFloat: string -> Option<Float>) {
    match c
    case Num(x) => x == x.Floor as real
    case Text(s) => toFloat(s).Some? && IsInteger(toFloat(s).value)
    case Missing => false
    case Mol(_) => false
  }

  /** What `float(x).is_integer()` raises or fails with for a cell that is not integral. */
  function IntegralError(c: Cell, toFloat: string -> Option<Float>): Error {
    match c
    case Text(s) => if toFloat(s).None? then ValueError(NotFloat) else AssertionError(NotIntegral)
    case Mol(_) => TypeError(FloatOfObject)
    case _ => AssertionError(NotIntegral)
  }

  /** Every value of the column is integral. */
  predicate AllIntegral(col: seq<Cell>, toFloat: string -> Option<Float>) {
    col == [] || (Integral(col[0], toFloat) && AllIntegral(col[1..], toFloat))
  }

  /** `AllIntegral` holds exactly when every position of the column holds an integral value. */
  lemma {:induction false} AllIntegralIff(col: seq<Cell>, toFloat: string -> Option<Float>)
    ensures AllIntegral(col, toFloat) <==> forall i :: 0 <= i < |col| ==> Integral(col[i], toFloat)
  {
    if col != [] {
      AllIntegralIff(col[1..], toFloat);
      assert forall i :: 1 <= i < |col| ==> col[i] == col[1..][i - 1];
    }
  }

  /**
   * `assert all(float(x).is_integer() for x in column)`: the values are converted in order
   * and the first one that is not integral decides the outcome, a `ValueError` for an
   * unparsable string, a `TypeError` for a molecule and the assertion otherwise.
   */
  function IntegralCheck(col: seq<Cell>, toFloat: string -> Option<Float>): (r: Result<()>)
    ensures r.Ok? <==> AllIntegral(col, toFloat)
    ensures r.Err? ==> exists i :: (0 <= i < |col| && !Integral(col[i], toFloat) &&
      (forall j :: 0 <= j < i ==> Integral(col[j], toFloat)) && r.error == IntegralError(col[i], toFloat))
  {
    if col == [] then Ok(())
    else if !Integral(col[0], toFloat) then Err(IntegralError(col[0], toFloat))
    else
      var rest := IntegralCheck(col[1..], toFloat);
      if rest.Err? then
        var i :| 0 <= i < |col| - 1 && !Integral(col[1..][i], toFloat) &&
          (forall j :: 0 <= j < i ==> Integral(col[1..][j], toFloat)) && rest.error == IntegralError(col[1..][i], toFloat);
        assert forall j :: 0 <= j < i + 1 ==> Integral(col[j], toFloat) by {
          forall j | 0 <= j < i + 1 ensures Integral(col[j], toFloat) {
            if j > 0 { assert col[j] == col[1..][j - 1]; }
          }
        }
        assert col[i + 1] == col[1..][i];
        rest
      else rest
  }

  // ---------------------------------------------------------------------------------------
  // Construction

  /** The name of a transformed target: `<target>_transformed`. */
  const TransformedSuffix := "_transformed"

  function TransformedName(target: Name): Name {
    target + TransformedSuffix
  }

  /**
   * `transform([target], [t], addAs=[<target>_transformed])`: the transformed target stored
   * under its new name; an absent target raises `KeyError`.
   */
  function TransformTargetSpec(df: Frame, target: Name, t: Cell -> Cell): (r: Result<(Frame, Name)>)
    requires WellFormed(df)
    ensures r.Ok? <==> target in df.columns
    ensures r.Err? ==> r == Err(KeyError(target))
    ensures r.Ok? ==> WellFormed(r.value.0) && r.value.0.index == df.index && r.value.1 == TransformedName(target)
    ensures r.Ok? ==> r.value.1 in r.value.0.columns && forall c :: c in df.columns ==> c in r.value.0.columns
  {
    if target !in df.columns then Err(KeyError(target))
    else
      assert Distinct([target]);
      var ret := ApplyTransformers(Select(df, [target]), [t]);
      Ok((AssignColumns(df, [TransformedName(target)], ret).value, TransformedName(target)))
  }

  /** The new column holds the transformed target row by row; every other column is unchanged. */
  lemma TransformTargetCells(df: Frame, target: Name, t: Cell -> Cell)
    requires WellFormed(df) && target in df.columns
    ensures var r := TransformTargetSpec(df, target, t).value;
      && (forall k :: k in df.index ==> r.0.cells[r.1][k] == t(df.cells[target][k]))
      && (forall c :: c in df.columns && c != r.1 ==> r.0.cells[c] == df.cells[c])
  {
    assert Distinct([target]);
    var name := TransformedName(target);
    var ret := ApplyTransformers(Select(df, [target]), [t]);
    TransformedColumn(df, target, t);
    AssignOneColumn(df, name, ret);
  }

  /** The target column with the one transformer applied holds the transformed cell of every row. */
  lemma TransformedColumn(df: Frame, target: Name, t: Cell -> Cell)
    requires WellFormed(df) && target in df.columns
    ensures Distinct([target])
    ensures var ret := ApplyTransformers(Select(df, [target]), [t]);
      && ret.columns == [target]
      && forall k :: k in df.index ==> Aligned(ret.cells[target], k) == t(df.cells[target][k])
  {
    assert Distinct([target]);
    var sel := Select(df, [target]);
    ApplyTransformersCells(sel, [t]);
    forall k | k in df.index ensures Compose([t], df.cells[target][k]) == t(df.cells[target][k]) {
      assert [t][1..] == [];
    }
  }

  /** The framed target: the frame, the target name, the task and the thresholds `th` that are stored. */
  datatype Framed = Framed(df: Frame, target: Name, task: Task, th: Option<seq<real>>)

  /** The target name construction ends with. */
  function FramedTarget(target: Name, task: Task, transformed: bool, th: seq<real>): Name {
    var t := if transformed then TransformedName(target) else target;
    if task == Classification && th != [] then ClassProp(t, true) else t
  }

  /** The optional transformation step: the frame and the target name it leaves. */
  function TransformStep(df: Frame, target: Name, transformer: Option<Cell -> Cell>): (r: Result<(Frame, Name)>)
    requires WellFormed(df) && target in df.columns
    ensures r.Ok? && WellFormed(r.value.0) && r.value.0.index == df.index && r.value.1 in r.value.0.columns
    ensures r.value.1 == if transformer.Some? then TransformedName(target) else target
  {
    if transformer.Some? then TransformTargetSpec(df, target, transformer.value) else Ok((df, target))
  }

  /**
   * The task step: for classification bin or binarise at `th` into a new `_class` column or,
   * without thresholds, check the target is integral; regression with thresholds raises.
   */
  function TaskStep(df: Frame, target: Name, task: Task, th: seq<real>, labelOf: nat -> string,
                    toFloat: string -> Option<Float>): (r: Result<Framed>)
    requires WellFormed(df) && target in df.columns
    ensures r.Ok? ==> WellFormed(r.value.df) && r.value.df.index == df.index && r.value.target in r.value.df.columns
    ensures r.Ok? ==> r.value.task == task
    ensures r.Ok? ==> r.value.target == if task == Classification && th != [] then ClassProp(target, true) else target
    ensures r.Ok? ==> r.value.th == if task == Classification && th != [] then Some(th) else None
    ensures task == Regression ==> (r.Ok? <==> th == []) && (r.Err? ==> r.error.ValueError?)
    ensures task == Classification && th == [] ==>
      && (r.Ok? <==> forall i :: 0 <= i < |df.index| ==> Integral(Column(df, target)[i], toFloat))
      && (r.Ok? ==> r.value.df == df)
      && (r.Err? ==> exists i :: 0 <= i < |df.index| && r.error == IntegralError(Column(df, target)[i], toFloat))
  {
    match task
    case Classification =>
      if th != [] then
        var c :- MakeClassificationSpec(df, target, th, true, labelOf);
        Ok(Framed(c.0, c.1, Classification, Some(th)))
      else
        AllIntegralIff(Column(df, target), toFloat);
        var ok :- IntegralCheck(Column(df, target), toFloat);
        Ok(Framed(df, target, Classification, None))
    case Regression =>
      if th != [] then Err(ValueError(RegressionWithThresholds))
      else Ok(Framed(df, target, Regression, None))
  }

  /**
   * The part of `QSPRDataset(...)` after the table is created: drop invalid rows, transform the
   * target if a transformer is given, then the task step. An empty `th` counts as no thresholds.
   */
  function FramingSpec(df: Frame, smilescol: Name, target: Name, task: Task, transformer: Option<Cell -> Cell>,
                       th: seq<real>, parses: Cell -> bool, labelOf: nat -> string,
                       toFloat: string -> Option<Float>): (r: Result<Framed>)
    requires WellFormed(df)
    ensures r.Ok? ==> DropInvalidsSpec(df, smilescol, target, parses).Ok?
    ensures r.Ok? ==> WellFormed(r.value.df) && r.value.df.index == DropInvalidsSpec(df, smilescol, target, parses).value.index
    ensures r.Ok? ==> r.value.task == task && r.value.target == FramedTarget(target, task, transformer.Some?, th)
    ensures r.Ok? ==> r.value.target in r.value.df.columns
    ensures r.Ok? ==> r.value.th == if task == Classification && th != [] then Some(th) else None
    ensures task == Regression && th != [] ==> r.Err?
  {
    var d :- DropInvalidsSpec(df, smilescol, target, parses);
    var p := TransformStep(d, target, transformer).value;
    TaskStep(p.0, p.1, task, th, labelOf, toFloat)
  }
  /** Once the invalid rows are dropped, framing is the transformation step followed by the task step. */
  lemma FramingSteps(df: Frame, smilescol: Name, target: Name, task: Task, transformer: Option<Cell -> Cell>,
                     th: seq<real>, parses: Cell -> bool, labelOf: nat -> string, toFloat: string -> Option<Float>)
    requires WellFormed(df) && DropInvalidsSpec(df, smilescol, target, parses).Ok?
    ensures var p := TransformStep(DropInvalidsSpec(df, smilescol, target, parses).value, target, transformer).value;
      FramingSpec(df, smilescol, target, task, transformer, th, parses, labelOf, toFloat) == TaskStep(p.0, p.1, task, th, labelOf, toFloat)
  {
  }

}
