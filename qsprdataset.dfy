/**
 * `QSPRDataset`: a molecule table with a framed target property, split into a training part
 * `X`/`y` and an independent part `X_ind`/`y_ind`. Featurisation, feature filtering and
 * feature standardisation each keep the two parts of a pair on the same row keys; feature
 * standardizers are fitted on the training part only and then reused unchanged.
 */
module QSPRDatasets {
  import opened Errors
  import opened Strings
  import opened Seqs
  import opened Frames
  import opened MoleculeTables
  import opened DatasetTargets

  /** `df.values`-style rows of cells. */
  type Matrix = seq<seq<Cell>>

  // ---------------------------------------------------------------------------------------
  // Splitting

  /** A data splitter decides, looking at the whole table, which rows go to the training part. */
  type Splitter = Frame -> (Key -> bool)

  /** The four frames of a split: training and independent features and targets. */
  datatype Split = Split(X: Frame, Xind: Frame, y: Frame, yind: Frame)

  /** Both pairs of a split are on the same row keys. */
  predicate PairsAligned(sp: Split) {
    sp.X.index == sp.y.index && sp.Xind.index == sp.yind.index
  }

  /** `split(df, Xcol, ycol)`: the SMILES and target columns of the training rows and of the rest. */
  function SplitSpec(df: Frame, xcol: Name, ycol: Name, s: Splitter): (r: Result<Split>)
    requires WellFormed(df)
    ensures r.Ok? <==> xcol in df.columns && ycol in df.columns
    ensures r.Err? ==> r.error.KeyError?
    ensures r.Ok? ==> r.value == SplitParts(df, xcol, ycol, s)
  {
    if xcol !in df.columns then Err(KeyError(xcol))
    else if ycol !in df.columns then Err(KeyError(ycol))
    else Ok(SplitParts(df, xcol, ycol, s))
  }

  /** The four parts of a split on columns the table has. */
  function SplitParts(df: Frame, xcol: Name, ycol: Name, s: Splitter): (sp: Split)
    requires WellFormed(df) && xcol in df.columns && ycol in df.columns
    ensures WellFormed(sp.X) && WellFormed(sp.Xind) && WellFormed(sp.y) && WellFormed(sp.yind)
    ensures sp.X.columns == [xcol] && sp.Xind.columns == [xcol]
    ensures sp.y.columns == [ycol] && sp.yind.columns == [ycol]
    ensures PairsAligned(sp)
  {
    var train := s(df);
    var tr := FilterRows(df, train);
    var te := FilterRows(df, k => !train(k));
    assert Distinct([xcol]) && Distinct([ycol]);
    Split(Select(tr, [xcol]), Select(te, [xcol]), Select(tr, [ycol]), Select(te, [ycol]))
  }

  /**
   * The split is a partition of the table's rows: the two parts are aligned pairs, keep the
   * table's row order, share no row, and every row of the table is in exactly one of them.
   */
  lemma SplitPartition(df: Frame, xcol: Name, ycol: Name, s: Splitter)
    requires WellFormed(df) && xcol in df.columns && ycol in df.columns
    ensures var sp := SplitSpec(df, xcol, ycol, s).value;
      && PairsAligned(sp)
      && Subsequence(sp.X.index, df.index) && Subsequence(sp.Xind.index, df.index)
      && (forall k :: k in df.index ==> (k in sp.X.index <==> k !in sp.Xind.index))
      && (forall k :: k in sp.X.index || k in sp.Xind.index ==> k in df.index)
  {
  }

  /** The training and independent cells are the table's own cells. */
  lemma SplitCells(df: Frame, xcol: Name, ycol: Name, s: Splitter)
    requires WellFormed(df) && xcol in df.columns && ycol in df.columns
    ensures var sp := SplitSpec(df, xcol, ycol, s).value;
      && (forall k :: k in sp.X.index ==> sp.X.cells[xcol][k] == df.cells[xcol][k] && sp.y.cells[ycol][k] == df.cells[ycol][k])
      && (forall k :: k in sp.Xind.index ==> sp.Xind.cells[xcol][k] == df.cells[xcol][k] && sp.yind.cells[ycol][k] == df.cells[ycol][k])
  {
  }

  // ---------------------------------------------------------------------------------------
  // Featurisation, missing values and feature filters

  /** `getDescriptors()`: the `Descriptor_` columns of the table. */
  function Descriptors(df: Frame): (r: Frame)
    requires WellFormed(df)
    ensures WellFormed(r) && r.index == df.index && r.columns == DescriptorNames(df)
  {
    Select(df, DescriptorNames(df))
  }

  /** `fillna(v)` on one cell. */
  function FillCell(v: real): Cell -> Cell {
    c => if c == Missing then Num(v) else c
  }

  /**
   * `fillMissing(fill_value, columns)`: the missing cells of the named columns (by default the
   * descriptor columns) become `fill_value`; an absent column raises `KeyError`.
   */
  function FillMissingSpec(df: Frame, v: real, columns: seq<Name>): (r: Result<Frame>)
    requires WellFormed(df) && Distinct(columns)
    ensures var cols := if columns != [] then columns else DescriptorNames(df);
      r.Ok? <==> forall c :: c in cols ==> c in df.columns
    ensures r.Err? ==> r.error.KeyError?
    ensures r.Ok? ==> WellFormed(r.value) && r.value.index == df.index && r.value.columns == df.columns
  {
    var cols := if columns != [] then columns else DescriptorNames(df);
    var sel :- SelectChecked(df, cols);
    var filled := MapCells(sel, FillCell(v));
    var r := AssignColumns(df, cols, filled).value;
    Ok(r)
  }

  /** Exactly the missing cells of the filled columns change, to the fill value. */
  lemma FillMissingCells(df: Frame, v: real, columns: seq<Name>)
    requires WellFormed(df) && Distinct(columns) && FillMissingSpec(df, v, columns).Ok?
    ensures var cols := if columns != [] then columns else DescriptorNames(df);
      var r := FillMissingSpec(df, v, columns).value;
      && (forall c, k :: c in cols && k in df.index ==>
           r.cells[c][k] == if df.cells[c][k] == Missing then Num(v) else df.cells[c][k])
      && (forall c :: c in df.columns && c !in cols ==> r.cells[c] == df.cells[c])
  {
    var cols := if columns != [] then columns else DescriptorNames(df);
    FilledColumns(df, v, cols);
  }

  lemma FilledColumns(df: Frame, v: real, cols: seq<Name>)
    requires WellFormed(df) && Distinct(cols) && forall c :: c in cols ==> c in df.columns
    ensures var filled := MapCells(Select(df, cols), FillCell(v));
      var r := AssignColumns(df, cols, filled).value;
      && (forall c, k :: c in cols && k in df.index ==>
           r.cells[c][k] == if df.cells[c][k] == Missing then Num(v) else df.cells[c][k])
      && (forall c :: c in df.columns && c !in cols ==> r.cells[c] == df.cells[c])
  {
    forall c, k | c in cols && k in df.index
      ensures AssignColumns(df, cols, MapCells(Select(df, cols), FillCell(v))).value.cells[c][k] ==
        if df.cells[c][k] == Missing then Num(v) else df.cells[c][k]
    {
      var j :| 0 <= j < |cols| && cols[j] == c;
      FilledCell(df, v, cols, j, k);
    }
  }

  lemma FilledCell(df: Frame, v: real, cols: seq<Name>, j: nat, k: Key)
    requires WellFormed(df) && Distinct(cols) && forall c :: c in cols ==> c in df.columns
    requires j < |cols| && k in df.index
    ensures var c := cols[j];
      AssignColumns(df, cols, MapCells(Select(df, cols), FillCell(v))).value.cells[c][k] ==
        if df.cells[c][k] == Missing then Num(v) else df.cells[c][k]
  {
    var sel := Select(df, cols);
    var filled := MapCells(sel, FillCell(v));
    var c := cols[j];
    assert filled.columns[j] == c;
    assert filled.cells[c][k] == FillCell(v)(sel.cells[c][k]);
  }

  /** A feature filter names, from the training features and targets, the feature columns it drops. */
  type FeatureFilter = (Frame, Option<Frame>) -> seq<Name>

  /** The filter loop `X = featurefilter(X, y)`: each filter in turn drops the columns it names. */
  function FeatureFiltersSpec(X: Frame, y: Option<Frame>, fs: seq<FeatureFilter>): (r: Frame)
    requires WellFormed(X)
    ensures WellFormed(r) && r.index == X.index
    ensures Subsequence(r.columns, X.columns)
    ensures forall c :: c in r.columns ==> c in X.columns && r.cells[c] == X.cells[c]
    decreases |fs|
  {
    if fs == [] then
      SubsequenceRefl(X.columns);
      X
    else
      var d := DropColumns(X, fs[0](X, y));
      var r := FeatureFiltersSpec(d, y, fs[1..]);
      SubsequenceTransitive(r.columns, d.columns, X.columns);
      r
  }

  // ---------------------------------------------------------------------------------------
  // Feature standardizers

  /**
   * A feature standardizer: its kind, and the matrix it was fitted on (`None` before fitting).
   * A fitted standardizer is determined by its kind and that matrix.
   */
  datatype Standardizer = Standardizer(kind: string, fittedOn: Option<Matrix>)

  /** `SKLearnStandardizer.fromFit(X, standardizer)`. */
  function Fit(s: Standardizer, X: Matrix): Standardizer {
    Standardizer(s.kind, Some(X))
  }

  /** What applying a standardizer does to a matrix (the numerics of the fitted method). */
  type Scaling = (Standardizer, Matrix) -> Matrix

  /**
   * `applyFeatureStandardizers(standardizers, X, fit)`: each standardizer in turn is fitted on
   * the current matrix (or reused as it is when not fitting) and applied to it; returns the
   * final matrix and the standardizers used.
   */
  function ApplyStandardizersSpec(ss: seq<Standardizer>, X: Matrix, fit: bool, scale: Scaling): (r: (Matrix, seq<Standardizer>))
    ensures |r.1| == |ss|
    decreases |ss|
  {
    if ss == [] then (X, [])
    else
      var s := if fit then Fit(ss[0], X) else ss[0];
      var rest := ApplyStandardizersSpec(ss[1..], scale(s, X), fit, scale);
      (rest.0, [s] + rest.1)
  }

  /** The rest of a chain's result, after the standardizers already used. */
  function ChainAfter(used: seq<Standardizer>, rest: (Matrix, seq<Standardizer>)): (Matrix, seq<Standardizer>) {
    (rest.0, used + rest.1)
  }

  /** Before the first standardizer none is used. */
  lemma ChainFrom(ss: seq<Standardizer>, X: Matrix, fit: bool, scale: Scaling)
    ensures ChainAfter([], ApplyStandardizersSpec(ss[0..], X, fit, scale)) == ApplyStandardizersSpec(ss, X, fit, scale)
  {
    assert ss[0..] == ss;
    assert [] + ApplyStandardizersSpec(ss, X, fit, scale).1 == ApplyStandardizersSpec(ss, X, fit, scale).1;
  }

  /** The chain from the `i`-th standardizer on: that one, then the rest on its output. */
  lemma ChainStep(ss: seq<Standardizer>, i: nat, X: Matrix, fit: bool, scale: Scaling)
    requires i < |ss|
    ensures var s := if fit then Fit(ss[i], X) else ss[i];
      var rest := ApplyStandardizersSpec(ss[i + 1..], scale(s, X), fit, scale);
      ApplyStandardizersSpec(ss[i..], X, fit, scale) == (rest.0, [s] + rest.1)
  {
    assert ss[i..][0] == ss[i] && ss[i..][1..] == ss[i + 1..];
  }

  /** One more standardizer used moves from the rest to what is used. */
  lemma ChainAfterOne(used: seq<Standardizer>, s: Standardizer, rest: (Matrix, seq<Standardizer>))
    ensures ChainAfter(used, (rest.0, [s] + rest.1)) == ChainAfter(used + [s], rest)
  {
    assert used + ([s] + rest.1) == (used + [s]) + rest.1;
  }

  /** Applying the `i`-th standardizer keeps the chain's result. */
  lemma ChainAdvance(ss: seq<Standardizer>, i: nat, X: Matrix, used: seq<Standardizer>, fit: bool, scale: Scaling,
                     all: (Matrix, seq<Standardizer>))
    requires i < |ss| && ChainAfter(used, ApplyStandardizersSpec(ss[i..], X, fit, scale)) == all
    ensures var s := if fit then Fit(ss[i], X) else ss[i];
      ChainAfter(used + [s], ApplyStandardizersSpec(ss[i + 1..], scale(s, X), fit, scale)) == all
  {
    var s := if fit then Fit(ss[i], X) else ss[i];
    ChainStep(ss, i, X, fit, scale);
    ChainAfterOne(used, s, ApplyStandardizersSpec(ss[i + 1..], scale(s, X), fit, scale));
  }

  /** After the last standardizer the chain's result is what was made. */
  lemma ChainEnd(ss: seq<Standardizer>, X: Matrix, used: seq<Standardizer>, fit: bool, scale: Scaling)
    ensures ChainAfter(used, ApplyStandardizersSpec(ss[|ss|..], X, fit, scale)) == (X, used)
  {
    assert ss[|ss|..] == [];
    assert used + [] == used;
  }

  /** The matrix the `i`-th standardizer of the chain receives. */
  function StageInput(ss: seq<Standardizer>, X: Matrix, fit: bool, scale: Scaling, i: nat): Matrix
    requires i <= |ss|
    decreases i
  {
    if i == 0 then X
    else
      var s := if fit then Fit(ss[0], X) else ss[0];
      StageInput(ss[1..], scale(s, X), fit, scale, i - 1)
  }

  /** Without fitting the standardizers come back unchanged. */
  lemma {:induction false} ApplyWithoutFit(ss: seq<Standardizer>, X: Matrix, scale: Scaling)
    ensures ApplyStandardizersSpec(ss, X, false, scale).1 == ss
    decreases |ss|
  {
    if ss != [] {
      ApplyWithoutFit(ss[1..], scale(ss[0], X), scale);
    }
  }

  /**
   * With fitting, the `i`-th standardizer is fitted on exactly the matrix it receives in the
   * chain; in particular the first one is fitted on the given matrix.
   */
  lemma {:induction false} ApplyFitsOnInput(ss: seq<Standardizer>, X: Matrix, scale: Scaling)
    ensures forall i :: 0 <= i < |ss| ==>
      ApplyStandardizersSpec(ss, X, true, scale).1[i] == Fit(ss[i], StageInput(ss, X, true, scale, i))
    decreases |ss|
  {
    if ss != [] {
      var fitted := ApplyStandardizersSpec(ss, X, true, scale).1;
      var next := scale(Fit(ss[0], X), X);
      ApplyFitsOnInput(ss[1..], next, scale);
      forall i | 0 <= i < |ss| ensures fitted[i] == Fit(ss[i], StageInput(ss, X, true, scale, i)) {
        if i > 0 {
          assert fitted[i] == ApplyStandardizersSpec(ss[1..], next, true, scale).1[i - 1];
          assert ss[1..][i - 1] == ss[i];
        }
      }
    }
  }

  /**
   * The fitted chain, reused without fitting on the matrix it was fitted on, gives the same
   * result; fitting it again gives the same standardizers.
   */
  lemma {:induction false} ApplyFittedAgain(ss: seq<Standardizer>, X: Matrix, scale: Scaling)
    ensures var r := ApplyStandardizersSpec(ss, X, true, scale);
      && ApplyStandardizersSpec(r.1, X, false, scale) == r
      && ApplyStandardizersSpec(r.1, X, true, scale) == r
    decreases |ss|
  {
    if ss != [] {
      var r := ApplyStandardizersSpec(ss, X, true, scale);
      var s := Fit(ss[0], X);
      ApplyFittedAgain(ss[1..], scale(s, X), scale);
      assert r.1[0] == s && r.1[1..] == ApplyStandardizersSpec(ss[1..], scale(s, X), true, scale).1;
      assert Fit(r.1[0], X) == s;
    }
  }

  // ---------------------------------------------------------------------------------------
  // Folds

  /** The positions of the training rows and of the test rows of one fold. */
  datatype Fold = Fold(train: seq<nat>, test: seq<nat>)

  /** One standardized fold: `(X, X_test, y, y_test, train, test)`. */
  datatype FoldData = FoldData(X: Matrix, Xtest: Matrix, y: seq<Cell>, ytest: seq<Cell>, train: seq<nat>, test: seq<nat>)

  /** `rows[positions]`; a position past the end raises `IndexError`. */
  function Pick<T>(rows: seq<T>, positions: seq<nat>): (r: Result<seq<T>>)
    ensures r.Ok? <==> forall i :: 0 <= i < |positions| ==> positions[i] < |rows|
    ensures r.Ok? ==> |r.value| == |positions| && forall i :: 0 <= i < |positions| ==> r.value[i] == rows[positions[i]]
    ensures r.Err? ==> r.error.IndexError?
  {
    if forall i :: 0 <= i < |positions| ==> positions[i] < |rows| then
      Ok(seq(|positions|, i requires 0 <= i < |positions| => rows[positions[i]]))
    else Err(IndexError(IndexOutOfBounds))
  }

  /** `y[:, 0]`: the first cell of every row; a row without cells raises `IndexError`. */
  function FirstColumn(rows: Matrix): (r: Result<seq<Cell>>)
    ensures r.Ok? <==> forall i :: 0 <= i < |rows| ==> |rows[i]| > 0
    ensures r.Ok? ==> |r.value| == |rows| && forall i :: 0 <= i < |rows| ==> r.value[i] == rows[i][0]
  {
    if forall i :: 0 <= i < |rows| ==> |rows[i]| > 0 then
      Ok(seq(|rows|, i requires 0 <= i < |rows| => rows[i][0]))
    else Err(IndexError(NoFeatureColumns))
  }

  /**
   * One fold of `standardize_folds`: the standardizers are fitted on the fold's training rows,
   * then reused without fitting on its test rows.
   */
  function FoldSpec(X: Matrix, y: Matrix, ss: seq<Standardizer>, f: Fold, scale: Scaling): (r: Result<FoldData>) {
    var xtrain :- Pick(X, f.train);
    var fitted := ApplyStandardizersSpec(ss, xtrain, true, scale);
    var xtest :- Pick(X, f.test);
    var ytrain :- Pick(y, f.train);
    var ytest :- Pick(y, f.test);
    var y0 :- FirstColumn(ytrain);
    var y1 :- FirstColumn(ytest);
    Ok(FoldData(fitted.0, ApplyStandardizersSpec(fitted.1, xtest, false, scale).0, y0, y1, f.train, f.test))
  }

  /** The standardized folds in order, raising at the first fold that fails. */
  function FoldsSpec(X: Matrix, y: Matrix, ss: seq<Standardizer>, folds: seq<Fold>, scale: Scaling): (r: Result<seq<FoldData>>)
    ensures r.Ok? <==> forall j :: 0 <= j < |folds| ==> FoldSpec(X, y, ss, folds[j], scale).Ok?
    ensures r.Ok? ==> |r.value| == |folds| && forall j :: 0 <= j < |folds| ==> r.value[j] == FoldSpec(X, y, ss, folds[j], scale).value
    decreases |folds|
  {
    if folds == [] then Ok([])
    else
      var d :- FoldSpec(X, y, ss, folds[0], scale);
      var rest :- FoldsSpec(X, y, ss, folds[1..], scale);
      Ok([d] + rest)
  }

  /**
   * In every fold the test features go through the chain fitted on that fold's training rows
   * alone: the test rows never reach a fit, so two feature matrices that agree on the training
   * rows give the same fitted chain. The targets are the first target cell of the fold's rows.
   */
  lemma FoldFittedOnTrain(X: Matrix, y: Matrix, ss: seq<Standardizer>, f: Fold, scale: Scaling)
    requires FoldSpec(X, y, ss, f, scale).Ok?
    ensures var d := FoldSpec(X, y, ss, f, scale).value;
      var xtrain := Pick(X, f.train).value;
      var fitted := ApplyStandardizersSpec(ss, xtrain, true, scale).1;
      && (forall i :: 0 <= i < |ss| ==> fitted[i] == Fit(ss[i], StageInput(ss, xtrain, true, scale, i)))
      && d.X == ApplyStandardizersSpec(ss, xtrain, true, scale).0
      && d.Xtest == ApplyStandardizersSpec(fitted, Pick(X, f.test).value, false, scale).0
      && |d.y| == |f.train| && (forall i :: 0 <= i < |f.train| ==> d.y[i] == y[f.train[i]][0])
      && |d.ytest| == |f.test| && (forall i :: 0 <= i < |f.test| ==> d.ytest[i] == y[f.test[i]][0])
  {
    ApplyFitsOnInput(ss, Pick(X, f.train).value, scale);
  }

  // ---------------------------------------------------------------------------------------
  // Store files and metadata

  /** The metadata `save` writes: `init` (constructor arguments) and `data` (`th` for classification). */
  datatype Meta = Meta(targetProp: Name, task: string, nFolds: Option<int>, smilescol: Name, th: Option<seq<real>>)

  /**
   * The `meta` dict of `save`: the thresholds are recorded for a classification task and must
   * then have been set by `makeClassification`, or reading `self.th` raises `AttributeError`.
   */
  function MetaSpec(target: Name, task: Task, nFolds: Option<int>, smilescol: Name, th: Option<seq<real>>): (r: Result<Meta>)
    ensures r.Err? <==> task == Classification && th.None?
    ensures r.Err? ==> r == Err(AttributeError("th"))
    ensures r.Ok? ==> r.value.targetProp == target && r.value.task == TaskName(task)
    ensures r.Ok? ==> r.value.nFolds == nFolds && r.value.smilescol == smilescol
    ensures r.Ok? ==> r.value.th == if task == Classification then th else None
  {
    match task
    case Classification => if th.None? then Err(AttributeError("th")) else Ok(Meta(target, TaskName(task), nFolds, smilescol, th))
    case Regression => Ok(Meta(target, TaskName(task), nFolds, smilescol, None))
  }

  function MetaPath(storePrefix: string): string {
    storePrefix + "_meta.json"
  }

  /** `<prefix>_feature_standardizer_<idx>.json` for each standardizer, in order. */
  function StandardizerPaths(storePrefix: string, n: nat): (ps: seq<string>)
    ensures |ps| == n
    ensures forall i :: 0 <= i < n ==> ps[i] == storePrefix + "_feature_standardizer_" + NatToString(i) + ".json"
  {
    seq(n, i requires 0 <= i < n => storePrefix + "_feature_standardizer_" + NatToString(i) + ".json")
  }

  /** No two standardizers are written to the same file. */
  lemma StandardizerPathsDistinct(storePrefix: string, n: nat)
    ensures Distinct(StandardizerPaths(storePrefix, n))
  {
    var ps := StandardizerPaths(storePrefix, n);
    var head := storePrefix + "_feature_standardizer_";
    forall i, j | 0 <= i < j < n ensures ps[i] != ps[j] {
      if ps[i] == ps[j] {
        var a, b := NatToString(i), NatToString(j);
        assert ps[i] == head + (a + ".json") && ps[j] == head + (b + ".json");
        assert a + ".json" == b + ".json" by {
          assert ps[i][|head|..] == a + ".json" && ps[j][|head|..] == b + ".json";
        }
        assert a == b by {
          assert (a + ".json")[..|a + ".json"| - 5] == a;
          assert (b + ".json")[..|b + ".json"| - 5] == b;
        }
        NatToStringInjective(i, j);
      }
    }
  }

  /** The split files: `X`, `X_ind`, `y`, `y_ind` pickles next to the table's own. */
  function XPath(storePrefix: string): string { storePrefix + "_X.pkl" }
  function XindPath(storePrefix: string): string { storePrefix + "_X_ind.pkl" }
  function YPath(storePrefix: string): string { storePrefix + "_y.pkl" }
  function YindPath(storePrefix: string): string { storePrefix + "_y_ind.pkl" }

  /** The four split files and the table's frame file are five different paths. */
  lemma SplitPathsDistinct(storeDir: string, name: string)
    ensures var p := StorePaths(storeDir, name);
      Distinct([p.storePath, XPath(p.storePrefix), XindPath(p.storePrefix), YPath(p.storePrefix), YindPath(p.storePrefix)])
  {
    var p := StorePaths(storeDir, name);
    var n := |p.storePrefix|;
    assert p.storePath == p.storePrefix + "_df.pkl";
    var ps := [p.storePath, XPath(p.storePrefix), XindPath(p.storePrefix), YPath(p.storePrefix), YindPath(p.storePrefix)];
    assert ps[0][n + 1] == 'd' && ps[1][n + 1] == 'X' && ps[2][n + 1] == 'X' && ps[3][n + 1] == 'y' && ps[4][n + 1] == 'y';
    assert |ps[1]| != |ps[2]| && |ps[3]| != |ps[4]|;
  }

  /** The frames a split save writes: each part that is set, under its own path. */
  function SaveSplits(frames: map<string, Frame>, storePrefix: string, X: Option<Frame>, Xind: Option<Frame>,
                      y: Option<Frame>, yind: Option<Frame>): map<string, Frame>
  {
    var f1 := if X.Some? then frames[XPath(storePrefix) := X.value] else frames;
    var f2 := if Xind.Some? then f1[XindPath(storePrefix) := Xind.value] else f1;
    var f3 := if y.Some? then f2[YPath(storePrefix) := y.value] else f2;
    if yind.Some? then f3[YindPath(storePrefix) := yind.value] else f3
  }

  /**
   * `QSPRDataset.fromFile(filename)`: the store directory and the name, which is the base name
   * up to its last `_`.
   */
  function DatasetFromFileArgs(filename: string): (string, string) {
    (Dirname(filename), BeforeLast(Basename(filename), '_'))
  }

  /** The metadata path `fromFile` opens: `<store_dir>/<name>_meta.json`. */
  function FromFileMetaPath(filename: string): string {
    var args := DatasetFromFileArgs(filename);
    PathJoin(args.0, args.1 + "_meta.json")
  }

  /**
   * Given the path of a dataset's frame file, `fromFile` recovers the store directory and the
   * name, and opens exactly the metadata file `save` wrote.
   */
  lemma DatasetFromFileOfStorePath(dir: string, name: string)
    requires dir != [] && dir[|dir| - 1] != '/'
    requires NoChar(name, '/')
    ensures DatasetFromFileArgs(StorePaths(dir, name).storePath) == (dir, name)
    ensures FromFileMetaPath(StorePaths(dir, name).storePath) == MetaPath(StorePaths(dir, name).storePrefix)
  {
    DatasetArgsOfStorePath(dir, name);
    MetaJoin(dir, name);
    RStripNoTrailing(dir, '/');
  }

  /** The directory and the name read back from the frame path. */
  lemma DatasetArgsOfStorePath(dir: string, name: string)
    requires dir != [] && dir[|dir| - 1] != '/'
    requires NoChar(name, '/')
    ensures DatasetFromFileArgs(StorePaths(dir, name).storePath) == (dir, name)
  {
    var file := name + "_df.pkl";
    assert NoChar(file, '/') by {
      forall i | 0 <= i < |file| ensures file[i] != '/' {
        if i < |name| { assert file[i] == name[i]; }
      }
    }
    RStripNoTrailing(dir, '/');
    assert StorePaths(dir, name).storePath == dir + "/" + file;
    SplitPath(dir, file);
    assert "_df.pkl" == ['_'] + "df.pkl";
    assert file == name + (['_'] + "df.pkl") == name + ['_'] + "df.pkl";
    BeforeLastOf(name, "df.pkl", '_');
  }

  /** Joining the directory with `<name>_meta.json` gives the metadata path under the prefix. */
  lemma MetaJoin(dir: string, name: string)
    requires dir != [] && dir[|dir| - 1] != '/'
    requires NoChar(name, '/')
    ensures PathJoin(dir, name + "_meta.json") == MetaPath(dir + "/" + name)
  {
    var m := name + "_meta.json";
    assert !StartsWith(m, "/") by {
      if name != [] { assert m[0] == name[0]; } else { assert m[0] == '_'; }
    }
    assert dir + "/" + m == (dir + "/" + name) + "_meta.json";
  }

  // ---------------------------------------------------------------------------------------
  // SMILES clean-up

  /** `df[c] = [f(x) for x in df[c]]`; an absent column raises `KeyError`. */
  function ReplaceColumn(df: Frame, c: Name, f: Cell -> Cell): (r: Result<Frame>)
    requires WellFormed(df)
    ensures r.Ok? <==> c in df.columns
    ensures r.Err? ==> r == Err(KeyError(c))
    ensures r.Ok? ==> WellFormed(r.value) && r.value.index == df.index && r.value.columns == df.columns
    ensures r.Ok? ==> forall k :: k in df.index ==> r.value.cells[c][k] == f(df.cells[c][k])
    ensures r.Ok? ==> forall d :: d in df.columns && d != c ==> r.value.cells[d] == df.cells[d]
  {
    if c !in df.columns then Err(KeyError(c))
    else
      var vals := Map(Column(df, c), f);
      assert forall i :: 0 <= i < |df.index| ==> ZipMap(df.index, vals)[df.index[i]] == f(df.cells[c][df.index[i]]);
      Ok(SetColumn(df, c, ZipMap(df.index, vals)))
  }

  /** The identity when a step is switched off. */
  function Step(on: bool, f: Cell -> Cell): Cell -> Cell {
    if on then f else (x: Cell) => x
  }

  /** `cleanMolecules(standardize, sanitize)`: the SMILES standardized, then sanitized, as asked. */
  function CleanSpec(df: Frame, smilescol: Name, standardize: bool, sanitize: bool,
                     std: Cell -> Cell, san: Cell -> Cell): (r: Result<Frame>)
    requires WellFormed(df)
    ensures (standardize || sanitize) ==> (r.Ok? <==> smilescol in df.columns)
    ensures (standardize || sanitize) && r.Err? ==> r == Err(KeyError(smilescol))
    ensures !standardize && !sanitize ==> r == Ok(df)
    ensures r.Ok? ==> WellFormed(r.value) && r.value.index == df.index && r.value.columns == df.columns
    ensures r.Ok? ==> forall d :: d in df.columns && d != smilescol ==> r.value.cells[d] == df.cells[d]
  {
    var d1 :- if standardize then ReplaceColumn(df, smilescol, std) else Ok(df);
    if sanitize then ReplaceColumn(d1, smilescol, san) else Ok(d1)
  }

  /** Each SMILES is the sanitized form of the standardized form of the original, with the steps switched off left out. */
  lemma CleanCells(df: Frame, smilescol: Name, standardize: bool, sanitize: bool,
                   std: Cell -> Cell, san: Cell -> Cell, k: Key)
    requires WellFormed(df) && smilescol in df.columns && k in df.index
    ensures var r := CleanSpec(df, smilescol, standardize, sanitize, std, san);
      r.Ok? && r.value.cells[smilescol][k] == Step(sanitize, san)(Step(standardize, std)(df.cells[smilescol][k]))
  {
    var d1 := if standardize then ReplaceColumn(df, smilescol, std) else Ok(df);
    assert d1.Ok? && d1.value.cells[smilescol][k] == Step(standardize, std)(df.cells[smilescol][k]);
  }

  // ---------------------------------------------------------------------------------------
  // Re-slicing the split on the features

  /** `frame.loc[part.index, :]`; an unset part raises `AttributeError`. */
  function Reslice(f: Frame, part: Option<Frame>): (r: Result<Frame>)
    requires WellFormed(f) && (part.Some? ==> WellFormed(part.value))
    ensures part.None? ==> r == Err(AttributeError("index"))
    ensures r.Ok? ==> part.Some? && WellFormed(r.value) && r.value.index == part.value.index && r.value.columns == f.columns
    ensures part.Some? ==> (r.Ok? <==> forall k :: k in part.value.index ==> k in f.index)
    ensures r.Ok? ==> forall c, k :: c in f.columns && k in part.value.index && k in f.index ==> r.value.cells[c][k] == f.cells[c][k]
  {
    if part.None? then Err(AttributeError("index")) else Loc(f, part.value.index)
  }

  /** `df.loc[part.index, [target]]`. */
  function ResliceTarget(df: Frame, target: Name, part: Option<Frame>): (r: Result<Frame>)
    requires WellFormed(df) && (part.Some? ==> WellFormed(part.value))
    ensures part.None? ==> r == Err(AttributeError("index"))
    ensures r.Ok? ==> part.Some? && WellFormed(r.value) && r.value.index == part.value.index && r.value.columns == [target]
    ensures part.Some? ==> (r.Ok? <==> target in df.columns && forall k :: k in part.value.index ==> k in df.index)
    ensures r.Ok? ==> target in df.columns && forall k :: k in part.value.index && k in df.index ==> r.value.cells[target][k] == df.cells[target][k]
  {
    if part.None? then Err(AttributeError("index"))
    else
      assert Distinct([target]);
      var t :- SelectChecked(df, [target]);
      Loc(t, part.value.index)
  }

  /** The four parts of the split state. */
  datatype SplitState = SplitState(X: Option<Frame>, Xind: Option<Frame>, y: Option<Frame>, yind: Option<Frame>)

  predicate PartsWellFormed(st: SplitState) {
    && (st.X.Some? ==> WellFormed(st.X.value)) && (st.Xind.Some? ==> WellFormed(st.Xind.value))
    && (st.y.Some? ==> WellFormed(st.y.value)) && (st.yind.Some? ==> WellFormed(st.yind.value))
  }

  /** All four parts are set and each pair is on the same row keys. */
  predicate StateAligned(st: SplitState) {
    && st.X.Some? && st.Xind.Some? && st.y.Some? && st.yind.Some?
    && st.X.value.index == st.y.value.index && st.Xind.value.index == st.yind.value.index
  }

  /**
   * `featurizeSplits()`: `X`, `X_ind`, `y`, `y_ind` in turn re-sliced from the descriptors and
   * the target column by their own row keys; the parts already replaced stay replaced when a
   * later one raises.
   */
  function FeaturizeSpec(df: Frame, target: Name, st: SplitState): (r: (SplitState, Result<()>))
    requires WellFormed(df) && PartsWellFormed(st)
    ensures PartsWellFormed(r.0)
    ensures r.1.Ok? ==> r.0.X.Some? && r.0.Xind.Some? && r.0.y.Some? && r.0.yind.Some?
  {
    var f := FeaturizeFeatures(Descriptors(df), st);
    if f.1.Err? then f else FeaturizeTargets(df, target, f.0)
  }

  /** The first half of `featurizeSplits()`: `X`, then `X_ind`, re-sliced from the descriptors. */
  function FeaturizeFeatures(d: Frame, st: SplitState): (r: (SplitState, Result<()>))
    requires WellFormed(d) && PartsWellFormed(st)
    ensures PartsWellFormed(r.0) && r.0.y == st.y && r.0.yind == st.yind
    ensures r.1.Ok? ==> r.0.X.Some? && r.0.Xind.Some?
  {
    var nx := Reslice(d, st.X);
    if nx.Err? then (st, Err(nx.error)) else
    var s1 := st.(X := Some(nx.value));
    var ni := Reslice(d, st.Xind);
    if ni.Err? then (s1, Err(ni.error)) else
    (s1.(Xind := Some(ni.value)), Ok(()))
  }

  /** The second half of `featurizeSplits()`: `y`, then `y_ind`, re-sliced from the target column. */
  function FeaturizeTargets(df: Frame, target: Name, st: SplitState): (r: (SplitState, Result<()>))
    requires WellFormed(df) && PartsWellFormed(st)
    ensures PartsWellFormed(r.0) && r.0.X == st.X && r.0.Xind == st.Xind
    ensures r.1.Ok? ==> r.0.y.Some? && r.0.yind.Some?
  {
    var ny := ResliceTarget(df, target, st.y);
    if ny.Err? then (st, Err(ny.error)) else
    var s3 := st.(y := Some(ny.value));
    var nyi := ResliceTarget(df, target, st.yind);
    if nyi.Err? then (s3, Err(nyi.error)) else
    (s3.(yind := Some(nyi.value)), Ok(()))
  }

  /**
   * Featurising keeps every part on its own row keys, so aligned pairs stay aligned; the
   * feature parts then hold exactly the descriptor columns and the target parts the target.
   */
  lemma FeaturizeKeepsAlignment(df: Frame, target: Name, st: SplitState)
    requires WellFormed(df) && PartsWellFormed(st)
    ensures var r := FeaturizeSpec(df, target, st);
      r.1.Ok? ==>
        && st.X.Some? && st.Xind.Some? && st.y.Some? && st.yind.Some?
        && r.0.X.value.index == st.X.value.index && r.0.Xind.value.index == st.Xind.value.index
        && r.0.y.value.index == st.y.value.index && r.0.yind.value.index == st.yind.value.index
        && r.0.X.value.columns == DescriptorNames(df) && r.0.Xind.value.columns == DescriptorNames(df)
        && r.0.y.value.columns == [target] && r.0.yind.value.columns == [target]
        && (StateAligned(st) ==> StateAligned(r.0))
  {
    var d := Descriptors(df);
    var nx := Reslice(d, st.X);
    var ni := Reslice(d, st.Xind);
    var ny := ResliceTarget(df, target, st.y);
    var nyi := ResliceTarget(df, target, st.yind);
    if nx.Ok? && ni.Ok? && ny.Ok? && nyi.Ok? {
      var f := SplitState(Some(nx.value), Some(ni.value), st.y, st.yind);
      assert FeaturizeFeatures(d, st) == (f, Ok(()));
      assert FeaturizeTargets(df, target, f).0 == SplitState(Some(nx.value), Some(ni.value), Some(ny.value), Some(nyi.value));
    }
  }

  /** The split files `reload` reads in turn, stopping at the first one that is missing. */
  function ReloadSplits(frames: map<string, Frame>, storePrefix: string, st: SplitState): (r: SplitState)
    ensures (forall p :: p in frames ==> WellFormed(frames[p])) && PartsWellFormed(st) ==> PartsWellFormed(r)
  {
    if XPath(storePrefix) !in frames then st else
    var s1 := st.(X := Some(frames[XPath(storePrefix)]));
    if XindPath(storePrefix) !in frames then s1 else
    var s2 := s1.(Xind := Some(frames[XindPath(storePrefix)]));
    if YPath(storePrefix) !in frames then s2 else
    var s3 := s2.(y := Some(frames[YPath(storePrefix)]));
    if YindPath(storePrefix) !in frames then s3 else
    s3.(yind := Some(frames[YindPath(storePrefix)]))
  }

  /** Saving the split and reloading it from the same prefix gives back every part that was set. */
  lemma SaveReloadSplits(frames: map<string, Frame>, storePrefix: string, st: SplitState, before: SplitState)
    requires st.X.Some? && st.Xind.Some? && st.y.Some? && st.yind.Some?
    ensures ReloadSplits(SaveSplits(frames, storePrefix, st.X, st.Xind, st.y, st.yind), storePrefix, before) == st
  {
    var n := |storePrefix|;
    assert XPath(storePrefix)[n + 1] == 'X' && YPath(storePrefix)[n + 1] == 'y';
    assert XindPath(storePrefix)[n + 1] == 'X' && YindPath(storePrefix)[n + 1] == 'y';
    assert |XPath(storePrefix)| != |XindPath(storePrefix)| && |YPath(storePrefix)| != |YindPath(storePrefix)|;
  }

  // ---------------------------------------------------------------------------------------
  // Feature selection and standardization of the split

  /** `X_ind[X.columns]`: the test features projected onto the training feature columns. */
  function ProjectFeatures(X: Frame, Xind: Frame): (r: Result<Frame>)
    requires WellFormed(X) && WellFormed(Xind)
    ensures r.Ok? <==> forall c :: c in X.columns ==> c in Xind.columns
    ensures r.Err? ==> r.error.KeyError? && r.error.key in X.columns && r.error.key !in Xind.columns
    ensures r.Ok? ==> WellFormed(r.value) && r.value.index == Xind.index && r.value.columns == X.columns
    ensures r.Ok? ==> forall c :: c in X.columns ==> r.value.cells[c] == Xind.cells[c]
  {
    SelectChecked(Xind, X.columns)
  }

  /** The fields `filterFeatures` leaves: `X`, `X_ind`, `features`, the table's calculator, and the outcome. */
  datatype FeatureSelection = FeatureSelection(X: Option<Frame>, Xind: Option<Frame>, features: Option<seq<Name>>,
                                               calculator: Option<Calculator>, result: Result<()>)

  /**
   * `filterFeatures()` with the filters `fs` in place: `X` goes through the filters and its
   * columns become `features`, then `X_ind` is projected onto them, then the calculator is told
   * to keep them; whatever was assigned before a step raises stays assigned.
   */
  function FilterFeaturesSpec(X: Option<Frame>, Xind: Option<Frame>, y: Option<Frame>, features: Option<seq<Name>>,
                              calculator: Option<Calculator>, fs: seq<FeatureFilter>,
                              keep: (Calculator, seq<Name>) -> Calculator): (r: FeatureSelection)
    requires X.Some? ==> WellFormed(X.value)
    requires Xind.Some? ==> WellFormed(Xind.value)
    ensures r.X.Some? ==> WellFormed(r.X.value)
    ensures r.Xind.Some? ==> WellFormed(r.Xind.value)
    ensures X.None? ==> r == FeatureSelection(X, Xind, features, calculator, Err(AttributeError("columns")))
    ensures X.Some? ==> r.X == Some(FeatureFiltersSpec(X.value, y, fs)) && r.features == Some(r.X.value.columns)
    ensures X.Some? && Xind.None? ==> r.result == Err(TypeError(NotSubscriptable)) && r.Xind == Xind
    ensures r.result.Ok? <==> X.Some? && Xind.Some? && calculator.Some?
                              && forall c :: c in r.X.value.columns ==> c in Xind.value.columns
    ensures r.result.Ok? ==> r.Xind.Some?
    ensures r.result.Ok? ==> && r.Xind.value.index == Xind.value.index && r.Xind.value.columns == r.X.value.columns
                             && (forall c :: c in r.X.value.columns ==> r.Xind.value.cells[c] == Xind.value.cells[c])
                             && r.calculator == Some(keep(calculator.value, r.features.value))
    ensures r.result.Err? ==> r.calculator == calculator
  {
    if X.None? then FeatureSelection(X, Xind, features, calculator, Err(AttributeError("columns"))) else
    var nx := FeatureFiltersSpec(X.value, y, fs);
    if Xind.None? then FeatureSelection(Some(nx), Xind, Some(nx.columns), calculator, Err(TypeError(NotSubscriptable))) else
    var ni := ProjectFeatures(nx, Xind.value);
    if ni.Err? then FeatureSelection(Some(nx), Xind, Some(nx.columns), calculator, Err(ni.error)) else
    if calculator.None? then FeatureSelection(Some(nx), Some(ni.value), Some(nx.columns), calculator, Err(AttributeError("keepDescriptors"))) else
    FeatureSelection(Some(nx), Some(ni.value), Some(nx.columns), Some(keep(calculator.value, nx.columns)), Ok(()))
  }

  /**
   * Feature filtering keeps both feature parts on their row keys, so an aligned split stays
   * aligned, and the kept features are columns the training part already had, in its order.
   */
  lemma FilterFeaturesKeepsAlignment(st: SplitState, features: Option<seq<Name>>, calculator: Option<Calculator>,
                                     fs: seq<FeatureFilter>, keep: (Calculator, seq<Name>) -> Calculator)
    requires PartsWellFormed(st) && StateAligned(st)
    ensures var r := FilterFeaturesSpec(st.X, st.Xind, st.y, features, calculator, fs, keep);
      r.result.Ok? ==> && StateAligned(st.(X := r.X, Xind := r.Xind))
                       && Subsequence(r.features.value, st.X.value.columns)
                       && r.Xind.value.columns == r.features.value
  {
    var r := FilterFeaturesSpec(st.X, st.Xind, st.y, features, calculator, fs, keep);
    if r.result.Ok? {
      assert r.X.value.index == st.X.value.index;
      assert r.Xind.value.index == st.Xind.value.index;
    }
  }

  /** The fields `standardizeFeatures` leaves: the standardizer chain, `X`, `X_ind`, and the outcome. */
  datatype Standardized = Standardized(chain: seq<Standardizer>, X: Option<Frame>, Xind: Option<Frame>, result: Result<()>)

  /**
   * `standardizeFeatures()` with the chain `chain` in place: an empty chain raises
   * `ValueError`; the chain is fitted on the training features and replaces the old one; the
   * fitted chain is then applied, without fitting, to the test features; both results are put
   * back on their own row keys and columns.
   */
  function StandardizeSpec(chain: seq<Standardizer>, X: Option<Frame>, Xind: Option<Frame>, scale: Scaling): (r: Standardized)
    requires X.Some? ==> WellFormed(X.value)
    requires Xind.Some? ==> WellFormed(Xind.value)
    ensures r.X.Some? ==> WellFormed(r.X.value)
    ensures r.Xind.Some? ==> WellFormed(r.Xind.value)
    ensures chain == [] ==> r == Standardized(chain, X, Xind, Err(ValueError(NoStandardizers)))
    ensures chain != [] && X.None? ==> r == Standardized(chain, X, Xind, Err(AttributeError("values")))
    ensures chain != [] && X.Some? ==> r.chain == ApplyStandardizersSpec(chain, Rows(X.value), true, scale).1
    ensures r.result.Ok? ==> && chain != [] && X.Some? && Xind.Some? && r.X.Some? && r.Xind.Some?
                             && r.X.value.index == X.value.index && r.X.value.columns == X.value.columns
                             && r.Xind.value.index == Xind.value.index && r.Xind.value.columns == Xind.value.columns
                             && Rows(r.X.value) == ApplyStandardizersSpec(chain, Rows(X.value), true, scale).0
                             && Rows(r.Xind.value) == ApplyStandardizersSpec(r.chain, Rows(Xind.value), false, scale).0
    ensures r.result.Err? ==> r.Xind == Xind
  {
    if chain == [] then Standardized(chain, X, Xind, Err(ValueError(NoStandardizers)))
    else if X.None? then Standardized(chain, X, Xind, Err(AttributeError("values")))
    else
      var fx := ApplyStandardizersSpec(chain, Rows(X.value), true, scale);
      if Xind.None? then Standardized(fx.1, X, Xind, Err(AttributeError("values")))
      else
        var fi := ApplyStandardizersSpec(fx.1, Rows(Xind.value), false, scale);
        var nx := FromRows(X.value.index, X.value.columns, fx.0);
        if nx.Err? then Standardized(fx.1, X, Xind, Err(nx.error))
        else
          var ni := FromRows(Xind.value.index, Xind.value.columns, fi.0);
          if ni.Err? then Standardized(fx.1, Some(nx.value), Xind, Err(ni.error))
          else Standardized(fx.1, Some(nx.value), Some(ni.value), Ok(()))
  }

  /**
   * The test features never reach a fit: every standardizer of the new chain is fitted on the
   * matrix it receives from the training features, the chain is the same whatever the test
   * features are, and applying it to them leaves it as it is.
   */
  lemma StandardizeFitsOnTrainOnly(chain: seq<Standardizer>, X: Frame, Xind: Option<Frame>, other: Option<Frame>, scale: Scaling)
    requires WellFormed(X) && chain != []
    requires Xind.Some? ==> WellFormed(Xind.value)
    requires other.Some? ==> WellFormed(other.value)
    ensures var r := StandardizeSpec(chain, Some(X), Xind, scale);
      && |r.chain| == |chain|
      && (forall i :: 0 <= i < |chain| ==> r.chain[i] == Fit(chain[i], StageInput(chain, Rows(X), true, scale, i)))
      && r.chain == StandardizeSpec(chain, Some(X), other, scale).chain
      && (Xind.Some? ==> ApplyStandardizersSpec(r.chain, Rows(Xind.value), false, scale).1 == r.chain)
  {
    var r := StandardizeSpec(chain, Some(X), Xind, scale);
    ApplyFitsOnInput(chain, Rows(X), scale);
    if Xind.Some? {
      ApplyWithoutFit(r.chain, Rows(Xind.value), scale);
    }
  }

  /** Standardizing keeps both feature parts on their row keys, so an aligned split stays aligned. */
  lemma StandardizeKeepsAlignment(chain: seq<Standardizer>, st: SplitState, scale: Scaling)
    requires PartsWellFormed(st) && StateAligned(st)
    ensures var r := StandardizeSpec(chain, st.X, st.Xind, scale);
      r.result.Ok? ==> StateAligned(st.(X := r.X, Xind := r.Xind))
  {
    var r := StandardizeSpec(chain, st.X, st.Xind, scale);
    if r.result.Ok? {
      assert r.X.value.index == st.X.value.index;
    }
  }

  /** `n_folds if n_folds else self.n_folds`: a missing or zero argument keeps the stored count. */
  function FoldCount(n: Option<int>, current: Option<int>): (r: Option<int>)
    ensures n.Some? && n.value != 0 ==> r == n
    ensures n.None? || n.value == 0 ==> r == current
  {
    if n.Some? && n.value != 0 then n else current
  }

  /**
   * The part of `createFolds` that runs when it is called, before any fold is asked for: the
   * stored count becomes `FoldCount`; none or zero raises `ValueError`, and so does a count
   * below two, which the `KFold`/`StratifiedKFold` constructor refuses.
   */
  function FoldSetup(n: Option<int>, current: Option<int>): (r: (Option<int>, Result<()>))
    ensures r.0 == FoldCount(n, current)
    ensures r.1.Ok? <==> r.0.Some? && r.0.value >= 2
    ensures r.0.None? || r.0.value == 0 ==> r.1 == Err(ValueError(NoFolds))
    ensures r.0.Some? && r.0.value != 0 && r.0.value < 2 ==> r.1 == Err(ValueError(TooFewSplits))
  {
    var nf := FoldCount(n, current);
    if nf.None? || nf.value == 0 then (nf, Err(ValueError(NoFolds)))
    else if nf.value < 2 then (nf, Err(ValueError(TooFewSplits)))
    else (nf, Ok(()))
  }

  /** `feature_standardizers if feature_standardizers else self.feature_standardizers`. */
  function FoldChain(given: seq<Standardizer>, own: seq<Standardizer>): (r: seq<Standardizer>)
    ensures given != [] ==> r == given
    ensures given == [] ==> r == own
  {
    if given != [] then given else own
  }

  /**
   * `createFolds(n_folds, feature_standardizers)` with the folds the fold generator yields:
   * the stored count becomes `FoldCount`; no count at all raises `ValueError`; otherwise every
   * fold is standardized as `FoldSpec` says, with the given chain or else the dataset's own.
   * The count and any error raised before the first fold are those of `FoldSetup`.
   */
  function CreateFoldsSpec(n: Option<int>, current: Option<int>, given: seq<Standardizer>, own: seq<Standardizer>,
                           X: Option<Frame>, y: Option<Frame>, folds: seq<Fold>, scale: Scaling): (r: (Option<int>, Result<seq<FoldData>>))
    requires X.Some? ==> WellFormed(X.value)
    requires y.Some? ==> WellFormed(y.value)
    ensures r.0 == FoldCount(n, current)
    ensures r.0 == FoldSetup(n, current).0
    ensures FoldSetup(n, current).1.Err? ==> r.1 == Err(FoldSetup(n, current).1.error)
    ensures r.1.Ok? ==> && X.Some? && y.Some? && |r.1.value| == |folds|
                        && forall j :: 0 <= j < |folds| ==>
                             && FoldSpec(Rows(X.value), Rows(y.value), FoldChain(given, own), folds[j], scale).Ok?
                             && r.1.value[j] == FoldSpec(Rows(X.value), Rows(y.value), FoldChain(given, own), folds[j], scale).value
  {
    var (nf, setup) := FoldSetup(n, current);
    if setup.Err? then (nf, Err(setup.error))
    else if X.None? || y.None? then (nf, Err(AttributeError("values")))
    else (nf, FoldsSpec(Rows(X.value), Rows(y.value), FoldChain(given, own), folds, scale))
  }

  /** The results of the folds still to come appended to those already made. */
  function Appended(done: seq<FoldData>, rest: Result<seq<FoldData>>): Result<seq<FoldData>> {
    if rest.Ok? then Ok(done + rest.value) else rest
  }

  /** Before the first fold nothing is made. */
  lemma AppendedNothing(X: Matrix, y: Matrix, ss: seq<Standardizer>, folds: seq<Fold>, scale: Scaling)
    ensures Appended([], FoldsSpec(X, y, ss, folds[0..], scale)) == FoldsSpec(X, y, ss, folds, scale)
  {
    assert folds[0..] == folds;
    var all := FoldsSpec(X, y, ss, folds, scale);
    if all.Ok? {
      assert [] + all.value == all.value;
    }
  }

  /** After the last fold everything is made. */
  lemma AppendedAll(X: Matrix, y: Matrix, ss: seq<Standardizer>, folds: seq<Fold>, made: seq<FoldData>, scale: Scaling)
    ensures Appended(made, FoldsSpec(X, y, ss, folds[|folds|..], scale)) == Ok(made)
  {
    assert folds[|folds|..] == [];
    assert FoldsSpec(X, y, ss, [], scale) == Ok([]);
    assert made + [] == made;
  }

  /** One more fold made moves from the rest to what is done. */
  lemma AppendedOne(done: seq<FoldData>, d: FoldData, rest: Result<seq<FoldData>>)
    ensures Appended(done, if rest.Err? then rest else Ok([d] + rest.value)) == Appended(done + [d], rest)
  {
    if rest.Ok? {
      assert done + ([d] + rest.value) == (done + [d]) + rest.value;
    }
  }

  /** The folds from the `i`-th on: the `i`-th fold, then the rest. */
  lemma FoldsSpecStep(X: Matrix, y: Matrix, ss: seq<Standardizer>, folds: seq<Fold>, i: nat, scale: Scaling)
    requires i < |folds|
    ensures var d := FoldSpec(X, y, ss, folds[i], scale);
      var rest := FoldsSpec(X, y, ss, folds[i + 1..], scale);
      FoldsSpec(X, y, ss, folds[i..], scale) ==
        if d.Err? then Err(d.error) else if rest.Err? then rest else Ok([d.value] + rest.value)
  {
    assert folds[i..][0] == folds[i] && folds[i..][1..] == folds[i + 1..];
  }

  // ---------------------------------------------------------------------------------------
  // The order of `prepareDataset`

  /** The steps of `prepareDataset`. */
  datatype PrepStep = StepClean | StepDescriptors | StepDataFilters | StepFill | StepSplit
                    | StepFeaturize | StepFeatureFilters | StepStandardize | StepFolds

  /** The position of a step in the order `prepareDataset` runs them. */
  function Rank(s: PrepStep): nat {
    match s
    case StepClean => 0
    case StepDescriptors => 1
    case StepDataFilters => 2
    case StepFill => 3
    case StepSplit => 4
    case StepFeaturize => 5
    case StepFeatureFilters => 6
    case StepStandardize => 7
    case StepFolds => 8
  }

  /** The steps come in that order, each at most once. */
  predicate InOrder(r: seq<PrepStep>) {
    forall i, j :: 0 <= i < j < |r| ==> Rank(r[i]) < Rank(r[j])
  }

  /** What `prepareDataset` was asked to do, and whether descriptors were present after the split. */
  datatype PrepFlags = PrepFlags(standardize: bool, calculator: bool, datafilters: bool, fill: bool, split: bool,
                                 featurize: bool, featureFilters: bool, standardizers: bool)

  /** Whether a step runs under the given flags; the folds always do. */
  predicate Asked(fl: PrepFlags, s: PrepStep) {
    match s
    case StepClean => fl.standardize
    case StepDescriptors => fl.calculator
    case StepDataFilters => fl.datafilters
    case StepFill => fl.fill
    case StepSplit => fl.split
    case StepFeaturize => fl.featurize
    case StepFeatureFilters => fl.featureFilters
    case StepStandardize => fl.standardizers
    case StepFolds => true
  }

  /** The two steps of one stage, each when it runs, in that order. */
  function Stage(a: bool, x: PrepStep, b: bool, y: PrepStep): seq<PrepStep> {
    (if a then [x] else []) + (if b then [y] else [])
  }

  /** The steps on the table itself: cleaning, descriptors, data filters, filling. */
  function TableSteps(standardize: bool, calculator: bool, datafilters: bool, fill: bool): seq<PrepStep> {
    Stage(standardize, StepClean, calculator, StepDescriptors) + Stage(datafilters, StepDataFilters, fill, StepFill)
  }

  /** The steps on the split: splitting, featurizing, feature filters, standardizers. */
  function SplitSteps(split: bool, featurize: bool, featureFilters: bool, standardizers: bool): seq<PrepStep> {
    Stage(split, StepSplit, featurize, StepFeaturize) + Stage(featureFilters, StepFeatureFilters, standardizers, StepStandardize)
  }

  /** The steps `prepareDataset` runs under the given flags: the table, the split, then the folds. */
  function PlannedSteps(fl: PrepFlags): seq<PrepStep> {
    TableSteps(fl.standardize, fl.calculator, fl.datafilters, fl.fill)
      + SplitSteps(fl.split, fl.featurize, fl.featureFilters, fl.standardizers)
      + [StepFolds]
  }

  /** Stopping in the first stage leaves a prefix of the plan. */
  lemma FirstStageStops(fl: PrepFlags, s1: seq<PrepStep>)
    requires s1 != [] && s1 <= Stage(fl.standardize, StepClean, fl.calculator, StepDescriptors)
    ensures s1 != [] && s1 <= PlannedSteps(fl) && s1 != PlannedSteps(fl)
  {
    PrefixOfJoin([], s1, Stage(fl.standardize, StepClean, fl.calculator, StepDescriptors),
                 Stage(fl.datafilters, StepDataFilters, fl.fill, StepFill)
                 + SplitSteps(fl.split, fl.featurize, fl.featureFilters, fl.standardizers) + [StepFolds]);
  }

  /**
   * After the whole first stage, the second stage either completes the table steps or stops
   * within them, leaving a prefix of the plan.
   */
  lemma SecondStageSteps(fl: PrepFlags, s1: seq<PrepStep>, s2: seq<PrepStep>, ok: bool)
    requires s1 == Stage(fl.standardize, StepClean, fl.calculator, StepDescriptors)
    requires ok ==> s2 == Stage(fl.datafilters, StepDataFilters, fl.fill, StepFill)
    requires !ok ==> s2 != [] && s2 <= Stage(fl.datafilters, StepDataFilters, fl.fill, StepFill)
    ensures ok ==> s1 + s2 == TableSteps(fl.standardize, fl.calculator, fl.datafilters, fl.fill)
    ensures !ok ==> s1 + s2 != [] && s1 + s2 <= PlannedSteps(fl) && s1 + s2 != PlannedSteps(fl)
  {
    if !ok {
      PrefixOfJoin(s1, s2, Stage(fl.datafilters, StepDataFilters, fl.fill, StepFill),
                   SplitSteps(fl.split, fl.featurize, fl.featureFilters, fl.standardizers) + [StepFolds]);
    }
  }

  /**
   * After all the table steps, the split steps and the folds either complete, and make up the
   * plan, or stop within them, leaving a prefix of it.
   */
  lemma SplitStepsJoin(fl: PrepFlags, done: seq<PrepStep>, rest: seq<PrepStep>, ok: bool)
    requires done == TableSteps(fl.standardize, fl.calculator, fl.datafilters, fl.fill)
    requires ok ==> rest == SplitSteps(fl.split, fl.featurize, fl.featureFilters, fl.standardizers) + [StepFolds]
    requires !ok ==> rest != [] && rest <= SplitSteps(fl.split, fl.featurize, fl.featureFilters, fl.standardizers) + [StepFolds]
    ensures ok ==> done + rest == PlannedSteps(fl)
    ensures !ok ==> done + rest != [] && done + rest <= PlannedSteps(fl)
    ensures done + rest == PlannedSteps(fl) ==> rest == SplitSteps(fl.split, fl.featurize, fl.featureFilters, fl.standardizers) + [StepFolds]
  {
    var u := SplitSteps(fl.split, fl.featurize, fl.featureFilters, fl.standardizers);
    assert PlannedSteps(fl) == done + (u + [StepFolds]);
    if !ok {
      PrefixOfJoin(done, rest, u + [StepFolds], []);
    }
    if done + rest == PlannedSteps(fl) {
      assert rest == (done + rest)[|done|..] == u + [StepFolds];
    }
  }

  /** Two runs of steps in order, the first entirely before the second, make one run in order. */
  lemma InOrderAppend(a: seq<PrepStep>, b: seq<PrepStep>, k: nat)
    requires InOrder(a) && InOrder(b)
    requires forall x :: x in a ==> Rank(x) < k
    requires forall x :: x in b ==> k <= Rank(x)
    ensures InOrder(a + b)
  {
    forall i, j | 0 <= i < j < |a + b| ensures Rank((a + b)[i]) < Rank((a + b)[j]) {
      if j < |a| {
        assert (a + b)[i] == a[i] && (a + b)[j] == a[j];
      } else if i >= |a| {
        assert (a + b)[i] == b[i - |a|] && (a + b)[j] == b[j - |a|];
      } else {
        assert (a + b)[i] in a && (a + b)[j] in b;
      }
    }
  }

  /** A stage of two steps in order runs them in order, and each exactly when it is asked for. */
  lemma StageRuns(a: bool, x: PrepStep, b: bool, y: PrepStep)
    requires Rank(x) < Rank(y)
    ensures InOrder(Stage(a, x, b, y))
    ensures forall s :: s in Stage(a, x, b, y) <==> (a && s == x) || (b && s == y)
    ensures forall s :: s in Stage(a, x, b, y) ==> Rank(x) <= Rank(s) <= Rank(y)
  {
  }

  /** The table steps run in order, each exactly when asked for. */
  lemma TableStepsRun(fl: PrepFlags)
    ensures InOrder(TableSteps(fl.standardize, fl.calculator, fl.datafilters, fl.fill))
    ensures forall s :: s in TableSteps(fl.standardize, fl.calculator, fl.datafilters, fl.fill) <==>
      (fl.standardize && s == StepClean) || (fl.calculator && s == StepDescriptors)
      || (fl.datafilters && s == StepDataFilters) || (fl.fill && s == StepFill)
    ensures forall s :: s in TableSteps(fl.standardize, fl.calculator, fl.datafilters, fl.fill) ==> Rank(s) < 4
  {
    StageRuns(fl.standardize, StepClean, fl.calculator, StepDescriptors);
    StageRuns(fl.datafilters, StepDataFilters, fl.fill, StepFill);
    InOrderAppend(Stage(fl.standardize, StepClean, fl.calculator, StepDescriptors),
                  Stage(fl.datafilters, StepDataFilters, fl.fill, StepFill), 2);
  }

  /** The split steps run in order, each exactly when asked for. */
  lemma SplitStepsRun(fl: PrepFlags)
    ensures InOrder(SplitSteps(fl.split, fl.featurize, fl.featureFilters, fl.standardizers))
    ensures forall s :: s in SplitSteps(fl.split, fl.featurize, fl.featureFilters, fl.standardizers) <==>
      (fl.split && s == StepSplit) || (fl.featurize && s == StepFeaturize)
      || (fl.featureFilters && s == StepFeatureFilters) || (fl.standardizers && s == StepStandardize)
    ensures forall s :: s in SplitSteps(fl.split, fl.featurize, fl.featureFilters, fl.standardizers) ==> 4 <= Rank(s) < 8
  {
    StageRuns(fl.split, StepSplit, fl.featurize, StepFeaturize);
    StageRuns(fl.featureFilters, StepFeatureFilters, fl.standardizers, StepStandardize);
    InOrderAppend(Stage(fl.split, StepSplit, fl.featurize, StepFeaturize),
                  Stage(fl.featureFilters, StepFeatureFilters, fl.standardizers, StepStandardize), 6);
  }

  /** A step is asked for exactly when its own flag is set; the folds always are. */
  lemma AskedIff(fl: PrepFlags, s: PrepStep)
    ensures Asked(fl, s) <==> (
      || (fl.standardize && s == StepClean) || (fl.calculator && s == StepDescriptors)
      || (fl.datafilters && s == StepDataFilters) || (fl.fill && s == StepFill)
      || (fl.split && s == StepSplit) || (fl.featurize && s == StepFeaturize)
      || (fl.featureFilters && s == StepFeatureFilters) || (fl.standardizers && s == StepStandardize)
      || s == StepFolds)
  {
  }

  /** Steps before the split, then steps of the split, then the folds, come in the fixed order. */
  lemma ThreePartsInOrder(t: seq<PrepStep>, u: seq<PrepStep>)
    requires InOrder(t) && InOrder(u)
    requires forall s :: s in t ==> Rank(s) < 4
    requires forall s :: s in u ==> 4 <= Rank(s) < 8
    ensures InOrder(t + u + [StepFolds])
  {
    InOrderAppend(t, u, 4);
    InOrderAppend(t + u, [StepFolds], 8);
  }

  /** The steps of the plan run each once and in the fixed order. */
  lemma PlannedStepsInOrder(fl: PrepFlags)
    ensures InOrder(PlannedSteps(fl))
  {
    var t := TableSteps(fl.standardize, fl.calculator, fl.datafilters, fl.fill);
    var u := SplitSteps(fl.split, fl.featurize, fl.featureFilters, fl.standardizers);
    TableStepsRun(fl);
    SplitStepsRun(fl);
    ThreePartsInOrder(t, u);
  }

  /** Exactly the steps asked for run, and the folds always run, last. */
  lemma PlannedStepsAsked(fl: PrepFlags)
    ensures forall s :: s in PlannedSteps(fl) <==> Asked(fl, s)
    ensures PlannedSteps(fl) != [] && PlannedSteps(fl)[|PlannedSteps(fl)| - 1] == StepFolds
  {
    var t := TableSteps(fl.standardize, fl.calculator, fl.datafilters, fl.fill);
    var u := SplitSteps(fl.split, fl.featurize, fl.featureFilters, fl.standardizers);
    TableStepsRun(fl);
    SplitStepsRun(fl);
    assert PlannedSteps(fl) == t + u + [StepFolds];
    forall s ensures s in PlannedSteps(fl) <==> Asked(fl, s) {
      AskedIff(fl, s);
      assert s in t + u + [StepFolds] <==> s in t || s in u || s == StepFolds;
    }
  }

  /** The files a dataset save writes: the table's store, the standardizer files and the metadata files. */
  datatype DatasetStore = DatasetStore(files: Store, standardizers: map<string, Standardizer>, metas: map<string, Meta>)

  /** Each standardizer written, in order, to its own path. */
  function SaveStandardizers(m: map<string, Standardizer>, paths: seq<string>, ss: seq<Standardizer>): (r: map<string, Standardizer>)
    requires |paths| == |ss| && Distinct(paths)
    ensures forall i :: 0 <= i < |ss| ==> paths[i] in r && r[paths[i]] == ss[i]
    ensures forall p :: p in m && p !in paths ==> p in r && r[p] == m[p]
    ensures forall p :: p in r ==> p in m || p in paths
    decreases |ss|
  {
    if ss == [] then m
    else
      var r := SaveStandardizers(m[paths[0] := ss[0]], paths[1..], ss[1..]);
      assert forall i :: 1 <= i < |ss| ==> paths[1..][i - 1] == paths[i] && ss[1..][i - 1] == ss[i];
      r
  }

  /** The chunk size `addDescriptors` uses when none is given. */
  const DefaultChunkSize := 50

  // ---------------------------------------------------------------------------------------
  // The dataset

  /**
   * What `QSPRDataset(...)` starts from: the table opened as `MoleculeTable` opens it, with the
   * target then framed as `FramingSpec` says; the framed table and the table's calculator.
   */
  function CreateSpec(name: string, targetProp: Name, df: Option<Frame>, smilescol: Name, addRdkit: bool,
                      storeDir: string, overwrite: bool, st: Store, parse: Cell -> Cell, task: Task,
                      transformer: Option<Cell -> Cell>, th: seq<real>, parses: Cell -> bool,
                      labelOf: nat -> string, toFloat: string -> Option<Float>): (r: Result<(Framed, Option<Calculator>)>)
    requires df.Some? ==> WellFormed(df.value)
    requires StoreValid(st)
    ensures StorePaths(storeDir, name).storeDir !in st.dirs ==> r == Err(FileNotFound(StorePaths(storeDir, name).storeDir))
    ensures task == Regression && th != [] ==> r.Err?
    ensures r.Ok? ==> WellFormed(r.value.0.df) && r.value.0.task == task && r.value.0.target in r.value.0.df.columns
    ensures r.Ok? ==> r.value.0.target == FramedTarget(targetProp, task, transformer.Some?, th)
  {
    var o :- OpenSpec(name, df, smilescol, addRdkit, storeDir, overwrite, st, parse);
    var f :- FramingSpec(o.0, smilescol, targetProp, task, transformer, th, parses, labelOf, toFloat);
    Ok((f, o.1))
  }

  /**
   * A `QSPRDataset`: the molecule table it extends, the target property and task, and the
   * split state the preparation steps fill in.
   */
  class QSPRDataset {
    const table: MoleculeTable
    var targetProperty: Name
    var task: Task
    var th: Option<seq<real>>
    var X: Option<Frame>
    var Xind: Option<Frame>
    var y: Option<Frame>
    var yind: Option<Frame>
    var nFolds: Option<int>
    var features: Option<seq<Name>>
    var featureStandardizers: seq<Standardizer>
    var featureFilters: seq<FeatureFilter>

    /** The four split parts as one value. */
    function Parts(): SplitState
      reads this
    {
      SplitState(X, Xind, y, yind)
    }

    ghost predicate Valid()
      reads this, table
    {
      table.Valid() && PartsWellFormed(Parts())
    }

    /** The fields `__init__` leaves once the target is framed: nothing split, no features, no standardizers. */
    constructor Init(table: MoleculeTable, target: Name, task: Task, th: Option<seq<real>>, nFolds: Option<int>)
      ensures this.table == table && targetProperty == target && this.task == task && this.th == th && this.nFolds == nFolds
      ensures Parts() == SplitState(None, None, None, None) && features.None?
      ensures featureStandardizers == [] && featureFilters == []
    {
      this.table := table;
      targetProperty := target;
      this.task := task;
      this.th := th;
      X, Xind, y, yind := None, None, None, None;
      this.nFolds := nFolds;
      features := None;
      featureStandardizers := [];
      featureFilters := [];
    }

    /**
     * `QSPRDataset(name, target_prop, df, ...)`: the table is opened as `MoleculeTable` opens
     * it, then the target is framed as `FramingSpec` says; nothing is split yet. A failing
     * step raises out of the constructor, so no partly framed dataset is ever seen and the
     * new table is made with its framed frame at once.
     */
    static method Create(name: string, targetProp: Name, df: Option<Frame>, smilescol: Name, addRdkit: bool,
                         storeDir: string, overwrite: bool, st: Store, parse: Cell -> Cell, task: Task,
                         transformer: Option<Cell -> Cell>, th: seq<real>, nFolds: Option<int>,
                         parses: Cell -> bool, labelOf: nat -> string, toFloat: string -> Option<Float>) returns (r: Result<QSPRDataset>)
      requires df.Some? ==> WellFormed(df.value)
      requires StoreValid(st)
      ensures var spec := CreateSpec(name, targetProp, df, smilescol, addRdkit, storeDir, overwrite, st, parse, task, transformer, th, parses, labelOf, toFloat);
        && (r.Ok? <==> spec.Ok?)
        && (r.Err? ==> r.error == spec.error)
        && (r.Ok? ==> fresh(r.value) && fresh(r.value.table) && r.value.Valid())
        && (r.Ok? ==> && r.value.table.df == spec.value.0.df && r.value.targetProperty == spec.value.0.target
                      && r.value.task == spec.value.0.task && r.value.th == spec.value.0.th
                      && r.value.table.descriptorCalculator == spec.value.1 && r.value.table.smilescol == smilescol
                      && r.value.nFolds == nFolds && r.value.Parts() == SplitState(None, None, None, None))
    {
      var spec := CreateSpec(name, targetProp, df, smilescol, addRdkit, storeDir, overwrite, st, parse, task, transformer, th, parses, labelOf, toFloat);
      if spec.Err? {
        return Err(spec.error);
      }
      var f := spec.value.0;
      StorePathsShape(storeDir, name);
      var t := new MoleculeTable.Init(name, smilescol, addRdkit, StorePaths(storeDir, name), f.df, spec.value.1);
      var ds := new QSPRDataset.Init(t, f.target, f.task, f.th, nFolds);
      return Ok(ds);
    }

    /** `dropInvalids()`, as `DropInvalidsSpec` says. */
    method DropInvalids(parses: Cell -> bool) returns (r: Result<()>)
      requires Valid()
      modifies table`df
      ensures Valid()
      ensures var spec := DropInvalidsSpec(old(table.df), table.smilescol, targetProperty, parses);
        && (r.Ok? <==> spec.Ok?)
        && (r.Ok? ==> table.df == spec.value)
        && (r.Err? ==> r.error == spec.error && table.df == old(table.df))
    {
      if table.smilescol !in table.df.columns {
        return Err(KeyError(table.smilescol));
      }
      if targetProperty !in table.df.columns {
        return Err(KeyError(targetProperty));
      }
      var present := FilterRows(table.df, NotNa(table.df, table.smilescol, targetProperty));
      var parsed := FilterRows(present, ParsesAt(present, table.smilescol, parses));
      table.df := parsed;
      return Ok(());
    }

    /** `makeClassification(th, as_new)`: the frame and target as `MakeClassificationSpec` says; the task becomes classification. */
    method MakeClassification(th: seq<real>, asNew: bool, labelOf: nat -> string) returns (r: Result<()>)
      requires Valid()
      modifies table`df, this`targetProperty, this`task, this`th
      ensures Valid()
      ensures var spec := MakeClassificationSpec(old(table.df), old(targetProperty), th, asNew, labelOf);
        && (r.Ok? <==> spec.Ok?)
        && (r.Ok? ==> (table.df, targetProperty) == spec.value && task == Classification && this.th == Some(th))
        && (r.Err? ==> r.error == spec.error && table.df == old(table.df) && targetProperty == old(targetProperty)
                       && task == old(task) && this.th == old(this.th))
    {
      var c :- MakeClassificationSpec(table.df, targetProperty, th, asNew, labelOf);
      table.df, targetProperty := c.0, c.1;
      task := Classification;
      this.th := Some(th);
      return Ok(());
    }

    /** `cleanMolecules(standardize, sanitize)`, as `CleanSpec` says. */
    method CleanMolecules(standardize: bool, sanitize: bool, std: Cell -> Cell, san: Cell -> Cell) returns (r: Result<()>)
      requires Valid()
      modifies table`df
      ensures Valid()
      ensures var spec := CleanSpec(old(table.df), table.smilescol, standardize, sanitize, std, san);
        && (r.Ok? <==> spec.Ok?)
        && (r.Ok? ==> table.df == spec.value)
        && (r.Err? ==> r.error == spec.error && table.df == old(table.df))
    {
      var c :- CleanSpec(table.df, table.smilescol, standardize, sanitize, std, san);
      table.df := c;
      return Ok(());
    }

    /** Replaces the four split parts at once. */
    method SetParts(p: SplitState)
      requires table.Valid() && PartsWellFormed(p)
      modifies this`X, this`Xind, this`y, this`yind
      ensures Valid() && Parts() == p
    {
      X, Xind, y, yind := p.X, p.Xind, p.y, p.yind;
    }

    /** Replaces the two feature parts, leaving the target parts as they are. */
    method SetFeatureParts(x: Option<Frame>, xi: Option<Frame>)
      requires table.Valid() && PartsWellFormed(Parts().(X := x, Xind := xi))
      modifies this`X, this`Xind
      ensures Valid() && Parts() == old(Parts()).(X := x, Xind := xi)
    {
      X, Xind := x, xi;
    }

    /** `split(splitter)`: the four parts as `SplitSpec` gives them; a failing split changes nothing. */
    method Split(s: Splitter) returns (r: Result<()>)
      requires Valid()
      modifies this`X, this`Xind, this`y, this`yind
      ensures Valid()
      ensures var spec := SplitSpec(table.df, table.smilescol, targetProperty, s);
        && (r.Ok? <==> spec.Ok?)
        && (r.Ok? ==> Parts() == SplitState(Some(spec.value.X), Some(spec.value.Xind), Some(spec.value.y), Some(spec.value.yind)))
        && (r.Ok? ==> StateAligned(Parts()))
        && (r.Err? ==> r.error == spec.error && Parts() == old(Parts()))
    {
      var spec := SplitSpec(table.df, table.smilescol, targetProperty, s);
      if spec.Err? {
        return Err(spec.error);
      }
      var sp := spec.value;
      SetParts(SplitState(Some(sp.X), Some(sp.Xind), Some(sp.y), Some(sp.yind)));
      return Ok(());
    }

    /** `featurizeSplits()`: each part re-sliced in turn, as `FeaturizeSpec` says. */
    method FeaturizeSplits() returns (r: Result<()>)
      requires Valid()
      modifies this`X, this`Xind, this`y, this`yind
      ensures Valid()
      ensures (Parts(), r) == FeaturizeSpec(table.df, targetProperty, old(Parts()))
    {
      r := ResliceFeatures();
      if r.Err? {
        return;
      }
      r := ResliceTargets();
    }

    /** `X`, then `X_ind`, re-sliced from the descriptors, as `FeaturizeFeatures` says. */
    method ResliceFeatures() returns (r: Result<()>)
      requires Valid()
      modifies this`X, this`Xind
      ensures Valid()
      ensures (Parts(), r) == FeaturizeFeatures(Descriptors(table.df), old(Parts()))
    {
      var d := Descriptors(table.df);
      var nx := Reslice(d, X);
      if nx.Err? {
        return Err(nx.error);
      }
      var ni := Reslice(d, Xind);
      X := Some(nx.value);
      if ni.Err? {
        return Err(ni.error);
      }
      Xind := Some(ni.value);
      return Ok(());
    }

    /** `y`, then `y_ind`, re-sliced from the target column, as `FeaturizeTargets` says. */
    method ResliceTargets() returns (r: Result<()>)
      requires Valid()
      modifies this`y, this`yind
      ensures Valid()
      ensures (Parts(), r) == FeaturizeTargets(table.df, targetProperty, old(Parts()))
    {
      var ny := ResliceTarget(table.df, targetProperty, y);
      if ny.Err? {
        return Err(ny.error);
      }
      var nyi := ResliceTarget(table.df, targetProperty, yind);
      y := Some(ny.value);
      if nyi.Err? {
        return Err(nyi.error);
      }
      yind := Some(nyi.value);
      return Ok(());
    }

    /** `fillMissing(fill_value, columns)`, as `FillMissingSpec` says. */
    method FillMissing(v: real, columns: seq<Name>) returns (r: Result<()>)
      requires Valid() && Distinct(columns)
      modifies table`df
      ensures Valid()
      ensures var spec := FillMissingSpec(old(table.df), v, columns);
        && (r.Ok? <==> spec.Ok?)
        && (r.Ok? ==> table.df == spec.value)
        && (r.Err? ==> r.error == spec.error && table.df == old(table.df))
    {
      var f :- FillMissingSpec(table.df, v, columns);
      table.df := f;
      return Ok(());
    }

    /**
     * `filterFeatures(feature_filters)`: the filters are stored when given, then applied to
     * `X` in turn; `X_ind` is projected onto the kept columns and the calculator keeps them,
     * as `FilterFeaturesSpec` says.
     */
    method FilterFeatures(filters: Option<seq<FeatureFilter>>, keep: (Calculator, seq<Name>) -> Calculator) returns (r: Result<()>)
      requires Valid()
      modifies this`featureFilters, this`X, this`Xind, this`features, table`descriptorCalculator
      ensures Valid()
      ensures featureFilters == if filters.Some? then filters.value else old(featureFilters)
      ensures FeatureSelection(X, Xind, features, table.descriptorCalculator, r)
        == FilterFeaturesSpec(old(X), old(Xind), y, old(features), old(table.descriptorCalculator), featureFilters, keep)
    {
      if filters.Some? {
        featureFilters := filters.value;
      }
      if X.None? {
        return Err(AttributeError("columns"));
      }
      var cur := ApplyFeatureFilters(X.value, y, featureFilters);
      SetFeatureParts(Some(cur), Xind);
      features := Some(cur.columns);
      if Xind.None? {
        return Err(TypeError(NotSubscriptable));
      }
      var ni := ProjectFeatures(cur, Xind.value);
      if ni.Err? {
        return Err(ni.error);
      }
      SetFeatureParts(X, Some(ni.value));
      if table.descriptorCalculator.None? {
        return Err(AttributeError("keepDescriptors"));
      }
      table.descriptorCalculator := Some(keep(table.descriptorCalculator.value, cur.columns));
      return Ok(());
    }

    /** The loop `self.X = featurefilter(self.X, self.y)` over the filters. */
    static method ApplyFeatureFilters(x: Frame, y: Option<Frame>, fs: seq<FeatureFilter>) returns (cur: Frame)
      requires WellFormed(x)
      ensures cur == FeatureFiltersSpec(x, y, fs)
    {
      cur := x;
      var i := 0;
      assert fs[i..] == fs;
      while i < |fs|
        invariant 0 <= i <= |fs| && WellFormed(cur)
        invariant FeatureFiltersSpec(cur, y, fs[i..]) == FeatureFiltersSpec(x, y, fs)
      {
        assert fs[i..][1..] == fs[i + 1..];
        cur := DropColumns(cur, fs[i](cur, y));
        i := i + 1;
      }
      assert fs[i..] == [];
    }

    /**
     * `applyFeatureStandardizers(feature_standardizers, X, fit)`: the chain applied in turn,
     * each standardizer fitted on the matrix it receives when fitting.
     */
    static method ApplyFeatureStandardizers(ss: seq<Standardizer>, X: Matrix, fit: bool, scale: Scaling)
      returns (out: Matrix, used: seq<Standardizer>)
      ensures (out, used) == ApplyStandardizersSpec(ss, X, fit, scale)
    {
      out, used := X, [];
      var i := 0;
      ChainFrom(ss, X, fit, scale);
      while i < |ss|
        invariant 0 <= i <= |ss|
        invariant ChainAfter(used, ApplyStandardizersSpec(ss[i..], out, fit, scale)) == ApplyStandardizersSpec(ss, X, fit, scale)
      {
        var s := if fit then Fit(ss[i], out) else ss[i];
        ChainAdvance(ss, i, out, used, fit, scale, ApplyStandardizersSpec(ss, X, fit, scale));
        out := scale(s, out);
        used := used + [s];
        i := i + 1;
      }
      ChainEnd(ss, out, used, fit, scale);
    }

    /** `standardizeFeatures(feature_standardizers)`, as `StandardizeSpec` says. */
    method StandardizeFeatures(ss: Option<seq<Standardizer>>, scale: Scaling) returns (r: Result<()>)
      requires Valid()
      modifies this`featureStandardizers, this`X, this`Xind
      ensures Valid()
      ensures Standardized(featureStandardizers, X, Xind, r)
        == StandardizeSpec(if ss.Some? then ss.value else old(featureStandardizers), old(X), old(Xind), scale)
    {
      if ss.Some? {
        featureStandardizers := ss.value;
      }
      if featureStandardizers == [] {
        return Err(ValueError(NoStandardizers));
      }
      if X.None? {
        return Err(AttributeError("values"));
      }
      var x := X.value;
      var xs, fitted := ApplyFeatureStandardizers(featureStandardizers, Rows(x), true, scale);
      featureStandardizers := fitted;
      if Xind.None? {
        return Err(AttributeError("values"));
      }
      var xi := Xind.value;
      var xis, reused := ApplyFeatureStandardizers(fitted, Rows(xi), false, scale);
      var nx := FromRows(x.index, x.columns, xs);
      if nx.Err? {
        return Err(nx.error);
      }
      SetFeatureParts(Some(nx.value), Xind);
      var ni := FromRows(xi.index, xi.columns, xis);
      if ni.Err? {
        return Err(ni.error);
      }
      SetFeatureParts(X, Some(ni.value));
      return Ok(());
    }

    /** One fold of `standardize_folds`, as `FoldSpec` says. */
    static method StandardizeFold(X: Matrix, y: Matrix, ss: seq<Standardizer>, f: Fold, scale: Scaling) returns (r: Result<FoldData>)
      ensures r == FoldSpec(X, y, ss, f, scale)
    {
      var xtrain := Pick(X, f.train);
      if xtrain.Err? {
        return Err(xtrain.error);
      }
      var xs, fitted := ApplyFeatureStandardizers(ss, xtrain.value, true, scale);
      var xtest := Pick(X, f.test);
      if xtest.Err? {
        return Err(xtest.error);
      }
      var xts, reused := ApplyFeatureStandardizers(fitted, xtest.value, false, scale);
      var ytrain :- Pick(y, f.train);
      var ytest :- Pick(y, f.test);
      var y0 :- FirstColumn(ytrain);
      var y1 :- FirstColumn(ytest);
      return Ok(FoldData(xs, xts, y0, y1, f.train, f.test));
    }

    /** The generator `standardize_folds`, consumed: every fold standardized in turn, stopping at the first that raises. */
    static method StandardizeFolds(xs: Matrix, ys: Matrix, chain: seq<Standardizer>, folds: seq<Fold>, scale: Scaling)
      returns (r: Result<seq<FoldData>>)
      ensures r == FoldsSpec(xs, ys, chain, folds, scale)
    {
      var made: seq<FoldData> := [];
      var i := 0;
      ghost var all := FoldsSpec(xs, ys, chain, folds, scale);
      AppendedNothing(xs, ys, chain, folds, scale);
      while i < |folds|
        invariant 0 <= i <= |folds|
        invariant Appended(made, FoldsSpec(xs, ys, chain, folds[i..], scale)) == all
      {
        var d := StandardizeFold(xs, ys, chain, folds[i], scale);
        FoldsSpecStep(xs, ys, chain, folds, i, scale);
        if d.Err? {
          return Err(d.error);
        }
        AppendedOne(made, d.value, FoldsSpec(xs, ys, chain, folds[i + 1..], scale));
        made := made + [d.value];
        i := i + 1;
      }
      AppendedAll(xs, ys, chain, folds, made, scale);
      return Ok(made);
    }

    /**
     * The eager part of `createFolds(n_folds)`: the fold count is stored and checked, and the
     * fold generator is built without being consumed, so no fold is standardized.
     */
    method SetUpFolds(n: Option<int>) returns (r: Result<()>)
      requires Valid()
      modifies this`nFolds
      ensures Valid()
      ensures (nFolds, r) == FoldSetup(n, old(nFolds))
    {
      nFolds := FoldCount(n, nFolds);
      if nFolds.None? || nFolds.value == 0 {
        return Err(ValueError(NoFolds));
      }
      if nFolds.value < 2 {
        return Err(ValueError(TooFewSplits));
      }
      return Ok(());
    }

    /** `createFolds(n_folds, feature_standardizers)` over the given folds, as `CreateFoldsSpec` says. */
    method CreateFolds(n: Option<int>, given: seq<Standardizer>, folds: seq<Fold>, scale: Scaling) returns (r: Result<seq<FoldData>>)
      requires Valid()
      modifies this`nFolds
      ensures Valid()
      ensures r.Ok? ==> |r.value| == |folds|
      ensures (nFolds, r) == CreateFoldsSpec(n, old(nFolds), given, featureStandardizers, X, y, folds, scale)
    {
      var setup := SetUpFolds(n);
      if setup.Err? {
        return Err(setup.error);
      }
      if X.None? || y.None? {
        return Err(AttributeError("values"));
      }
      r := StandardizeFolds(Rows(X.value), Rows(y.value), FoldChain(given, featureStandardizers), folds, scale);
    }

    /**
     * `save(save_split)`: the table is saved, each standardizer goes to its own numbered file,
     * the split parts that are set go to their own files, then the metadata, whose building
     * raises for a classification dataset without thresholds after everything else is written.
     */
    function Save(st: DatasetStore, saveSplit: bool): (r: (DatasetStore, Result<()>))
      reads this, table
      requires Valid()
      ensures table.storePath in r.0.files.frames && r.0.files.frames[table.storePath] == table.df
      ensures r.0.files.calculators == table.Save(st.files).calculators
      ensures saveSplit && StateAligned(Parts()) ==>
        forall before :: ReloadSplits(r.0.files.frames, table.storePrefix, before) == Parts()
      ensures !saveSplit ==> r.0.files == table.Save(st.files)
      ensures var ps := StandardizerPaths(table.storePrefix, |featureStandardizers|);
        forall i :: 0 <= i < |featureStandardizers| ==> ps[i] in r.0.standardizers && r.0.standardizers[ps[i]] == featureStandardizers[i]
      ensures r.1.Err? <==> task == Classification && th.None?
      ensures r.1.Err? ==> r.1 == Err(AttributeError("th")) && r.0.metas == st.metas
      ensures r.1.Ok? ==> r.0.metas == st.metas[MetaPath(table.storePrefix) := MetaSpec(targetProperty, task, nFolds, table.smilescol, th).value]
    {
      var files := table.Save(st.files);
      var paths := StandardizerPaths(table.storePrefix, |featureStandardizers|);
      StandardizerPathsDistinct(table.storePrefix, |featureStandardizers|);
      var stds := SaveStandardizers(st.standardizers, paths, featureStandardizers);
      SaveMeta(DatasetStore(SplitFiles(files, saveSplit), stds, st.metas), table.storePrefix)
    }

    /** The split parts that are set, each written to its own file when `save_split` is set. */
    function SplitFiles(files: Store, saveSplit: bool): (r: Store)
      reads this, table
      requires Valid()
      ensures r.dirs == files.dirs && r.calculators == files.calculators
      ensures table.storePath in files.frames ==> table.storePath in r.frames && r.frames[table.storePath] == files.frames[table.storePath]
      ensures saveSplit && StateAligned(Parts()) ==>
        forall before :: ReloadSplits(r.frames, table.storePrefix, before) == Parts()
      ensures !saveSplit ==> r == files
    {
      if !saveSplit then files
      else
        var prefix := table.storePrefix;
        SplitPathsDistinct(table.storeDir, table.name);
        var frames := SaveSplits(files.frames, prefix, X, Xind, y, yind);
        if StateAligned(Parts()) then
          assert forall before :: ReloadSplits(frames, prefix, before) == Parts() by {
            forall before { SaveReloadSplits(files.frames, prefix, Parts(), before); }
          }
          files.(frames := frames)
        else files.(frames := frames)
    }

    /** The metadata file of `save`, built as `MetaSpec` says. */
    function SaveMeta(saved: DatasetStore, prefix: string): (r: (DatasetStore, Result<()>))
      reads this, table
      ensures r.0.files == saved.files && r.0.standardizers == saved.standardizers
      ensures r.1.Err? <==> task == Classification && th.None?
      ensures r.1.Err? ==> r.1 == Err(AttributeError("th")) && r.0.metas == saved.metas
      ensures r.1.Ok? ==> r.0.metas == saved.metas[MetaPath(prefix) := MetaSpec(targetProperty, task, nFolds, table.smilescol, th).value]
    {
      var meta := MetaSpec(targetProperty, task, nFolds, table.smilescol, th);
      if meta.Err? then (saved, Err(meta.error))
      else (saved.(metas := saved.metas[MetaPath(prefix) := meta.value]), Ok(()))
    }

    /**
     * `reload(load_split)`: the table is reloaded, then, when asked, the split files are read
     * in turn until one is missing.
     */
    method Reload(st: Store, loadSplit: bool) returns (r: Result<()>)
      requires Valid() && StoreValid(st)
      modifies table`df, table`descriptorCalculator, this`X, this`Xind, this`y, this`yind
      ensures Valid()
      ensures r.Ok? <==> old(table.storePath) in st.frames
      ensures r.Err? ==> && r == Err(FileNotFound(table.storePath)) && table.df == old(table.df)
                         && table.descriptorCalculator == old(table.descriptorCalculator) && Parts() == old(Parts())
      ensures r.Ok? ==> (table.df, table.descriptorCalculator) == Reloaded(table.CurrentPaths(), st, old(table.descriptorCalculator))
      ensures r.Ok? ==> Parts() == if loadSplit then ReloadSplits(st.frames, table.storePrefix, old(Parts())) else old(Parts())
    {
      r := table.Reload(st);
      if r.Err? {
        return;
      }
      if loadSplit {
        SetParts(ReloadSplits(st.frames, table.storePrefix, Parts()));
      }
    }

    /** The first stage of `prepareDataset`: cleaning the molecules, then adding descriptors. */
    method CleanAndDescribe(standardize: bool, sanitize: bool, std: Cell -> Cell, san: Cell -> Cell,
                            calculator: Option<Calculator>, recalculate: bool, nCpus: int, cpuCount: int)
      returns (r: Result<()>, steps: seq<PrepStep>)
      requires Valid()
      requires calculator.Some? ==> Distinct(calculator.value.names)
      modifies table`df, table`descriptorCalculator
      ensures Valid()
      ensures r.Ok? ==> steps == Stage(standardize, StepClean, calculator.Some?, StepDescriptors)
      ensures r.Err? ==> steps != [] && steps <= Stage(standardize, StepClean, calculator.Some?, StepDescriptors)
    {
      steps := [];
      r := Ok(());
      if standardize {
        steps := [StepClean];
        r := CleanMolecules(standardize, sanitize, std, san);
        if r.Err? {
          return;
        }
      }
      if calculator.Some? {
        steps := steps + [StepDescriptors];
        r := table.AddDescriptors(calculator.value, recalculate, nCpus, DefaultChunkSize, cpuCount);
      }
    }

    /** The second stage: the data filters, then filling missing descriptor values. */
    method FilterAndFill(datafilters: Option<seq<RowFilter>>, fillValue: Option<real>) returns (r: Result<()>, steps: seq<PrepStep>)
      requires Valid()
      modifies table`df
      ensures Valid()
      ensures r.Ok? ==> steps == Stage(datafilters.Some?, StepDataFilters, fillValue.Some?, StepFill)
      ensures r.Err? ==> steps != [] && steps <= Stage(datafilters.Some?, StepDataFilters, fillValue.Some?, StepFill)
    {
      steps := [];
      r := Ok(());
      if datafilters.Some? {
        steps := [StepDataFilters];
        table.Filter(datafilters.value);
      }
      if fillValue.Some? {
        steps := steps + [StepFill];
        r := FillMissing(fillValue.value, []);
      }
    }

    /** The third stage: the split, then featurizing it when the table has descriptors. */
    method SplitAndFeaturize(split: Option<Splitter>) returns (r: Result<()>, steps: seq<PrepStep>)
      requires Valid()
      modifies this`X, this`Xind, this`y, this`yind
      ensures Valid()
      ensures r.Ok? ==> steps == Stage(split.Some?, StepSplit, HasDescriptors(table.df), StepFeaturize)
      ensures r.Err? ==> steps != [] && steps <= Stage(split.Some?, StepSplit, HasDescriptors(table.df), StepFeaturize)
    {
      steps := [];
      r := Ok(());
      if split.Some? {
        steps := [StepSplit];
        r := Split(split.value);
        if r.Err? {
          return;
        }
      }
      if HasDescriptors(table.df) {
        steps := steps + [StepFeaturize];
        r := FeaturizeSplits();
      }
    }

    /** The fourth stage: the feature filters, then the feature standardizers. */
    method SelectAndStandardize(featureFilters: Option<seq<FeatureFilter>>, keep: (Calculator, seq<Name>) -> Calculator,
                                standardizers: Option<seq<Standardizer>>, scale: Scaling) returns (r: Result<()>, steps: seq<PrepStep>)
      requires Valid()
      modifies this`featureFilters, this`X, this`Xind, this`features, table`descriptorCalculator, this`featureStandardizers
      ensures Valid()
      ensures r.Ok? ==> steps == Stage(featureFilters.Some?, StepFeatureFilters, standardizers.Some?, StepStandardize)
      ensures r.Err? ==> steps != [] && steps <= Stage(featureFilters.Some?, StepFeatureFilters, standardizers.Some?, StepStandardize)
    {
      steps := [];
      r := Ok(());
      if featureFilters.Some? {
        steps := [StepFeatureFilters];
        r := FilterFeatures(featureFilters, keep);
        if r.Err? {
          return;
        }
      }
      if standardizers.Some? {
        steps := steps + [StepStandardize];
        r := StandardizeFeatures(standardizers, scale);
      }
    }

    /**
     * Cleaning, descriptors, data filters and filling, stopping at the first that raises. The
     * ghost flags say which later steps are asked for; on an error the steps started are a
     * prefix of the whole plan.
     */
    method PrepareTable(standardize: bool, sanitize: bool, std: Cell -> Cell, san: Cell -> Cell,
                        calculator: Option<Calculator>, recalculate: bool, nCpus: int, cpuCount: int,
                        datafilters: Option<seq<RowFilter>>, fillValue: Option<real>,
                        ghost split: bool, ghost featureFilters: bool, ghost standardizers: bool)
      returns (r: Result<()>, steps: seq<PrepStep>)
      requires Valid()
      requires calculator.Some? ==> Distinct(calculator.value.names)
      modifies table`df, table`descriptorCalculator
      ensures Valid()
      ensures r.Ok? ==> steps == TableSteps(standardize, calculator.Some?, datafilters.Some?, fillValue.Some?)
      ensures r.Err? ==> var plan := PlannedSteps(PrepFlags(standardize, calculator.Some?, datafilters.Some?, fillValue.Some?,
                                                            split, HasDescriptors(table.df), featureFilters, standardizers));
        steps != [] && steps <= plan && steps != plan
    {
      var s1, s2: seq<PrepStep>;
      r, s1 := CleanAndDescribe(standardize, sanitize, std, san, calculator, recalculate, nCpus, cpuCount);
      if r.Err? {
        FirstStageStops(PrepFlags(standardize, calculator.Some?, datafilters.Some?, fillValue.Some?,
                                  split, HasDescriptors(table.df), featureFilters, standardizers), s1);
        return r, s1;
      }
      r, s2 := FilterAndFill(datafilters, fillValue);
      steps := s1 + s2;
      SecondStageSteps(PrepFlags(standardize, calculator.Some?, datafilters.Some?, fillValue.Some?,
                                 split, HasDescriptors(table.df), featureFilters, standardizers), s1, s2, r.Ok?);
    }

    /** Split, featurizing, feature filters and standardizers, stopping at the first that raises. */
    method PrepareSplit(split: Option<Splitter>, featureFilters: Option<seq<FeatureFilter>>,
                        keep: (Calculator, seq<Name>) -> Calculator, standardizers: Option<seq<Standardizer>>, scale: Scaling)
      returns (r: Result<()>, steps: seq<PrepStep>)
      requires Valid()
      modifies this`X, this`Xind, this`y, this`yind
      modifies this`featureFilters, this`features, table`descriptorCalculator, this`featureStandardizers
      ensures Valid()
      ensures r.Ok? ==> steps == SplitSteps(split.Some?, HasDescriptors(table.df), featureFilters.Some?, standardizers.Some?)
      ensures r.Err? ==> steps != [] && steps <= SplitSteps(split.Some?, HasDescriptors(table.df), featureFilters.Some?, standardizers.Some?)
    {
      var s3, s4: seq<PrepStep>;
      r, s3 := SplitAndFeaturize(split);
      ghost var q3 := Stage(split.Some?, StepSplit, HasDescriptors(table.df), StepFeaturize);
      ghost var q4 := Stage(featureFilters.Some?, StepFeatureFilters, standardizers.Some?, StepStandardize);
      ghost var df := table.df;
      if r.Err? {
        PrefixOfJoin([], s3, q3, q4);
        return r, s3;
      }
      r, s4 := SelectAndStandardize(featureFilters, keep, standardizers, scale);
      assert table.df == df;
      steps := s3 + s4;
      if r.Err? {
        PrefixOfJoin(s3, s4, q4, []);
      }
    }

    /**
     * The split steps, then `createFolds(n_folds)` when none of them raised; `steps` lists the
     * steps started, the failing one last. The fold generator `createFolds` returns is discarded
     * unconsumed, so only its eager part, `SetUpFolds`, runs.
     */
    method PrepareRest(split: Option<Splitter>, featureFilters: Option<seq<FeatureFilter>>,
                       keep: (Calculator, seq<Name>) -> Calculator, standardizers: Option<seq<Standardizer>>, scale: Scaling,
                       n: Option<int>)
      returns (r: Result<()>, steps: seq<PrepStep>)
      requires Valid()
      modifies this`X, this`Xind, this`y, this`yind
      modifies this`featureFilters, this`features, table`descriptorCalculator, this`featureStandardizers, this`nFolds
      ensures Valid()
      ensures var rest := SplitSteps(split.Some?, HasDescriptors(table.df), featureFilters.Some?, standardizers.Some?) + [StepFolds];
        && (r.Ok? ==> steps == rest)
        && (r.Err? ==> steps != [] && steps <= rest)
        && (steps == rest ==> (nFolds, r) == FoldSetup(n, old(nFolds)))
    {
      var u: seq<PrepStep>;
      r, u := PrepareSplit(split, featureFilters, keep, standardizers, scale);
      if r.Err? {
        PrefixOfJoin([], u, SplitSteps(split.Some?, HasDescriptors(table.df), featureFilters.Some?, standardizers.Some?), [StepFolds]);
        return r, u;
      }
      steps := u + [StepFolds];
      r := SetUpFolds(n);
    }

    /**
     * `prepareDataset(...)`: the steps asked for, in the order `PlannedSteps` fixes, stopping
     * at the first that raises; `steps` lists those started, the failing one last. Whether the
     * split is featurized depends on the descriptors present after the table steps, which no
     * later step changes.
     */
    method PrepareDataset(standardize: bool, sanitize: bool, std: Cell -> Cell, san: Cell -> Cell,
                          datafilters: Option<seq<RowFilter>>, split: Option<Splitter>, calculator: Option<Calculator>,
                          featureFilters: Option<seq<FeatureFilter>>, keep: (Calculator, seq<Name>) -> Calculator,
                          standardizers: Option<seq<Standardizer>>, scale: Scaling, n: Option<int>,
                          recalculate: bool, fillValue: Option<real>, nCpus: int, cpuCount: int)
      returns (r: Result<()>, steps: seq<PrepStep>)
      requires Valid()
      requires calculator.Some? ==> Distinct(calculator.value.names)
      modifies table`df, table`descriptorCalculator, this`X, this`Xind, this`y, this`yind
      modifies this`featureFilters, this`features, this`featureStandardizers, this`nFolds
      ensures Valid()
      ensures var plan := PlannedSteps(PrepFlags(standardize, calculator.Some?, datafilters.Some?, fillValue.Some?, split.Some?,
                                                 HasDescriptors(table.df), featureFilters.Some?, standardizers.Some?));
        && (r.Ok? ==> steps == plan)
        && (r.Err? ==> steps != [] && steps <= plan)
        && (steps == plan ==> (nFolds, r) == FoldSetup(n, old(nFolds)))
    {
      var res: Result<()>;
      var done: seq<PrepStep>;
      res, done := PrepareTable(standardize, sanitize, std, san, calculator, recalculate, nCpus, cpuCount, datafilters, fillValue,
                                split.Some?, featureFilters.Some?, standardizers.Some?);
      if res.Err? {
        return Err(res.error), done;
      }
      var rest: seq<PrepStep>;
      r, rest := PrepareRest(split, featureFilters, keep, standardizers, scale, n);
      steps := done + rest;
      ghost var fl := PrepFlags(standardize, calculator.Some?, datafilters.Some?, fillValue.Some?, split.Some?,
                                HasDescriptors(table.df), featureFilters.Some?, standardizers.Some?);
      SplitStepsJoin(fl, done, rest, r.Ok?);
    }
  }
}
