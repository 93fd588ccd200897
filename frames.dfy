/**
 * The index-keyed table that every component of the data pipeline reads and updates, modelled
 * on the pandas `DataFrame` operations the pipeline uses: a sequence of unique row keys (the
 * index), an ordered sequence of unique column names, and for each column a map from row key
 * to cell. Every join between a computed block and a table goes through the index, never
 * through row positions.
 */
module Frames {
  import opened Errors
  import opened Seqs

  /** The key `.loc` reports when a row label is missing. */
  const LabelNotFound := "index label not found"

  type Key = int
  type Name = string

  /** A table cell: a missing value (`NaN`/`None`), a number, a string, or a parsed molecule. */
  datatype Cell = Missing | Num(x: real) | Text(s: string) | Mol(smiles: string)

  datatype Frame = Frame(index: seq<Key>, columns: seq<Name>, cells: map<Name, map<Key, Cell>>)

  /** Unique row keys, unique column names, and exactly one cell per (column, row key). */
  predicate WellFormed(f: Frame) {
    && Distinct(f.index)
    && Distinct(f.columns)
    && (forall c :: c in f.columns ==> c in f.cells)
    && (forall c :: c in f.cells ==> c in f.columns)
    && (forall c, i :: c in f.cells && 0 <= i < |f.index| ==> f.index[i] in f.cells[c])
    && (forall c :: c in f.cells ==> (forall k :: k in f.cells[c] ==> k in f.index))
  }

  /** The cells of one column in index order (`df[c].values`). */
  function Column(f: Frame, c: Name): seq<Cell>
    requires WellFormed(f) && c in f.columns
  {
    seq(|f.index|, i requires 0 <= i < |f.index| => f.cells[c][f.index[i]])
  }

  /** The table with no rows and no columns. */
  function Empty(): (r: Frame)
    ensures WellFormed(r) && r.index == [] && r.columns == []
  {
    Frame([], [], map[])
  }

  /** A table over `index` with no columns (`pd.DataFrame(index=index)`). */
  function IndexOnly(index: seq<Key>): (r: Frame)
    requires Distinct(index)
    ensures WellFormed(r) && r.index == index && r.columns == []
  {
    Frame(index, [], map[])
  }

  /** The column names that satisfy `p`, in column order (`[c for c in df.columns if p(c)]`). */
  function ColumnsWhere(f: Frame, p: Name -> bool): (r: seq<Name>)
    ensures forall c :: c in r <==> c in f.columns && p(c)
    ensures Subsequence(r, f.columns)
    ensures Distinct(f.columns) ==> Distinct(r)
  {
    if Distinct(f.columns) then (FilterDistinct(f.columns, p); Filter(f.columns, p))
    else Filter(f.columns, p)
  }

  /** `df[names]` for names that are all columns of `f`. */
  function Select(f: Frame, names: seq<Name>): (r: Frame)
    requires WellFormed(f) && Distinct(names)
    requires forall c :: c in names ==> c in f.columns
    ensures WellFormed(r) && r.index == f.index && r.columns == names
    ensures forall c :: c in names ==> r.cells[c] == f.cells[c]
  {
    Frame(f.index, names, map c | c in names :: f.cells[c])
  }

  /** `df[names]`, raising `KeyError` for the first name that is not a column. */
  function SelectChecked(f: Frame, names: seq<Name>): (r: Result<Frame>)
    requires WellFormed(f) && Distinct(names)
    ensures r.Ok? <==> forall c :: c in names ==> c in f.columns
    ensures r.Ok? ==> r.value == Select(f, names)
    ensures r.Err? ==> r.error.KeyError? && r.error.key in names && r.error.key !in f.columns
  {
    match FirstNotIn(names, f.columns)
    case None => Ok(Select(f, names))
    case Some(c) => Err(KeyError(c))
  }

  /** `df.drop(names, axis=1)` for names that are columns of `f`; the other columns keep their order. */
  function DropColumns(f: Frame, names: seq<Name>): (r: Frame)
    requires WellFormed(f)
    ensures WellFormed(r) && r.index == f.index
    ensures r.columns == Filter(f.columns, c => c !in names)
    ensures forall c :: c in r.columns ==> r.cells[c] == f.cells[c]
  {
    FilterDistinct(f.columns, c => c !in names);
    Frame(f.index, Filter(f.columns, c => c !in names), map c | c in f.cells && c !in names :: f.cells[c])
  }

  /**
   * `df[name] = series` with a series keyed by row key: rows of `f` absent from the series get
   * a missing value, an existing column keeps its position, a new one is appended.
   */
  function SetColumn(f: Frame, name: Name, vals: map<Key, Cell>): (r: Frame)
    requires WellFormed(f)
    ensures WellFormed(r) && r.index == f.index
    ensures r.columns == if name in f.columns then f.columns else f.columns + [name]
    ensures forall k :: k in f.index ==> r.cells[name][k] == if k in vals then vals[k] else Missing
    ensures forall c :: c in f.columns && c != name ==> r.cells[c] == f.cells[c]
  {
    var cols := if name in f.columns then f.columns else f.columns + [name];
    Frame(f.index, cols, f.cells[name := map k | k in f.index :: if k in vals then vals[k] else Missing])
  }

  /** The rows whose key satisfies `keep`, in index order, with every column. */
  function FilterRows(f: Frame, keep: Key -> bool): (r: Frame)
    requires WellFormed(f)
    ensures WellFormed(r) && r.columns == f.columns
    ensures r.index == Filter(f.index, keep)
    ensures forall c, k :: c in r.cells && k in r.cells[c] ==> r.cells[c][k] == f.cells[c][k]
    ensures SubFrame(r, f)
  {
    FilterDistinct(f.index, keep);
    var idx := Filter(f.index, keep);
    Frame(idx, f.columns, map c | c in f.cells :: map k | k in f.cells[c] && keep(k) :: f.cells[c][k])
  }

  /** Column `c` of `g` on the row keys `index`: a key `g` lacks gets a missing value. */
  function AlignedColumn(index: seq<Key>, g: Frame, c: Name): (m: map<Key, Cell>)
    requires WellFormed(g) && c in g.columns
    ensures forall k :: k in m <==> k in index
    ensures forall k :: k in index ==> m[k] == if k in g.index then g.cells[c][k] else Missing
  {
    map k | k in index :: if k in g.index then g.cells[c][k] else Missing
  }

  /**
   * Appends the columns `cols` of `g` to `f`, aligned on the row keys of `f`: a row of `f`
   * that `g` lacks gets a missing value.
   */
  function AddColumns(f: Frame, g: Frame, cols: seq<Name>): (r: Frame)
    requires WellFormed(f) && WellFormed(g) && Distinct(cols)
    requires forall c :: c in cols ==> c in g.columns && c !in f.columns
    ensures WellFormed(r) && r.index == f.index && r.columns == f.columns + cols
    ensures forall c :: c in f.columns ==> r.cells[c] == f.cells[c]
    ensures forall c, k :: c in cols && k in f.index ==>
      r.cells[c][k] == if k in g.index then g.cells[c][k] else Missing
  {
    DistinctAppend(f.columns, cols);
    var cs := f.columns + cols;
    var r := Frame(f.index, cs, map c | c in cs :: if c in cols then AlignedColumn(f.index, g, c) else f.cells[c]);
    assert forall c :: c in r.cells ==> forall k :: k in r.cells[c] ==> k in f.index;
    r
  }

  /**
   * `f.join(g, how='left')`: keeps the rows of `f` in order and appends the columns of `g`,
   * missing where `g` has no row with that key; overlapping column names raise `ValueError`.
   */
  function LeftJoin(f: Frame, g: Frame): (r: Result<Frame>)
    requires WellFormed(f) && WellFormed(g)
    ensures r.Ok? <==> forall c :: c in g.columns ==> c !in f.columns
    ensures r.Ok? ==> WellFormed(r.value) && r.value.index == f.index && r.value.columns == f.columns + g.columns
    ensures r.Ok? ==> forall c :: c in f.columns ==> r.value.cells[c] == f.cells[c]
    ensures r.Ok? ==> forall c, k :: c in g.columns && k in f.index ==>
      r.value.cells[c][k] == if k in g.index then g.cells[c][k] else Missing
    ensures r.Err? ==> r.error.ValueError?
  {
    if exists c :: c in g.columns && c in f.columns then Err(ValueError(OverlapNoSuffix))
    else Ok(AddColumns(f, g, g.columns))
  }

  /** The keys of `index` that are also in `other`, in the order of `index`. */
  function KeysIn(index: seq<Key>, other: seq<Key>): (r: seq<Key>)
    ensures forall k :: k in r <==> k in index && k in other
    ensures Distinct(index) ==> Distinct(r)
    ensures Subsequence(r, index)
  {
    if Distinct(index) then FilterDistinct(index, k => k in other); Filter(index, k => k in other)
    else Filter(index, k => k in other)
  }

  /** The names one side of `merge` keeps: `suffix` is appended to each name the other side also has. */
  function Suffixed(names: seq<Name>, other: seq<Name>, suffix: string): (r: seq<Name>)
    ensures |r| == |names|
    ensures forall i :: 0 <= i < |names| ==> r[i] == if names[i] in other then names[i] + suffix else names[i]
  {
    seq(|names|, i requires 0 <= i < |names| => if names[i] in other then names[i] + suffix else names[i])
  }

  /** The columns of `f.merge(g)`: those of `f`, then those of `g`, overlapping names suffixed `_x` and `_y`. */
  function MergedColumns(f: Frame, g: Frame): (r: seq<Name>)
    ensures |r| == |f.columns| + |g.columns|
  {
    Suffixed(f.columns, g.columns, "_x") + Suffixed(g.columns, f.columns, "_y")
  }

  /** Column `i` of the merged table on the row keys `idx`: from `f` for the first columns, from `g` for the rest. */
  function MergedColumn(f: Frame, g: Frame, idx: seq<Key>, i: nat): (m: map<Key, Cell>)
    requires WellFormed(f) && WellFormed(g) && i < |f.columns| + |g.columns|
    requires forall k :: k in idx ==> k in f.index && k in g.index
    ensures forall k :: k in m <==> k in idx
    ensures i < |f.columns| ==> forall k :: k in idx ==> m[k] == f.cells[f.columns[i]][k]
    ensures i >= |f.columns| ==> forall k :: k in idx ==> m[k] == g.cells[g.columns[i - |f.columns|]][k]
  {
    if i < |f.columns| then map k | k in idx :: f.cells[f.columns[i]][k]
    else map k | k in idx :: g.cells[g.columns[i - |f.columns|]][k]
  }

  /** The cells of the merged table: column `cols[i]` holds `MergedColumn(f, g, idx, i)`. */
  function MergedCells(f: Frame, g: Frame, idx: seq<Key>, cols: seq<Name>): (m: map<Name, map<Key, Cell>>)
    requires WellFormed(f) && WellFormed(g) && Distinct(cols) && |cols| == |f.columns| + |g.columns|
    requires forall k :: k in idx ==> k in f.index && k in g.index
    ensures forall c :: c in m <==> c in cols
    ensures forall i :: 0 <= i < |cols| ==> m[cols[i]] == MergedColumn(f, g, idx, i)
  {
    ZipMap(cols, seq(|cols|, i requires 0 <= i < |cols| => MergedColumn(f, g, idx, i)))
  }

  /**
   * `f.merge(g, left_index=True, right_index=True)` (inner join on the index): the rows of `f`
   * whose key is also a row of `g`, in the order of `f`, with the columns of `f` and then of `g`.
   * A name both sides have is suffixed `_x` on the left and `_y` on the right; merged names
   * that clash raise `ValueError`, since a frame here holds each column name once (pandas
   * checks each side separately and can return a repeated name).
   */
  function InnerMerge(f: Frame, g: Frame): (r: Result<Frame>)
    requires WellFormed(f) && WellFormed(g)
    ensures r.Ok? <==> Distinct(MergedColumns(f, g))
    ensures r.Err? ==> r.error == ValueError(DuplicateSuffixes)
    ensures r.Ok? ==> WellFormed(r.value) && r.value.columns == MergedColumns(f, g)
    ensures r.Ok? ==> r.value.index == KeysIn(f.index, g.index)
    ensures r.Ok? ==> forall i, k :: 0 <= i < |f.columns| && k in r.value.index ==>
      r.value.cells[r.value.columns[i]][k] == f.cells[f.columns[i]][k]
    ensures r.Ok? ==> forall j, k :: 0 <= j < |g.columns| && k in r.value.index ==>
      r.value.cells[r.value.columns[|f.columns| + j]][k] == g.cells[g.columns[j]][k]
  {
    if !Distinct(MergedColumns(f, g)) then Err(ValueError(DuplicateSuffixes))
    else
      MergedWellFormed(f, g, MergedColumns(f, g));
      MergedCellsFrom(f, g, KeysIn(f.index, g.index), MergedColumns(f, g),
                      MergedCells(f, g, KeysIn(f.index, g.index), MergedColumns(f, g)));
      Ok(MergedFrame(f, g, MergedColumns(f, g)))
  }

  /** The table `InnerMerge` builds, under the distinct merged names `cols`. */
  function MergedFrame(f: Frame, g: Frame, cols: seq<Name>): Frame
    requires WellFormed(f) && WellFormed(g) && Distinct(cols) && |cols| == |f.columns| + |g.columns|
  {
    var idx := KeysIn(f.index, g.index);
    Frame(idx, cols, MergedCells(f, g, idx, cols))
  }

  lemma MergedWellFormed(f: Frame, g: Frame, cols: seq<Name>)
    requires WellFormed(f) && WellFormed(g) && Distinct(cols) && |cols| == |f.columns| + |g.columns|
    ensures WellFormed(MergedFrame(f, g, cols))
  {
    MergedCellKeys(f, g, KeysIn(f.index, g.index), cols);
  }

  /** Every merged column has a cell for exactly the merged row keys. */
  lemma MergedCellKeys(f: Frame, g: Frame, idx: seq<Key>, cols: seq<Name>)
    requires WellFormed(f) && WellFormed(g) && Distinct(cols) && |cols| == |f.columns| + |g.columns|
    requires forall k :: k in idx ==> k in f.index && k in g.index
    ensures forall c :: c in MergedCells(f, g, idx, cols) ==> forall k :: k in MergedCells(f, g, idx, cols)[c] <==> k in idx
  {
    var cells := MergedCells(f, g, idx, cols);
    forall c | c in cells ensures forall k :: k in cells[c] <==> k in idx {
      var i :| 0 <= i < |cols| && cols[i] == c;
      assert cells[c] == MergedColumn(f, g, idx, i);
    }
  }

  /** The first merged columns hold the cells of `f`, the rest those of `g`, on the merged row keys. */
  lemma MergedCellsFrom(f: Frame, g: Frame, idx: seq<Key>, cols: seq<Name>, m: map<Name, map<Key, Cell>>)
    requires WellFormed(f) && WellFormed(g) && |cols| == |f.columns| + |g.columns|
    requires forall k :: k in idx ==> k in f.index && k in g.index
    requires forall i :: 0 <= i < |cols| ==> cols[i] in m && m[cols[i]] == MergedColumn(f, g, idx, i)
    ensures forall i, k :: 0 <= i < |f.columns| && k in idx ==>
      k in m[cols[i]] && m[cols[i]][k] == f.cells[f.columns[i]][k]
    ensures forall j, k :: 0 <= j < |g.columns| && k in idx ==>
      k in m[cols[|f.columns| + j]] && m[cols[|f.columns| + j]][k] == g.cells[g.columns[j]][k]
  {
    forall j, k | 0 <= j < |g.columns| && k in idx
      ensures k in m[cols[|f.columns| + j]] && m[cols[|f.columns| + j]][k] == g.cells[g.columns[j]][k]
    {
      var i := |f.columns| + j;
      var col := MergedColumn(f, g, idx, i);
      assert i >= |f.columns| && g.columns[i - |f.columns|] == g.columns[j];
      assert col[k] == g.cells[g.columns[j]][k];
      assert m[cols[i]] == col;
    }
  }

  /** Without overlapping names nothing is suffixed, and the merge keeps every column under its own name. */
  lemma MergeDisjoint(f: Frame, g: Frame)
    requires WellFormed(f) && WellFormed(g)
    requires forall c :: c in g.columns ==> c !in f.columns
    ensures InnerMerge(f, g).Ok? && InnerMerge(f, g).value.columns == f.columns + g.columns
  {
    assert MergedColumns(f, g) == f.columns + g.columns;
    DistinctAppend(f.columns, g.columns);
  }

  /** `df.loc[keys, :]`: the rows with the given keys, in the order given; an absent key raises `KeyError`. */
  function Loc(f: Frame, keys: seq<Key>): (r: Result<Frame>)
    requires WellFormed(f) && Distinct(keys)
    ensures r.Ok? <==> forall k :: k in keys ==> k in f.index
    ensures r.Ok? ==> WellFormed(r.value) && r.value.index == keys && r.value.columns == f.columns
    ensures r.Ok? ==> forall c, k :: c in f.columns && k in keys ==> r.value.cells[c][k] == f.cells[c][k]
    ensures r.Err? ==> r.error.KeyError?
  {
    if forall k :: k in keys ==> k in f.index then
      Ok(Frame(keys, f.columns, map c | c in f.cells :: map k | k in keys :: f.cells[c][k]))
    else Err(KeyError(LabelNotFound))
  }

  /** `df[cols].values` for names that are columns of `f` (a name may repeat): one row per key, in index order. */
  function RowsOn(f: Frame, cols: seq<Name>): (rows: seq<seq<Cell>>)
    requires WellFormed(f) && forall c :: c in cols ==> c in f.columns
    ensures |rows| == |f.index|
    ensures forall i :: 0 <= i < |rows| ==> |rows[i]| == |cols|
    ensures forall i, j :: 0 <= i < |rows| && 0 <= j < |cols| ==> rows[i][j] == f.cells[cols[j]][f.index[i]]
  {
    seq(|f.index|, i requires 0 <= i < |f.index| =>
      seq(|cols|, j requires 0 <= j < |cols| => f.cells[cols[j]][f.index[i]]))
  }

  /** `df.values`: the rows in index order, each holding its cells in column order. */
  function Rows(f: Frame): seq<seq<Cell>>
    requires WellFormed(f)
  {
    RowsOn(f, f.columns)
  }

  /** `df[cols].values`, raising `KeyError` for the first name that is not a column. */
  function Project(f: Frame, cols: seq<Name>): (r: Result<seq<seq<Cell>>>)
    requires WellFormed(f)
    ensures r.Ok? <==> forall c :: c in cols ==> c in f.columns
    ensures r.Ok? ==> r.value == RowsOn(f, cols)
    ensures r.Err? ==> r.error.KeyError? && r.error.key in cols && r.error.key !in f.columns
  {
    match FirstNotIn(cols, f.columns)
    case None => Ok(RowsOn(f, cols))
    case Some(c) => Err(KeyError(c))
  }

  /** An element-wise transformation of every cell (`df.applymap(t)`); rows and columns are kept. */
  function MapCells(f: Frame, t: Cell -> Cell): (r: Frame)
    requires WellFormed(f)
    ensures WellFormed(r) && r.index == f.index && r.columns == f.columns
    ensures forall c, k :: c in f.columns && k in f.index ==> r.cells[c][k] == t(f.cells[c][k])
  {
    Frame(f.index, f.columns, map c | c in f.cells :: map k | k in f.cells[c] :: t(f.cells[c][k]))
  }

  predicate Rectangular(rows: seq<seq<Cell>>, width: nat) {
    forall i :: 0 <= i < |rows| ==> |rows[i]| == width
  }

  /**
   * `pd.DataFrame(rows, index=index, columns=columns)`: a shape that does not match the index
   * and the columns raises `ValueError`.
   */
  function FromRows(index: seq<Key>, columns: seq<Name>, rows: seq<seq<Cell>>): (r: Result<Frame>)
    requires Distinct(index) && Distinct(columns)
    ensures r.Ok? <==> |rows| == |index| && Rectangular(rows, |columns|)
    ensures r.Ok? ==> WellFormed(r.value) && r.value.index == index && r.value.columns == columns
    ensures r.Ok? ==> Rows(r.value) == rows
  {
    if |rows| == |index| && Rectangular(rows, |columns|) then
      var f := Frame(index, columns, ZipMap(columns, seq(|columns|, j requires 0 <= j < |columns| =>
        ZipMap(index, seq(|index|, i requires 0 <= i < |index| => rows[i][j])))));
      assert WellFormed(f);
      forall i | 0 <= i < |rows| ensures Rows(f)[i] == rows[i] {
        assert Rows(f)[i] == seq(|columns|, j requires 0 <= j < |columns| => rows[i][j]);
      }
      Ok(f)
    else Err(ValueError(ShapeMismatch))
  }

  /** The frame built from rows holds, at row key `index[i]` of column `columns[j]`, the value `rows[i][j]`. */
  lemma FromRowsCells(index: seq<Key>, columns: seq<Name>, rows: seq<seq<Cell>>)
    requires Distinct(index) && Distinct(columns) && FromRows(index, columns, rows).Ok?
    ensures forall i, j :: 0 <= i < |index| && 0 <= j < |columns| ==>
      FromRows(index, columns, rows).value.cells[columns[j]][index[i]] == rows[i][j]
  {
    var b := FromRows(index, columns, rows).value;
    forall i, j | 0 <= i < |index| && 0 <= j < |columns|
      ensures b.cells[columns[j]][index[i]] == rows[i][j]
    {
      assert Rows(b)[i][j] == rows[i][j];
    }
  }

  /** Keeping the rows that all satisfy the condition keeps the whole table. */
  lemma FilterRowsAll(f: Frame, keep: Key -> bool)
    requires WellFormed(f) && forall k :: k in f.index ==> keep(k)
    ensures FilterRows(f, keep) == f
  {
    assert forall k :: k in f.index ==> keep(k);
    FilterAll(f.index, keep);
    forall c | c in f.cells ensures (map k | k in f.cells[c] && keep(k) :: f.cells[c][k]) == f.cells[c] {
      KeepAllKeys(f.cells[c], keep);
    }
  }

  lemma KeepAllKeys(m: map<Key, Cell>, keep: Key -> bool)
    requires forall k :: k in m ==> keep(k)
    ensures (map k | k in m && keep(k) :: m[k]) == m
  {
    var r := map k | k in m && keep(k) :: m[k];
    forall k | k in m ensures k in r && r[k] == m[k] { assert keep(k); }
    assert r.Keys == m.Keys;
  }

  /** `g` keeps some rows of `f`, in order, with the same columns and the same cells. */
  ghost predicate SubFrame(g: Frame, f: Frame) {
    && Subsequence(g.index, f.index)
    && g.columns == f.columns
    && forall c, k :: c in g.cells && k in g.cells[c] ==> c in f.cells && k in f.cells[c] && g.cells[c][k] == f.cells[c][k]
  }

  lemma SubFrameRefl(f: Frame)
    ensures SubFrame(f, f)
  {
    SubsequenceRefl(f.index);
  }

  /** Keeping some rows of a table that keeps some rows of `f` keeps some rows of `f`. */
  lemma SubFrameTransitive(a: Frame, b: Frame, c: Frame)
    requires SubFrame(a, b) && SubFrame(b, c)
    ensures SubFrame(a, c)
  {
    SubsequenceTransitive(a.index, b.index, c.index);
  }
}
