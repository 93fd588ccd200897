/**
 * `MoleculeTable`: a named table of molecules kept in a store directory. Column roles are
 * found by name prefix (`Descriptor_`, `Scaffold_`, `ScaffoldGroup_`); descriptors and
 * scaffolds are computed row by row, possibly chunk by chunk, and joined back on the index.
 */
module MoleculeTables {
  import opened Errors
  import opened Strings
  import opened Seqs
  import opened Frames
  import opened ParallelApply

  const DescriptorPrefix: string := "Descriptor_"
  const ScaffoldPrefix: string := "Scaffold_"
  const ScaffoldGroupPrefix: string := "ScaffoldGroup_"
  const MolSuffix: string := "_RDMol"
  /** The molecule column added when the table is created with `add_rdkit`. */
  const MolColumn: Name := "RDMol"
  const OtherGroup: Cell := Text("Other")

  /**
   * A descriptor calculator: the names of the columns of the block it computes and, for the
   * SMILES cell of one molecule, that molecule's row of the block.
   */
  datatype Calculator = Calculator(names: seq<Name>, compute: Cell -> seq<Cell>)

  /** A scaffold kind: its name (`str(scaffold)`) and the scaffold SMILES it derives from a SMILES cell. */
  datatype Scaffold = Scaffold(kind: string, derive: Cell -> Cell)

  /**
   * The file system as seen by a table: the directories that exist, the pickled frames by
   * path and the saved descriptor calculators by path.
   */
  datatype Store = Store(dirs: set<string>, frames: map<string, Frame>, calculators: map<string, Calculator>)

  ghost predicate StoreValid(st: Store) {
    forall p :: p in st.frames ==> WellFormed(st.frames[p])
  }

  /** The store directory and the three paths derived from it and the table name. */
  datatype Paths = Paths(storeDir: string, storePrefix: string, calculatorPath: string, storePath: string)

  function StorePaths(storeDir: string, name: string): Paths {
    var dir := RStrip(storeDir, '/');
    var prefix := dir + "/" + name;
    Paths(dir, prefix, prefix + "_feature_calculators.json", prefix + "_df.pkl")
  }

  /**
   * Every path lies under the store directory, which has no trailing slash (unless empty), and
   * the same paths come out when the table is reopened with its own store directory.
   */
  lemma StorePathsShape(storeDir: string, name: string)
    ensures var p := StorePaths(storeDir, name);
      && (p.storeDir == [] || p.storeDir[|p.storeDir| - 1] != '/')
      && StartsWith(p.storePath, p.storeDir + "/" + name)
      && EndsWith(p.storePath, "_df.pkl")
      && EndsWith(p.calculatorPath, "_feature_calculators.json")
      && StorePaths(p.storeDir, name) == p
  {
    var p := StorePaths(storeDir, name);
    RStripIdempotent(storeDir, '/');
    assert p.storePath == (p.storeDir + "/" + name) + "_df.pkl";
  }

  /** `_isInStore(name)`: the frame file exists and its path ends in `_<name>.pkl`. */
  predicate IsInStore(p: Paths, st: Store, name: string) {
    p.storePath in st.frames && EndsWith(p.storePath, "_" + name + ".pkl")
  }

  /** The suffix test always passes for `'df'`, so `_isInStore('df')` is exactly "the frame file exists". */
  lemma IsInStoreDf(storeDir: string, name: string, st: Store)
    ensures IsInStore(StorePaths(storeDir, name), st, "df") <==> StorePaths(storeDir, name).storePath in st.frames
  {
    StorePathsShape(storeDir, name);
  }

  /**
   * `MoleculeTable.fromFile(filename)`: the store directory is the directory part and the name
   * is the base name up to its first dot.
   */
  function FromFileArgs(filename: string): (string, string) {
    (Dirname(filename), BeforeFirst(Basename(filename), '.'))
  }

  /**
   * Given the path under which a table stores its frame, `fromFile` keeps the `_df` suffix in the
   * name, so it looks for `<dir>/<name>_df_df.pkl`.
   */
  lemma FromFileOfStorePath(dir: string, name: string)
    requires dir != [] && dir[|dir| - 1] != '/'
    requires NoChar(name, '/') && NoChar(name, '.')
    ensures FromFileArgs(StorePaths(dir, name).storePath) == (dir, name + "_df")
    ensures StorePaths(dir, name + "_df").storePath == dir + "/" + name + "_df_df.pkl"
  {
    var stem := name + "_df";
    var file := stem + ".pkl";
    StemNoDot(name);
    FileNoSlash(name);
    RStripNoTrailing(dir, '/');
    assert StorePaths(dir, name).storePath == dir + "/" + file;
    SplitPath(dir, file);
    assert file == stem + ['.'] + "pkl";
    BeforeFirstOf(stem, "pkl", '.');
    DoubleSuffix(dir, name);
  }

  /** Appending `_df` adds no dot. */
  lemma StemNoDot(name: string)
    requires NoChar(name, '.')
    ensures NoChar(name + "_df", '.')
  {
    var stem := name + "_df";
    forall i | 0 <= i < |stem| ensures stem[i] != '.' {
      if i < |name| { assert stem[i] == name[i]; }
    }
  }

  /** Appending `_df.pkl` adds no slash. */
  lemma FileNoSlash(name: string)
    requires NoChar(name, '/')
    ensures NoChar(name + "_df" + ".pkl", '/')
  {
    var file := name + "_df" + ".pkl";
    forall i | 0 <= i < |file| ensures file[i] != '/' {
      if i < |name| { assert file[i] == name[i]; }
    }
  }

  /** The frame path of the table named `<name>_df`. */
  lemma DoubleSuffix(dir: string, name: string)
    requires dir != [] && dir[|dir| - 1] != '/'
    ensures StorePaths(dir, name + "_df").storePath == dir + "/" + name + "_df_df.pkl"
  {
    RStripNoTrailing(dir, '/');
    assert "_df" + "_df.pkl" == "_df_df.pkl";
    assert dir + "/" + (name + "_df") + "_df.pkl" == dir + "/" + name + ("_df" + "_df.pkl");
  }

  /** The cell handed to a per-row function when the subset is the single SMILES column. */
  function First(row: seq<Cell>): Cell {
    if row == [] then Missing else row[0]
  }

  /** `lambda x: g(x[0])` applied with `raw=True` to rows of the single SMILES column. */
  function OnFirst<R>(g: Cell -> R): seq<Cell> -> R {
    (row: seq<Cell>) => g(First(row))
  }

  /** `n_cpus if n_cpus else os.cpu_count()`, with the CPU count as a parameter. */
  function EffectiveCpus(nCpus: int, cpuCount: int): int {
    if nCpus != 0 then nCpus else cpuCount
  }

  /** `df[subset if subset else df.columns]`, one row of cells per key. */
  function SubsetRows(df: Frame, subset: seq<Name>): (r: Result<seq<seq<Cell>>>)
    requires WellFormed(df)
    ensures r.Ok? <==> forall c :: c in subset ==> c in df.columns
    ensures r.Ok? ==> r.value == RowsOn(df, if subset == [] then df.columns else subset)
    ensures r.Err? ==> r.error.KeyError?
  {
    Project(df, if subset == [] then df.columns else subset)
  }

  /** `papply`: the subset's rows, evaluated chunk by chunk. */
  function PapplySpec<R>(df: Frame, f: seq<Cell> -> R, subset: seq<Name>, nCpus: int, chunkSize: int, cpuCount: int): Result<seq<R>>
    requires WellFormed(df)
  {
    var rows :- SubsetRows(df, subset);
    ChunkedApply(rows, f, EffectiveCpus(nCpus, cpuCount), chunkSize)
  }

  /** `apply`: more than one CPU goes through `papply`, otherwise one pass over the subset. */
  function ApplySpec<R>(df: Frame, f: seq<Cell> -> R, subset: seq<Name>, nCpus: int, chunkSize: int, cpuCount: int): Result<seq<R>>
    requires WellFormed(df)
  {
    var n := EffectiveCpus(nCpus, cpuCount);
    if n > 1 then PapplySpec(df, f, subset, n, chunkSize, cpuCount)
    else
      var rows :- SubsetRows(df, subset);
      Ok(Map(rows, f))
  }

  /**
   * Whatever the number of CPUs and the chunk size, a successful `apply` gives every row's
   * value in index order; it fails only on a missing subset column or, in parallel, on a
   * chunk size that is not positive or a table without rows.
   */
  lemma ApplyIsRowwise<R>(df: Frame, f: seq<Cell> -> R, subset: seq<Name>, nCpus: int, chunkSize: int, cpuCount: int)
    requires WellFormed(df)
    ensures var r := ApplySpec(df, f, subset, nCpus, chunkSize, cpuCount);
      && (r.Ok? ==> r.value == Map(SubsetRows(df, subset).value, f))
      && (r.Ok? <==> (SubsetRows(df, subset).Ok? &&
           (EffectiveCpus(nCpus, cpuCount) <= 1 || (chunkSize > 0 && df.index != []))))
  {
    var rows := SubsetRows(df, subset);
    if rows.Ok? {
      ChunkedApplyIsMap(rows.value, f, EffectiveCpus(nCpus, cpuCount), chunkSize);
    }
  }

  /**
   * Applying `lambda x: g(x[0])` to the SMILES column gives, for the row at every position of the
   * index, `g` of that row's SMILES cell.
   */
  lemma ApplyOnFirst<R>(df: Frame, col: Name, g: Cell -> R, nCpus: int, chunkSize: int, cpuCount: int)
    requires WellFormed(df)
    ensures var r := ApplySpec(df, OnFirst(g), [col], nCpus, chunkSize, cpuCount);
      && (r.Ok? <==> (col in df.columns && (EffectiveCpus(nCpus, cpuCount) <= 1 || (chunkSize > 0 && df.index != []))))
      && (r.Ok? ==> |r.value| == |df.index|)
      && (r.Ok? ==> forall i :: 0 <= i < |df.index| ==> r.value[i] == g(df.cells[col][df.index[i]]))
  {
    ApplyIsRowwise(df, OnFirst(g), [col], nCpus, chunkSize, cpuCount);
    if col in df.columns {
      var sm := RowsOn(df, [col]);
      forall i | 0 <= i < |df.index| ensures OnFirst(g)(sm[i]) == g(df.cells[col][df.index[i]]) {
        assert sm[i][0] == df.cells[col][df.index[i]];
        assert First(sm[i]) == sm[i][0];
      }
    }
  }

  /** `PandasTools.AddMoleculeColumnToFrame`: a column `dst` holding the molecule parsed from each `src` cell. */
  function AddMolColumn(df: Frame, src: Name, dst: Name, parse: Cell -> Cell): (r: Result<Frame>)
    requires WellFormed(df)
    ensures r.Ok? <==> src in df.columns
    ensures r.Ok? ==> WellFormed(r.value) && r.value.index == df.index
    ensures r.Ok? ==> r.value.columns == if dst in df.columns then df.columns else df.columns + [dst]
    ensures r.Ok? ==> forall k :: k in df.index ==> r.value.cells[dst][k] == parse(df.cells[src][k])
    ensures r.Ok? ==> forall c :: c in df.columns && c != dst ==> r.value.cells[c] == df.cells[c]
    ensures r.Err? ==> r.error == KeyError(src)
  {
    if src !in df.columns then Err(KeyError(src))
    else Ok(SetColumn(df, dst, map k | k in df.index :: parse(df.cells[src][k])))
  }

  /** The frame and calculator after `reload()`: a saved calculator replaces the current one. */
  function Reloaded(p: Paths, st: Store, calculator: Option<Calculator>): (Frame, Option<Calculator>)
    requires p.storePath in st.frames
  {
    (st.frames[p.storePath], if p.calculatorPath in st.calculators then Some(st.calculators[p.calculatorPath]) else calculator)
  }

  /**
   * The frame and calculator a new `MoleculeTable` starts with. A missing store directory raises
   * `FileNotFoundError`; a frame in the store wins over a given one unless `overwrite` is set;
   * with no frame given and none stored, `ValueError`.
   */
  function OpenSpec(name: string, df: Option<Frame>, smilescol: Name, addRdkit: bool, storeDir: string,
                    overwrite: bool, st: Store, parse: Cell -> Cell): (r: Result<(Frame, Option<Calculator>)>)
    requires df.Some? ==> WellFormed(df.value)
    requires StoreValid(st)
    ensures r.Ok? ==> WellFormed(r.value.0)
    ensures StorePaths(storeDir, name).storeDir !in st.dirs ==> r == Err(FileNotFound(StorePaths(storeDir, name).storeDir))
    ensures StorePaths(storeDir, name).storeDir in st.dirs && StorePaths(storeDir, name).storePath in st.frames && (df.None? || !overwrite) ==>
      r == Ok(Reloaded(StorePaths(storeDir, name), st, None))
    ensures StorePaths(storeDir, name).storeDir in st.dirs && df.None? && StorePaths(storeDir, name).storePath !in st.frames ==>
      r.Err? && r.error.ValueError?
    ensures StorePaths(storeDir, name).storeDir in st.dirs && df.Some? && (overwrite || StorePaths(storeDir, name).storePath !in st.frames) ==>
      r == if addRdkit then (if smilescol in df.value.columns then Ok((AddMolColumn(df.value, smilescol, MolColumn, parse).value, None)) else Err(KeyError(smilescol)))
           else Ok((df.value, None))
  {
    var p := StorePaths(storeDir, name);
    IsInStoreDf(storeDir, name, st);
    if p.storeDir !in st.dirs then Err(FileNotFound(p.storeDir))
    else if df.Some? && !(IsInStore(p, st, "df") && !overwrite) then
      if addRdkit then
        var d :- AddMolColumn(df.value, smilescol, MolColumn, parse);
        Ok((d, None))
      else Ok((df.value, None))
    else if !IsInStore(p, st, "df") then Err(ValueError(NoFrameInStore(name)))
    else Ok(Reloaded(p, st, None))
  }

  /** The store after `save()`: the frame at its path and, when there is one, the calculator at its path. */
  function SavedStore(p: Paths, st: Store, df: Frame, calculator: Option<Calculator>): (st': Store)
    ensures st'.dirs == st.dirs
    ensures st'.frames == st.frames[p.storePath := df]
    ensures st'.calculators == if calculator.Some? then st.calculators[p.calculatorPath := calculator.value] else st.calculators
  {
    Store(st.dirs, st.frames[p.storePath := df],
      if calculator.Some? then st.calculators[p.calculatorPath := calculator.value] else st.calculators)
  }

  /**
   * Saving and reloading gives back the frame and the calculator; a table without a calculator
   * picks up one saved earlier under the same name.
   */
  lemma SaveReload(p: Paths, st: Store, df: Frame, calculator: Option<Calculator>, current: Option<Calculator>)
    ensures var st' := SavedStore(p, st, df, calculator);
      && p.storePath in st'.frames
      && Reloaded(p, st', current).0 == df
      && (calculator.Some? ==> Reloaded(p, st', current).1 == calculator)
      && (calculator.None? ==> (Reloaded(p, st', current).1 ==
            if p.calculatorPath in st.calculators then Some(st.calculators[p.calculatorPath]) else current))
  {
  }

  // Column roles

  function DescriptorNames(df: Frame): (r: seq<Name>)
    ensures forall c :: c in r <==> c in df.columns && StartsWith(c, DescriptorPrefix)
    ensures Subsequence(r, df.columns)
    ensures Distinct(df.columns) ==> Distinct(r)
  {
    ColumnsWhere(df, c => StartsWith(c, DescriptorPrefix))
  }

  predicate HasDescriptors(df: Frame) {
    |DescriptorNames(df)| > 0
  }

  lemma HasDescriptorsIff(df: Frame)
    ensures HasDescriptors(df) <==> exists c :: c in df.columns && StartsWith(c, DescriptorPrefix)
  {
    if exists c :: c in df.columns && StartsWith(c, DescriptorPrefix) {
      var c :| c in df.columns && StartsWith(c, DescriptorPrefix);
      assert c in DescriptorNames(df);
    }
  }

  /** `getScaffoldNames(include_mols)`: `Scaffold_` columns, without the `_RDMol` ones unless asked. */
  function ScaffoldNames(df: Frame, includeMols: bool): (r: seq<Name>)
    ensures forall c :: c in r <==> c in df.columns && StartsWith(c, ScaffoldPrefix) && (includeMols || !EndsWith(c, MolSuffix))
    ensures Subsequence(r, df.columns)
    ensures Distinct(df.columns) ==> Distinct(r)
  {
    ColumnsWhere(df, c => StartsWith(c, ScaffoldPrefix) && (includeMols || !EndsWith(c, MolSuffix)))
  }

  /** A `ScaffoldGroup_` column is never taken for a scaffold column. */
  lemma GroupColumnsAreNotScaffolds(df: Frame, c: Name, includeMols: bool)
    requires StartsWith(c, ScaffoldGroupPrefix)
    ensures c !in ScaffoldNames(df, includeMols)
  {
    assert c[8] == 'G';
    assert ScaffoldPrefix[8] == '_';
  }

  predicate HasScaffolds(df: Frame) {
    |ScaffoldNames(df, false)| > 0
  }

  predicate HasScaffoldGroups(df: Frame) {
    exists c :: c in df.columns && StartsWith(c, ScaffoldGroupPrefix)
  }

  /** `getSubset(prefix)`: the columns with the prefix, in order, or `None` when there are none. */
  function GetSubset(df: Frame, prefix: string): (r: Option<Frame>)
    requires WellFormed(df)
    ensures r.Some? <==> exists c :: c in df.columns && StartsWith(c, prefix)
    ensures r.Some? ==> WellFormed(r.value) && r.value.index == df.index
    ensures r.Some? ==> forall c :: c in r.value.columns <==> c in df.columns && StartsWith(c, prefix)
  {
    var cols := ColumnsWhere(df, c => StartsWith(c, prefix));
    if |cols| > 0 then Some(Select(df, cols)) else None
  }

  /** `getScaffolds(includeMols)`: every `Scaffold_` column, or only the non-molecule ones. */
  function GetScaffolds(df: Frame, includeMols: bool): (r: Frame)
    requires WellFormed(df)
    ensures WellFormed(r) && r.index == df.index && r.columns == ScaffoldNames(df, includeMols)
  {
    Select(df, ScaffoldNames(df, includeMols))
  }

  function GroupColumnName(scaffold: Name, molsPerGroup: int): Name {
    ScaffoldGroupPrefix + scaffold + "_" + IntToString(molsPerGroup)
  }

  /** `getScaffoldGroups(name, k)`: the first column whose name starts with `ScaffoldGroup_<name>_<k>`; `IndexError` if none. */
  function GetScaffoldGroups(df: Frame, scaffold: Name, molsPerGroup: int): (r: Result<seq<Cell>>)
    requires WellFormed(df)
    ensures r.Ok? <==> exists c :: c in df.columns && StartsWith(c, GroupColumnName(scaffold, molsPerGroup))
    ensures r.Ok? ==> exists i :: && 0 <= i < |df.columns| && StartsWith(df.columns[i], GroupColumnName(scaffold, molsPerGroup))
                                 && (forall j :: 0 <= j < i ==> !StartsWith(df.columns[j], GroupColumnName(scaffold, molsPerGroup)))
                                 && r.value == Column(df, df.columns[i])
  {
    var cols := ColumnsWhere(df, c => StartsWith(c, GroupColumnName(scaffold, molsPerGroup)));
    if |cols| > 0 then
      assert cols[0] in cols;
      FilterFirst(df.columns, c => StartsWith(c, GroupColumnName(scaffold, molsPerGroup)));
      Ok(Column(df, cols[0]))
    else Err(IndexError(FirstRowOutOfBounds))
  }

  // Descriptors

  /** The table without its `Descriptor_` columns (`df.drop(getDescriptorNames(), axis=1)`). */
  function DropDescriptors(df: Frame): (r: Frame)
    requires WellFormed(df)
    ensures WellFormed(r) && r.index == df.index && !HasDescriptors(r)
    ensures forall c :: c in r.columns <==> c in df.columns && !StartsWith(c, DescriptorPrefix)
    ensures forall c :: c in r.columns ==> r.cells[c] == df.cells[c]
  {
    DropColumns(df, DescriptorNames(df))
  }

  /**
   * The part of `addDescriptors` after the early exit: the calculator is applied to the SMILES
   * column, the block gets the table's index and is left-joined.
   */
  function JoinDescriptors(base: Frame, smilescol: Name, calculator: Calculator, nCpus: int, chunkSize: int, cpuCount: int): (r: Result<Frame>)
    requires WellFormed(base) && Distinct(calculator.names)
    ensures r.Ok? ==> WellFormed(r.value) && r.value.index == base.index && r.value.columns == base.columns + calculator.names
  {
    var rows :- ApplySpec(base, OnFirst(calculator.compute), [smilescol], nCpus, chunkSize, cpuCount);
    var block :- FromRows(base.index, calculator.names, rows);
    LeftJoin(base, block)
  }

  /** Every computed row has one value per descriptor exactly when the calculator gives that many for every SMILES. */
  lemma ComputedRowsRectangular(base: Frame, smilescol: Name, calculator: Calculator, rows: seq<seq<Cell>>)
    requires WellFormed(base) && smilescol in base.columns && |rows| == |base.index|
    requires forall i :: 0 <= i < |base.index| ==> rows[i] == calculator.compute(base.cells[smilescol][base.index[i]])
    ensures (forall k :: k in base.index ==> |calculator.compute(base.cells[smilescol][k])| == |calculator.names|)
      <==> Rectangular(rows, |calculator.names|)
  {
    if Rectangular(rows, |calculator.names|) {
      forall k | k in base.index ensures |calculator.compute(base.cells[smilescol][k])| == |calculator.names| {
        var i :| 0 <= i < |base.index| && base.index[i] == k;
        assert |rows[i]| == |calculator.names|;
      }
    }
    if forall k :: k in base.index ==> |calculator.compute(base.cells[smilescol][k])| == |calculator.names| {
      forall i | 0 <= i < |rows| ensures |rows[i]| == |calculator.names| {
        assert base.index[i] in base.index;
      }
    }
  }

  /**
   * A successful descriptor join keeps the rows and the existing columns, appends the
   * calculator's columns and holds in them, row by row, what the calculator gives for that
   * row's SMILES. It succeeds exactly when the SMILES column exists, the apply succeeds, every
   * computed row has one value per descriptor, and no descriptor name is already a column.
   */
  lemma JoinDescriptorsSpec(base: Frame, smilescol: Name, calculator: Calculator, nCpus: int, chunkSize: int, cpuCount: int)
    requires WellFormed(base) && Distinct(calculator.names)
    ensures var r := JoinDescriptors(base, smilescol, calculator, nCpus, chunkSize, cpuCount);
      && (r.Ok? <==>
           && smilescol in base.columns
           && (EffectiveCpus(nCpus, cpuCount) <= 1 || (chunkSize > 0 && base.index != []))
           && (forall k :: k in base.index ==> |calculator.compute(base.cells[smilescol][k])| == |calculator.names|)
           && (forall c :: c in calculator.names ==> c !in base.columns))
      && (r.Ok? ==> forall c :: c in base.columns ==> r.value.cells[c] == base.cells[c])
      && (r.Ok? ==> RowsOn(r.value, calculator.names) == Map(Column(base, smilescol), calculator.compute))
  {
    ApplyOnFirst(base, smilescol, calculator.compute, nCpus, chunkSize, cpuCount);
    var a := ApplySpec(base, OnFirst(calculator.compute), [smilescol], nCpus, chunkSize, cpuCount);
    if a.Ok? {
      ComputedRowsRectangular(base, smilescol, calculator, a.value);
      var b := FromRows(base.index, calculator.names, a.value);
      if b.Ok? {
        FromRowsCells(base.index, calculator.names, a.value);
        var r := LeftJoin(base, b.value);
        if r.Ok? {
          JoinedRows(base, smilescol, calculator, a.value, b.value, r.value);
        }
      }
    }
  }

  /** The descriptor block, joined on the table's own index, gives back the computed rows. */
  lemma JoinedRows(base: Frame, smilescol: Name, calculator: Calculator, rows: seq<seq<Cell>>, block: Frame, r: Frame)
    requires WellFormed(base) && WellFormed(block) && WellFormed(r) && smilescol in base.columns
    requires |rows| == |base.index| && Distinct(calculator.names)
    requires forall i :: 0 <= i < |base.index| ==> rows[i] == calculator.compute(base.cells[smilescol][base.index[i]])
    requires forall i :: 0 <= i < |rows| ==> |rows[i]| == |calculator.names|
    requires block.index == base.index && block.columns == calculator.names
    requires forall i, j :: 0 <= i < |base.index| && 0 <= j < |calculator.names| ==>
      block.cells[calculator.names[j]][base.index[i]] == rows[i][j]
    requires r.index == base.index && r.columns == base.columns + calculator.names
    requires forall c, k :: c in block.columns && k in base.index ==>
      r.cells[c][k] == if k in block.index then block.cells[c][k] else Missing
    ensures RowsOn(r, calculator.names) == Map(Column(base, smilescol), calculator.compute)
  {
    var got := RowsOn(r, calculator.names);
    var want := Map(Column(base, smilescol), calculator.compute);
    forall i | 0 <= i < |base.index| ensures got[i] == want[i] {
      var k := base.index[i];
      assert want[i] == rows[i];
      forall j | 0 <= j < |calculator.names| ensures got[i][j] == rows[i][j] {
        assert calculator.names[j] in block.columns && k in base.index;
      }
    }
  }

  /**
   * After a successful join with a calculator whose columns are all `Descriptor_` columns, the
   * table has descriptors, so `addDescriptors` without `recalculate` leaves it alone from then on.
   */
  lemma JoinDescriptorsHasDescriptors(base: Frame, smilescol: Name, calculator: Calculator, nCpus: int, chunkSize: int, cpuCount: int)
    requires WellFormed(base) && Distinct(calculator.names)
    requires calculator.names != [] && forall c :: c in calculator.names ==> StartsWith(c, DescriptorPrefix)
    requires JoinDescriptors(base, smilescol, calculator, nCpus, chunkSize, cpuCount).Ok?
    ensures HasDescriptors(JoinDescriptors(base, smilescol, calculator, nCpus, chunkSize, cpuCount).value)
  {
    JoinDescriptorsSpec(base, smilescol, calculator, nCpus, chunkSize, cpuCount);
    var r := JoinDescriptors(base, smilescol, calculator, nCpus, chunkSize, cpuCount).value;
    assert calculator.names[0] in r.columns;
    HasDescriptorsIff(r);
  }

  // Scaffolds

  function ScaffoldColumn(s: Scaffold): Name {
    ScaffoldPrefix + s.kind
  }

  /**
   * `df[Scaffold_<s>] = apply(lambda x: scaffold(x[0]), subset=[smilescol])` with the default
   * single CPU: the scaffold of every row's SMILES, in a new last column.
   */
  function DeriveScaffold(df: Frame, smilescol: Name, s: Scaffold): (r: Result<Frame>)
    requires WellFormed(df) && ScaffoldColumn(s) !in df.columns
    ensures r.Ok? <==> smilescol in df.columns
    ensures r.Ok? ==> WellFormed(r.value) && r.value.index == df.index
    ensures r.Ok? ==> r.value.columns == df.columns + [ScaffoldColumn(s)]
    ensures r.Ok? ==> forall c :: c in df.columns ==> r.value.cells[c] == df.cells[c]
    ensures r.Ok? ==> forall k :: k in df.index ==> r.value.cells[ScaffoldColumn(s)][k] == s.derive(df.cells[smilescol][k])
  {
    var col := ScaffoldColumn(s);
    ApplyOnFirst(df, smilescol, s.derive, 1, 1000, 1);
    var vals :- ApplySpec(df, OnFirst(s.derive), [smilescol], 1, 1000, 1);
    var d := SetColumn(df, col, ZipMap(df.index, vals));
    assert forall k :: k in df.index ==> d.cells[col][k] == s.derive(df.cells[smilescol][k]) by {
      forall k | k in df.index ensures d.cells[col][k] == s.derive(df.cells[smilescol][k]) {
        var i :| 0 <= i < |df.index| && df.index[i] == k;
      }
    }
    Ok(d)
  }

  /**
   * One pass of the `addScaffolds` loop: an existing `Scaffold_<s>` column is kept as it is;
   * otherwise the column is derived from the SMILES, and with `add_rdkit_scaffold` its molecule
   * column `Scaffold_<s>_RDMol` is added after it.
   */
  function ScaffoldStep(df: Frame, smilescol: Name, s: Scaffold, addMols: bool, parse: Cell -> Cell): (r: Result<Frame>)
    requires WellFormed(df)
    ensures ScaffoldColumn(s) in df.columns ==> r == Ok(df)
    ensures ScaffoldColumn(s) !in df.columns ==> (r.Ok? <==> smilescol in df.columns)
    ensures r.Ok? ==> WellFormed(r.value) && r.value.index == df.index && ScaffoldColumn(s) in r.value.columns
    ensures r.Ok? ==> forall c :: c in df.columns ==> c in r.value.columns
    ensures r.Ok? ==> forall c :: c in df.columns && c != ScaffoldColumn(s) + MolSuffix ==> r.value.cells[c] == df.cells[c]
    ensures r.Ok? && ScaffoldColumn(s) !in df.columns ==>
      forall k :: k in df.index ==> r.value.cells[ScaffoldColumn(s)][k] == s.derive(df.cells[smilescol][k])
  {
    var col := ScaffoldColumn(s);
    if col in df.columns then Ok(df)
    else
      var d :- DeriveScaffold(df, smilescol, s);
      if addMols then
        assert col != col + MolSuffix;
        AddMolColumn(d, col, col + MolSuffix, parse)
      else Ok(d)
  }

  /** The `addScaffolds` loop: the table after it and the error that stopped it, if any. */
  function ScaffoldsSpec(df: Frame, smilescol: Name, ss: seq<Scaffold>, addMols: bool, parse: Cell -> Cell): (r: (Frame, Option<Error>))
    requires WellFormed(df)
    ensures WellFormed(r.0) && r.0.index == df.index
    decreases |ss|
  {
    if ss == [] then (df, None)
    else match ScaffoldStep(df, smilescol, ss[0], addMols, parse)
      case Err(e) => (df, Some(e))
      case Ok(d) => ScaffoldsSpec(d, smilescol, ss[1..], addMols, parse)
  }

  /**
   * `addScaffolds` keeps the rows and every existing column and, when it completes, leaves a
   * `Scaffold_<s>` column for every scaffold kind asked for.
   */
  lemma {:induction false} ScaffoldsKeep(df: Frame, smilescol: Name, ss: seq<Scaffold>, addMols: bool, parse: Cell -> Cell)
    requires WellFormed(df)
    ensures var (d, e) := ScaffoldsSpec(df, smilescol, ss, addMols, parse);
      && WellFormed(d) && d.index == df.index
      && (forall c :: c in df.columns ==> c in d.columns)
      && (e.None? ==> forall s :: s in ss ==> ScaffoldColumn(s) in d.columns)
    decreases |ss|
  {
    if ss != [] {
      var step := ScaffoldStep(df, smilescol, ss[0], addMols, parse);
      if step.Ok? {
        ScaffoldsKeep(step.value, smilescol, ss[1..], addMols, parse);
        var (d, e) := ScaffoldsSpec(df, smilescol, ss, addMols, parse);
        assert forall s :: s in ss ==> s == ss[0] || s in ss[1..];
      }
    }
  }

  /** With every scaffold column already present, the loop changes nothing. */
  lemma {:induction false} ScaffoldsSkipPresent(df: Frame, smilescol: Name, ss: seq<Scaffold>, addMols: bool, parse: Cell -> Cell)
    requires WellFormed(df)
    requires forall s :: s in ss ==> ScaffoldColumn(s) in df.columns
    ensures ScaffoldsSpec(df, smilescol, ss, addMols, parse) == (df, None)
    decreases |ss|
  {
    if ss != [] {
      assert ss[0] in ss;
      assert forall s :: s in ss[1..] ==> s in ss;
      ScaffoldsSkipPresent(df, smilescol, ss[1..], addMols, parse);
    }
  }

  /** Adding the same scaffolds a second time changes nothing. */
  lemma ScaffoldsIdempotent(df: Frame, smilescol: Name, ss: seq<Scaffold>, addMols: bool, parse: Cell -> Cell)
    requires WellFormed(df)
    requires ScaffoldsSpec(df, smilescol, ss, addMols, parse).1.None?
    ensures var d := ScaffoldsSpec(df, smilescol, ss, addMols, parse).0;
      ScaffoldsSpec(d, smilescol, ss, addMols, parse) == (d, None)
  {
    ScaffoldsKeep(df, smilescol, ss, addMols, parse);
    ScaffoldsSkipPresent(ScaffoldsSpec(df, smilescol, ss, addMols, parse).0, smilescol, ss, addMols, parse);
  }

  /** The bucketed value of one cell: `'Other'` for a value seen fewer than `k` times in its column. */
  function GroupOf(col: seq<Cell>, v: Cell, k: int): Cell {
    if v != Missing && multiset(col)[v] < k then OtherGroup else v
  }

  /** One pass of the `createScaffoldGroups` loop: the group column is added only when absent. */
  function GroupStep(df: Frame, scaffold: Name, k: int): (r: Frame)
    requires WellFormed(df) && scaffold in df.columns
    ensures WellFormed(r) && r.index == df.index
    ensures GroupColumnName(scaffold, k) in r.columns
    ensures forall c :: c in df.columns ==> c in r.columns && r.cells[c] == df.cells[c]
    ensures GroupColumnName(scaffold, k) !in df.columns ==> forall key :: key in df.index ==>
      r.cells[GroupColumnName(scaffold, k)][key] == GroupOf(Column(df, scaffold), df.cells[scaffold][key], k)
  {
    var name := GroupColumnName(scaffold, k);
    if name in df.columns then df
    else
      var col := Column(df, scaffold);
      SetColumn(df, name, map key | key in df.index :: GroupOf(col, df.cells[scaffold][key], k))
  }

  /** The counted value is in its column whenever it is not missing, and `'Other'` replaces exactly the rare ones. */
  lemma GroupOfSpec(col: seq<Cell>, v: Cell, k: int)
    requires v in col
    ensures multiset(col)[v] >= 1
    ensures GroupOf(col, v, k) == OtherGroup <==> (v != Missing && multiset(col)[v] < k) || v == OtherGroup
    ensures GroupOf(col, v, k) != OtherGroup ==> GroupOf(col, v, k) == v
  {
  }

  /** The `createScaffoldGroups` loop over the scaffold columns. */
  function GroupsSpec(df: Frame, scaffolds: seq<Name>, k: int): (r: Frame)
    requires WellFormed(df) && forall c :: c in scaffolds ==> c in df.columns
    ensures WellFormed(r) && r.index == df.index
    ensures forall c :: c in df.columns ==> c in r.columns && r.cells[c] == df.cells[c]
    ensures forall c :: c in scaffolds ==> GroupColumnName(c, k) in r.columns
    decreases |scaffolds|
  {
    if scaffolds == [] then df
    else
      var d := GroupStep(df, scaffolds[0], k);
      var r := GroupsSpec(d, scaffolds[1..], k);
      assert forall c :: c in scaffolds ==> c == scaffolds[0] || c in scaffolds[1..];
      r
  }

  /** The first pass of the loop, then the rest. */
  lemma GroupsUnfold(df: Frame, scaffolds: seq<Name>, k: int)
    requires WellFormed(df) && forall c :: c in scaffolds ==> c in df.columns
    requires scaffolds != []
    ensures scaffolds[0] in df.columns && forall c :: c in scaffolds[1..] ==> c in GroupStep(df, scaffolds[0], k).columns
    ensures GroupsSpec(df, scaffolds, k) == GroupsSpec(GroupStep(df, scaffolds[0], k), scaffolds[1..], k)
  {
    assert scaffolds[0] in scaffolds;
    assert forall c :: c in scaffolds[1..] ==> c in scaffolds;
  }

  /** With every group column already present, creating the groups again changes nothing. */
  lemma {:induction false} GroupsSkipPresent(df: Frame, scaffolds: seq<Name>, k: int)
    requires WellFormed(df) && forall c :: c in scaffolds ==> c in df.columns && GroupColumnName(c, k) in df.columns
    ensures GroupsSpec(df, scaffolds, k) == df
    decreases |scaffolds|
  {
    if scaffolds != [] {
      assert scaffolds[0] in scaffolds;
      assert forall c :: c in scaffolds[1..] ==> c in scaffolds;
      GroupsSkipPresent(df, scaffolds[1..], k);
    }
  }

  lemma GroupsIdempotent(df: Frame, scaffolds: seq<Name>, k: int)
    requires WellFormed(df) && forall c :: c in scaffolds ==> c in df.columns
    ensures GroupsSpec(GroupsSpec(df, scaffolds, k), scaffolds, k) == GroupsSpec(df, scaffolds, k)
  {
    GroupsSkipPresent(GroupsSpec(df, scaffolds, k), scaffolds, k);
  }

  // Transform and filter

  /** The result of applying the transformers in order to every cell. */
  function ApplyTransformers(f: Frame, ts: seq<Cell -> Cell>): (r: Frame)
    requires WellFormed(f)
    ensures WellFormed(r) && r.index == f.index && r.columns == f.columns
    decreases |ts|
  {
    if ts == [] then f else ApplyTransformers(MapCells(f, ts[0]), ts[1..])
  }

  /** The transformers composed, first one innermost. */
  function Compose(ts: seq<Cell -> Cell>, x: Cell): Cell
    decreases |ts|
  {
    if ts == [] then x else Compose(ts[1..], ts[0](x))
  }

  /** Transforming the table is transforming every cell by the composition of the transformers. */
  lemma {:induction false} ApplyTransformersCells(f: Frame, ts: seq<Cell -> Cell>)
    requires WellFormed(f)
    ensures forall c, k :: c in f.columns && k in f.index ==> ApplyTransformers(f, ts).cells[c][k] == Compose(ts, f.cells[c][k])
    decreases |ts|
  {
    if ts != [] {
      ApplyTransformersCells(MapCells(f, ts[0]), ts[1..]);
    }
  }

  /** The loop of `transformData`: each transformer in turn replaces every cell. */
  method RunTransformers(f: Frame, ts: seq<Cell -> Cell>) returns (r: Frame)
    requires WellFormed(f)
    ensures r == ApplyTransformers(f, ts)
  {
    r := f;
    var i := 0;
    while i < |ts|
      invariant 0 <= i <= |ts| && WellFormed(r)
      invariant ApplyTransformers(r, ts[i..]) == ApplyTransformers(f, ts)
    {
      assert ts[i..][1..] == ts[i + 1..];
      r := MapCells(r, ts[i]);
      i := i + 1;
    }
    assert ts[i..] == [];
  }

  /** The cell a column aligned on the index gives row `k`: `NaN` for a key it does not have. */
  function Aligned(vals: map<Key, Cell>, k: Key): Cell {
    if k in vals then vals[k] else Missing
  }

  /** A column's cells realigned on `index`: `NaN` where it has no cell. */
  function Realign(index: seq<Key>, vals: map<Key, Cell>): (m: map<Key, Cell>)
    ensures forall k :: k in m <==> k in index
    ensures forall k :: k in index ==> m[k] == Aligned(vals, k)
  {
    map k | k in index :: Aligned(vals, k)
  }

  /** The names `df[names] = ...` appends: those not yet columns, once each, in order. */
  function Added(columns: seq<Name>, names: seq<Name>): (r: seq<Name>)
    ensures Distinct(r)
    ensures forall c :: c in r <==> c in names && c !in columns
  {
    Dedup(Filter(names, c => c !in columns))
  }

  /** The cells column `c` holds after the assignment: the last column of `ret` named `c`, if any. */
  function AssignedCells(df: Frame, names: seq<Name>, ret: Frame, c: Name): (m: map<Key, Cell>)
    requires WellFormed(df) && WellFormed(ret) && |names| == |ret.columns| && (c in names || c in df.columns)
    ensures forall k :: k in m <==> k in df.index
  {
    if c in names then Realign(df.index, ret.cells[ret.columns[LastIndexOf(names, c)]]) else df.cells[c]
  }

  /** The table after `df[names] = ret` when the lengths agree. */
  function Assigned(df: Frame, names: seq<Name>, ret: Frame): (r: Frame)
    requires WellFormed(df) && WellFormed(ret) && |names| == |ret.columns|
    ensures r.index == df.index && r.columns == df.columns + Added(df.columns, names)
    ensures forall c :: c in r.cells <==> c in r.columns
    ensures forall c :: c in r.columns ==> r.cells[c] == AssignedCells(df, names, ret, c)
  {
    var cols := df.columns + Added(df.columns, names);
    Frame(df.index, cols, map c | c in cols :: AssignedCells(df, names, ret, c))
  }

  /** The assigned table is well formed. */
  lemma AssignedWellFormed(df: Frame, names: seq<Name>, ret: Frame)
    requires WellFormed(df) && WellFormed(ret) && |names| == |ret.columns|
    ensures WellFormed(Assigned(df, names, ret))
  {
    DistinctAppend(df.columns, Added(df.columns, names));
  }

  /**
   * `df[addAs] = ret`: the i-th name receives the i-th column of `ret`, aligned on the index
   * (a repeated name keeps the last of its columns); names not yet in the table are appended
   * in order; unequal lengths raise `ValueError`.
   */
  function AssignColumns(df: Frame, names: seq<Name>, ret: Frame): (r: Result<Frame>)
    requires WellFormed(df) && WellFormed(ret)
    ensures r.Ok? <==> |names| == |ret.columns|
    ensures r.Ok? ==> WellFormed(r.value) && r.value.index == df.index
    ensures r.Ok? ==> forall c :: c in df.columns ==> c in r.value.columns
    ensures r.Ok? ==> forall c :: c in names ==> c in r.value.columns
    ensures r.Ok? && (forall c :: c in names ==> c in df.columns) ==> r.value.columns == df.columns
    ensures r.Ok? ==> forall c :: c in df.columns && c !in names ==> r.value.cells[c] == df.cells[c]
    ensures r.Ok? && Distinct(names) ==> forall j, k :: 0 <= j < |names| && k in df.index ==>
      r.value.cells[names[j]][k] == Aligned(ret.cells[ret.columns[j]], k)
    ensures r.Err? ==> r.error.ValueError?
  {
    if |names| != |ret.columns| then Err(ValueError(ColumnsLengthMismatch))
    else
      var r := Assigned(df, names, ret);
      AssignedWellFormed(df, names, ret);
      AssignedColumns(df, names, ret);
      AssignedNamed(df, names, ret);
      Ok(r)
  }

  /** Every old column stays and every assigned name becomes a column; nothing else is added. */
  lemma AssignedColumns(df: Frame, names: seq<Name>, ret: Frame)
    requires WellFormed(df) && WellFormed(ret) && |names| == |ret.columns|
    ensures forall c :: c in df.columns ==> c in Assigned(df, names, ret).columns
    ensures forall c :: c in names ==> c in Assigned(df, names, ret).columns
    ensures (forall c :: c in names ==> c in df.columns) ==> Assigned(df, names, ret).columns == df.columns
  {
  }

  /** With distinct names, the j-th name holds the j-th column of `ret`. */
  lemma AssignedNamed(df: Frame, names: seq<Name>, ret: Frame)
    requires WellFormed(df) && WellFormed(ret) && |names| == |ret.columns|
    ensures Distinct(names) ==> forall j, k :: 0 <= j < |names| && k in df.index ==>
      Assigned(df, names, ret).cells[names[j]][k] == Aligned(ret.cells[ret.columns[j]], k)
  {
    if Distinct(names) {
      var r := Assigned(df, names, ret);
      forall j | 0 <= j < |names|
        ensures r.cells[names[j]] == Realign(df.index, ret.cells[ret.columns[j]])
      {
        assert names[j] in r.columns by {
          if names[j] !in df.columns { assert names[j] in Added(df.columns, names); }
        }
        assert LastIndexOf(names, names[j]) == j;
      }
    }
  }

  /** `df[[name]] = ret` for a one-column `ret`: that column lands under `name`, aligned on the index. */
  lemma AssignOneColumn(df: Frame, name: Name, ret: Frame)
    requires WellFormed(df) && WellFormed(ret) && |ret.columns| == 1
    ensures AssignColumns(df, [name], ret).Ok?
    ensures var r := AssignColumns(df, [name], ret).value;
      && (forall k :: k in df.index ==> r.cells[name][k] == Aligned(ret.cells[ret.columns[0]], k))
      && (forall c :: c in df.columns && c != name ==> r.cells[c] == df.cells[c])
  {
    assert Distinct([name]);
    assert forall c :: c in df.columns && c != name ==> c !in [name];
  }

  /** A data filter decides, looking at the whole table, which row keys to keep. */
  type RowFilter = Frame -> (Key -> bool)

  /** The `filter` loop: each filter in turn replaces the table by the rows it keeps. */
  function FiltersSpec(df: Frame, fs: seq<RowFilter>): (r: Frame)
    requires WellFormed(df)
    ensures WellFormed(r)
    decreases |fs|
  {
    if fs == [] then df else FiltersSpec(FilterRows(df, fs[0](df)), fs[1..])
  }

  /** Filtering only ever drops rows: the order, the columns and every kept cell are unchanged. */
  lemma {:induction false} FiltersSubFrame(df: Frame, fs: seq<RowFilter>)
    requires WellFormed(df)
    ensures SubFrame(FiltersSpec(df, fs), df)
    decreases |fs|
  {
    if fs == [] {
      SubFrameRefl(df);
    } else {
      var d := FilterRows(df, fs[0](df));
      FiltersSubFrame(d, fs[1..]);
      SubFrameTransitive(FiltersSpec(d, fs[1..]), d, df);
    }
  }

  /** `MoleculeTable`: a table of molecules with its store paths and the calculator of its descriptors. */
  class MoleculeTable {
    var name: string
    var smilescol: Name
    var includesRdkit: bool
    var descriptorCalculator: Option<Calculator>
    var storeDir: string
    var storePrefix: string
    var descriptorCalculatorPath: string
    var storePath: string
    var df: Frame

    ghost predicate Valid()
      reads this
    {
      && WellFormed(df)
      && Paths(storeDir, storePrefix, descriptorCalculatorPath, storePath) == StorePaths(storeDir, name)
    }

    function CurrentPaths(): Paths
      reads this
    {
      Paths(storeDir, storePrefix, descriptorCalculatorPath, storePath)
    }

    constructor Init(name: string, smilescol: Name, addRdkit: bool, paths: Paths, df: Frame, calculator: Option<Calculator>)
      ensures this.name == name && this.smilescol == smilescol && this.includesRdkit == addRdkit
      ensures CurrentPaths() == paths && this.df == df && descriptorCalculator == calculator
    {
      this.name := name;
      this.smilescol := smilescol;
      this.includesRdkit := addRdkit;
      this.descriptorCalculator := calculator;
      this.storeDir := paths.storeDir;
      this.storePrefix := paths.storePrefix;
      this.descriptorCalculatorPath := paths.calculatorPath;
      this.storePath := paths.storePath;
      this.df := df;
    }

    /** `MoleculeTable(name, df, smilescol, add_rdkit, store_dir, overwrite)`, raising as `OpenSpec` says. */
    static method Open(name: string, df: Option<Frame>, smilescol: Name, addRdkit: bool, storeDir: string,
                       overwrite: bool, st: Store, parse: Cell -> Cell) returns (r: Result<MoleculeTable>)
      requires df.Some? ==> WellFormed(df.value)
      requires StoreValid(st)
      ensures OpenSpec(name, df, smilescol, addRdkit, storeDir, overwrite, st, parse).Ok? <==> r.Ok?
      ensures r.Ok? ==> fresh(r.value) && r.value.Valid()
      ensures r.Ok? ==> (r.value.df, r.value.descriptorCalculator) == OpenSpec(name, df, smilescol, addRdkit, storeDir, overwrite, st, parse).value
      ensures r.Ok? ==> r.value.name == name && r.value.smilescol == smilescol && r.value.includesRdkit == addRdkit
      ensures r.Ok? ==> r.value.CurrentPaths() == StorePaths(storeDir, name)
      ensures r.Err? ==> r.error == OpenSpec(name, df, smilescol, addRdkit, storeDir, overwrite, st, parse).error
    {
      var spec := OpenSpec(name, df, smilescol, addRdkit, storeDir, overwrite, st, parse);
      if spec.Err? {
        return Err(spec.error);
      }
      var paths := StorePaths(storeDir, name);
      StorePathsShape(storeDir, name);
      var t := new MoleculeTable.Init(name, smilescol, addRdkit, paths, spec.value.0, spec.value.1);
      return Ok(t);
    }

    /** `save()`: the store with this table's frame and calculator written to their paths. */
    function Save(st: Store): (st': Store)
      reads this
      requires Valid()
      ensures storePath in st'.frames && st'.frames[storePath] == df
      ensures forall p :: p in st.frames && p != storePath ==> p in st'.frames && st'.frames[p] == st.frames[p]
      ensures descriptorCalculator.Some? ==> st'.calculators == st.calculators[descriptorCalculatorPath := descriptorCalculator.value]
      ensures descriptorCalculator.None? ==> st'.calculators == st.calculators
    {
      SavedStore(CurrentPaths(), st, df, descriptorCalculator)
    }

    /** `reload()`: the stored frame replaces `df`; a missing frame file raises `FileNotFoundError`. */
    method Reload(st: Store) returns (r: Result<()>)
      requires Valid() && StoreValid(st)
      modifies this`df, this`descriptorCalculator
      ensures Valid()
      ensures r.Ok? <==> old(storePath) in st.frames
      ensures r.Ok? ==> (df, descriptorCalculator) == Reloaded(CurrentPaths(), st, old(descriptorCalculator))
      ensures r.Err? ==> r == Err(FileNotFound(storePath)) && df == old(df) && descriptorCalculator == old(descriptorCalculator)
    {
      if storePath !in st.frames {
        return Err(FileNotFound(storePath));
      }
      df := st.frames[storePath];
      if descriptorCalculatorPath in st.calculators {
        descriptorCalculator := Some(st.calculators[descriptorCalculatorPath]);
      }
      return Ok(());
    }

    /** `papply`: the subset's rows, chunk by chunk and batch by batch, results appended in order. */
    method Papply<R>(f: seq<Cell> -> R, subset: seq<Name>, nCpus: int, chunkSize: int, cpuCount: int) returns (r: Result<seq<R>>)
      requires Valid()
      ensures r == PapplySpec(df, f, subset, nCpus, chunkSize, cpuCount)
    {
      var n := EffectiveCpus(nCpus, cpuCount);
      var sub := SubsetRows(df, subset);
      if sub.Err? {
        return Err(sub.error);
      }
      if chunkSize == 0 {
        return Err(ValueError(ZeroStep));
      }
      var data := if chunkSize > 0 then Chunks(sub.value, chunkSize) else [];
      if n <= 0 {
        return Err(ValueError(NoWorkers));
      }
      var batches := Chunks(data, n);
      var results := RunBatches(batches, f);
      BatchResultsCount(data, n, f);
      if results == [] {
        return Err(ValueError(NothingToConcatenate));
      }
      return Ok(Flatten(results));
    }

    /** `apply`: for more than one CPU the chunked `papply`, otherwise a single pass over the subset. */
    method Apply<R>(f: seq<Cell> -> R, subset: seq<Name>, nCpus: int, chunkSize: int, cpuCount: int) returns (r: Result<seq<R>>)
      requires Valid()
      ensures r == ApplySpec(df, f, subset, nCpus, chunkSize, cpuCount)
      ensures r.Ok? ==> r.value == Map(SubsetRows(df, subset).value, f)
    {
      ApplyIsRowwise(df, f, subset, nCpus, chunkSize, cpuCount);
      var n := EffectiveCpus(nCpus, cpuCount);
      if n > 1 {
        r := Papply(f, subset, n, chunkSize, cpuCount);
      } else {
        var rows :- SubsetRows(df, subset);
        r := Ok(Map(rows, f));
      }
    }

    /**
     * The state after the descriptor join on `base`: on success the joined frame and the new
     * calculator, on failure the error, `base` and the previous calculator.
     */
    ghost predicate JoinOutcome(base: Frame, calculator: Calculator, nCpus: int, chunkSize: int, cpuCount: int,
                                r: Result<()>, previous: Option<Calculator>)
      requires WellFormed(base) && Distinct(calculator.names)
      reads this
    {
      var joined := JoinDescriptors(base, smilescol, calculator, nCpus, chunkSize, cpuCount);
      && (r.Ok? <==> joined.Ok?)
      && (joined.Ok? ==> df == joined.value && descriptorCalculator == Some(calculator))
      && (joined.Err? ==> r == Err(joined.error) && df == base && descriptorCalculator == previous)
    }

    /**
     * `addDescriptors(calculator, recalculate, n_cpus, chunk_size)`: a table that already has
     * descriptors is left alone unless `recalculate` is set, in which case its descriptor
     * columns are dropped first; the new block is then left-joined on the index.
     */
    method AddDescriptors(calculator: Calculator, recalculate: bool, nCpus: int, chunkSize: int, cpuCount: int) returns (r: Result<()>)
      requires Valid() && Distinct(calculator.names)
      modifies this`df, this`descriptorCalculator
      ensures Valid()
      ensures !recalculate && HasDescriptors(old(df)) ==>
        r == Ok(()) && df == old(df) && descriptorCalculator == old(descriptorCalculator)
      ensures recalculate ==> JoinOutcome(DropDescriptors(old(df)), calculator, nCpus, chunkSize, cpuCount, r, old(descriptorCalculator))
      ensures !recalculate && !HasDescriptors(old(df)) ==> JoinOutcome(old(df), calculator, nCpus, chunkSize, cpuCount, r, old(descriptorCalculator))
    {
      if recalculate {
        df := DropDescriptors(df);
      } else if HasDescriptors(df) {
        return Ok(());
      }
      var joined := JoinDescriptors(df, smilescol, calculator, nCpus, chunkSize, cpuCount);
      if joined.Err? {
        return Err(joined.error);
      }
      df := joined.value;
      descriptorCalculator := Some(calculator);
      return Ok(());
    }

    /** `addScaffolds(scaffolds, add_rdkit_scaffold)`: one scaffold column per kind not yet present. */
    method AddScaffolds(ss: seq<Scaffold>, addMols: bool, parse: Cell -> Cell) returns (r: Result<()>)
      requires Valid()
      modifies this`df
      ensures Valid()
      ensures (df, if r.Ok? then None else Some(r.error)) == ScaffoldsSpec(old(df), smilescol, ss, addMols, parse)
    {
      var i := 0;
      while i < |ss|
        invariant 0 <= i <= |ss| && Valid()
        invariant ScaffoldsSpec(df, smilescol, ss[i..], addMols, parse) == ScaffoldsSpec(old(df), smilescol, ss, addMols, parse)
      {
        var step := ScaffoldStep(df, smilescol, ss[i], addMols, parse);
        assert ss[i..][1..] == ss[i + 1..];
        if step.Err? {
          return Err(step.error);
        }
        df := step.value;
        i := i + 1;
      }
      return Ok(());
    }

    /** `createScaffoldGroups(mols_per_group)`: a group column for every non-molecule scaffold column. */
    method CreateScaffoldGroups(molsPerGroup: int)
      requires Valid()
      modifies this`df
      ensures Valid()
      ensures df == GroupsSpec(old(df), ScaffoldNames(old(df), false), molsPerGroup)
    {
      var scaffolds := ScaffoldNames(df, false);
      var i := 0;
      while i < |scaffolds|
        invariant 0 <= i <= |scaffolds| && WellFormed(df)
        invariant forall c :: c in scaffolds ==> c in df.columns
        invariant GroupsSpec(df, scaffolds[i..], molsPerGroup) == GroupsSpec(old(df), scaffolds, molsPerGroup)
      {
        assert scaffolds[i..][0] == scaffolds[i] && scaffolds[i..][1..] == scaffolds[i + 1..];
        GroupsUnfold(df, scaffolds[i..], molsPerGroup);
        df := GroupStep(df, scaffolds[i], molsPerGroup);
        i := i + 1;
      }
      assert scaffolds[i..] == [];
    }

    /**
     * `transform(targets, transformers, addAs)`: the target columns put through the
     * transformers in order; returned, or stored under the names `addAs`.
     */
    method Transform(targets: seq<Name>, ts: seq<Cell -> Cell>, addAs: seq<Name>) returns (r: Result<Option<Frame>>)
      requires Valid() && Distinct(targets)
      modifies this`df
      ensures Valid()
      ensures SelectChecked(old(df), targets).Err? ==> r == Err(SelectChecked(old(df), targets).error) && df == old(df)
      ensures SelectChecked(old(df), targets).Ok? ==>
        var ret := ApplyTransformers(SelectChecked(old(df), targets).value, ts);
        if addAs == [] then r == Ok(Some(ret)) && df == old(df)
        else
          && (r.Ok? <==> AssignColumns(old(df), addAs, ret).Ok?)
          && (r.Ok? ==> r.value.None? && df == AssignColumns(old(df), addAs, ret).value)
          && (r.Err? ==> r.error == AssignColumns(old(df), addAs, ret).error && df == old(df))
    {
      var sel := SelectChecked(df, targets);
      if sel.Err? {
        return Err(sel.error);
      }
      var ret := RunTransformers(sel.value, ts);
      if addAs == [] {
        return Ok(Some(ret));
      }
      var stored := AssignColumns(df, addAs, ret);
      if stored.Err? {
        return Err(stored.error);
      }
      df := stored.value;
      return Ok(None);
    }

    /** `filter(table_filters)`: each filter in turn replaces the table by the rows it keeps. */
    method Filter(fs: seq<RowFilter>)
      requires Valid()
      modifies this`df
      ensures Valid()
      ensures df == FiltersSpec(old(df), fs)
      ensures SubFrame(df, old(df))
    {
      FiltersSubFrame(df, fs);
      var i := 0;
      while i < |fs|
        invariant 0 <= i <= |fs| && Valid()
        invariant FiltersSpec(df, fs[i..]) == FiltersSpec(old(df), fs)
      {
        assert fs[i..][1..] == fs[i + 1..];
        df := FilterRows(df, fs[i](df));
        i := i + 1;
      }
    }

    /** `addProperty(name, data)`: a column holding `data` in row order; a length mismatch raises `ValueError`. */
    method AddProperty(prop: Name, data: seq<Cell>) returns (r: Result<()>)
      requires Valid()
      modifies this`df
      ensures Valid()
      ensures r.Ok? <==> |data| == |old(df).index|
      ensures r.Ok? ==> df == SetColumn(old(df), prop, ZipMap(old(df).index, data))
      ensures r.Err? ==> df == old(df)
    {
      if |data| != |df.index| {
        return Err(ValueError(ValuesLengthMismatch));
      }
      df := SetColumn(df, prop, ZipMap(df.index, data));
      return Ok(());
    }

    /** `removeProperty(name)`: `del df[name]`, raising `KeyError` for an absent column. */
    method RemoveProperty(prop: Name) returns (r: Result<()>)
      requires Valid()
      modifies this`df
      ensures Valid()
      ensures r.Ok? <==> prop in old(df).columns
      ensures r.Ok? ==> df == DropColumns(old(df), [prop])
      ensures r.Err? ==> r == Err(KeyError(prop)) && df == old(df)
    {
      if prop !in df.columns {
        return Err(KeyError(prop));
      }
      df := DropColumns(df, [prop]);
      return Ok(());
    }
  }

  /** `MoleculeTable.fromSMILES(name, smiles)`: a one-column `SMILES` table with positional keys. */
  function FromSmilesFrame(smiles: seq<string>): (f: Frame)
    ensures WellFormed(f) && f.index == seq(|smiles|, i => i) && f.columns == ["SMILES"]
    ensures forall i :: 0 <= i < |smiles| ==> i in f.cells["SMILES"] && f.cells["SMILES"][i] == Text(smiles[i])
  {
    var index := seq(|smiles|, i => i);
    var col := map i | 0 <= i < |smiles| :: Text(smiles[i]);
    assert forall i :: 0 <= i < |index| ==> index[i] == i;
    assert forall k :: k in col ==> k in index by {
      forall k | k in col ensures k in index { assert index[k] == k; }
    }
    Frame(index, ["SMILES"], map["SMILES" := col])
  }
}
