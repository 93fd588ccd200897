/**
 * The protein descriptor calculator: for each protein descriptor set in turn it hands the
 * set an alignment from the alignment provider when the set takes one, computes the set's
 * block for the accession keys, casts it, treats infinities, prefixes its columns with
 * `Descriptor_PCM_<set>_` and merges it on the index into the table built so far. The
 * descriptor sets, the cast and the treatment of infinities are opaque functions.
 */
module ProteinCalculator {
  import opened Errors
  import opened Strings
  import opened Seqs
  import opened Frames
  import MSA

  /** A well-formed table, as every descriptor set returns. */
  type Table = f: Frame | WellFormed(f) witness Frame([], [], map[])

  /**
   * A protein descriptor set: its `str`, whether it is a fingerprint and of which type, whether
   * it has `setMSA`, and its computation from the accession keys, the sequences and the
   * alignment it was given.
   */
  datatype ProteinSet = ProteinSet(name: string, isFP: bool, fingerprintType: string, takesMSA: bool,
                                   compute: (seq<Key>, Option<MSA.Entries>, Option<MSA.Entries>) -> Table)

  /** `getPrefix()`. */
  const Prefix := "Descriptor_PCM"

  /** The prefix of every column of a set's block: `f"{getPrefix()}_{descset}_"`. */
  function ColumnPrefix(s: ProteinSet): string {
    Prefix + "_" + s.name + "_"
  }

  /** The cell of column `c` at row `k`, `Missing` where the table has none. */
  function At(f: Frame, c: Name, k: Key): Cell {
    if c in f.cells && k in f.cells[c] then f.cells[c][k] else Missing
  }

  /** Every column name of `f` starts with `p`. */
  predicate Prefixed(f: Frame, p: string) {
    forall c :: c in f.columns ==> StartsWith(c, p)
  }

  /** The names `p + c` for the names `c` of `cols`, in order; distinct names stay distinct. */
  function PrefixAll(p: string, cols: seq<Name>): (r: seq<Name>)
    ensures |r| == |cols| && forall i :: 0 <= i < |cols| ==> r[i] == p + cols[i]
    ensures forall c :: c in r ==> StartsWith(c, p)
    ensures Distinct(cols) ==> Distinct(r)
  {
    var r := seq(|cols|, i requires 0 <= i < |cols| => p + cols[i]);
    assert forall i :: 0 <= i < |cols| ==> r[i][..|p|] == p && r[i][|p|..] == cols[i];
    r
  }

  /** Renaming the columns of a well-formed table to distinct names, each keeping its cells, gives a well-formed table. */
  lemma RenamedWellFormed(f: Frame, cols: seq<Name>, vals: seq<map<Key, Cell>>)
    requires WellFormed(f) && Distinct(cols) && |cols| == |f.columns| && |vals| == |cols|
    requires forall i :: 0 <= i < |cols| ==> f.columns[i] in f.cells && vals[i] == f.cells[f.columns[i]]
    ensures WellFormed(Frame(f.index, cols, ZipMap(cols, vals)))
  {
    var m := ZipMap(cols, vals);
    forall c | c in m ensures forall k :: k in m[c] <==> k in f.index {
      var i :| 0 <= i < |cols| && cols[i] == c;
      assert m[c] == f.cells[f.columns[i]];
      assert f.columns[i] in f.cells;
    }
  }

  /** `df.add_prefix(p)`: every column renamed `p + c`, with its cells; the rows are kept. */
  function AddPrefix(f: Table, p: string): (r: Table)
    ensures r.index == f.index && r.columns == PrefixAll(p, f.columns)
    ensures forall i :: 0 <= i < |f.columns| ==> r.cells[r.columns[i]] == f.cells[f.columns[i]]
  {
    var cols := PrefixAll(p, f.columns);
    var vals := seq(|cols|, i requires 0 <= i < |cols| => f.cells[f.columns[i]]);
    RenamedWellFormed(f, cols, vals);
    Frame(f.index, cols, ZipMap(cols, vals))
  }

  /**
   * The block a set contributes: its values cast to `dtype`, with infinities treated, and every
   * column renamed `Descriptor_PCM_<set>_<column>`. The fingerprint type is never part of the
   * name.
   */
  function Block(s: ProteinSet, values: Table, cast: Cell -> Cell, treatInfs: Cell -> Cell): (b: Table)
    ensures b.index == values.index && b.columns == PrefixAll(ColumnPrefix(s), values.columns)
    ensures Prefixed(b, ColumnPrefix(s))
  {
    AddPrefix(MapCells(MapCells(values, cast), treatInfs), ColumnPrefix(s))
  }

  /** Each cell of a block is the set's value at the same row and column, cast and then treated. */
  lemma BlockCells(s: ProteinSet, values: Table, cast: Cell -> Cell, treatInfs: Cell -> Cell)
    ensures var b := Block(s, values, cast, treatInfs);
      forall i, k :: 0 <= i < |values.columns| && k in values.index ==>
        At(b, b.columns[i], k) == treatInfs(cast(At(values, values.columns[i], k)))
  {
    var b := Block(s, values, cast, treatInfs);
    forall i, k | 0 <= i < |values.columns| && k in values.index
      ensures At(b, b.columns[i], k) == treatInfs(cast(At(values, values.columns[i], k)))
    {
      var c := values.columns[i];
      assert c in values.cells && k in values.cells[c];
      assert b.columns[i] in b.cells;
    }
  }

  /** The alignment provider's configuration: its tool, its output directory and its output file name. */
  datatype Provider = Provider(tool: MSA.Tool, outDir: string, fName: string)

  /** The arguments of a call: the accession keys, the sequences, the tool run, the cast and the treatment of infinities. */
  datatype Inputs = Inputs(accKeys: seq<Key>, sequences: Option<MSA.Entries>, align: MSA.Entries -> MSA.Entries,
                           cast: Cell -> Cell, treatInfs: Cell -> Cell)

  /** Where a call stands: the table (or the error raised), the blocks computed, and the provider's state and files. */
  datatype Progress = Progress(df: Result<Table>, blocks: seq<Frame>, msa: MSA.State, files: MSA.Files)

  /** A call of the alignment provider on the call's sequences: its answer, its new state and the files afterwards. */
  type Aligner = (MSA.State, MSA.Files) -> (Result<Option<MSA.Entries>>, MSA.State, MSA.Files)

  /** `self.msaProvider(sequences)` for the configured provider. */
  function ProviderCall(p: Provider, sequences: Option<MSA.Entries>, align: MSA.Entries -> MSA.Entries): Aligner {
    (st: MSA.State, fs: MSA.Files) => MSA.CallSpec(p.tool, p.outDir, p.fName, st, sequences, fs, align)
  }

  /** The alignment a set is given: the provider's answer when the set has `setMSA`, none otherwise. */
  function Aligned(s: ProteinSet, call: Aligner, st: MSA.State, fs: MSA.Files)
    : (Result<Option<MSA.Entries>>, MSA.State, MSA.Files)
  {
    if s.takesMSA then call(st, fs) else (Ok(None), st, fs)
  }

  /** The loop over the descriptor sets, from the table `df` built so far. */
  function Assemble(sets: seq<ProteinSet>, call: Aligner, inp: Inputs, df: Table, blocks: seq<Frame>,
                    st: MSA.State, fs: MSA.Files): Progress
    decreases |sets|
  {
    if sets == [] then Progress(Ok(df), blocks, st, fs)
    else
      var aligned := Aligned(sets[0], call, st, fs);
      match aligned.0
      case Err(e) => Progress(Err(e), blocks, aligned.1, aligned.2)
      case Ok(msa) =>
        var b := Block(sets[0], sets[0].compute(inp.accKeys, inp.sequences, msa), inp.cast, inp.treatInfs);
        match InnerMerge(df, b)
        case Err(e) => Progress(Err(e), blocks + [b], aligned.1, aligned.2)
        case Ok(merged) => Assemble(sets[1..], call, inp, merged, blocks + [b], aligned.1, aligned.2)
  }

  /** `ProteinDescriptorCalculator.__call__`: the loop from `pd.DataFrame(index=acc_keys)`. */
  function CalculatorSpec(sets: seq<ProteinSet>, p: Provider, inp: Inputs, st: MSA.State, fs: MSA.Files): Progress
    requires Distinct(inp.accKeys)
  {
    Assemble(sets, ProviderCall(p, inp.sequences, inp.align), inp, IndexOnly(inp.accKeys), [], st, fs)
  }

  // ---------------------------------------------------------------------------------------
  // The ordered merge

  /** The columns of the blocks, block after block. */
  function AllColumns(blocks: seq<Frame>): seq<Name> {
    if blocks == [] then [] else blocks[0].columns + AllColumns(blocks[1..])
  }

  /** Every block is well formed. */
  predicate AllWellFormed(blocks: seq<Frame>) {
    forall j :: 0 <= j < |blocks| ==> WellFormed(blocks[j])
  }

  /** Merging the blocks into `df` one after the other. */
  function MergeAll(df: Table, blocks: seq<Frame>): Result<Table>
    requires AllWellFormed(blocks)
    decreases |blocks|
  {
    if blocks == [] then Ok(df)
    else match InnerMerge(df, blocks[0])
      case Err(e) => Err(e)
      case Ok(merged) => MergeAll(merged, blocks[1..])
  }

  /** A row key every block has. */
  predicate InAll(k: Key, blocks: seq<Frame>) {
    forall j :: 0 <= j < |blocks| ==> k in blocks[j].index
  }

  /** The parts of a distinct sequence are distinct and share no element. */
  lemma DistinctSplit(a: seq<Name>, b: seq<Name>)
    requires Distinct(a + b)
    ensures Distinct(a) && Distinct(b) && forall c :: c in b ==> c !in a
  {
    forall i, j | 0 <= i < |a| && 0 <= j < |b| ensures a[i] != b[j] {
      assert (a + b)[i] == a[i] && (a + b)[|a| + j] == b[j];
    }
    forall i, j | 0 <= i < j < |b| ensures b[i] != b[j] {
      assert (a + b)[|a| + i] == b[i] && (a + b)[|a| + j] == b[j];
    }
    forall i, j | 0 <= i < j < |a| ensures a[i] != a[j] {
      assert (a + b)[i] == a[i] && (a + b)[j] == a[j];
    }
  }

  /** One merge without overlapping names keeps the columns of `f` under their own names, with their cells. */
  lemma MergeLeftCells(f: Table, g: Table)
    requires Distinct(f.columns + g.columns)
    ensures InnerMerge(f, g).Ok?
    ensures var m := InnerMerge(f, g).value;
      m.columns == f.columns + g.columns && m.index == KeysIn(f.index, g.index) &&
      forall c, k :: c in f.columns && k in m.index ==> At(m, c, k) == At(f, c, k)
  {
    DistinctSplit(f.columns, g.columns);
    MergeDisjoint(f, g);
    var m := InnerMerge(f, g).value;
    forall c, k | c in f.columns && k in m.index ensures At(m, c, k) == At(f, c, k) {
      var i :| 0 <= i < |f.columns| && f.columns[i] == c;
      assert m.columns[i] == c;
    }
  }

  /** One merge without overlapping names keeps the columns of `g` under their own names, with their cells. */
  lemma MergeRightCells(f: Table, g: Table)
    requires Distinct(f.columns + g.columns)
    ensures InnerMerge(f, g).Ok?
    ensures var m := InnerMerge(f, g).value;
      forall c, k :: c in g.columns && k in m.index ==> At(m, c, k) == At(g, c, k)
  {
    DistinctSplit(f.columns, g.columns);
    MergeDisjoint(f, g);
    var m := InnerMerge(f, g).value;
    forall c, k | c in g.columns && k in m.index ensures At(m, c, k) == At(g, c, k) {
      var j :| 0 <= j < |g.columns| && g.columns[j] == c;
      MergedRightAt(f, g, j, k);
    }
  }

  /** The merged column at position `|f.columns| + j` holds the cells of column `j` of `g`. */
  lemma MergedRightAt(f: Table, g: Table, j: nat, k: Key)
    requires InnerMerge(f, g).Ok? && j < |g.columns| && k in InnerMerge(f, g).value.index
    ensures var m := InnerMerge(f, g).value; At(m, m.columns[|f.columns| + j], k) == At(g, g.columns[j], k)
  {
    var m := InnerMerge(f, g).value;
    assert k in g.index;
    assert g.columns[j] in g.cells && m.columns[|f.columns| + j] in m.cells;
  }

  /** A key is in every block exactly when it is in the first and in every later one. */
  lemma InAllCons(k: Key, blocks: seq<Frame>)
    requires blocks != []
    ensures InAll(k, blocks) <==> k in blocks[0].index && InAll(k, blocks[1..])
  {
    if k in blocks[0].index && InAll(k, blocks[1..]) {
      forall j | 0 < j < |blocks| ensures k in blocks[j].index { assert blocks[j] == blocks[1..][j - 1]; }
    }
    if InAll(k, blocks) {
      forall j | 0 <= j < |blocks[1..]| ensures k in blocks[1..][j].index { assert blocks[1..][j] == blocks[j + 1]; }
    }
  }

  /**
   * Merging blocks whose column names are distinct from each other and from those of `df`
   * keeps every column under its own name, in block order, and keeps the rows of `df` that
   * every block has, in the order of `df`.
   */
  lemma {:induction false} MergeAllShape(df: Table, blocks: seq<Frame>)
    requires AllWellFormed(blocks) && Distinct(df.columns + AllColumns(blocks))
    ensures MergeAll(df, blocks).Ok?
    ensures var r := MergeAll(df, blocks).value;
      r.columns == df.columns + AllColumns(blocks) && Subsequence(r.index, df.index) &&
      forall k :: k in r.index <==> k in df.index && InAll(k, blocks)
    decreases |blocks|
  {
    if blocks == [] {
      SubsequenceRefl(df.index);
    } else {
      var b := blocks[0];
      assert df.columns + AllColumns(blocks) == (df.columns + b.columns) + AllColumns(blocks[1..]);
      DistinctSplit(df.columns + b.columns, AllColumns(blocks[1..]));
      MergeLeftCells(df, b);
      var merged := InnerMerge(df, b).value;
      MergeAllShape(merged, blocks[1..]);
      var r := MergeAll(merged, blocks[1..]).value;
      SubsequenceTransitive(r.index, merged.index, df.index);
      forall k ensures k in r.index <==> k in df.index && InAll(k, blocks) {
        InAllCons(k, blocks);
      }
    }
  }

  /** After merging such blocks, the columns of `df` keep their cells. */
  lemma {:induction false} MergeAllKeepsStart(df: Table, blocks: seq<Frame>)
    requires AllWellFormed(blocks) && Distinct(df.columns + AllColumns(blocks))
    ensures MergeAll(df, blocks).Ok?
    ensures var r := MergeAll(df, blocks).value;
      forall c, k :: c in df.columns && k in r.index ==> At(r, c, k) == At(df, c, k)
    decreases |blocks|
  {
    if blocks != [] {
      var b := blocks[0];
      assert df.columns + AllColumns(blocks) == (df.columns + b.columns) + AllColumns(blocks[1..]);
      DistinctSplit(df.columns + b.columns, AllColumns(blocks[1..]));
      MergeLeftCells(df, b);
      var merged := InnerMerge(df, b).value;
      MergeAllKeepsStart(merged, blocks[1..]);
      MergeAllShape(merged, blocks[1..]);
      var r := MergeAll(merged, blocks[1..]).value;
      forall c, k | c in df.columns && k in r.index ensures At(r, c, k) == At(df, c, k) {
        assert c in merged.columns && k in merged.index;
        assert At(r, c, k) == At(merged, c, k);
      }
    }
  }

  /** After merging such blocks, every column of a block keeps that block's cells. */
  lemma {:induction false} MergeAllCells(df: Table, blocks: seq<Frame>)
    requires AllWellFormed(blocks) && Distinct(df.columns + AllColumns(blocks))
    ensures MergeAll(df, blocks).Ok?
    ensures var r := MergeAll(df, blocks).value;
      forall j, c, k :: 0 <= j < |blocks| && c in blocks[j].columns && k in r.index ==> At(r, c, k) == At(blocks[j], c, k)
    decreases |blocks|
  {
    if blocks != [] {
      var b := blocks[0];
      assert df.columns + AllColumns(blocks) == (df.columns + b.columns) + AllColumns(blocks[1..]);
      DistinctSplit(df.columns + b.columns, AllColumns(blocks[1..]));
      MergeLeftCells(df, b);
      MergeRightCells(df, b);
      var merged := InnerMerge(df, b).value;
      MergeAllCells(merged, blocks[1..]);
      MergeAllKeepsStart(merged, blocks[1..]);
      MergeAllShape(merged, blocks[1..]);
      var r := MergeAll(merged, blocks[1..]).value;
      forall j, c, k | 0 <= j < |blocks| && c in blocks[j].columns && k in r.index
        ensures At(r, c, k) == At(blocks[j], c, k)
      {
        if j > 0 {
          assert blocks[j] == blocks[1..][j - 1];
        } else {
          assert c in merged.columns && k in merged.index;
          assert At(r, c, k) == At(merged, c, k);
        }
      }
    }
  }

  /** Each block carries the prefix of the set at the same position. */
  predicate PrefixedBlocks(bs: seq<Frame>, sets: seq<ProteinSet>) {
    |bs| <= |sets| && forall j :: 0 <= j < |bs| ==> Prefixed(bs[j], ColumnPrefix(sets[j]))
  }

  lemma PrefixedBlocksCons(b: Table, bs: seq<Frame>, sets: seq<ProteinSet>)
    requires sets != [] && Prefixed(b, ColumnPrefix(sets[0])) && PrefixedBlocks(bs, sets[1..])
    ensures PrefixedBlocks([b] + bs, sets)
  {
    forall j | 0 < j < |[b] + bs| ensures Prefixed(([b] + bs)[j], ColumnPrefix(sets[j])) {
      assert ([b] + bs)[j] == bs[j - 1] && sets[j] == sets[1..][j - 1];
    }
  }

  /**
   * The loop records one block per set it reaches, after the blocks it started with, and the
   * block of each set carries that set's prefix on every column.
   */
  lemma {:induction false} AssemblePrefixes(sets: seq<ProteinSet>, call: Aligner, inp: Inputs, df: Table, blocks: seq<Frame>,
                                           st: MSA.State, fs: MSA.Files)
    ensures var out := Assemble(sets, call, inp, df, blocks, st, fs);
      blocks <= out.blocks && PrefixedBlocks(out.blocks[|blocks|..], sets)
    decreases |sets|
  {
    var out := Assemble(sets, call, inp, df, blocks, st, fs);
    if sets != [] {
      var aligned := Aligned(sets[0], call, st, fs);
      if aligned.0.Ok? {
        var b := Block(sets[0], sets[0].compute(inp.accKeys, inp.sequences, aligned.0.value), inp.cast, inp.treatInfs);
        if InnerMerge(df, b).Ok? {
          var merged := InnerMerge(df, b).value;
          AssemblePrefixes(sets[1..], call, inp, merged, blocks + [b], aligned.1, aligned.2);
          assert out == Assemble(sets[1..], call, inp, merged, blocks + [b], aligned.1, aligned.2);
          assert out.blocks[|blocks|] == (blocks + [b])[|blocks|] == b;
          SliceCons(out.blocks, |blocks|);
          PrefixedBlocksCons(b, out.blocks[|blocks| + 1..], sets);
        } else {
          assert out.blocks[|blocks|..] == [b];
          PrefixedBlocksCons(b, [], sets);
        }
      } else {
        assert out.blocks[|blocks|..] == [];
      }
    } else {
      assert out.blocks[|blocks|..] == [];
    }
  }

  /** A suffix is its first element followed by the next suffix. */
  lemma SliceCons<T>(s: seq<T>, i: nat)
    requires i < |s|
    ensures s[i..] == [s[i]] + s[i + 1..]
  {
  }

  /** The suffix from the start is the whole sequence. */
  lemma SliceAll<T>(s: seq<T>)
    ensures s[0..] == s
  {
  }

  lemma AllWellFormedCons(b: Table, rest: seq<Frame>)
    requires AllWellFormed(rest)
    ensures AllWellFormed([b] + rest)
  {
    forall j | 0 < j < |[b] + rest| ensures WellFormed(([b] + rest)[j]) {
      assert ([b] + rest)[j] == rest[j - 1];
    }
  }

  /** Merging a first block and then the rest. */
  lemma MergeAllCons(df: Table, b: Table, rest: seq<Frame>)
    requires AllWellFormed(rest) && InnerMerge(df, b).Ok?
    ensures MergeAll(df, [b] + rest) == MergeAll(InnerMerge(df, b).value, rest)
  {
    assert ([b] + rest)[0] == b && ([b] + rest)[1..] == rest;
  }

  /** When the loop completes, it has one block per set and its table is those blocks merged in order into the starting table. */
  lemma {:induction false} AssembleMerges(sets: seq<ProteinSet>, call: Aligner, inp: Inputs, df: Table, blocks: seq<Frame>,
                                         st: MSA.State, fs: MSA.Files)
    ensures var out := Assemble(sets, call, inp, df, blocks, st, fs);
      out.df.Ok? ==>
        |out.blocks| == |blocks| + |sets| && blocks <= out.blocks && AllWellFormed(out.blocks[|blocks|..]) &&
        out.df == MergeAll(df, out.blocks[|blocks|..])
    decreases |sets|
  {
    if sets != [] {
      var aligned := Aligned(sets[0], call, st, fs);
      if aligned.0.Ok? {
        var b := Block(sets[0], sets[0].compute(inp.accKeys, inp.sequences, aligned.0.value), inp.cast, inp.treatInfs);
        if InnerMerge(df, b).Ok? {
          var merged := InnerMerge(df, b).value;
          AssembleMerges(sets[1..], call, inp, merged, blocks + [b], aligned.1, aligned.2);
          var out := Assemble(sets[1..], call, inp, merged, blocks + [b], aligned.1, aligned.2);
          assert Assemble(sets, call, inp, df, blocks, st, fs) == out;
          if out.df.Ok? {
            assert out.blocks[|blocks|] == (blocks + [b])[|blocks|] == b;
            SliceCons(out.blocks, |blocks|);
            AllWellFormedCons(b, out.blocks[|blocks| + 1..]);
            MergeAllCons(df, b, out.blocks[|blocks| + 1..]);
          }
        }
      }
    }
  }

  /**
   * A completed call whose block columns are all distinct: one block per set, in the order of
   * the sets, each column named with its set's `Descriptor_PCM_<set>_` prefix; the table has the
   * columns of the blocks in that order and the accession keys present in every block, in the
   * order given.
   */
  lemma CalculatorColumns(sets: seq<ProteinSet>, p: Provider, inp: Inputs, st: MSA.State, fs: MSA.Files)
    requires Distinct(inp.accKeys)
    requires CalculatorSpec(sets, p, inp, st, fs).df.Ok?
    requires Distinct(AllColumns(CalculatorSpec(sets, p, inp, st, fs).blocks))
    ensures var out := CalculatorSpec(sets, p, inp, st, fs);
      |out.blocks| == |sets| &&
      PrefixedBlocks(out.blocks, sets) &&
      out.df.value.columns == AllColumns(out.blocks) &&
      Subsequence(out.df.value.index, inp.accKeys) &&
      forall k :: k in out.df.value.index <==> k in inp.accKeys && InAll(k, out.blocks)
  {
    var df := IndexOnly(inp.accKeys);
    AssemblePrefixes(sets, ProviderCall(p, inp.sequences, inp.align), inp, df, [], st, fs);
    AssembleMerges(sets, ProviderCall(p, inp.sequences, inp.align), inp, df, [], st, fs);
    var out := CalculatorSpec(sets, p, inp, st, fs);
    SliceAll(out.blocks);
    assert df.columns + AllColumns(out.blocks) == AllColumns(out.blocks);
    MergeAllShape(df, out.blocks);
  }

  /** In such a call every cell of the table is the cell of the block its column came from. */
  lemma CalculatorCells(sets: seq<ProteinSet>, p: Provider, inp: Inputs, st: MSA.State, fs: MSA.Files)
    requires Distinct(inp.accKeys)
    requires CalculatorSpec(sets, p, inp, st, fs).df.Ok?
    requires Distinct(AllColumns(CalculatorSpec(sets, p, inp, st, fs).blocks))
    ensures var out := CalculatorSpec(sets, p, inp, st, fs);
      forall j, c, k :: 0 <= j < |out.blocks| && c in out.blocks[j].columns && k in out.df.value.index ==>
        At(out.df.value, c, k) == At(out.blocks[j], c, k)
  {
    var df := IndexOnly(inp.accKeys);
    AssembleMerges(sets, ProviderCall(p, inp.sequences, inp.align), inp, df, [], st, fs);
    var out := CalculatorSpec(sets, p, inp, st, fs);
    SliceAll(out.blocks);
    assert df.columns + AllColumns(out.blocks) == AllColumns(out.blocks);
    MergeAllCells(df, out.blocks);
  }

  /** Sets without `setMSA` never reach the provider: a call over such sets leaves its state and the files as they were. */
  lemma {:induction false} NoAlignmentWithoutSetMSA(sets: seq<ProteinSet>, call: Aligner, inp: Inputs, df: Table,
                                                   blocks: seq<Frame>, st: MSA.State, fs: MSA.Files)
    requires forall j :: 0 <= j < |sets| ==> !sets[j].takesMSA
    ensures Assemble(sets, call, inp, df, blocks, st, fs).msa == st
    ensures Assemble(sets, call, inp, df, blocks, st, fs).files == fs
    decreases |sets|
  {
    if sets != [] {
      var values := sets[0].compute(inp.accKeys, inp.sequences, None);
      var b := Block(sets[0], values, inp.cast, inp.treatInfs);
      if InnerMerge(df, b).Ok? {
        forall j | 0 <= j < |sets[1..]| ensures !sets[1..][j].takesMSA { assert sets[1..][j] == sets[j + 1]; }
        NoAlignmentWithoutSetMSA(sets[1..], call, inp, InnerMerge(df, b).value, blocks + [b], st, fs);
      }
    }
  }

  // ---------------------------------------------------------------------------------------
  // Files

  /** Where the provider's state is saved: `f"{fname}.msaprovider"`. */
  function ProviderFile(fname: string): (r: string)
    ensures StartsWith(r, fname) && !EndsWith(r, ".msa")
  {
    var r := fname + ".msaprovider";
    assert r[..|fname|] == fname;
    assert r[|r| - 4..] == "ider";
    r
  }

  /** The provider class recorded in the provider file, imported; an unknown class path raises `ImportError`. */
  function ProviderClass(fname: string, fs: MSA.Files): (r: Result<MSA.Tool>)
    ensures r.Ok? ==> ProviderFile(fname) in fs && fs[ProviderFile(fname)].JsonObject?
  {
    var path := ProviderFile(fname);
    if path !in fs then Err(FileNotFound(path))
    else if fs[path].Fasta? then Err(ValueError(NotJson))
    else match MSA.Lookup(fs[path].entries, "class")
      case None => Err(KeyError("class"))
      case Some(cls) =>
        match MSA.ToolOfClass(cls)
        case None => Err(ImportError(cls))
        case Some(tool) => Ok(tool)
  }

  /** The provider saved with a calculator is found again: `fromFile` imports the class that `toFile` recorded. */
  lemma ProviderClassRoundTrip(tool: MSA.Tool, outDir: string, fName: string, st: MSA.State, fname: string, fs: MSA.Files)
    ensures ProviderClass(fname, MSA.ToFileSpec(tool, outDir, fName, st, ProviderFile(fname), fs)) == Ok(tool)
  {
    MSA.ToFileWrites(tool, outDir, fName, st, ProviderFile(fname), fs);
    MSA.ProviderRecordLookups(tool, outDir, fName, ProviderFile(fname));
    MSA.ToolOfClassPath(tool);
  }

  /** Computes protein descriptors from sets that may need an alignment of the sequences. */
  class ProteinDescriptorCalculator {
    const descSets: seq<ProteinSet>
    var msaProvider: MSA.BioPythonMSA

    /** `__init__(desc_sets, msa_provider)`. */
    constructor (descSets: seq<ProteinSet>, msaProvider: MSA.BioPythonMSA)
      ensures this.descSets == descSets && this.msaProvider == msaProvider
    {
      this.descSets := descSets;
      this.msaProvider := msaProvider;
    }

    function ProviderConfig(): Provider
      reads this, msaProvider
    {
      Provider(msaProvider.tool, msaProvider.outDir, msaProvider.fName)
    }

    /** The alignment handed to a set: `self.msaProvider(sequences)` when the set has `setMSA`. */
    method AlignFor(descset: ProteinSet, sequences: Option<MSA.Entries>, fs: MSA.Files, align: MSA.Entries -> MSA.Entries)
      returns (res: Result<Option<MSA.Entries>>, fs': MSA.Files)
      modifies msaProvider
      ensures (res, msaProvider.Snapshot(), fs') ==
        Aligned(descset, ProviderCall(old(ProviderConfig()), sequences, align), old(msaProvider.Snapshot()), fs)
    {
      if descset.takesMSA {
        res, fs' := msaProvider.Call(sequences, fs, align);
      } else {
        res, fs' := Ok(None), fs;
      }
    }

    /** The block of one set from its values: the fingerprint-type prefix (whose result is dropped), the cast, the treatment of infinities and the set's prefix. */
    static method BlockOf(descset: ProteinSet, values: Table, cast: Cell -> Cell, treatInfs: Cell -> Cell) returns (block: Table)
      ensures block == Block(descset, values, cast, treatInfs)
    {
      if descset.isFP {
        var discarded := AddPrefix(values, descset.fingerprintType + "_");
      }
      var typed := MapCells(values, cast);
      var treated := MapCells(typed, treatInfs);
      block := AddPrefix(treated, ColumnPrefix(descset));
    }

    /** `__call__(acc_keys, sequences, dtype)`. */
    method Call(accKeys: seq<Key>, sequences: Option<MSA.Entries>, fs: MSA.Files, align: MSA.Entries -> MSA.Entries,
                cast: Cell -> Cell, treatInfs: Cell -> Cell) returns (r: Result<Table>, fs': MSA.Files)
      requires Distinct(accKeys)
      modifies msaProvider
      ensures var out := CalculatorSpec(descSets, old(ProviderConfig()), Inputs(accKeys, sequences, align, cast, treatInfs),
                                        old(msaProvider.Snapshot()), fs);
        r == out.df && fs' == out.files && msaProvider.Snapshot() == out.msa
    {
      ghost var inp := Inputs(accKeys, sequences, align, cast, treatInfs);
      ghost var p := ProviderConfig();
      ghost var call := ProviderCall(p, sequences, align);
      ghost var spec := CalculatorSpec(descSets, p, inp, old(msaProvider.Snapshot()), fs);
      var df: Table := IndexOnly(accKeys);
      ghost var blocks: seq<Frame> := [];
      fs' := fs;
      for i := 0 to |descSets|
        invariant p == ProviderConfig()
        invariant Assemble(descSets[i..], call, inp, df, blocks, msaProvider.Snapshot(), fs') == spec
      {
        var descset := descSets[i];
        assert descSets[i..][0] == descset && descSets[i..][1..] == descSets[i + 1..];
        var res;
        res, fs' := AlignFor(descset, sequences, fs', align);
        if res.Err? {
          return Err(res.error), fs';
        }
        var values := descset.compute(accKeys, sequences, res.value);
        var block := BlockOf(descset, values, cast, treatInfs);
        var merged := InnerMerge(df, block);
        if merged.Err? {
          return Err(merged.error), fs';
        }
        df := merged.value;
        blocks := blocks + [block];
      }
      assert descSets[|descSets|..] == [];
      r := Ok(df);
    }

    /** `toFile(fname)`: the provider's state goes to `<fname>.msaprovider`. */
    method ToFile(fname: string, fs: MSA.Files) returns (fs': MSA.Files)
      ensures fs' == MSA.ToFileSpec(msaProvider.tool, msaProvider.outDir, msaProvider.fName, msaProvider.Snapshot(),
                                    ProviderFile(fname), fs)
    {
      fs' := msaProvider.ToFile(fname + ".msaprovider", fs);
    }

    /** `fromFile(fname)`: a calculator over `descSets` whose provider is loaded from `<fname>.msaprovider` by its recorded class. */
    static method FromFile(descSets: seq<ProteinSet>, fname: string, fs: MSA.Files)
      returns (r: Result<ProteinDescriptorCalculator>)
      ensures ProviderClass(fname, fs).Err? ==> r == Err(ProviderClass(fname, fs).error)
      ensures ProviderClass(fname, fs).Ok? && MSA.FromFileSpec(ProviderFile(fname), fs).Err? ==>
        r == Err(MSA.FromFileSpec(ProviderFile(fname), fs).error)
      ensures ProviderClass(fname, fs).Ok? && MSA.FromFileSpec(ProviderFile(fname), fs).Ok? ==>
        r.Ok? && r.value.descSets == descSets && r.value.msaProvider.tool == ProviderClass(fname, fs).value &&
        MSA.Restored(r.value.msaProvider.outDir, r.value.msaProvider.fName, r.value.msaProvider.Snapshot()) ==
          MSA.FromFileSpec(ProviderFile(fname), fs).value
    {
      var path := fname + ".msaprovider";
      if path !in fs {
        return Err(FileNotFound(path));
      }
      if fs[path].Fasta? {
        return Err(ValueError(NotJson));
      }
      var cls := MSA.Lookup(fs[path].entries, "class");
      if cls.None? {
        return Err(KeyError("class"));
      }
      var tool := MSA.ToolOfClass(cls.value);
      if tool.None? {
        return Err(ImportError(cls.value));
      }
      var provider := MSA.BioPythonMSA.FromFile(tool.value, path, fs);
      if provider.Err? {
        return Err(provider.error);
      }
      var ret := new ProteinDescriptorCalculator(descSets, provider.value);
      r := Ok(ret);
    }
  }

  /**
   * `ProteinDescriptorCalculator(desc_sets)` without a provider: the default `ClustalMSA()` is
   * evaluated once, when `__init__` is defined, so every calculator built this way holds that
   * one provider, here `shared`. After a call through the first calculator, the second sees the
   * cache and the current alignment the call left behind.
   */
  method DefaultProviderShared(sets1: seq<ProteinSet>, sets2: seq<ProteinSet>, shared: MSA.BioPythonMSA,
                               accKeys: seq<Key>, sequences: Option<MSA.Entries>, fs: MSA.Files,
                               align: MSA.Entries -> MSA.Entries, cast: Cell -> Cell, treatInfs: Cell -> Cell)
    returns (c1: ProteinDescriptorCalculator, c2: ProteinDescriptorCalculator, r: Result<Table>)
    requires shared.tool == MSA.Clustal && Distinct(accKeys)
    modifies shared
    ensures c1.msaProvider == shared && c2.msaProvider == shared
    ensures c1.descSets == sets1 && c2.descSets == sets2
    ensures var out := CalculatorSpec(sets1, Provider(shared.tool, shared.outDir, shared.fName),
                                      Inputs(accKeys, sequences, align, cast, treatInfs), old(shared.Snapshot()), fs);
      r == out.df && c2.msaProvider.Snapshot() == out.msa
  {
    c1 := new ProteinDescriptorCalculator(sets1, shared);
    c2 := new ProteinDescriptorCalculator(sets2, shared);
    var fs';
    r, fs' := c1.Call(accKeys, sequences, fs, align, cast, treatInfs);
  }
}
