/**
 * The descriptor sets: named collections of molecular descriptors with their naming and width
 * rules, the fingerprint index narrowing, the pass-through set over a precomputed table, the
 * reference-distance set, the single-column predictor set, and the registry that finds a set's
 * constructor from its name. The chemistry back-ends (RDKit, the fingerprint generators, the
 * physico-chemical property calculator, the RDKit descriptor calculator and trained models) are
 * function-valued parameters.
 */
module DescriptorSets {
  import opened Errors
  import opened Strings
  import opened Seqs
  import opened Frames

  /** An RDKit molecule, known here only through the functions that build and read it. */
  datatype Molecule = Molecule(repr: string)

  /** An element of a molecule list: a SMILES string or an already parsed molecule. */
  datatype MolArg = Smiles(smiles: string) | Parsed(mol: Molecule)

  /**
   * The RDKit functions the sets call: `Chem.MolFromSmiles` (`None` for an unparsable SMILES),
   * `Chem.AddHs`, `Chem.MolToSmiles` and the Tanimoto similarity of two bit strings.
   */
  datatype Chem = Chem(parse: string -> Option<Molecule>, addHs: Molecule -> Molecule,
                       toSmiles: Molecule -> string, similarity: (string, string) -> real)

  /** Descriptor values, one row per molecule. */
  type Values = seq<seq<real>>

  /** Fingerprint bits, one row per molecule. */
  type Bits = seq<seq<int>>

  /** A value stored in a set's `settings` dictionary. */
  datatype Setting = SText(text: string) | SList(items: seq<string>) | SBool(flag: bool) | SArgs(repr: string)

  /**
   * A fingerprint generator from the fingerprints registry: its length (`len(generator)`), its
   * own settings, and the bits it computes for a list of molecules.
   */
  datatype Generator = Generator(length: nat, settings: map<string, Setting>, compute: seq<Option<Molecule>> -> Bits)

  /** The generator gives one row of bits per molecule. */
  ghost predicate OneRowPerMolecule(g: Generator) {
    forall ms: seq<Option<Molecule>> {:trigger g.compute(ms)} :: |g.compute(ms)| == |ms|
  }

  /**
   * `iterMols`: SMILES are parsed, molecules pass through unchanged, in the order given.
   */
  function IterMols(mols: seq<MolArg>, parse: string -> Option<Molecule>): (r: seq<Option<Molecule>>)
    ensures |r| == |mols|
    ensures forall i :: 0 <= i < |mols| && mols[i].Parsed? ==> r[i] == Some(mols[i].mol)
    ensures forall i :: 0 <= i < |mols| && mols[i].Smiles? ==> r[i] == parse(mols[i].smiles)
  {
    Map(mols, (m: MolArg) => if m.Smiles? then parse(m.smiles) else Some(m.mol))
  }

  /** `int(x)` on a float: truncation toward zero. */
  function Trunc(x: real): (n: int)
    ensures x >= 0.0 ==> n as real <= x < n as real + 1.0
    ensures x < 0.0 ==> n as real - 1.0 < x <= n as real
  {
    if x >= 0.0 then x.Floor else -((-x).Floor)
  }

  /** A NumPy index `k` is valid on an axis of length `w` when `-w <= k < w`. */
  predicate InAxis(k: int, w: nat) {
    -(w as int) <= k < w
  }

  /** The position a valid NumPy index denotes: a negative one counts from the end. */
  function Position(k: int, w: nat): (p: nat)
    requires InAxis(k, w)
    ensures p < w
    ensures k >= 0 ==> p == k
    ensures k < 0 ==> p + (-k) == w
  {
    if k < 0 then k + w else k
  }

  /** `rows[:, keep]`: the columns at the positions `keep`, in that order; an invalid index raises `IndexError`. */
  function ColumnsAt(rows: Bits, keep: seq<int>): (r: Result<Bits>)
    ensures r.Ok? <==> forall i, j :: 0 <= i < |rows| && 0 <= j < |keep| ==> InAxis(keep[j], |rows[i]|)
    ensures r.Ok? ==> |r.value| == |rows| && forall i :: 0 <= i < |rows| ==> |r.value[i]| == |keep|
    ensures r.Ok? ==> forall i, j :: 0 <= i < |rows| && 0 <= j < |keep| ==>
      InAxis(keep[j], |rows[i]|) && r.value[i][j] == rows[i][Position(keep[j], |rows[i]|)]
    ensures r.Err? ==> r.error == IndexError(IndexOutOfBounds)
  {
    if forall i, j :: 0 <= i < |rows| && 0 <= j < |keep| ==> InAxis(keep[j], |rows[i]|) then
      Ok(seq(|rows|, i requires 0 <= i < |rows| =>
        seq(|keep|, j requires 0 <= j < |keep| => rows[i][Position(keep[j], |rows[i]|)])))
    else Err(IndexError(IndexOutOfBounds))
  }

  /** Keeping every column of a table of width `w`, in order, gives the table back. */
  lemma ColumnsAtAll(rows: Bits, w: nat)
    requires forall i :: 0 <= i < |rows| ==> |rows[i]| == w
    ensures ColumnsAt(rows, seq(w, j => j)) == Ok(rows)
  {
    var keep := seq(w, j => j);
    var r := ColumnsAt(rows, keep);
    assert r.Ok?;
    forall i | 0 <= i < |rows| ensures r.value[i] == rows[i] {
      forall j | 0 <= j < w ensures r.value[i][j] == rows[i][j] {
        assert keep[j] == j && Position(keep[j], |rows[i]|) == j;
      }
    }
    assert r.value == rows;
  }

  /** `''.join(map(str, bits))`: the bit string `DataStructs.CreateFromBitString` is given. */
  function BitString(bits: seq<int>): string {
    Join(Map(bits, IntToString), "")
  }

  // ---------------------------------------------------------------------------------------
  // DataFrameDescriptorSet

  /** A set that passes through the columns of a precomputed table. */
  class DataFrameDescriptorSet {
    const df: Frame
    var descriptors: seq<Name>

    /** `DataFrameDescriptorSet(df)`: the descriptors are the table's columns. */
    constructor (df: Frame)
      ensures this.df == df && descriptors == df.columns
    {
      this.df := df;
      descriptors := df.columns;
    }

    method SetDescriptors(value: seq<Name>)
      modifies this
      ensures descriptors == value
    {
      descriptors := value;
    }

    /**
     * `__call__(index)`: a left merge of an empty table over `index` with the stored table,
     * then the `descriptors` columns in that order. A descriptor that is not a column raises
     * `KeyError`; a key absent from the stored table gives missing values.
     */
    function Compute(index: seq<Key>): (r: Result<seq<seq<Cell>>>)
      reads this
      requires WellFormed(df) && Distinct(index)
      ensures r.Ok? <==> forall c :: c in descriptors ==> c in df.columns
      ensures r.Err? ==> r.error.KeyError? && r.error.key in descriptors && r.error.key !in df.columns
      ensures r.Ok? ==> |r.value| == |index| && forall i :: 0 <= i < |index| ==> |r.value[i]| == |descriptors|
      ensures r.Ok? ==> forall i, j :: 0 <= i < |index| && 0 <= j < |descriptors| ==>
        r.value[i][j] == if index[i] in df.index then df.cells[descriptors[j]][index[i]] else Missing
    {
      var merged := LeftJoin(IndexOnly(index), df).value;
      Project(merged, descriptors)
    }

    /** A freshly built set asked for the stored table's own index gives back its rows. */
    lemma ComputeOwnIndex()
      requires WellFormed(df) && descriptors == df.columns
      ensures Compute(df.index) == Ok(Rows(df))
    {
      var r := Compute(df.index);
      assert r.Ok?;
      var rows := Rows(df);
      forall i, j | 0 <= i < |df.index| && 0 <= j < |descriptors| ensures r.value[i][j] == rows[i][j] {
        assert df.index[i] in df.index;
        assert r.value[i][j] == df.cells[descriptors[j]][df.index[i]];
        assert rows[i][j] == df.cells[df.columns[j]][df.index[i]];
      }
      SameCells(r.value, rows, |descriptors|);
    }
  }

  /** Two tables of rows of the same shape with the same cells are equal. */
  lemma SameCells(a: seq<seq<Cell>>, b: seq<seq<Cell>>, width: nat)
    requires |a| == |b| && (forall i :: 0 <= i < |a| ==> |a[i]| == width && |b[i]| == width)
    requires forall i, j :: 0 <= i < |a| && 0 <= j < width ==> a[i][j] == b[i][j]
    ensures a == b
  {
    forall i | 0 <= i < |a| ensures a[i] == b[i] {
      assert forall j :: 0 <= j < width ==> a[i][j] == b[i][j];
    }
  }

  // ---------------------------------------------------------------------------------------
  // FingerprintSet

  /** A fingerprint of a given type, optionally narrowed to a list of bit positions. */
  class FingerprintSet {
    const fingerprintType: string
    const generator: Generator
    const chem: Chem
    var keepIndices: Option<seq<int>>

    /** `FingerprintSet(fingerprint_type, ...)`: the generator is the registry's, nothing is narrowed. */
    constructor (fingerprintType: string, generator: Generator, chem: Chem)
      ensures this.fingerprintType == fingerprintType && this.generator == generator && this.chem == chem
      ensures keepIndices == None
    {
      this.fingerprintType := fingerprintType;
      this.generator := generator;
      this.chem := chem;
      keepIndices := None;
    }

    /** `if self.keepindices`: a list of kept positions that is not empty. */
    predicate Narrowed()
      reads this
    {
      keepIndices.Some? && |keepIndices.value| > 0
    }

    /**
     * The `keepindices` setter: the values truncated toward zero, or `None` when the argument
     * is `None` or empty.
     */
    method SetKeepIndices(val: Option<seq<real>>)
      modifies this
      ensures val.None? || |val.value| == 0 ==> keepIndices == None
      ensures val.Some? && |val.value| > 0 ==> keepIndices == Some(Map(val.value, Trunc))
      ensures Narrowed() <==> keepIndices.Some?
    {
      if val.None? || |val.value| == 0 {
        keepIndices := None;
      } else {
        keepIndices := Some(Map(val.value, Trunc));
      }
    }

    /**
     * The `descriptors` setter calls the value of the `keepindices` property, a list or `None`,
     * which is not callable: it always raises `TypeError` and changes nothing.
     */
    method SetDescriptors(value: seq<string>) returns (r: Result<()>)
      ensures r == Err(TypeError(NotCallable(if keepIndices.None? then "NoneType" else "list")))
    {
      var typeName := if keepIndices.None? then "NoneType" else "list";
      r := Err(TypeError(NotCallable(typeName)));
    }

    /** `__str__`. */
    function Str(): string {
      "FingerprintSet_" + fingerprintType
    }

    /** Fingerprint sets of different types have different names. */
    lemma StrInjective(other: FingerprintSet)
      requires Str() == other.Str()
      ensures fingerprintType == other.fingerprintType
    {
      assert fingerprintType == Str()[15..];
      assert other.fingerprintType == other.Str()[15..];
    }

    /** `get_len`: the generator's full length, narrowed or not. */
    function GetLen(): nat {
      generator.length
    }

    /** The `descriptors` getter: the kept positions as strings, or `"0"` to `"get_len()-1"` when not narrowed. */
    function Descriptors(): (r: seq<string>)
      reads this
      ensures Narrowed() ==>
        |r| == |keepIndices.value| && forall i :: 0 <= i < |r| ==> r[i] == IntToString(keepIndices.value[i])
      ensures !Narrowed() ==> |r| == GetLen() && forall i :: 0 <= i < |r| ==> r[i] == NatToString(i)
    {
      if Narrowed() then Map(keepIndices.value, IntToString)
      else seq(generator.length, i requires 0 <= i < generator.length => NatToString(i))
    }

    /** The descriptor names are distinct, unless a narrowed list repeats a position. */
    lemma DescriptorsDistinct()
      requires Narrowed() ==> Distinct(keepIndices.value)
      ensures Distinct(Descriptors())
    {
      var r := Descriptors();
      forall i, j | 0 <= i < j < |r| ensures r[i] != r[j] {
        if r[i] == r[j] {
          if Narrowed() {
            IntToStringInjective(keepIndices.value[i], keepIndices.value[j]);
          } else {
            NatToStringInjective(i, j);
          }
        }
      }
    }

    /** The `settings` getter: the fingerprint type, overridden by any setting of the generator of the same name. */
    function Settings(): (r: map<string, Setting>)
      ensures r.Keys == {"fingerprint_type"} + generator.settings.Keys
      ensures forall k :: k in generator.settings ==> r[k] == generator.settings[k]
      ensures "fingerprint_type" !in generator.settings ==> r["fingerprint_type"] == SText(fingerprintType)
    {
      map["fingerprint_type" := SText(fingerprintType)] + generator.settings
    }

    /** The molecules with hydrogens added, and `TypeError` for a SMILES RDKit cannot parse. */
    function WithHydrogens(mols: seq<MolArg>): (r: Result<seq<Option<Molecule>>>)
      ensures r.Ok? <==> forall i :: 0 <= i < |mols| ==> IterMols(mols, chem.parse)[i].Some?
      ensures r.Ok? ==> |r.value| == |mols|
      ensures r.Ok? ==> forall i :: 0 <= i < |mols| ==> r.value[i] == Some(chem.addHs(IterMols(mols, chem.parse)[i].value))
      ensures r.Err? ==> r.error == TypeError(NotAMolecule)
    {
      var parsed := IterMols(mols, chem.parse);
      if forall i :: 0 <= i < |mols| ==> parsed[i].Some? then
        Ok(Map(parsed, (m: Option<Molecule>) => if m.Some? then Some(chem.addHs(m.value)) else None))
      else Err(TypeError(NotAMolecule))
    }

    /**
     * `__call__`: the generator's bits for the molecules with hydrogens added, keeping only the
     * `keepindices` columns, in their order, when the set is narrowed.
     */
    function Compute(mols: seq<MolArg>): (r: Result<Bits>)
      reads this
      ensures WithHydrogens(mols).Err? ==> r == Err(WithHydrogens(mols).error)
      ensures WithHydrogens(mols).Ok? && !Narrowed() ==> r == Ok(generator.compute(WithHydrogens(mols).value))
      ensures WithHydrogens(mols).Ok? && Narrowed() ==>
        r == ColumnsAt(generator.compute(WithHydrogens(mols).value), keepIndices.value)
    {
      var hs :- WithHydrogens(mols);
      var full := generator.compute(hs);
      if Narrowed() then ColumnsAt(full, keepIndices.value) else Ok(full)
    }

    /**
     * Every row `Compute` gives has one value per descriptor name, provided the generator's rows
     * have its declared length.
     */
    lemma ComputeMatchesDescriptors(mols: seq<MolArg>)
      requires Compute(mols).Ok?
      requires WithHydrogens(mols).Ok?
      requires forall i :: 0 <= i < |generator.compute(WithHydrogens(mols).value)| ==>
        |generator.compute(WithHydrogens(mols).value)[i]| == GetLen()
      ensures forall i :: 0 <= i < |Compute(mols).value| ==> |Compute(mols).value[i]| == |Descriptors()|
    {
    }

    /** Narrowing to every position, in order, leaves the computed bits as they are. */
    lemma NarrowToAll(mols: seq<MolArg>)
      requires keepIndices == Some(seq(GetLen(), j => j)) && GetLen() > 0
      requires WithHydrogens(mols).Ok?
      requires forall i :: 0 <= i < |generator.compute(WithHydrogens(mols).value)| ==>
        |generator.compute(WithHydrogens(mols).value)[i]| == GetLen()
      ensures Compute(mols) == Ok(generator.compute(WithHydrogens(mols).value))
    {
      ColumnsAtAll(generator.compute(WithHydrogens(mols).value), GetLen());
    }
  }

  // ---------------------------------------------------------------------------------------
  // DrugExPhyschem

  /**
   * The `Property` calculator: the property names it keeps for a requested list (all of them
   * for `None`), and the scores of a list of molecules.
   */
  datatype Property = Property(names: Option<seq<string>> -> seq<string>, scores: (seq<string>, seq<Option<Molecule>>) -> Values)

  /** The physico-chemical properties used in DrugEx. */
  class DrugExPhyschem {
    const property: Property
    const chem: Chem
    var props: seq<string>

    /** `DrugExPhyschem(physchem_props)`: the property names `Property` keeps for the request. */
    constructor (physchemProps: Option<seq<string>>, property: Property, chem: Chem)
      ensures this.property == property && this.chem == chem
      ensures props == property.names(physchemProps)
    {
      this.property := property;
      this.chem := chem;
      props := property.names(physchemProps);
    }

    function Descriptors(): seq<string>
      reads this
    {
      props
    }

    /** The `descriptors` setter: the names `Property` keeps for the new request. */
    method SetDescriptors(value: Option<seq<string>>)
      modifies this
      ensures Descriptors() == property.names(value)
    {
      props := property.names(value);
    }

    /** The `settings` getter: the current property names, so the set can be rebuilt from them. */
    function Settings(): (r: map<string, Setting>)
      reads this
      ensures r.Keys == {"physchem_props"} && r["physchem_props"] == SList(Descriptors())
    {
      map["physchem_props" := SList(props)]
    }

    /** `__call__`: the scores of the current properties for the parsed molecules. */
    function Compute(mols: seq<MolArg>): Values
      reads this
    {
      property.scores(props, IterMols(mols, chem.parse))
    }

    function Str(): string {
      "DrugExPhyschem"
    }
  }

  // ---------------------------------------------------------------------------------------
  // rdkit_descs

  /**
   * The `RDKit_desc` back-end: the descriptor names it selects for a request (all 2D
   * descriptors for `None`) and the scores of a list of molecules.
   */
  datatype RDKitBackend = RDKitBackend(select: (Option<seq<string>>, bool) -> seq<string>,
                                       scores: (seq<string>, bool, seq<Option<Molecule>>) -> Values)

  /** The state of an `RDKit_desc` calculator: the descriptors it computes. */
  class RDKitDesc {
    var descriptors: seq<string>
    const compute3D: bool

    constructor (descriptors: seq<string>, compute3D: bool)
      ensures this.descriptors == descriptors && this.compute3D == compute3D
    {
      this.descriptors := descriptors;
      this.compute3D := compute3D;
    }
  }

  /** The RDKit descriptors, computed by an inner `RDKit_desc` calculator. */
  class RDKitDescs {
    const calculator: RDKitDesc
    const backend: RDKitBackend
    const compute3D: bool
    const chem: Chem
    var descriptors: seq<string>

    /** The set and its calculator agree on the descriptors. */
    ghost predicate Valid()
      reads this, calculator
    {
      descriptors == calculator.descriptors && calculator.compute3D == compute3D
    }

    /** `rdkit_descs(rdkit_descriptors, compute_3Drdkit)`: a new calculator, whose descriptors the set takes. */
    constructor (rdkitDescriptors: Option<seq<string>>, compute3D: bool, backend: RDKitBackend, chem: Chem)
      ensures Valid() && fresh(calculator)
      ensures descriptors == backend.select(rdkitDescriptors, compute3D)
      ensures this.compute3D == compute3D && this.backend == backend && this.chem == chem
    {
      calculator := new RDKitDesc(backend.select(rdkitDescriptors, compute3D), compute3D);
      descriptors := backend.select(rdkitDescriptors, compute3D);
      this.compute3D := compute3D;
      this.backend := backend;
      this.chem := chem;
    }

    /** The `descriptors` setter: the calculator and the set both take the new names. */
    method SetDescriptors(value: seq<string>)
      requires Valid()
      modifies this, calculator
      ensures Valid() && descriptors == value
    {
      calculator.descriptors := value;
      descriptors := value;
    }

    function Descriptors(): seq<string>
      reads this
    {
      descriptors
    }

    /** The `settings` getter: the current descriptor names and the 3D flag. */
    function Settings(): (r: map<string, Setting>)
      reads this
      ensures r.Keys == {"rdkit_descriptors", "compute_3Drdkit"}
      ensures r["rdkit_descriptors"] == SList(Descriptors()) && r["compute_3Drdkit"] == SBool(compute3D)
    {
      map["rdkit_descriptors" := SList(descriptors), "compute_3Drdkit" := SBool(compute3D)]
    }

    /** `__call__`: the calculator scores the parsed molecules on its own descriptors. */
    function Compute(mols: seq<MolArg>): Values
      reads calculator
    {
      backend.scores(calculator.descriptors, calculator.compute3D, IterMols(mols, chem.parse))
    }

    /** The calculator computes exactly the descriptors the set reports and its settings record. */
    lemma ComputeUsesDescriptors(mols: seq<MolArg>)
      requires Valid()
      ensures Compute(mols) == backend.scores(Descriptors(), compute3D, IterMols(mols, chem.parse))
      ensures Settings()["rdkit_descriptors"] == SList(calculator.descriptors)
    {
    }

    function Str(): string {
      "RDkit"
    }
  }

  // ---------------------------------------------------------------------------------------
  // TanimotoDistances

  /** The bit strings of the fingerprints of a list of SMILES. */
  function Fingerprints(g: Generator, chem: Chem, smiles: seq<string>): seq<string> {
    Map(g.compute(Map(smiles, chem.parse)), BitString)
  }

  /** The distances of each molecule to a list of reference SMILES. */
  class TanimotoDistances {
    const fingerprintType: string
    const generator: Generator
    const chem: Chem
    const args: Setting
    const kwargs: Setting
    var descriptors: seq<string>
    var listOfSmiles: Option<seq<string>>
    var fps: Option<seq<string>>

    /** The stored fingerprints, when there are any, are those of the current references. */
    ghost predicate Valid()
      reads this
    {
      fps.Some? ==> fps.value == Fingerprints(generator, chem, descriptors)
    }

    /** `TanimotoDistances(list_of_smiles, fingerprint_type, ...)`: the references' fingerprints are computed. */
    constructor (smiles: seq<string>, fingerprintType: string, generator: Generator, chem: Chem, args: Setting, kwargs: Setting)
      ensures Valid() && descriptors == smiles && fps == Some(Fingerprints(generator, chem, smiles))
      ensures this.fingerprintType == fingerprintType && this.generator == generator && this.chem == chem
      ensures this.args == args && this.kwargs == kwargs && listOfSmiles == None
    {
      descriptors := smiles;
      this.fingerprintType := fingerprintType;
      this.args := args;
      this.kwargs := kwargs;
      this.generator := generator;
      this.chem := chem;
      listOfSmiles := None;
      fps := None;
      new;
      CalculateFingerprints(smiles);
    }

    /** `calculate_fingerprints`: stores the fingerprints of the given SMILES and returns nothing. */
    method CalculateFingerprints(smiles: seq<string>)
      modifies this`fps
      ensures fps == Some(Fingerprints(generator, chem, smiles))
    {
      fps := Some(Fingerprints(generator, chem, smiles));
    }

    /**
     * The `descriptors` setter: the references change and their fingerprints are computed, but
     * `fps` is then overwritten by the `None` that `calculate_fingerprints` returns.
     */
    method SetDescriptors(smiles: seq<string>)
      modifies this`descriptors, this`listOfSmiles, this`fps
      ensures Valid() && descriptors == smiles && listOfSmiles == Some(smiles) && fps == None
    {
      descriptors := smiles;
      listOfSmiles := Some(smiles);
      CalculateFingerprints(smiles);
      fps := None;
    }

    function Descriptors(): seq<string>
      reads this
    {
      descriptors
    }

    /** The `settings` getter. */
    function Settings(): (r: map<string, Setting>)
      reads this
      ensures r.Keys == {"fingerprint_type", "list_of_smiles", "args", "kwargs"}
      ensures r["list_of_smiles"] == SList(Descriptors()) && r["fingerprint_type"] == SText(fingerprintType)
    {
      map["fingerprint_type" := SText(fingerprintType), "list_of_smiles" := SList(descriptors),
          "args" := args, "kwargs" := kwargs]
    }

    /** The bit strings of the queried molecules. */
    function Queries(mols: seq<MolArg>): seq<string> {
      Map(generator.compute(IterMols(mols, chem.parse)), BitString)
    }

    /**
     * `__call__`: for each queried molecule, one minus its similarity to each stored reference
     * fingerprint. Without stored fingerprints `BulkTanimotoSimilarity(fp, None)` on the first
     * query raises Boost.Python's `ArgumentError`, a `TypeError`; with no queries nothing is compared.
     */
    function Compute(mols: seq<MolArg>): (r: Result<Values>)
      reads this
      ensures r.Err? <==> |Queries(mols)| > 0 && fps.None?
      ensures r.Err? ==> r.error == TypeError(NoReferenceFingerprints)
      ensures r.Ok? ==> |r.value| == |Queries(mols)|
      ensures r.Ok? ==> forall i :: 0 <= i < |r.value| ==> fps.Some? && |r.value[i]| == |fps.value|
      ensures r.Ok? ==> forall i, j :: 0 <= i < |r.value| && 0 <= j < |r.value[i]| ==>
        fps.Some? && r.value[i][j] == 1.0 - chem.similarity(Queries(mols)[i], fps.value[j])
    {
      var qs := Queries(mols);
      if |qs| == 0 then Ok([])
      else if fps.None? then Err(TypeError(NoReferenceFingerprints))
      else
        var refs := fps.value;
        Ok(Map(qs, (q: string) => Map(refs, (ref: string) => 1.0 - chem.similarity(q, ref))))
    }

    /**
     * With the fingerprints the constructor stores, and a generator giving one row per
     * molecule, each queried molecule gets exactly one distance per reference, in reference order.
     */
    lemma OneDistancePerReference(mols: seq<MolArg>)
      requires Valid() && fps.Some? && OneRowPerMolecule(generator)
      ensures Compute(mols).Ok? && |Compute(mols).value| == |mols|
      ensures forall i :: 0 <= i < |mols| ==> |Compute(mols).value[i]| == |Descriptors()|
    {
      assert |generator.compute(IterMols(mols, chem.parse))| == |mols|;
      assert |generator.compute(Map(descriptors, chem.parse))| == |descriptors|;
    }

    /** After the `descriptors` setter, any query of at least one molecule raises. */
    lemma SetterDisablesDistances(mols: seq<MolArg>)
      requires fps.None? && OneRowPerMolecule(generator) && |mols| > 0
      ensures Compute(mols).Err?
    {
      assert |generator.compute(IterMols(mols, chem.parse))| == |mols|;
    }

    function Str(): string {
      "TanimotoDistances"
    }
  }

  // ---------------------------------------------------------------------------------------
  // PredictorDesc

  /** A trained model: its name, the path of its meta file, and `predictMols(mols, use_probas=False)`. */
  datatype Model = Model(name: string, metaFile: string, predictMols: seq<MolArg> -> Values)

  /** A fitted model, or the path of a model's meta file. */
  datatype ModelArg = Fitted(model: Model) | MetaFile(path: string)

  /** The predictions of a trained model as a single descriptor. */
  class PredictorDesc {
    const model: Model
    const chem: Chem
    var descriptors: seq<string>

    /** `PredictorDesc(model)`: a path is loaded with `QSPRModel.fromFile`; the one descriptor is the model's name. */
    constructor (m: ModelArg, load: string -> Model, chem: Chem)
      ensures model == (if m.Fitted? then m.model else load(m.path)) && this.chem == chem
      ensures descriptors == [model.name]
    {
      model := if m.Fitted? then m.model else load(m.path);
      this.chem := chem;
      descriptors := [(if m.Fitted? then m.model else load(m.path)).name];
    }

    method SetDescriptors(value: seq<string>)
      modifies this
      ensures descriptors == value
    {
      descriptors := value;
    }

    function Descriptors(): seq<string>
      reads this
    {
      descriptors
    }

    /** `get_len`: always one, whatever `descriptors` holds. */
    function GetLen(): nat {
      1
    }

    /** The `settings` getter: only the model's meta-file path. */
    function Settings(): (r: map<string, Setting>)
      ensures r.Keys == {"model"} && r["model"] == SText(model.metaFile)
    {
      map["model" := SText(model.metaFile)]
    }

    /**
     * `__call__`: the model's predictions. Only the first element's type decides: when it is a
     * molecule every element is turned into SMILES, which raises `TypeError` for an element that
     * is itself a SMILES; an empty list raises `IndexError`.
     */
    function Compute(mols: seq<MolArg>): (r: Result<Values>)
      ensures |mols| == 0 ==> r == Err(IndexError(ListIndexOutOfRange))
      ensures |mols| > 0 && mols[0].Smiles? ==> r == Ok(model.predictMols(mols))
      ensures |mols| > 0 && mols[0].Parsed? ==>
        (r.Ok? <==> forall i :: 0 <= i < |mols| ==> mols[i].Parsed?)
      ensures |mols| > 0 && mols[0].Parsed? && r.Ok? ==>
        exists smiles: seq<MolArg> :: r.value == model.predictMols(smiles) && |smiles| == |mols| &&
          forall i :: 0 <= i < |mols| ==> smiles[i] == Smiles(chem.toSmiles(mols[i].mol))
      ensures r.Err? ==> r.error == IndexError(ListIndexOutOfRange) || r.error == TypeError(NotAMolecule)
    {
      if |mols| == 0 then Err(IndexError(ListIndexOutOfRange))
      else if mols[0].Smiles? then Ok(model.predictMols(mols))
      else if forall i :: 0 <= i < |mols| ==> mols[i].Parsed? then
        var smiles := Map(mols, (m: MolArg) => if m.Parsed? then Smiles(chem.toSmiles(m.mol)) else m);
        Ok(model.predictMols(smiles))
      else Err(TypeError(NotAMolecule))
    }

    function Str(): string {
      "PredictorDesc"
    }
  }

  // ---------------------------------------------------------------------------------------
  // Any descriptor set, and the registry

  /** The descriptor-set types the registry knows, in the order its getters are defined. */
  datatype Kind = KFingerprintSet | KDrugExPhyschem | KMordred | KMold2 | KPaDEL | KRDkit | KPredictorDesc | KProDec | KTanimotoDistances

  /**
   * A descriptor set of any kind. Mordred, Mold2, PaDEL and ProDec are defined in a module that
   * is not part of this model: they are represented by their kind and their descriptor names.
   */
  datatype AnySet =
    | FromFrame(frame: DataFrameDescriptorSet)
    | Fingerprint(fp: FingerprintSet)
    | Physchem(physchem: DrugExPhyschem)
    | RDkit(rdkit: RDKitDescs)
    | Tanimoto(tanimoto: TanimotoDistances)
    | Predictor(predictor: PredictorDesc)
    | Extra(kind: Kind, names: seq<string>)

  /** The objects whose fields the getters of `s` read. */
  function Objects(s: AnySet): set<object> {
    match s
    case FromFrame(d) => {d}
    case Fingerprint(f) => {f}
    case Physchem(p) => {p}
    case RDkit(r) => {r}
    case Tanimoto(t) => {t}
    case Predictor(p) => {p}
    case Extra(_, _) => {}
  }

  /** The `descriptors` getter of any set. */
  function Descriptors(s: AnySet): seq<string>
    reads Objects(s)
  {
    match s
    case FromFrame(d) => d.descriptors
    case Fingerprint(f) => f.Descriptors()
    case Physchem(p) => p.Descriptors()
    case RDkit(r) => r.Descriptors()
    case Tanimoto(t) => t.Descriptors()
    case Predictor(p) => p.Descriptors()
    case Extra(_, names) => names
  }

  /**
   * `len(s)`, which is `get_len()`: the number of descriptor names, except for a fingerprint
   * (the generator's full length) and a predictor (always one).
   */
  function GetLen(s: AnySet): (n: nat)
    reads Objects(s)
    ensures s.Fingerprint? ==> n == s.fp.generator.length
    ensures s.Predictor? ==> n == 1
    ensures !s.Fingerprint? && !s.Predictor? ==> n == |Descriptors(s)|
  {
    match s
    case Fingerprint(f) => f.GetLen()
    case Predictor(p) => p.GetLen()
    case _ => |Descriptors(s)|
  }

  /** An unnarrowed fingerprint set has as many names as its length; a narrowed one may not. */
  lemma FingerprintLength(f: FingerprintSet)
    ensures !f.Narrowed() ==> GetLen(Fingerprint(f)) == |Descriptors(Fingerprint(f))|
    ensures f.Narrowed() ==>
      GetLen(Fingerprint(f)) == f.generator.length && |Descriptors(Fingerprint(f))| == |f.keepIndices.value|
  {
  }

  /** The `is_fp` property: true exactly for a fingerprint set. */
  function IsFp(s: AnySet): (b: bool)
    ensures b <==> s.Fingerprint?
  {
    s.Fingerprint?
  }

  /** The registry's kind of a set; a set over a precomputed table is not built by the registry. */
  function KindOf(s: AnySet): Option<Kind> {
    match s
    case FromFrame(_) => None
    case Fingerprint(_) => Some(KFingerprintSet)
    case Physchem(_) => Some(KDrugExPhyschem)
    case RDkit(_) => Some(KRDkit)
    case Tanimoto(_) => Some(KTanimotoDistances)
    case Predictor(_) => Some(KPredictorDesc)
    case Extra(k, _) => Some(k)
  }

  /** The name a kind is registered under: its getter is `"get_" + name`. */
  function KindName(k: Kind): string {
    match k
    case KFingerprintSet => "FingerprintSet"
    case KDrugExPhyschem => "DrugExPhyschem"
    case KMordred => "Mordred"
    case KMold2 => "Mold2"
    case KPaDEL => "PaDEL"
    case KRDkit => "RDkit"
    case KPredictorDesc => "PredictorDesc"
    case KProDec => "ProDec"
    case KTanimotoDistances => "TanimotoDistances"
  }

  /**
   * The kind whose getter is `"get_" + name`. Besides these nine, the registry's only attribute
   * of that form is `get_descriptor` itself.
   */
  function Registered(name: string): Option<Kind> {
    if name == "FingerprintSet" then Some(KFingerprintSet)
    else if name == "DrugExPhyschem" then Some(KDrugExPhyschem)
    else if name == "Mordred" then Some(KMordred)
    else if name == "Mold2" then Some(KMold2)
    else if name == "PaDEL" then Some(KPaDEL)
    else if name == "RDkit" then Some(KRDkit)
    else if name == "PredictorDesc" then Some(KPredictorDesc)
    else if name == "ProDec" then Some(KProDec)
    else if name == "TanimotoDistances" then Some(KTanimotoDistances)
    else None
  }

  /** Each kind is found under its own name. */
  lemma RegisteredName(k: Kind)
    ensures Registered(KindName(k)) == Some(k)
  {
    match k
    case KFingerprintSet =>
    case KDrugExPhyschem =>
    case KMordred =>
    case KMold2 =>
    case KPaDEL =>
    case KRDkit =>
    case KPredictorDesc =>
    case KProDec =>
    case KTanimotoDistances =>
  }

  /** A name is found only when it is the name of the kind found, which is never `"descriptor"`. */
  lemma RegisteredOnly(name: string)
    ensures Registered(name).Some? ==> name == KindName(Registered(name).value) && name != "descriptor"
  {
  }

  /** A positional argument of `get_descriptor`: a string, or something else. */
  datatype Arg = StrArg(s: string) | OtherArg

  /**
   * `get_descriptor(desc_type, *args)`: the kind whose getter `"get_" + desc_type` the registry
   * has, with the arguments that getter receives. The registry's own `get_descriptor` is among
   * its attributes, so `"descriptor"` dispatches again on the first argument. An unknown name
   * fails in `getattr` with `AttributeError`, so the check for a missing getter never raises.
   */
  function Retrieve(descType: string, args: seq<Arg>): (r: Result<(Kind, seq<Arg>)>)
    decreases |args|
    ensures r.Ok? ==> |r.value.1| <= |args|
    ensures r.Err? ==> r.error.AttributeError? || r.error.TypeError?
  {
    if descType == "descriptor" then
      if args == [] then Err(TypeError(MissingDescType))
      else if args[0].OtherArg? then Err(TypeError(ConcatNonStr))
      else Retrieve(args[0].s, args[1..])
    else
      match Registered(descType)
      case Some(k) => Ok((k, args))
      case None => Err(AttributeError("get_" + descType))
  }

  /** Each of the nine registered names reaches its own getter with the arguments as given. */
  lemma RetrieveRegistered(k: Kind, args: seq<Arg>)
    ensures Retrieve(KindName(k), args) == Ok((k, args))
  {
    RegisteredName(k);
    RegisteredOnly(KindName(k));
  }

  /** A name that is neither registered nor `"descriptor"` raises `AttributeError` for its getter. */
  lemma RetrieveUnknown(descType: string, args: seq<Arg>)
    requires descType != "descriptor" && forall k: Kind :: descType != KindName(k)
    ensures Retrieve(descType, args) == Err(AttributeError("get_" + descType))
  {
    RegisteredOnly(descType);
  }

  /** `get_descriptor("descriptor", t, *rest)` is `get_descriptor(t, *rest)`. */
  lemma RetrieveIndirect(descType: string, rest: seq<Arg>)
    ensures Retrieve("descriptor", [StrArg(descType)] + rest) == Retrieve(descType, rest)
  {
    assert ([StrArg(descType)] + rest)[1..] == rest;
  }

  /** What the remaining arguments of `get_descriptor` bind to in the constructor of the chosen kind. */
  datatype SetArgs =
    | FingerprintArgs(fingerprintType: string, generator: Generator)
    | PhyschemArgs(physchemProps: Option<seq<string>>, property: Property)
    | RDkitArgs(rdkitDescriptors: Option<seq<string>>, compute3D: bool, backend: RDKitBackend)
    | PredictorArgs(model: ModelArg, load: string -> Model)
    | TanimotoArgs(smiles: seq<string>, fingerprintType: string, generator: Generator, args: Setting, kwargs: Setting)
    | ExtraArgs(names: seq<string>)

  /** The constructor of kind `k` accepts the arguments `a`. */
  predicate Accepts(k: Kind, a: SetArgs) {
    match k
    case KFingerprintSet => a.FingerprintArgs?
    case KDrugExPhyschem => a.PhyschemArgs?
    case KRDkit => a.RDkitArgs?
    case KPredictorDesc => a.PredictorArgs?
    case KTanimotoDistances => a.TanimotoArgs?
    case _ => a.ExtraArgs?
  }

  /**
   * `get_descriptor(desc_type, *args, **kwargs)`: the set the registry's getter builds; arguments
   * its constructor does not accept raise `TypeError`.
   */
  method GetDescriptor(descType: string, args: seq<Arg>, a: SetArgs, chem: Chem) returns (r: Result<AnySet>)
    ensures Retrieve(descType, args).Err? ==> r == Err(Retrieve(descType, args).error)
    ensures Retrieve(descType, args).Ok? ==>
      (r.Ok? <==> Accepts(Retrieve(descType, args).value.0, a))
    ensures r.Ok? ==> KindOf(r.value) == Some(Retrieve(descType, args).value.0)
    ensures r.Ok? ==> (IsFp(r.value) <==> KindOf(r.value) == Some(KFingerprintSet))
  {
    var found := Retrieve(descType, args);
    if found.Err? {
      return Err(found.error);
    }
    var k := found.value.0;
    if !Accepts(k, a) {
      return Err(TypeError(WrongArguments));
    }
    match k {
      case KFingerprintSet =>
        var f := new FingerprintSet(a.fingerprintType, a.generator, chem);
        r := Ok(Fingerprint(f));
      case KDrugExPhyschem =>
        var p := new DrugExPhyschem(a.physchemProps, a.property, chem);
        r := Ok(Physchem(p));
      case KRDkit =>
        var d := new RDKitDescs(a.rdkitDescriptors, a.compute3D, a.backend, chem);
        r := Ok(RDkit(d));
      case KPredictorDesc =>
        var p := new PredictorDesc(a.model, a.load, chem);
        r := Ok(Predictor(p));
      case KTanimotoDistances =>
        var t := new TanimotoDistances(a.smiles, a.fingerprintType, a.generator, chem, a.args, a.kwargs);
        r := Ok(Tanimoto(t));
      case _ =>
        r := Ok(Extra(k, a.names));
    }
  }
}
