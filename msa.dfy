/**
 * The multiple-sequence-alignment providers: a cache of alignments keyed by the `"~"`-joined
 * sequence ids, the current alignment, the calls that reuse a cached alignment or run the
 * alignment tool, and the files the provider is saved to and loaded from. The tool run is an
 * opaque function from the sequences to the aligned records it writes; files are a map from
 * path to content.
 */
module MSA {
  import opened Errors
  import opened Strings
  import opened Seqs

  /** A `dict[str, str]` in insertion order (its keys are distinct): sequence ids with their strings. */
  type Entries = seq<(string, string)>

  /** The keys of a dictionary, in order. */
  function Keys(d: Entries): (ks: seq<string>)
    ensures |ks| == |d| && forall i :: 0 <= i < |d| ==> ks[i] == d[i].0
  {
    Map(d, (e: (string, string)) => e.0)
  }

  /** `d[k]` on a dictionary read from JSON, where the last occurrence of a key wins; `None` when absent. */
  function Lookup(d: Entries, k: string): (r: Option<string>)
    ensures r.Some? <==> k in Keys(d)
  {
    if d == [] then None
    else if d[|d| - 1].0 == k then Some(d[|d| - 1].1)
    else
      assert Keys(d) == Keys(d[..|d| - 1]) + [d[|d| - 1].0];
      Lookup(d[..|d| - 1], k)
  }

  /** A dictionary's truth value: `None` and the empty dictionary are false. */
  predicate Truthy(a: Option<Entries>) {
    a.Some? && |a.value| > 0
  }

  /** `dict(zip(keys, values))` for distinct keys: the pairs up to the shorter of the two lists. */
  function Zip(keys: seq<string>, values: seq<string>): (r: Entries)
    ensures |r| == if |keys| <= |values| then |keys| else |values|
    ensures forall i :: 0 <= i < |r| ==> r[i] == (keys[i], values[i])
  {
    var n := if |keys| <= |values| then |keys| else |values|;
    seq(n, i requires 0 <= i < n => (keys[i], values[i]))
  }

  /** File contents: a JSON object of strings, or FASTA records (id, sequence). */
  datatype File = JsonObject(entries: Entries) | Fasta(records: Entries)

  type Files = map<string, File>

  /** `Bio.SeqIO.parse(path, "fasta")`: the sequences of the records; a JSON file has no `>` line, hence no record. */
  function FastaSequences(f: File): seq<string> {
    match f
    case Fasta(records) => Map(records, (e: (string, string)) => e.1)
    case JsonObject(_) => []
  }

  // ---------------------------------------------------------------------------------------
  // The cache

  /** `"~".join(target_ids)`. */
  function CacheKey(ids: seq<string>): string {
    Join(ids, "~")
  }

  /** No id contains the separator `~`. */
  predicate NoTilde(ids: seq<string>) {
    forall i :: 0 <= i < |ids| ==> NoChar(ids[i], '~')
  }

  /**
   * Different non-empty lists of ids without `~` have different keys, so saving one list's
   * alignment leaves every other list's cache entry as it was.
   */
  lemma CacheKeyInjective(ids: seq<string>, other: seq<string>)
    requires |ids| > 0 && |other| > 0 && NoTilde(ids) && NoTilde(other) && ids != other
    ensures CacheKey(ids) != CacheKey(other)
  {
    if CacheKey(ids) == CacheKey(other) {
      JoinInjective(ids, other, '~');
    }
  }

  /** Without that condition keys collide: `["a~b"]` and `["a", "b"]` share one cache entry. */
  lemma CacheKeyCollision()
    ensures CacheKey(["a~b"]) == CacheKey(["a", "b"])
  {
    assert CacheKey(["b"]) == "b";
  }

  /** `getFromCache`: the alignment stored under the ids' key, `None` when there is none. */
  function CacheGet(cache: map<string, Entries>, ids: seq<string>): (r: Option<Entries>)
    ensures r.Some? <==> CacheKey(ids) in cache
    ensures r.Some? ==> r.value == cache[CacheKey(ids)]
  {
    if CacheKey(ids) in cache then Some(cache[CacheKey(ids)]) else None
  }

  /** After saving an alignment, it is found under its ids, and under every other list of ids the cache answers as before. */
  lemma CachePutGet(cache: map<string, Entries>, ids: seq<string>, other: seq<string>, a: Entries)
    requires |ids| > 0 && |other| > 0 && NoTilde(ids) && NoTilde(other)
    ensures CacheGet(cache[CacheKey(ids) := a], ids) == Some(a)
    ensures other != ids ==> CacheGet(cache[CacheKey(ids) := a], other) == CacheGet(cache, other)
  {
    if other != ids {
      CacheKeyInjective(ids, other);
    }
  }

  /** The provider's mutable state: the cache and the current alignment. */
  datatype State = State(cache: map<string, Entries>, current: Option<Entries>)

  /** The state with an alignment cached under the sorted ids of `keys` and made current. */
  function Adopt(st: State, keys: seq<string>, a: Entries): State {
    State(st.cache[CacheKey(Sort(keys)) := a], Some(a))
  }

  // ---------------------------------------------------------------------------------------
  // Calls

  /** The two command-line tools. */
  datatype Tool = Mafft | Clustal

  const DefaultFName := "alignment.aln-fasta.fasta"

  /** `f"{out_dir}/{fname}"`: where `parseAlignment` reads the aligned records. */
  function AlignmentPath(outDir: string, fName: string): string {
    outDir + "/" + fName
  }

  /** `f"{out_dir}/sequences.fasta"`: where `parseSequences` writes the input records. */
  function SequencesPath(outDir: string): string {
    outDir + "/sequences.fasta"
  }

  /** Where a tool writes its output: MAFFT's standard output goes to the alignment file, Clustal Omega always writes the default file name. */
  function ToolOutputPath(tool: Tool, outDir: string, fName: string): string {
    match tool
    case Mafft => AlignmentPath(outDir, fName)
    case Clustal => outDir + "/" + DefaultFName
  }

  /**
   * `parseAlignment`: the original keys, in order, paired with the aligned sequences read back,
   * cached under the sorted keys and made current. A missing file raises `FileNotFoundError`.
   */
  function ParseAlignmentSpec(path: string, st: State, sequences: Entries, fs: Files): (r: Result<(Entries, State)>)
    ensures r.Err? <==> path !in fs
    ensures r.Err? ==> r.error == FileNotFound(path)
    ensures r.Ok? ==> r.value.0 == Zip(Keys(sequences), FastaSequences(fs[path]))
    ensures r.Ok? ==> r.value.1 == Adopt(st, Keys(sequences), r.value.0)
  {
    if path !in fs then Err(FileNotFound(path))
    else
      var a := Zip(Keys(sequences), FastaSequences(fs[path]));
      Ok((a, Adopt(st, Keys(sequences), a)))
  }

  /** The files after a cache miss: the input records, then the tool's output at `outPath`. */
  function RunFiles(outDir: string, outPath: string, sequences: Entries, fs: Files, align: Entries -> Entries): Files {
    fs[SequencesPath(outDir) := Fasta(sequences)][outPath := Fasta(align(sequences))]
  }

  /**
   * A call whose tool writes to `outPath`: no (or empty) sequences give the current alignment; a
   * non-empty alignment cached under the sorted ids becomes current without running the tool;
   * otherwise the tool runs and its output is parsed.
   */
  function CallAt(outPath: string, outDir: string, fName: string, st: State, sequences: Option<Entries>, fs: Files,
                  align: Entries -> Entries): (Result<Option<Entries>>, State, Files)
  {
    if !Truthy(sequences) then (Ok(st.current), st, fs)
    else
      var hit := CacheGet(st.cache, Sort(Keys(sequences.value)));
      if Truthy(hit) then (Ok(hit), State(st.cache, hit), fs)
      else
        var fs' := RunFiles(outDir, outPath, sequences.value, fs, align);
        match ParseAlignmentSpec(AlignmentPath(outDir, fName), st, sequences.value, fs')
        case Err(e) => (Err(e), st, fs')
        case Ok(p) => (Ok(Some(p.0)), p.1, fs')
  }

  /** `MAFFT.__call__` and `ClustalMSA.__call__` as written. */
  function CallSpec(tool: Tool, outDir: string, fName: string, st: State, sequences: Option<Entries>, fs: Files,
                    align: Entries -> Entries): (Result<Option<Entries>>, State, Files)
  {
    CallAt(ToolOutputPath(tool, outDir, fName), outDir, fName, st, sequences, fs, align)
  }

  /** With no sequences, or an empty dictionary, a call returns the current alignment and changes nothing. */
  lemma CallWithoutSequences(tool: Tool, outDir: string, fName: string, st: State, sequences: Option<Entries>,
                             fs: Files, align: Entries -> Entries)
    requires !Truthy(sequences)
    ensures CallSpec(tool, outDir, fName, st, sequences, fs, align) == (Ok(st.current), st, fs)
  {
  }

  /**
   * A call that finds a non-empty alignment cached under the sorted ids returns it and makes it
   * current; no file is written, so the tool does not run.
   */
  lemma CallCacheHit(tool: Tool, outDir: string, fName: string, st: State, sequences: Entries, fs: Files,
                     align: Entries -> Entries)
    requires |sequences| > 0 && Truthy(CacheGet(st.cache, Sort(Keys(sequences))))
    ensures CallSpec(tool, outDir, fName, st, Some(sequences), fs, align).0 == Ok(CacheGet(st.cache, Sort(Keys(sequences))))
    ensures CallSpec(tool, outDir, fName, st, Some(sequences), fs, align).1 ==
      State(st.cache, CacheGet(st.cache, Sort(Keys(sequences))))
    ensures CallSpec(tool, outDir, fName, st, Some(sequences), fs, align).2 == fs
  {
  }

  /** On a cache miss MAFFT's result pairs the keys, in order, with the sequences the tool aligned. */
  lemma MafftAligns(outDir: string, fName: string, st: State, sequences: Entries, fs: Files, align: Entries -> Entries)
    requires |sequences| > 0 && !Truthy(CacheGet(st.cache, Sort(Keys(sequences))))
    ensures CallSpec(Mafft, outDir, fName, st, Some(sequences), fs, align).0 ==
      Ok(Some(Zip(Keys(sequences), FastaSequences(Fasta(align(sequences))))))
  {
    var fs' := RunFiles(outDir, AlignmentPath(outDir, fName), sequences, fs, align);
    assert AlignmentPath(outDir, fName) in fs' && fs'[AlignmentPath(outDir, fName)] == Fasta(align(sequences));
  }

  /**
   * Once a call has aligned a list of sequences into a non-empty alignment, a later call with the
   * same ids, in any order, gets that alignment back from the cache without running the tool.
   */
  lemma CallReusesAlignment(tool: Tool, outDir: string, fName: string, st: State, sequences: Entries,
                            later: Entries, fs: Files, align: Entries -> Entries, fs2: Files, align2: Entries -> Entries)
    requires |sequences| > 0 && |later| > 0 && multiset(Keys(later)) == multiset(Keys(sequences))
    requires CallSpec(tool, outDir, fName, st, Some(sequences), fs, align).0.Ok?
    requires Truthy(CallSpec(tool, outDir, fName, st, Some(sequences), fs, align).0.value)
    ensures var first := CallSpec(tool, outDir, fName, st, Some(sequences), fs, align);
      var second := CallSpec(tool, outDir, fName, first.1, Some(later), fs2, align2);
      second.0 == first.0 && second.1 == first.1 && second.2 == fs2
  {
    SortPermutationInvariant(Keys(later), Keys(sequences));
    var first := CallSpec(tool, outDir, fName, st, Some(sequences), fs, align);
    var hit := CacheGet(st.cache, Sort(Keys(sequences)));
    if !Truthy(hit) {
      var a := first.0.value.value;
      assert first.1 == Adopt(st, Keys(sequences), a);
      assert CacheGet(first.1.cache, Sort(Keys(later))) == Some(a);
    }
  }

  /**
   * Clustal Omega writes to the default file name while the output is read from `fName`: with any
   * other file name and no file there, a cache miss raises `FileNotFoundError` although the tool ran.
   */
  lemma ClustalReadsOtherFile(outDir: string, fName: string, st: State, sequences: Entries, fs: Files,
                              align: Entries -> Entries)
    requires |sequences| > 0 && !Truthy(CacheGet(st.cache, Sort(Keys(sequences))))
    requires fName != DefaultFName && fName != "sequences.fasta" && AlignmentPath(outDir, fName) !in fs
    ensures CallSpec(Clustal, outDir, fName, st, Some(sequences), fs, align).0 ==
      Err(FileNotFound(AlignmentPath(outDir, fName)))
  {
    var p := AlignmentPath(outDir, fName);
    assert p[|outDir| + 1..] == fName;
    assert (outDir + "/" + DefaultFName)[|outDir| + 1..] == DefaultFName;
    assert SequencesPath(outDir)[|outDir| + 1..] == "sequences.fasta";
    assert p !in RunFiles(outDir, ToolOutputPath(Clustal, outDir, fName), sequences, fs, align);
  }

  /** The call with the tool writing where the output is read: for both tools the path is `outDir/fName`. */
  function CallCorrected(tool: Tool, outDir: string, fName: string, st: State, sequences: Option<Entries>, fs: Files,
                         align: Entries -> Entries): (Result<Option<Entries>>, State, Files)
  {
    CallAt(AlignmentPath(outDir, fName), outDir, fName, st, sequences, fs, align)
  }

  /** With the output written where it is read, either tool's result pairs the keys with the aligned sequences. */
  lemma CorrectedAligns(tool: Tool, outDir: string, fName: string, st: State, sequences: Entries, fs: Files,
                        align: Entries -> Entries)
    requires |sequences| > 0 && !Truthy(CacheGet(st.cache, Sort(Keys(sequences))))
    ensures CallCorrected(tool, outDir, fName, st, Some(sequences), fs, align).0 ==
      Ok(Some(Zip(Keys(sequences), FastaSequences(Fasta(align(sequences))))))
    ensures CallCorrected(tool, outDir, fName, st, Some(sequences), fs, align).1 ==
      Adopt(st, Keys(sequences), Zip(Keys(sequences), FastaSequences(Fasta(align(sequences)))))
  {
    var fs' := RunFiles(outDir, AlignmentPath(outDir, fName), sequences, fs, align);
    assert AlignmentPath(outDir, fName) in fs' && fs'[AlignmentPath(outDir, fName)] == Fasta(align(sequences));
  }

  // ---------------------------------------------------------------------------------------
  // Files

  const ModulePath := "qsprpred.extra.data.utils.descriptor_utils.msa_calculator"

  /** `f"{cls.__module__}.{cls.__name__}"`. */
  function ClassPath(tool: Tool): string {
    match tool
    case Mafft => ModulePath + ".MAFFT"
    case Clustal => ModulePath + ".ClustalMSA"
  }

  /** The tool whose class a saved path names (`import_class`); `None` for any other path. */
  function ToolOfClass(path: string): (r: Option<Tool>)
    ensures r.Some? ==> ClassPath(r.value) == path
  {
    if path == ClassPath(Mafft) then Some(Mafft)
    else if path == ClassPath(Clustal) then Some(Clustal)
    else None
  }

  /** Each tool's saved class path leads back to that tool. */
  lemma ToolOfClassPath(tool: Tool)
    ensures ToolOfClass(ClassPath(tool)) == Some(tool)
  {
    if tool == Clustal {
      assert ClassPath(Clustal)[|ModulePath|..] == ".ClustalMSA";
      assert ClassPath(Mafft)[|ModulePath|..] == ".MAFFT";
    }
  }

  /** `currentToFile`: the current alignment is written as JSON only when it is a non-empty dictionary. */
  function CurrentToFileSpec(st: State, fname: string, fs: Files): (fs': Files)
    ensures Truthy(st.current) ==> fs' == fs[fname := JsonObject(st.current.value)]
    ensures !Truthy(st.current) ==> fs' == fs
  {
    if Truthy(st.current) then fs[fname := JsonObject(st.current.value)] else fs
  }

  /**
   * `currentFromFile`: the JSON object read becomes the current alignment and is cached under its
   * sorted keys; a missing file raises `FileNotFoundError`, a file that is not JSON `ValueError`.
   */
  function CurrentFromFileSpec(st: State, fname: string, fs: Files): (r: Result<(Entries, State)>)
    ensures r.Ok? <==> fname in fs && fs[fname].JsonObject?
    ensures fname !in fs ==> r == Err(FileNotFound(fname))
    ensures r.Ok? ==> r.value.0 == fs[fname].entries && r.value.1 == Adopt(st, Keys(r.value.0), r.value.0)
  {
    if fname !in fs then Err(FileNotFound(fname))
    else match fs[fname]
      case Fasta(_) => Err(ValueError(NotJson))
      case JsonObject(a) => Ok((a, Adopt(st, Keys(a), a)))
  }

  /** The name `toFile` records for the current alignment: `basename(fname) + ".msa"`. */
  function CurrentName(fname: string): (r: string)
    ensures NoChar(r, '/') && EndsWith(r, ".msa")
  {
    var r := Basename(fname) + ".msa";
    assert r[|r| - 4..] == ".msa";
    r
  }

  /** The provider record `toFile` writes. */
  function ProviderRecord(tool: Tool, outDir: string, fName: string, fname: string): File {
    JsonObject([("out_dir", outDir), ("fname", fName), ("current", CurrentName(fname)), ("class", ClassPath(tool))])
  }

  /**
   * `toFile`: the provider record at `fname`, then the current alignment (when there is one) next
   * to it, at `os.path.join(os.path.dirname(fname), basename(fname) + ".msa")`.
   */
  function ToFileSpec(tool: Tool, outDir: string, fName: string, st: State, fname: string, fs: Files): Files {
    CurrentToFileSpec(st, CurrentPath(fname), fs[fname := ProviderRecord(tool, outDir, fName, fname)])
  }

  /** A provider restored from a record: its directory, its file name and its state. */
  datatype Restored = Restored(outDir: string, fName: string, state: State)

  /**
   * `fromFile` given how the recorded current-alignment name becomes a path: a new provider from
   * the recorded directory and file name, whose current alignment is loaded from that path. A
   * missing record raises `FileNotFoundError`, a missing entry `KeyError`.
   */
  function FromFileWith(fname: string, fs: Files, currentPath: string -> string): (r: Result<Restored>)
    ensures r.Ok? ==> r.value.state.current.Some?
  {
    if fname !in fs then Err(FileNotFound(fname))
    else if fs[fname].Fasta? then Err(ValueError(NotJson))
    else
      var data := fs[fname].entries;
      if Lookup(data, "out_dir").None? then Err(KeyError("out_dir"))
      else if Lookup(data, "fname").None? then Err(KeyError("fname"))
      else if Lookup(data, "current").None? then Err(KeyError("current"))
      else
        var loaded :- CurrentFromFileSpec(State(map[], None), currentPath(Lookup(data, "current").value), fs);
        Ok(Restored(Lookup(data, "out_dir").value, Lookup(data, "fname").value, loaded.1))
  }

  /** `fromFile` as written: the current alignment is read from `f"{os.path.dirname(fname)}/{current}"`. */
  function FromFileSpec(fname: string, fs: Files): Result<Restored> {
    FromFileWith(fname, fs, (c: string) => Dirname(fname) + "/" + c)
  }

  /** `fromFile` reading the current alignment from the path `toFile` wrote it to. */
  function FromFileCorrected(fname: string, fs: Files): Result<Restored> {
    FromFileWith(fname, fs, (c: string) => PathJoin(Dirname(fname), c))
  }

  /** The record `toFile` writes holds the directory, the file name and the current-alignment name. */
  lemma ProviderRecordLookups(tool: Tool, outDir: string, fName: string, fname: string)
    ensures var d := ProviderRecord(tool, outDir, fName, fname).entries;
      Lookup(d, "out_dir") == Some(outDir) && Lookup(d, "fname") == Some(fName) &&
      Lookup(d, "current") == Some(CurrentName(fname)) && Lookup(d, "class") == Some(ClassPath(tool))
  {
    var d1 := [("out_dir", outDir)];
    var d2 := d1 + [("fname", fName)];
    var d3 := d2 + [("current", CurrentName(fname))];
    var d := d3 + [("class", ClassPath(tool))];
    assert ProviderRecord(tool, outDir, fName, fname).entries == d;
    assert d[..|d| - 1] == d3 && d3[..|d3| - 1] == d2 && d2[..|d2| - 1] == d1;
    assert Lookup(d, "current") == Lookup(d3, "current") == Some(CurrentName(fname));
    assert Lookup(d, "fname") == Lookup(d3, "fname") == Lookup(d2, "fname") == Some(fName);
    assert Lookup(d, "out_dir") == Lookup(d3, "out_dir") == Lookup(d2, "out_dir") == Lookup(d1, "out_dir");
  }

  /** `fromFile` on a provider record: the outcome of loading the current alignment from the path the recorded name leads to. */
  lemma ReadRecord(tool: Tool, outDir: string, fName: string, fname: string, fs: Files, currentPath: string -> string)
    requires fname in fs && fs[fname] == ProviderRecord(tool, outDir, fName, fname)
    ensures var loaded := CurrentFromFileSpec(State(map[], None), currentPath(CurrentName(fname)), fs);
      (loaded.Err? ==> FromFileWith(fname, fs, currentPath) == Err(loaded.error)) &&
      (loaded.Ok? ==> FromFileWith(fname, fs, currentPath) == Ok(Restored(outDir, fName, loaded.value.1)))
  {
    ProviderRecordLookups(tool, outDir, fName, fname);
  }

  /** `os.path.join(a, b)` ends with `b`. */
  lemma PathJoinEndsWith(a: string, b: string)
    ensures EndsWith(PathJoin(a, b), b)
  {
    var p := PathJoin(a, b);
    assert p[|p| - |b|..] == b;
  }

  /** Where `toFile` writes the current alignment: next to the record, under the name it records. */
  function CurrentPath(fname: string): string {
    PathJoin(Dirname(fname), CurrentName(fname))
  }

  /**
   * Unless the record's own name ends in `.msa`, the alignment does not overwrite it: after
   * `toFile` the record is at `fname` and a current alignment at `CurrentPath(fname)`.
   */
  lemma ToFileWrites(tool: Tool, outDir: string, fName: string, st: State, fname: string, fs: Files)
    requires !EndsWith(fname, ".msa")
    ensures ToFileSpec(tool, outDir, fName, st, fname, fs)[fname] == ProviderRecord(tool, outDir, fName, fname)
    ensures Truthy(st.current) ==> ToFileSpec(tool, outDir, fName, st, fname, fs)[CurrentPath(fname)] == JsonObject(st.current.value)
  {
    var path := CurrentPath(fname);
    PathJoinEndsWith(Dirname(fname), CurrentName(fname));
    assert EndsWith(path, ".msa") by {
      assert path[|path| - 4..] == path[|path| - |CurrentName(fname)|..][|CurrentName(fname)| - 4..];
    }
  }

  /**
   * Saving a provider with a current alignment and loading it with the corrected `fromFile`
   * restores its directory, its file name and its current alignment, cached under its sorted keys.
   */
  lemma CorrectedRoundTrip(tool: Tool, outDir: string, fName: string, st: State, fname: string, fs: Files)
    requires Truthy(st.current) && !EndsWith(fname, ".msa")
    ensures FromFileCorrected(fname, ToFileSpec(tool, outDir, fName, st, fname, fs)) ==
      Ok(Restored(outDir, fName, Adopt(State(map[], None), Keys(st.current.value), st.current.value)))
  {
    ToFileWrites(tool, outDir, fName, st, fname, fs);
    var fs' := ToFileSpec(tool, outDir, fName, st, fname, fs);
    ReadRecord(tool, outDir, fName, fname, fs', (c: string) => PathJoin(Dirname(fname), c));
  }

  /**
   * As written the round trip holds for a provider file in a directory other than the root
   * (`dirname` neither empty nor ending in `/`): both sides then use `dirname + "/" + name`.
   */
  lemma RoundTripInDirectory(tool: Tool, outDir: string, fName: string, st: State, fname: string, fs: Files)
    requires Truthy(st.current) && !EndsWith(fname, ".msa")
    requires Dirname(fname) != [] && Dirname(fname)[|Dirname(fname)| - 1] != '/'
    ensures FromFileSpec(fname, ToFileSpec(tool, outDir, fName, st, fname, fs)) ==
      Ok(Restored(outDir, fName, Adopt(State(map[], None), Keys(st.current.value), st.current.value)))
  {
    var d, c := Dirname(fname), CurrentName(fname);
    assert c[0] != '/' by {
      if Basename(fname) != [] { assert c[0] == Basename(fname)[0]; } else { assert c == ".msa"; }
    }
    assert PathJoin(d, c) == d + "/" + c;
    ToFileWrites(tool, outDir, fName, st, fname, fs);
    var fs' := ToFileSpec(tool, outDir, fName, st, fname, fs);
    ReadRecord(tool, outDir, fName, fname, fs', (x: string) => d + "/" + x);
  }

  /**
   * As written the round trip fails for a provider file without a directory part: `toFile`
   * writes the alignment to `provider.json.msa` but `fromFile` reads `/provider.json.msa`.
   */
  lemma RoundTripWithoutDirectory(tool: Tool, outDir: string, fName: string, st: State, fname: string, fs: Files)
    requires Truthy(st.current) && fname != [] && NoChar(fname, '/') && "/" + fname + ".msa" !in fs
    ensures FromFileSpec(fname, ToFileSpec(tool, outDir, fName, st, fname, fs)) ==
      Err(FileNotFound("/" + fname + ".msa"))
  {
    assert AfterLastSlash(fname) == 0;
    assert Dirname(fname) == "" && Basename(fname) == fname;
    var written := CurrentName(fname);
    assert written == fname + ".msa";
    assert !StartsWith(written, "/") by { assert written[0] == fname[0]; }
    assert PathJoin(Dirname(fname), written) == written;
    var read := Dirname(fname) + "/" + written;
    assert read == "/" + fname + ".msa";
    var fs' := ToFileSpec(tool, outDir, fName, st, fname, fs);
    assert |read| != |fname| && |read| != |written|;
    assert read !in fs';
    assert fs'[fname] == ProviderRecord(tool, outDir, fName, fname);
    ReadRecord(tool, outDir, fName, fname, fs', (c: string) => Dirname(fname) + "/" + c);
  }

  // ---------------------------------------------------------------------------------------
  // The provider

  /** A provider running MAFFT or Clustal Omega through the BioPython command-line wrappers. */
  class BioPythonMSA {
    const tool: Tool
    const outDir: string
    const fName: string
    var cache: map<string, Entries>
    var current: Option<Entries>

    function Snapshot(): State
      reads this
    {
      State(cache, current)
    }

    /** `__init__(out_dir=".", fname="alignment.aln-fasta.fasta")`: an empty cache and no current alignment. */
    constructor (tool: Tool, outDir: string, fName: string)
      ensures this.tool == tool && this.outDir == outDir && this.fName == fName
      ensures cache == map[] && current == None
    {
      this.tool := tool;
      this.outDir := outDir;
      this.fName := fName;
      cache := map[];
      current := None;
    }

    /** `getFromCache`. */
    function GetFromCache(ids: seq<string>): Option<Entries>
      reads this
    {
      CacheGet(cache, ids)
    }

    /** `saveToCache`: only the entry under the ids' key changes. */
    method SaveToCache(ids: seq<string>, alignment: Entries)
      modifies this`cache
      ensures cache == old(cache)[CacheKey(ids) := alignment]
      ensures GetFromCache(ids) == Some(alignment)
    {
      cache := cache[CacheKey(ids) := alignment];
    }

    /** `parseSequences`: writes the records to `outDir/sequences.fasta` and returns that path and their number. */
    method ParseSequences(sequences: Entries, fs: Files) returns (path: string, count: nat, fs': Files)
      ensures path == SequencesPath(outDir) && count == |sequences|
      ensures fs' == fs[path := Fasta(sequences)]
    {
      path := outDir + "/sequences.fasta";
      count := |sequences|;
      fs' := fs[path := Fasta(sequences)];
    }

    /** `parseAlignment`. */
    method ParseAlignment(sequences: Entries, fs: Files) returns (r: Result<Entries>)
      modifies this`cache, this`current
      ensures var spec := ParseAlignmentSpec(AlignmentPath(outDir, fName), old(Snapshot()), sequences, fs);
        (spec.Err? ==> r == Err(spec.error) && Snapshot() == old(Snapshot())) &&
        (spec.Ok? ==> r == Ok(spec.value.0) && Snapshot() == spec.value.1)
    {
      var path := outDir + "/" + fName;
      if path !in fs {
        return Err(FileNotFound(path));
      }
      var alignment := Zip(Keys(sequences), FastaSequences(fs[path]));
      SaveToCache(Sort(Keys(sequences)), alignment);
      current := Some(alignment);
      r := Ok(alignment);
    }

    /** `__call__`: the current alignment, a cached one, or the tool's output. */
    method Call(sequences: Option<Entries>, fs: Files, align: Entries -> Entries) returns (r: Result<Option<Entries>>, fs': Files)
      modifies this`cache, this`current
      ensures (r, Snapshot(), fs') == CallSpec(tool, outDir, fName, old(Snapshot()), sequences, fs, align)
    {
      if !Truthy(sequences) {
        return Ok(current), fs;
      }
      var alignment := GetFromCache(Sort(Keys(sequences.value)));
      if Truthy(alignment) {
        current := alignment;
        return Ok(alignment), fs;
      }
      var path, _, written := ParseSequences(sequences.value, fs);
      var output := if tool == Mafft then outDir + "/" + fName else outDir + "/" + DefaultFName;
      fs' := written[output := Fasta(align(written[path].records))];
      var parsed := ParseAlignment(sequences.value, fs');
      if parsed.Err? {
        return Err(parsed.error), fs';
      }
      r := Ok(Some(parsed.value));
    }

    /** `currentToFile`. */
    method CurrentToFile(fname: string, fs: Files) returns (fs': Files)
      ensures fs' == CurrentToFileSpec(Snapshot(), fname, fs)
    {
      if current.Some? && |current.value| > 0 {
        fs' := fs[fname := JsonObject(current.value)];
      } else {
        fs' := fs;
      }
    }

    /** `currentFromFile`. */
    method CurrentFromFile(fname: string, fs: Files) returns (r: Result<Entries>)
      modifies this`cache, this`current
      ensures var spec := CurrentFromFileSpec(old(Snapshot()), fname, fs);
        (spec.Err? ==> r == Err(spec.error) && Snapshot() == old(Snapshot())) &&
        (spec.Ok? ==> r == Ok(spec.value.0) && Snapshot() == spec.value.1)
    {
      if fname !in fs {
        return Err(FileNotFound(fname));
      }
      if fs[fname].Fasta? {
        return Err(ValueError(NotJson));
      }
      var loaded := fs[fname].entries;
      current := Some(loaded);
      SaveToCache(Sort(Keys(loaded)), loaded);
      r := Ok(loaded);
    }

    /** `toFile`. */
    method ToFile(fname: string, fs: Files) returns (fs': Files)
      ensures fs' == ToFileSpec(tool, outDir, fName, Snapshot(), fname, fs)
    {
      var currentPath := Basename(fname) + ".msa";
      var record := JsonObject([("out_dir", outDir), ("fname", fName), ("current", currentPath), ("class", ClassPath(tool))]);
      fs' := CurrentToFile(PathJoin(Dirname(fname), currentPath), fs[fname := record]);
    }

    /** `fromFile` as written, for the provider class `tool`. */
    static method FromFile(tool: Tool, fname: string, fs: Files) returns (r: Result<BioPythonMSA>)
      ensures FromFileSpec(fname, fs).Err? ==> r == Err(FromFileSpec(fname, fs).error)
      ensures FromFileSpec(fname, fs).Ok? ==>
        r.Ok? && r.value.tool == tool && Restored(r.value.outDir, r.value.fName, r.value.Snapshot()) == FromFileSpec(fname, fs).value
    {
      if fname !in fs {
        return Err(FileNotFound(fname));
      }
      if fs[fname].Fasta? {
        return Err(ValueError(NotJson));
      }
      var data := fs[fname].entries;
      var dir := Lookup(data, "out_dir");
      if dir.None? {
        return Err(KeyError("out_dir"));
      }
      var name := Lookup(data, "fname");
      if name.None? {
        return Err(KeyError("fname"));
      }
      var ret := new BioPythonMSA(tool, dir.value, name.value);
      var currentName := Lookup(data, "current");
      if currentName.None? {
        return Err(KeyError("current"));
      }
      var loaded := ret.CurrentFromFile(Dirname(fname) + "/" + currentName.value, fs);
      if loaded.Err? {
        return Err(loaded.error);
      }
      r := Ok(ret);
    }
  }
}
