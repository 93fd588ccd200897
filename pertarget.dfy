/**
 * The splitters of a proteochemometric (PCM) dataset that respect its protein targets: leaving
 * whole targets out as the test set, and splitting each target's rows on its own and joining
 * the parts. A dataset is seen through its rows, each an index key with the id of its protein,
 * and through its list of protein keys. The per-target split of a sub-dataset is an opaque
 * function giving the index keys of its training and test parts. The per-target split as
 * written fails to build a target's sub-dataset; it is modelled beside the corrected one.
 */
module TargetSplitters {
  import opened Errors
  import opened Seqs
  import opened Frames

  /** A row of a PCM dataset: its index key and its protein id. */
  type Row = (Key, string)

  /** The index keys of the rows, in table order (`df.index`). */
  function Keys(rows: seq<Row>): (ks: seq<Key>)
    ensures |ks| == |rows| && forall i :: 0 <= i < |rows| ==> ks[i] == rows[i].0
  {
    Map(rows, (r: Row) => r.0)
  }

  /** The protein column, in table order (`ds.getProperty(ds.proteincol)`). */
  function Proteins(rows: seq<Row>): (ps: seq<string>)
    ensures |ps| == |rows| && forall i :: 0 <= i < |rows| ==> ps[i] == rows[i].1
  {
    Map(rows, (r: Row) => r.1)
  }

  /** One `(train, test)` pair of row positions. */
  datatype Fold = Fold(train: seq<nat>, test: seq<nat>)

  // ---------------------------------------------------------------------------------------
  // Positions selected by a mask

  /**
   * `np.arange(len(xs))[mask]` for `mask = isin(xs, keep)` when `want` holds, and
   * `np.arange(len(xs))[~mask]` otherwise.
   */
  function Positions<T(==)>(xs: seq<T>, keep: seq<T>, want: bool): (r: seq<nat>)
    ensures forall j :: 0 <= j < |r| ==> r[j] < |xs|
  {
    if xs == [] then []
    else Positions(xs[..|xs| - 1], keep, want) + (if (xs[|xs| - 1] in keep) == want then [|xs| - 1] else [])
  }

  /** A position is selected exactly when it is in range and its element's membership in `keep` is `want`. */
  lemma {:induction false} PositionsMembers<T>(xs: seq<T>, keep: seq<T>, want: bool)
    ensures forall i :: i in Positions(xs, keep, want) <==> 0 <= i < |xs| && (xs[i] in keep) == want
  {
    if xs != [] {
      var init := xs[..|xs| - 1];
      PositionsMembers(init, keep, want);
      forall i | 0 <= i < |init| ensures init[i] == xs[i] { }
    }
  }

  predicate Ascending(s: seq<nat>) {
    forall j, k :: 0 <= j < k < |s| ==> s[j] < s[k]
  }

  /** The selected positions come out in increasing order. */
  lemma {:induction false} PositionsAscending<T>(xs: seq<T>, keep: seq<T>, want: bool)
    ensures Ascending(Positions(xs, keep, want))
  {
    if xs != [] {
      PositionsAscending(xs[..|xs| - 1], keep, want);
    }
  }

  /** A mask and its complement select `|xs|` positions between them. */
  lemma {:induction false} PositionsCount<T>(xs: seq<T>, keep: seq<T>)
    ensures |Positions(xs, keep, true)| + |Positions(xs, keep, false)| == |xs|
  {
    if xs != [] {
      PositionsCount(xs[..|xs| - 1], keep);
    }
  }

  /** `set(s)`. */
  function AsSet(s: seq<nat>): set<nat> {
    set x | x in s
  }

  /** The positions `0..n-1` of a dataset of `n` rows. */
  function Range(n: nat): (r: set<nat>)
    ensures |r| == n && forall i: nat :: i in r <==> i < n
  {
    if n == 0 then {} else Range(n - 1) + {n - 1}
  }

  /** An ascending list has no repeats: its set is as large as the list. */
  lemma {:induction false} AscendingSize(s: seq<nat>)
    requires Ascending(s)
    ensures |AsSet(s)| == |s|
  {
    if s != [] {
      var init := s[..|s| - 1];
      AscendingSize(init);
      assert AsSet(s) == AsSet(init) + {s[|s| - 1]};
      assert s[|s| - 1] !in AsSet(init);
    }
  }

  // ---------------------------------------------------------------------------------------
  // Leaving targets out

  /** `xs.remove(x)`: the first occurrence of `x` removed. */
  function RemoveFirst(xs: seq<string>, x: string): (r: seq<string>)
    requires x in xs
    ensures |r| == |xs| - 1
  {
    xs[..IndexOf(xs, x)] + xs[IndexOf(xs, x) + 1..]
  }

  /** In a list without repeats, removing `x` keeps every other element and no repeat appears. */
  lemma RemoveFirstDistinct(xs: seq<string>, x: string)
    requires Distinct(xs) && x in xs
    ensures Distinct(RemoveFirst(xs, x))
    ensures forall y :: y in RemoveFirst(xs, x) <==> y in xs && y != x
  {
    var i := IndexOf(xs, x);
    var r := RemoveFirst(xs, x);
    forall j | 0 <= j < |r| ensures r[j] == if j < i then xs[j] else xs[j + 1] { }
    forall y | y in xs && y != x ensures y in r {
      var j :| 0 <= j < |xs| && xs[j] == y;
      if j < i { assert r[j] == y; } else { assert r[j - 1] == y; }
    }
  }

  /** The loop removing every left-out target from the protein keys, asserting that each is there. */
  function RemoveTargets(keys: seq<string>, targets: seq<string>): Result<seq<string>>
    decreases |targets|
  {
    if targets == [] then Ok(keys)
    else if targets[0] !in keys then Err(AssertionError(TargetNotInDataset(targets[0])))
    else RemoveTargets(RemoveFirst(keys, targets[0]), targets[1..])
  }

  /**
   * With distinct keys and distinct targets the removal succeeds exactly when every target is a
   * key, and then leaves the keys that are not targets; otherwise it names a missing target.
   */
  lemma {:induction false} RemoveTargetsMeaning(keys: seq<string>, targets: seq<string>)
    requires Distinct(keys) && Distinct(targets)
    ensures RemoveTargets(keys, targets).Ok? <==> forall t :: t in targets ==> t in keys
    ensures RemoveTargets(keys, targets).Ok? ==>
      Distinct(RemoveTargets(keys, targets).value) &&
      forall x :: x in RemoveTargets(keys, targets).value <==> x in keys && x !in targets
    ensures RemoveTargets(keys, targets).Err? ==>
      exists t :: t in targets && t !in keys && RemoveTargets(keys, targets).error == AssertionError(TargetNotInDataset(t))
    decreases |targets|
  {
    if targets != [] {
      var t := targets[0];
      assert targets == [t] + targets[1..];
      if t in keys {
        RemoveFirstDistinct(keys, t);
        RemoveTargetsMeaning(RemoveFirst(keys, t), targets[1..]);
      }
    }
  }

  /** `LeaveTargetsOut.split`: the rows of the remaining targets train, all others test. */
  function LeaveOutSpec(targets: seq<string>, keys: seq<string>, rows: seq<Row>): Result<seq<Fold>> {
    var remaining :- RemoveTargets(keys, targets);
    Ok([Fold(Positions(Proteins(rows), remaining, true), Positions(Proteins(rows), remaining, false))])
  }

  /**
   * With distinct protein keys that include every row's protein, and distinct targets, leaving
   * targets out succeeds exactly when every target is a key. It then yields one pair: the test
   * positions are exactly the rows of the left-out targets, the training positions all others,
   * both ascending, together `len(ds)` of them.
   */
  lemma LeaveOutPartition(targets: seq<string>, keys: seq<string>, rows: seq<Row>)
    requires Distinct(keys) && Distinct(targets)
    requires forall i :: 0 <= i < |rows| ==> rows[i].1 in keys
    ensures LeaveOutSpec(targets, keys, rows).Ok? <==> forall t :: t in targets ==> t in keys
    ensures LeaveOutSpec(targets, keys, rows).Ok? ==>
      var folds := LeaveOutSpec(targets, keys, rows).value;
      |folds| == 1 && Ascending(folds[0].train) && Ascending(folds[0].test) &&
      |folds[0].train| + |folds[0].test| == |rows| &&
      (forall i :: i in folds[0].test <==> 0 <= i < |rows| && rows[i].1 in targets) &&
      (forall i :: i in folds[0].train <==> 0 <= i < |rows| && rows[i].1 !in targets)
  {
    RemoveTargetsMeaning(keys, targets);
    if LeaveOutSpec(targets, keys, rows).Ok? {
      var remaining := RemoveTargets(keys, targets).value;
      PositionsMembers(Proteins(rows), remaining, true);
      PositionsMembers(Proteins(rows), remaining, false);
      PositionsAscending(Proteins(rows), remaining, true);
      PositionsAscending(Proteins(rows), remaining, false);
      PositionsCount(Proteins(rows), remaining);
    }
  }

  /** Leaves the rows of the given targets out as the test set. */
  class LeaveTargetsOut {
    const targets: seq<string>

    /** `list(set(targets))`: the targets without repeats. */
    constructor (targets: seq<string>)
      ensures Distinct(this.targets) && forall t :: t in this.targets <==> t in targets
    {
      this.targets := Dedup(targets);
    }

    /** `split`, on the dataset's rows and its protein keys. */
    method Split(rows: seq<Row>, proteinKeys: seq<string>) returns (r: Result<seq<Fold>>)
      ensures r == LeaveOutSpec(targets, proteinKeys, rows)
    {
      var remaining := proteinKeys;
      for i := 0 to |targets|
        invariant RemoveTargets(remaining, targets[i..]) == RemoveTargets(proteinKeys, targets[0..])
      {
        assert targets[i..][0] == targets[i] && targets[i..][1..] == targets[i + 1..];
        if targets[i] !in remaining {
          return Err(AssertionError(TargetNotInDataset(targets[i])));
        }
        remaining := RemoveFirst(remaining, targets[i]);
      }
      assert targets[0..] == targets;
      var proteins := Proteins(rows);
      var train, test := [], [];
      for i := 0 to |rows|
        invariant train == Positions(proteins[..i], remaining, true)
        invariant test == Positions(proteins[..i], remaining, false)
      {
        assert proteins[..i + 1][..i] == proteins[..i];
        if proteins[i] in remaining {
          train := train + [i];
        } else {
          test := test + [i];
        }
      }
      assert proteins[..|rows|] == proteins;
      r := Ok([Fold(train, test)]);
    }
  }

  // ---------------------------------------------------------------------------------------
  // Splitting per target

  /** A splitter of one target's rows: a temporal split, or any other given strategy. */
  datatype Splitter = Temporal(timeProp: string, timeSplit: int) | Given(name: string)

  /** The validated configuration: one splitter shared by all targets, or one per target. */
  datatype Choice = Shared(splitter: Splitter) | PerTarget(splitters: map<string, Splitter>)

  /**
   * `ds_target.split(splitter)`: the index keys of `X` and of `X_ind` for a target's rows, once
   * the target's sub-dataset has been built (see `NewTargetDataset` for the build as written).
   */
  type SplitFn = (Splitter, seq<Row>) -> (seq<Key>, seq<Key>)

  /** The constructor's two assertions: exactly one of `splitter` and `splitters` must be given. */
  function CheckChoice(splitter: Option<Splitter>, splitters: Option<map<string, Splitter>>): (r: Result<Choice>)
    ensures r.Ok? <==> splitter.Some? != splitters.Some?
    ensures r.Ok? && splitter.Some? ==> r.value == Shared(splitter.value)
    ensures r.Ok? && splitters.Some? ==> r.value == PerTarget(splitters.value)
    ensures splitter.None? && splitters.None? ==> r == Err(AssertionError(NoSplitter))
    ensures splitter.Some? && splitters.Some? ==> r == Err(AssertionError(BothSplitters))
  {
    if splitter.None? && splitters.None? then Err(AssertionError(NoSplitter))
    else if splitter.Some? && splitters.Some? then Err(AssertionError(BothSplitters))
    else if splitter.Some? then Ok(Shared(splitter.value))
    else Ok(PerTarget(splitters.value))
  }

  /** `self.splitter if self.splitter is not None else self.splitters[target]`. */
  function SplitterFor(choice: Choice, t: string): (r: Result<Splitter>)
    ensures choice.Shared? ==> r == Ok(choice.splitter)
    ensures choice.PerTarget? ==> (r.Ok? <==> t in choice.splitters)
    ensures choice.PerTarget? && r.Ok? ==> r.value == choice.splitters[t]
    ensures r.Err? ==> r.error == KeyError(t)
  {
    match choice
    case Shared(s) => Ok(s)
    case PerTarget(m) => if t in m then Ok(m[t]) else Err(KeyError(t))
  }

  /** `df[df[ds.proteincol] == target]`: the rows of one target, in table order. */
  function TargetRows(rows: seq<Row>, t: string): (sub: seq<Row>)
    ensures forall r :: r in sub <==> r in rows && r.1 == t
  {
    Filter(rows, (r: Row) => r.1 == t)
  }

  /**
   * The loop over the protein keys, extending `train` and `test` with the positions of each
   * target's parts, with the target's sub-dataset built from arguments its constructor accepts.
   */
  function Parts(choice: Choice, rows: seq<Row>, keys: seq<string>, f: SplitFn, train: seq<nat>, test: seq<nat>)
    : Result<(seq<nat>, seq<nat>)>
    decreases |keys|
  {
    if keys == [] then Ok((train, test))
    else
      var s :- SplitterFor(choice, keys[0]);
      var split := f(s, TargetRows(rows, keys[0]));
      Parts(choice, rows, keys[1..], f, train + Positions(Keys(rows), split.0, true),
            test + Positions(Keys(rows), split.1, true))
  }

  /** `StratifiedPerTarget.split`: the joined parts, provided the coverage assertion holds. */
  function StratifiedSpec(choice: Choice, rows: seq<Row>, keys: seq<string>, f: SplitFn): Result<seq<Fold>> {
    var parts :- Parts(choice, rows, keys, f, [], []);
    if |AsSet(parts.0)| + |AsSet(parts.1)| == |rows| then Ok([Fold(parts.0, parts.1)])
    else Err(AssertionError(NotCovered))
  }

  /** The split a target gets: its splitter applied to its rows (nothing when it has no splitter). */
  function SplitOf(choice: Choice, rows: seq<Row>, f: SplitFn, t: string): (seq<Key>, seq<Key>) {
    match SplitterFor(choice, t)
    case Ok(s) => f(s, TargetRows(rows, t))
    case Err(_) => ([], [])
  }

  /** A target's split names only keys of the target's rows. */
  ghost predicate Confined(split: (seq<Key>, seq<Key>), sub: seq<Row>) {
    forall k :: k in split.0 || k in split.1 ==> k in Keys(sub)
  }

  /** A target's split puts each of the target's rows in exactly one part, and nothing else in either. */
  ghost predicate PartitionsRows(split: (seq<Key>, seq<Key>), sub: seq<Row>) {
    && Confined(split, sub)
    && (forall k :: k in split.0 ==> k !in split.1)
    && (forall r :: r in sub ==> r.0 in split.0 || r.0 in split.1)
  }

  /** With unique index keys, a row whose key is among a target's keys belongs to that target. */
  lemma KeyOwner(rows: seq<Row>, t: string, i: nat)
    requires Distinct(Keys(rows)) && i < |rows| && rows[i].0 in Keys(TargetRows(rows, t))
    ensures rows[i].1 == t
  {
    var sub := TargetRows(rows, t);
    var j :| 0 <= j < |sub| && Keys(sub)[j] == rows[i].0;
    assert sub[j] in sub;
    var m :| 0 <= m < |rows| && rows[m] == sub[j];
    assert Keys(rows)[m] == Keys(rows)[i];
  }

  /** Every joined position is a row position. */
  lemma {:induction false} PartsBound(choice: Choice, rows: seq<Row>, keys: seq<string>, f: SplitFn, train: seq<nat>, test: seq<nat>)
    requires forall i :: i in train ==> i < |rows|
    requires forall i :: i in test ==> i < |rows|
    requires Parts(choice, rows, keys, f, train, test).Ok?
    ensures forall i :: i in Parts(choice, rows, keys, f, train, test).value.0 ==> i < |rows|
    ensures forall i :: i in Parts(choice, rows, keys, f, train, test).value.1 ==> i < |rows|
    decreases |keys|
  {
    if keys != [] {
      var split := f(SplitterFor(choice, keys[0]).value, TargetRows(rows, keys[0]));
      PartsBound(choice, rows, keys[1..], f, train + Positions(Keys(rows), split.0, true),
                 test + Positions(Keys(rows), split.1, true));
    }
  }

  /**
   * When the splits name only keys of their targets' rows, a position ends up in training
   * exactly when it was there already or its row is in the training part of its own target's
   * split (and likewise for test).
   */
  lemma {:induction false} PartsMembers(choice: Choice, rows: seq<Row>, keys: seq<string>, f: SplitFn,
                                       train: seq<nat>, test: seq<nat>)
    requires Distinct(Keys(rows))
    requires forall t :: t in keys ==> Confined(SplitOf(choice, rows, f, t), TargetRows(rows, t))
    requires Parts(choice, rows, keys, f, train, test).Ok?
    ensures forall i :: i in Parts(choice, rows, keys, f, train, test).value.0 <==>
      i in train || (0 <= i < |rows| && rows[i].1 in keys && rows[i].0 in SplitOf(choice, rows, f, rows[i].1).0)
    ensures forall i :: i in Parts(choice, rows, keys, f, train, test).value.1 <==>
      i in test || (0 <= i < |rows| && rows[i].1 in keys && rows[i].0 in SplitOf(choice, rows, f, rows[i].1).1)
    decreases |keys|
  {
    if keys != [] {
      var t := keys[0];
      var split := SplitOf(choice, rows, f, t);
      var train' := train + Positions(Keys(rows), split.0, true);
      var test' := test + Positions(Keys(rows), split.1, true);
      assert forall x :: x in keys <==> x == t || x in keys[1..];
      PartsMembers(choice, rows, keys[1..], f, train', test');
      PositionsMembers(Keys(rows), split.0, true);
      PositionsMembers(Keys(rows), split.1, true);
      forall i | 0 <= i < |rows| && (rows[i].0 in split.0 || rows[i].0 in split.1)
        ensures rows[i].1 == t
      {
        KeyOwner(rows, t, i);
      }
    }
  }

  /** With a splitter for every target, the loop never stops early. */
  lemma {:induction false} PartsOk(choice: Choice, rows: seq<Row>, keys: seq<string>, f: SplitFn, train: seq<nat>, test: seq<nat>)
    requires forall t :: t in keys ==> SplitterFor(choice, t).Ok?
    ensures Parts(choice, rows, keys, f, train, test).Ok?
    decreases |keys|
  {
    if keys != [] {
      var split := f(SplitterFor(choice, keys[0]).value, TargetRows(rows, keys[0]));
      assert forall x :: x in keys[1..] ==> x in keys;
      PartsOk(choice, rows, keys[1..], f, train + Positions(Keys(rows), split.0, true),
              test + Positions(Keys(rows), split.1, true));
    }
  }

  /** Two sets of positions below `n` such that each position below `n` is in exactly one of them split `0..n-1`. */
  lemma SplitOfRange(a: set<nat>, b: set<nat>, n: nat)
    requires forall i :: i in a ==> i < n
    requires forall i :: i in b ==> i < n
    requires forall i: nat :: i < n ==> (i in a) != (i in b)
    ensures a * b == {} && a + b == Range(n)
  {
    assert a + b == Range(n);
  }

  /**
   * When every row's protein is a key with a splitter, and each target's split partitions the
   * target's rows, the split succeeds with one pair that partitions the row positions.
   */
  lemma StratifiedPartition(choice: Choice, rows: seq<Row>, keys: seq<string>, f: SplitFn)
    requires Distinct(Keys(rows))
    requires forall i :: 0 <= i < |rows| ==> rows[i].1 in keys
    requires forall t :: t in keys ==> SplitterFor(choice, t).Ok? && PartitionsRows(SplitOf(choice, rows, f, t), TargetRows(rows, t))
    ensures StratifiedSpec(choice, rows, keys, f).Ok? && |StratifiedSpec(choice, rows, keys, f).value| == 1
    ensures var fold := StratifiedSpec(choice, rows, keys, f).value[0];
      AsSet(fold.train) * AsSet(fold.test) == {} && AsSet(fold.train) + AsSet(fold.test) == Range(|rows|)
  {
    PartsOk(choice, rows, keys, f, [], []);
    var p := Parts(choice, rows, keys, f, [], []).value;
    var a, b := AsSet(p.0), AsSet(p.1);
    PartsOnePart(choice, rows, keys, f);
    PartsBound(choice, rows, keys, f, [], []);
    SplitOfRange(a, b, |rows|);
    assert |a| + |b| == |rows|;
    assert StratifiedSpec(choice, rows, keys, f) == Ok([Fold(p.0, p.1)]);
  }

  /** Under the same conditions each row position lands in exactly one of the joined parts. */
  lemma PartsOnePart(choice: Choice, rows: seq<Row>, keys: seq<string>, f: SplitFn)
    requires Distinct(Keys(rows))
    requires forall i :: 0 <= i < |rows| ==> rows[i].1 in keys
    requires forall t :: t in keys ==> SplitterFor(choice, t).Ok? && PartitionsRows(SplitOf(choice, rows, f, t), TargetRows(rows, t))
    requires Parts(choice, rows, keys, f, [], []).Ok?
    ensures var p := Parts(choice, rows, keys, f, [], []).value;
      forall i: nat :: i < |rows| ==> (i in AsSet(p.0)) != (i in AsSet(p.1))
  {
    PartsMembers(choice, rows, keys, f, [], []);
    var p := Parts(choice, rows, keys, f, [], []).value;
    forall i: nat | i < |rows| ensures (i in AsSet(p.0)) != (i in AsSet(p.1)) {
      var t := rows[i].1;
      assert rows[i] in TargetRows(rows, t);
    }
  }

  /**
   * What the coverage assertion guarantees: when the joined parts do not overlap, passing it
   * means that together they hold every row position.
   */
  lemma StratifiedCoverage(choice: Choice, rows: seq<Row>, keys: seq<string>, f: SplitFn)
    requires StratifiedSpec(choice, rows, keys, f).Ok?
    requires AsSet(StratifiedSpec(choice, rows, keys, f).value[0].train) *
      AsSet(StratifiedSpec(choice, rows, keys, f).value[0].test) == {}
    ensures AsSet(StratifiedSpec(choice, rows, keys, f).value[0].train) +
      AsSet(StratifiedSpec(choice, rows, keys, f).value[0].test) == Range(|rows|)
  {
    PartsBound(choice, rows, keys, f, [], []);
    var fold := StratifiedSpec(choice, rows, keys, f).value[0];
    var u := AsSet(fold.train) + AsSet(fold.test);
    assert u <= Range(|rows|);
    assert |u| == |rows|;
    assert Range(|rows|) == u + (Range(|rows|) - u);
  }

  /**
   * Without that condition the assertion proves less: parts `{0, 1}` and `{1}` of a three-row
   * dataset pass it although row 2 is in neither.
   */
  lemma CoverageCheckOverlap()
    ensures |AsSet([0, 1])| + |AsSet([1])| == 3
    ensures 2 !in AsSet([0, 1]) + AsSet([1])
  {
    assert AsSet([0, 1]) == {0, 1};
    assert AsSet([1]) == {1};
  }

  /**
   * In the loop with a working build, with one splitter per target, a protein key without a
   * splitter makes the split raise `KeyError` for a key without one. As written the loop stops
   * at the first key (`AsWrittenRaises`), so only a first key without a splitter raises it.
   */
  lemma {:induction false} MissingSplitter(m: map<string, Splitter>, rows: seq<Row>, keys: seq<string>, f: SplitFn,
                                          train: seq<nat>, test: seq<nat>, t: string)
    requires t in keys && t !in m
    ensures Parts(PerTarget(m), rows, keys, f, train, test).Err?
    ensures Parts(PerTarget(m), rows, keys, f, train, test).error.KeyError?
    ensures Parts(PerTarget(m), rows, keys, f, train, test).error.key in keys
    ensures Parts(PerTarget(m), rows, keys, f, train, test).error.key !in m
    decreases |keys|
  {
    if keys[0] in m {
      var split := f(m[keys[0]], TargetRows(rows, keys[0]));
      assert forall x :: x in keys[1..] ==> x in keys;
      MissingSplitter(m, rows, keys[1..], f, train + Positions(Keys(rows), split.0, true),
                      test + Positions(Keys(rows), split.1, true), t);
    }
  }

  // ---------------------------------------------------------------------------------------
  // The per-target loop as written

  /**
   * Building a target's sub-dataset as written: the keyword values read `ds.targetProperties`
   * and `ds.indexCols`, and the constructor is passed the keywords `target_props` and
   * `index_cols`, which it does not take. `attrs` are the attribute names the PCM dataset has.
   * The build always raises: `AttributeError` when one of the two attributes is missing, the
   * unexpected-keyword `TypeError` for `target_props` otherwise.
   */
  function NewTargetDataset(attrs: set<string>): (r: Result<()>)
    ensures r.Err?
    ensures r.error.AttributeError? <==> "targetProperties" !in attrs || "indexCols" !in attrs
    ensures r.error.AttributeError? ==> r.error.attribute !in attrs
    ensures !r.error.AttributeError? ==> r.error == TypeError(UnexpectedKeyword("target_props"))
  {
    if "targetProperties" !in attrs then Err(AttributeError("targetProperties"))
    else if "indexCols" !in attrs then Err(AttributeError("indexCols"))
    else Err(TypeError(UnexpectedKeyword("target_props")))
  }

  /**
   * The loop over the protein keys as written: on the first key, the splitter lookup and then
   * the build, which raises, so `ds_target.split` and the later keys are never reached.
   */
  function PartsAsWritten(choice: Choice, keys: seq<string>, attrs: set<string>): Result<(seq<nat>, seq<nat>)> {
    if keys == [] then Ok(([], []))
    else
      var s :- SplitterFor(choice, keys[0]);
      Err(NewTargetDataset(attrs).error)
  }

  /** `StratifiedPerTarget.split` as written: the loop, then the coverage assertion (`f` is never reached). */
  function StratifiedAsWritten(choice: Choice, rows: seq<Row>, keys: seq<string>, f: SplitFn, attrs: set<string>)
    : Result<seq<Fold>>
  {
    var parts :- PartsAsWritten(choice, keys, attrs);
    if |AsSet(parts.0)| + |AsSet(parts.1)| == |rows| then Ok([Fold(parts.0, parts.1)])
    else Err(AssertionError(NotCovered))
  }

  /**
   * As written, a dataset with at least one protein key never reaches a split: the first key
   * raises `KeyError` when it has no splitter and the build's error otherwise, whatever the
   * other keys, the rows and the splitters are.
   */
  lemma AsWrittenRaises(choice: Choice, rows: seq<Row>, keys: seq<string>, f: SplitFn, attrs: set<string>)
    requires keys != []
    ensures StratifiedAsWritten(choice, rows, keys, f, attrs).Err?
    ensures StratifiedAsWritten(choice, rows, keys, f, attrs).error.KeyError? <==> SplitterFor(choice, keys[0]).Err?
    ensures SplitterFor(choice, keys[0]).Err? ==> StratifiedAsWritten(choice, rows, keys, f, attrs).error == KeyError(keys[0])
    ensures SplitterFor(choice, keys[0]).Ok? ==>
      StratifiedAsWritten(choice, rows, keys, f, attrs).error == NewTargetDataset(attrs).error
  {
  }

  /** As written, the split succeeds only on a dataset with no protein keys and no rows, and then yields one empty pair. */
  lemma AsWrittenNeverSplits(choice: Choice, rows: seq<Row>, keys: seq<string>, f: SplitFn, attrs: set<string>)
    ensures StratifiedAsWritten(choice, rows, keys, f, attrs).Ok? <==> keys == [] && rows == []
    ensures StratifiedAsWritten(choice, rows, keys, f, attrs).Ok? ==>
      StratifiedAsWritten(choice, rows, keys, f, attrs).value == [Fold([], [])]
  {
    if keys != [] {
      AsWrittenRaises(choice, rows, keys, f, attrs);
    } else {
      assert AsSet([]) == {};
    }
  }

  /**
   * The same for the corrected loop's conditions: as written, even when every row's protein is
   * a key with a splitter, a dataset with a row makes the split raise the build's error.
   */
  lemma AsWrittenRaisesOnSplittable(choice: Choice, rows: seq<Row>, keys: seq<string>, f: SplitFn, attrs: set<string>)
    requires rows != [] && forall i :: 0 <= i < |rows| ==> rows[i].1 in keys
    requires forall t :: t in keys ==> SplitterFor(choice, t).Ok?
    ensures StratifiedAsWritten(choice, rows, keys, f, attrs) == Err(NewTargetDataset(attrs).error)
  {
    assert rows[0].1 in keys;
    AsWrittenRaises(choice, rows, keys, f, attrs);
  }

  /** Splits each target's rows with one shared splitter or that target's own, and joins the parts. */
  class StratifiedPerTarget {
    const choice: Choice

    constructor (choice: Choice)
      ensures this.choice == choice
    {
      this.choice := choice;
    }

    /** `StratifiedPerTarget(splitter, splitters)`: raises unless exactly one of the two is given. */
    static method Create(splitter: Option<Splitter>, splitters: Option<map<string, Splitter>>)
      returns (r: Result<StratifiedPerTarget>)
      ensures CheckChoice(splitter, splitters).Err? ==> r == Err(CheckChoice(splitter, splitters).error)
      ensures CheckChoice(splitter, splitters).Ok? ==> r.Ok? && r.value.choice == CheckChoice(splitter, splitters).value
    {
      if splitter.None? && splitters.None? {
        return Err(AssertionError(NoSplitter));
      }
      if splitter.Some? && splitters.Some? {
        return Err(AssertionError(BothSplitters));
      }
      var choice := if splitter.Some? then Shared(splitter.value) else PerTarget(splitters.value);
      var s := new StratifiedPerTarget(choice);
      r := Ok(s);
    }

    /** `split`, on the dataset's rows and its protein keys. */
    method Split(rows: seq<Row>, proteinKeys: seq<string>, f: SplitFn) returns (r: Result<seq<Fold>>)
      ensures r == StratifiedSpec(choice, rows, proteinKeys, f)
    {
      var keys := Keys(rows);
      var train, test := [], [];
      for i := 0 to |proteinKeys|
        invariant Parts(choice, rows, proteinKeys[i..], f, train, test) == Parts(choice, rows, proteinKeys[0..], f, [], [])
      {
        var target := proteinKeys[i];
        assert proteinKeys[i..][0] == target && proteinKeys[i..][1..] == proteinKeys[i + 1..];
        var splitter: Splitter;
        if choice.Shared? {
          splitter := choice.splitter;
        } else if target in choice.splitters {
          splitter := choice.splitters[target];
        } else {
          return Err(KeyError(target));
        }
        var split := f(splitter, TargetRows(rows, target));
        train := train + Positions(keys, split.0, true);
        test := test + Positions(keys, split.1, true);
      }
      assert proteinKeys[0..] == proteinKeys;
      assert proteinKeys[|proteinKeys|..] == [];
      if |AsSet(train)| + |AsSet(test)| != |rows| {
        return Err(AssertionError(NotCovered));
      }
      r := Ok([Fold(train, test)]);
    }
  }

  /** One temporal splitter per key of `split_years`, splitting on the year column at that target's year. */
  function TemporalSplitters(yearCol: string, splitYears: map<string, int>): (m: map<string, Splitter>)
    ensures forall t :: t in m <==> t in splitYears
    ensures forall t :: t in m ==> m[t] == Temporal(yearCol, splitYears[t])
  {
    map t | t in splitYears :: Temporal(yearCol, splitYears[t])
  }

  /**
   * As written, the temporal split of a dataset with a protein key raises too: `KeyError` when
   * the first key has no split year, the build's error when it has one.
   */
  lemma TemporalAsWrittenRaises(yearCol: string, splitYears: map<string, int>, rows: seq<Row>, keys: seq<string>,
                                f: SplitFn, attrs: set<string>)
    requires keys != []
    ensures var r := StratifiedAsWritten(PerTarget(TemporalSplitters(yearCol, splitYears)), rows, keys, f, attrs);
      r.Err? && (keys[0] !in splitYears ==> r.error == KeyError(keys[0])) &&
      (keys[0] in splitYears ==> r.error == NewTargetDataset(attrs).error)
  {
    AsWrittenRaises(PerTarget(TemporalSplitters(yearCol, splitYears)), rows, keys, f, attrs);
  }

  /** Splits each target's rows in time, at a year chosen per target. */
  class TemporalPerTarget {
    const yearCol: string
    const splitYears: map<string, int>

    constructor (yearCol: string, splitYears: map<string, int>)
      ensures this.yearCol == yearCol && this.splitYears == splitYears
    {
      this.yearCol := yearCol;
      this.splitYears := splitYears;
    }

    /** `split`: a per-target split with the temporal splitters (the constructor's check passes, as only `splitters` is given). */
    method Split(rows: seq<Row>, proteinKeys: seq<string>, f: SplitFn) returns (r: Result<seq<Fold>>)
      ensures CheckChoice(None, Some(TemporalSplitters(yearCol, splitYears))) == Ok(PerTarget(TemporalSplitters(yearCol, splitYears)))
      ensures r == StratifiedSpec(PerTarget(TemporalSplitters(yearCol, splitYears)), rows, proteinKeys, f)
    {
      var splitters := map t | t in splitYears :: Temporal(yearCol, splitYears[t]);
      var inner := new StratifiedPerTarget(PerTarget(splitters));
      r := inner.Split(rows, proteinKeys, f);
    }
  }
}
