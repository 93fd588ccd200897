# QSPRpred data core in Dafny

A model of the data-preparation core of QSPRpred, a library that turns tables of molecules
(SMILES strings with a measured property) into feature matrices for quantitative
structure–property relationship models, with proofs of what its operations promise.

The model covers five parts of the library:

- **Molecule table** (`moleculetable.dfy`, `parallel.dfy`, `frames.dfy`).
  - The table is a pandas-like frame: unique row keys, ordered unique column names, one cell per column and key.
  - Column roles are found by name prefix. The table keeps its store paths.
  - Functions are applied row by row (`axis=1`), serially or chunk by chunk and batch by batch.
  - Descriptors are added idempotently through a left join on the index.
  - Scaffold columns are added, and rare scaffolds are bucketed into `'Other'` groups.
  - The table can be transformed, filtered, saved and reloaded.
- **Dataset** (`datasettargets.dfy`, `qsprdataset.dfy`).
  - Invalid rows are dropped.
  - The target is transformed, binarised at one threshold, binned into `include_lowest` intervals with label-encoded codes, or checked to be integral.
  - Thresholds on a regression task raise an error.
  - The train/test split state `X`, `y`, `X_ind`, `y_ind` stays index-aligned through featurisation, feature filtering and standardisation.
  - Standardizers are fitted on training rows only.
  - Folds wrap fitting on the training rows and applying to the test rows.
  - The `save` metadata is modelled, and `prepareDataset` runs its steps in a fixed order.
- **Descriptor sets** (`descriptorsets.dfy`): their names, widths and settings, fingerprint index narrowing, the pass-through set over a precomputed table, Tanimoto distances to reference SMILES, the predictor set, and the `get_<name>` registry.
- **Alignment provider** (`msa.dfy`).
  - It holds a cache keyed by the `"~"`-joined sequence ids and the current alignment.
  - A call returns without running the tool when there is nothing to align or the ids are cached; otherwise it runs MAFFT or Clustal.
  - It is saved to and restored from files.
- **Proteochemometric parts.**
  - The per-target data splitters (`pertarget.dfy`): leave-targets-out, stratified per target, and temporal per target.
  - The protein descriptor calculator (`proteincalc.dfy`): prefixes each block, merges the blocks in order on the index, and writes and reads the provider's file.

`seqs.dfy`, `strings.dfy` and `errors.dfy` hold shared helpers. These are sequence filters and permutations, string prefixes, path functions, number formatting and sorting, and the exception kinds used as `Result` errors.

Operations that change an object in place are methods of classes whose fields mirror the source's attributes. Each method is proved against a function that specifies its effect, and the lemmas beside it state the properties of that function.

Some behaviours are modelled as written even though they look unintended, and are stated as proved facts:

- The `FingerprintSet.descriptors` setter raises.
- The `TanimotoDistances` setter clears its reference fingerprints, so every later call with at least one molecule raises.
- `MoleculeTable.fromFile`, given a table's own store path, opens the name `<name>_df`.
- Saving a classification dataset whose thresholds were never set raises `AttributeError`.

## Model

| member | source | states |
|---|---|---|
| MoleculeTables.StorePathsShape | qsprpred/data/data.py:59-64 | the store directory has no trailing `/`; the store path is `<dir>/<name>` followed by `_df.pkl`, the calculator path ends in `_feature_calculators.json`; deriving the paths again from the stripped directory changes nothing |
| MoleculeTables.IsInStoreDf | qsprpred/data/data.py:89-90 | `_isInStore('df')` holds exactly when the store path exists (it always ends in `_df.pkl`) |
| MoleculeTables.FromFileOfStorePath | qsprpred/data/data.py:105-109 | given a table's own store path, `fromFile` opens the directory with the name `<name>_df`, whose store path is `<name>_df_df.pkl`, not the file it was given |
| MoleculeTables.StemNoDot | qsprpred/data/data.py:108 | a name without a dot keeps none after `_df` is appended, so `split('.')[0]` of the file name stops at `.pkl` |
| MoleculeTables.FileNoSlash | qsprpred/data/data.py:108 | a name without `/` gives a store file name without `/`, so `basename` returns the whole file name |
| MoleculeTables.DoubleSuffix | qsprpred/data/data.py:64 | the store path of the name `<name>_df` is `<dir>/<name>_df_df.pkl` |
| MoleculeTables.SubsetRows | qsprpred/data/data.py:127-134 | `df[subset or columns]` succeeds exactly when every subset column exists (else `KeyError`) and gives the rows of the subset, or of all columns for an empty subset |
| MoleculeTables.ApplyIsRowwise | qsprpred/data/data.py:121-153 | `apply`, serial or chunked over processes, succeeds exactly when the subset exists and a chunked run has a positive chunk size and some rows, and then gives `f` of every row, in row order (`axis=1`) |
| MoleculeTables.ApplyOnFirst | qsprpred/data/data.py:177-184 | applying `g(x[0])` on the one-column subset `[col]` gives, row by row, `g` of that row's cell, one result per row |
| MoleculeTables.AddMolColumn | qsprpred/data/data.py:74-76 | adding the molecule column succeeds exactly when the source column exists (else `KeyError`); the new (or replaced) column holds the parsed source cell of each row, nothing else changes |
| MoleculeTables.OpenSpec | qsprpred/data/data.py:43-81 | a missing store directory raises `FileNotFoundError`; a stored frame is reloaded when no frame is given or `overwrite` is off; no frame and nothing stored raises `ValueError`; otherwise the given frame is used, with a `RDMol` column when `add_rdkit` |
| MoleculeTables.MoleculeTable.Init | qsprpred/data/data.py:53-64 | the new table holds the given name, SMILES column, `add_rdkit` flag, paths, frame and calculator |
| MoleculeTables.MoleculeTable.Open | qsprpred/data/data.py:43-81 | the constructor succeeds and fails exactly as `OpenSpec` says, with the frame and calculator it gives and the paths of the store directory and name |
| MoleculeTables.SavedStore | qsprpred/data/data.py:92-98 | saving writes the frame to the store path and, only when there is a calculator, the calculator to its path; no other file changes |
| MoleculeTables.MoleculeTable.Save | qsprpred/data/data.py:92-98 | after `save` the store path holds the table's frame, every other frame file is unchanged, and the calculator file is written exactly when the table has a calculator |
| MoleculeTables.SaveReload | qsprpred/data/data.py:92-103 | reloading after a save gives back the saved frame; the saved calculator when there was one, otherwise a previously stored calculator file or the current calculator |
| MoleculeTables.MoleculeTable.Reload | qsprpred/data/data.py:100-103 | `reload` succeeds exactly when the frame file exists (else `FileNotFoundError`, nothing changes) and then holds the stored frame and, if its file exists, the stored calculator |
| MoleculeTables.MoleculeTable.Papply | qsprpred/data/data.py:131-153 | `papply` with `axis=1` gives what the chunked specification gives on the current frame |
| MoleculeTables.MoleculeTable.Apply | qsprpred/data/data.py:121-129 | `apply` with `axis=1` gives the row-wise results of `f` on the subset rows, whichever path it takes |
| MoleculeTables.FromSmilesFrame | qsprpred/data/data.py:111-115 | `fromSMILES` builds a one-column `SMILES` frame with keys `0..n-1`, row `i` holding the `i`-th SMILES |
| MoleculeTables.GetSubset | qsprpred/data/data.py:117-119 | the columns starting with the prefix, on the same index, and `None` exactly when there is none |
| MoleculeTables.DescriptorNames | qsprpred/data/data.py:194-195 | exactly the `Descriptor_` columns, in column order, without repeats when the columns have none |
| MoleculeTables.HasDescriptorsIff | qsprpred/data/data.py:197-199 | `hasDescriptors` holds exactly when some column starts with `Descriptor_` |
| MoleculeTables.ScaffoldNames | qsprpred/data/data.py:223-225 | exactly the `Scaffold_` columns, without those ending in `_RDMol` unless `include_mols`, in column order |
| MoleculeTables.GroupColumnsAreNotScaffolds | qsprpred/data/data.py:223-225 | a `ScaffoldGroup_` column is never a scaffold column |
| MoleculeTables.GetScaffolds | qsprpred/data/data.py:227-231 | the frame of exactly the scaffold columns `getScaffoldNames(includeMols)` names, on the same index |
| MoleculeTables.GetScaffoldGroups | qsprpred/data/data.py:247-249 | succeeds exactly when some column starts with `ScaffoldGroup_<name>_<k>`, and then gives the first such column in column order (so `ScaffoldGroup_<name>_10` listed before `ScaffoldGroup_<name>_1` is what `k = 1` gets); otherwise `IndexError` |
| MoleculeTables.DropDescriptors | qsprpred/data/data.py:170-171 | dropping the descriptor names keeps exactly the non-`Descriptor_` columns with their cells and the index, and leaves no descriptors |
| MoleculeTables.JoinDescriptors | qsprpred/data/data.py:177-188 | a successful join keeps the rows and appends the calculator's columns after the existing ones |
| MoleculeTables.ComputedRowsRectangular | qsprpred/data/data.py:185-187 | the computed rows make a block exactly when the calculator gives one value per descriptor for every row's SMILES |
| MoleculeTables.JoinDescriptorsSpec | qsprpred/data/data.py:177-188 | the join succeeds exactly when the SMILES column exists, the apply succeeds, every row gets one value per descriptor and no descriptor is already a column; it keeps every old column and holds, row by row, the calculator's values for that row's SMILES |
| MoleculeTables.JoinedRows | qsprpred/data/data.py:187-188 | the block joined on the table's own index gives back the computed rows |
| MoleculeTables.JoinDescriptorsHasDescriptors | qsprpred/data/data.py:169-189 | after a join with `Descriptor_` columns the table has descriptors, so a later call without `recalculate` returns early |
| MoleculeTables.MoleculeTable.AddDescriptors | qsprpred/data/data.py:169-189 | a table with descriptors and no `recalculate` is left alone; otherwise the join (after dropping old descriptors when recalculating) sets the frame and calculator on success and leaves both on failure |
| MoleculeTables.DeriveScaffold | qsprpred/data/data.py:218 | succeeds exactly when the SMILES column exists, appends `Scaffold_<s>` holding the scaffold of each row's SMILES, and keeps every other column |
| MoleculeTables.ScaffoldStep | qsprpred/data/data.py:214-221 | a present scaffold column leaves the table as is; otherwise the step succeeds exactly when the SMILES column exists and adds the derived column (and its molecule column), keeping the rows and the other columns |
| MoleculeTables.ScaffoldsSpec | qsprpred/data/data.py:213-221 | the loop keeps the table well formed on the same index |
| MoleculeTables.ScaffoldsKeep | qsprpred/data/data.py:213-221 | the loop keeps every row and column and, when no error stops it, leaves a column for every scaffold kind asked for |
| MoleculeTables.ScaffoldsSkipPresent | qsprpred/data/data.py:215-216 | with all scaffold columns present the loop changes nothing |
| MoleculeTables.ScaffoldsIdempotent | qsprpred/data/data.py:213-221 | adding the same scaffolds a second time changes nothing |
| MoleculeTables.MoleculeTable.AddScaffolds | qsprpred/data/data.py:213-221 | the table after the call and the error that stopped it are those of the loop specification |
| MoleculeTables.GroupStep | qsprpred/data/data.py:240-245 | the group column exists afterwards, old columns are unchanged, and a new group column holds each row's bucketed scaffold |
| MoleculeTables.GroupOfSpec | qsprpred/data/data.py:240-245 | a scaffold becomes `'Other'` exactly when it is not missing and occurs fewer than `mols_per_group` times (or already is `'Other'`), and otherwise keeps its value |
| MoleculeTables.GroupsSpec | qsprpred/data/data.py:237-245 | after the loop every scaffold column has its group column, and every old column is unchanged |
| MoleculeTables.GroupsUnfold | qsprpred/data/data.py:239 | the loop is its first pass followed by the loop over the other scaffold columns |
| MoleculeTables.GroupsSkipPresent | qsprpred/data/data.py:243 | with every group column present the loop changes nothing |
| MoleculeTables.GroupsIdempotent | qsprpred/data/data.py:237-245 | creating the scaffold groups twice is the same as once |
| MoleculeTables.MoleculeTable.CreateScaffoldGroups | qsprpred/data/data.py:237-245 | the new frame is the loop specification over the non-molecule scaffold columns |
| MoleculeTables.ApplyTransformers | qsprpred/data/data.py:157-158 | transforming keeps the index and the columns |
| MoleculeTables.ApplyTransformersCells | qsprpred/data/data.py:157-158 | every transformed cell is the composition of the transformers, first one innermost, applied to the old cell |
| MoleculeTables.RunTransformers | qsprpred/data/data.py:157-158 | the loop gives the transformers applied in order |
| MoleculeTables.Realign | qsprpred/data/data.py:163 | the realigned column has exactly the table's keys, `NaN` where the assigned column has none |
| MoleculeTables.Added | qsprpred/data/data.py:163 | the appended names are the new ones, once each |
| MoleculeTables.AssignedCells | qsprpred/data/data.py:163 | each assigned column covers exactly the table's keys |
| MoleculeTables.Assigned | qsprpred/data/data.py:163 | `df[addAs] = ret` keeps the index and appends the new names after the old columns |
| MoleculeTables.AssignedWellFormed | qsprpred/data/data.py:163 | the assigned table is well formed |
| MoleculeTables.AssignColumns | qsprpred/data/data.py:163 | succeeds exactly when the lengths agree (else `ValueError`); keeps the index and every column, untouched ones unchanged; with distinct names the `j`-th name holds the `j`-th column of `ret` realigned on the index |
| MoleculeTables.AssignedColumns | qsprpred/data/data.py:163 | old columns stay, assigned names become columns, and all-existing names add none |
| MoleculeTables.AssignedNamed | qsprpred/data/data.py:163 | with distinct names the `j`-th name receives the `j`-th column of `ret` |
| MoleculeTables.AssignOneColumn | qsprpred/data/data.py:163 | a one-column result always assigns and lands under its name, nothing else changing |
| MoleculeTables.MoleculeTable.Transform | qsprpred/data/data.py:155-163 | missing targets raise `KeyError`; without `addAs` the transformed columns are returned and the table is unchanged; with it the assignment's outcome sets the table |
| MoleculeTables.FiltersSpec | qsprpred/data/data.py:165-167 | the filters in turn give a well-formed table |
| MoleculeTables.FiltersSubFrame | qsprpred/data/data.py:165-167 | filtering only drops rows: order, columns and kept cells are unchanged |
| MoleculeTables.MoleculeTable.Filter | qsprpred/data/data.py:165-167 | the new frame is the filters' result, a sub-frame of the old one |
| MoleculeTables.MoleculeTable.AddProperty | qsprpred/data/data.py:207-208 | succeeds exactly when the data has one value per row (else `ValueError`, table unchanged) and sets the column to the data in row order |
| MoleculeTables.MoleculeTable.RemoveProperty | qsprpred/data/data.py:210-211 | succeeds exactly when the column exists (else `KeyError`, table unchanged) and drops it |
| ParallelApply.Chunks | qsprpred/data/data.py:135 | `[s[i:i+size] for i in range(0, n, size)]`: no chunks exactly for no rows; every chunk is non-empty and at most `size` long, all but the last exactly `size` |
| ParallelApply.ChunksFlatten | qsprpred/data/data.py:135 | the chunks, concatenated in order, are the rows again |
| ParallelApply.ChunksCount | qsprpred/data/data.py:135 | there are `ceil(n / size)` chunks |
| ParallelApply.RunBatches | qsprpred/data/data.py:137-151 | the loop appends each chunk's result in batch order and chunk order: the flattened per-batch map |
| ParallelApply.BatchResultsCount | qsprpred/data/data.py:139-151 | grouping the chunks into batches and flattening the results gives one result per chunk, in chunk order |
| ParallelApply.ChunkedApplyIsMap | qsprpred/data/data.py:121-153 | `papply` raises `ValueError` exactly when the chunk size or process count is not positive or there are no rows (empty `pd.concat`); otherwise it equals the row-by-row map |
| Frames.Select | qsprpred/data/data.py:127 | `df[names]` for existing distinct names: those columns, in that order, with their cells, on the same index |
| Frames.SelectChecked | qsprpred/data/data.py:156 | `df[names]` succeeds exactly when every name is a column, else `KeyError` naming a missing one |
| Frames.DropColumns | qsprpred/data/data.py:171 | `drop(names, axis=1)` keeps the index and exactly the other columns, in order, with their cells |
| Frames.SetColumn | qsprpred/data/data.py:208 | `df[name] = vals` replaces or appends the column, `NaN` where `vals` has no key, and changes no other column |
| Frames.FilterRows | qsprpred/data/data.py:371 | a boolean mask keeps the masked rows in order, with every column and cell |
| Frames.FilterRowsAll | qsprpred/data/data.py:371 | a mask that keeps every row changes nothing |
| Frames.LeftJoin | qsprpred/data/data.py:188 | `join(how='left')` succeeds exactly when no column is shared (else `ValueError`), keeps the left rows and columns, and appends the right columns, `NaN` where the right has no such row |
| Frames.AddColumns | qsprpred/data/data.py:188 | the appended columns take the right table's cells on the shared rows and `NaN` elsewhere |
| Frames.InnerMerge | qsprpred/extra/data/utils/descriptorcalculator.py:60 | `merge(left_index=True, right_index=True)` keeps the keys of both in left order, the left columns then the right (shared names suffixed `_x`/`_y`), and each side's cells; duplicate names after suffixing raise `ValueError` |
| Frames.MergeDisjoint | qsprpred/extra/data/utils/descriptorcalculator.py:60 | with no shared column the merge succeeds and keeps the columns as they are |
| Frames.Loc | qsprpred/data/data.py:520-523 | `loc[keys, :]` succeeds exactly when every key is a row (else `KeyError`) and gives those rows of every column in key order |
| Frames.RowsOn | qsprpred/data/data.py:134 | the rows of the named columns, one list per row in index order |
| Frames.Project | qsprpred/data/data.py:134 | row lists of the named columns, or `KeyError` naming a missing one |
| Frames.MapCells | qsprpred/data/data.py:527 | an element-wise map keeps the index and columns and maps every cell |
| Frames.FromRows | qsprpred/data/data.py:675-676 | `DataFrame(rows, index, columns)` succeeds exactly when there is one row per key and one value per column, and holds those rows |
| Frames.FromRowsCells | qsprpred/data/data.py:675-676 | cell `(columns[j], index[i])` of the built frame is `rows[i][j]` |
| DatasetTargets.DropInvalidsSpec | qsprpred/data/data.py:361-371 | `dropInvalids` fails with `KeyError` exactly when the SMILES or the target column is missing, and otherwise keeps the columns |
| DatasetTargets.DropInvalidsSubFrame | qsprpred/data/data.py:361-371 | dropping invalid rows only removes rows: order, columns and kept cells are unchanged |
| DatasetTargets.DropInvalidsRows | qsprpred/data/data.py:364-371 | a row is kept exactly when its SMILES and target are present and its SMILES parses |
| DatasetTargets.DropInvalidsIdempotent | qsprpred/data/data.py:361-371 | dropping invalid rows twice is the same as once |
| DatasetTargets.KeptRowsValid | qsprpred/data/data.py:364-371 | every kept row has a SMILES and a target and a SMILES that parses |
| DatasetTargets.KeptRowValid | qsprpred/data/data.py:364-371 | one kept row has a SMILES and a target, and its SMILES parses |
| DatasetTargets.MaxOf | qsprpred/data/data.py:394-395 | `max` is an element of the list and no element exceeds it |
| DatasetTargets.MinOf | qsprpred/data/data.py:397-398 | `min` is an element of the list and no element is below it |
| DatasetTargets.PyMax | qsprpred/data/data.py:394-395 | the builtin `max` of a target column of numbers and `NaN`s is one of its cells; it is `NaN` when the first value is `NaN`, and otherwise a number no other number exceeds, later `NaN`s being passed over |
| DatasetTargets.PyMin | qsprpred/data/data.py:397-398 | the builtin `min` likewise: `NaN` when the first value is `NaN`, otherwise a number no other number is below |
| DatasetTargets.IncreasingBounds | qsprpred/data/data.py:394-399 | for increasing thresholds `min(th)` is the first and `max(th)` the last |
| DatasetTargets.BinFrom | qsprpred/data/data.py:400-402 | the search from bin `j` finds a bin containing the value |
| DatasetTargets.Bin | qsprpred/data/data.py:400-402 | `pd.cut(..., include_lowest=True)`: a value within the bounds lies in exactly one bin, the first closed on both sides and the others open on the left |
| DatasetTargets.BinUnique | qsprpred/data/data.py:400-402 | no value lies in two bins |
| DatasetTargets.BinBelow | qsprpred/data/data.py:400-402 | a value in bin `i` is in no later bin |
| DatasetTargets.Bins | qsprpred/data/data.py:400-402 | one entry per value: no bin exactly for a `NaN`, and for a number the one bin containing it, below the number of intervals |
| DatasetTargets.Classes | qsprpred/data/data.py:403 | `LabelEncoder` classes: the distinct labels, sorted, each once |
| DatasetTargets.Encode | qsprpred/data/data.py:403 | each label's code is the position of that label among the sorted classes |
| DatasetTargets.EncodeSpec | qsprpred/data/data.py:403 | two rows share a code exactly when they share a label; every class code is used; there are as many distinct codes as distinct labels |
| DatasetTargets.Binarize | qsprpred/data/data.py:405 | `(x > th[0]).astype(float)` succeeds exactly when every cell is a number or `NaN` (else `TypeError`) and gives `1.0` above the threshold, `0.0` otherwise, `NaN` included |
| DatasetTargets.MakeClassificationSpec | qsprpred/data/data.py:386-408 | an empty threshold list or one of two or three values fails its assertion; a missing target raises `KeyError`; one threshold binarises and more than three bin, as `BinarySpec` and `MultiClassSpec` state, `NaN` targets included; on success the rows and old columns stay and the class column `<target>` or `<target>_class` is added |
| DatasetTargets.WithTarget | qsprpred/data/data.py:407 | pairs a successful table with the new target name and passes errors through |
| DatasetTargets.BinarySpec | qsprpred/data/data.py:405 | the binary class column is added and the rows and old columns stay |
| DatasetTargets.BinnableByBounds | qsprpred/data/data.py:394-402 | a column of numbers and `NaN`s can be binned exactly when it is not empty, its builtin `max` is a number at most `max(th)`, its builtin `min` a number at least `min(th)`, and the thresholds increase |
| DatasetTargets.MultiClassSpec | qsprpred/data/data.py:390-403 | multi-class labelling succeeds exactly when the values can be binned (a leading `NaN` cannot, later `NaN`s can) and then gives the binned table; it raises `TypeError` exactly when some value is a string or a molecule |
| DatasetTargets.LeadingNanFails | qsprpred/data/data.py:394-396 | a column whose first value is `NaN` fails the assertion on the largest threshold, since `max` of it is `NaN` |
| DatasetTargets.BinLabels | qsprpred/data/data.py:400-402 | one interval label per row |
| DatasetTargets.BinnedFrame | qsprpred/data/data.py:400-403 | the binned table keeps the rows and columns and has the class column |
| DatasetTargets.BinnedFrameCells | qsprpred/data/data.py:400-403 | row by row, `<prop>_intervals` holds the interval label and `<prop>` the label's code |
| DatasetTargets.NanLabelled | qsprpred/data/data.py:400-402 | a row's interval label is `"nan"` exactly when its target is `NaN`, given interval labels that never read `"nan"` |
| DatasetTargets.NanOwnCode | qsprpred/data/data.py:400-403 | the `NaN` rows share one class code, and no row with a number has it |
| DatasetTargets.BinLabelsShape | qsprpred/data/data.py:400-402 | with distinct interval labels none of which is `"nan"`, two rows share a label exactly when they share a bin (`NaN` rows sharing the empty bin) |
| DatasetTargets.BinnedColumn | qsprpred/data/data.py:403 | the class column is the codes of the interval labels, in row order |
| DatasetTargets.BinnedFrameCodes | qsprpred/data/data.py:400-403 | two rows share a class code exactly when their values share a bin, so there are as many codes as occupied bins |
| DatasetTargets.CodesFollowBins | qsprpred/data/data.py:403 | codes of labels that follow the bins follow the bins too, with as many distinct values |
| DatasetTargets.MakeClassificationBinary | qsprpred/data/data.py:404-405 | one threshold succeeds exactly when every target is a number or `NaN` (else `TypeError`), the class column holds `target > th[0]` as `1.0`/`0.0` row by row, and every other column is unchanged |
| DatasetTargets.ComparableColumn | qsprpred/data/data.py:405 | the column is comparable at every position exactly when it is at every row key |
| DatasetTargets.BinarizedCells | qsprpred/data/data.py:405 | the assigned binary column holds, per row, the comparison of that row's target |
| DatasetTargets.MakeClassificationMulti | qsprpred/data/data.py:390-403 | more than three thresholds over binnable values give the binned table with the class column |
| DatasetTargets.NClasses | qsprpred/data/data.py:353-359 | `nClasses` is `0` for regression; for classification it is the number of distinct target values, at most the number of rows and at least one when there are rows; `KeyError` for a missing target |
| DatasetTargets.IsMultiClass | qsprpred/data/data.py:349-351 | regression is never multi-class; for classification the result is `nClasses > 2`, in both directions, and `nClasses`' `KeyError` for a missing target is passed on |
| DatasetTargets.BinaryNotMultiClass | qsprpred/data/data.py:349-351 | a table made binary by one threshold is not multi-class |
| DatasetTargets.TwoValuedClasses | qsprpred/data/data.py:405 | a column of `0.0` and `1.0` has at most two distinct values |
| DatasetTargets.BinaryValues | qsprpred/data/data.py:405 | after one threshold every class cell is `0.0` or `1.0` |
| DatasetTargets.MultiClassCount | qsprpred/data/data.py:390-403 | after binning, `nClasses` is the number of occupied bins, not the number of intervals |
| DatasetTargets.BinnedClassCount | qsprpred/data/data.py:353-359 | the binned table's class count is the number of occupied bins |
| DatasetTargets.AllIntegralIff | qsprpred/data/data.py:331 | the recursive integrality check holds exactly when every cell is integral |
| DatasetTargets.IntegralCheck | qsprpred/data/data.py:331 | the assertion passes exactly when every target converts with `float` to an integral number, numeric strings included; otherwise the first target that does not decides the error: `ValueError` for an unparsable string, `TypeError` for a molecule, `AssertionError` for `NaN`, a fraction or an infinity |
| DatasetTargets.TransformTargetSpec | qsprpred/data/data.py:321-324 | the transform succeeds exactly when the target exists (else `KeyError`) and adds `<target>_transformed` as the new target, keeping the rows and columns |
| DatasetTargets.TransformTargetCells | qsprpred/data/data.py:321-324 | the transformed column holds the transformer of each row's target; every other column is unchanged |
| DatasetTargets.TransformedColumn | qsprpred/data/data.py:156-158 | the transformed one-column selection holds, per row, the transformer of the target |
| DatasetTargets.TransformStep | qsprpred/data/data.py:321-324 | with a transformer the target becomes `<target>_transformed`, without one it stays; the step never fails on an existing target |
| DatasetTargets.TaskStep | qsprpred/data/data.py:326-334 | regression with thresholds raises `ValueError`; classification with thresholds makes `<target>_class` the target; classification without them succeeds exactly when every target is integral after `float`, leaves the table unchanged, and otherwise fails with the error of some target |
| DatasetTargets.FramingSpec | qsprpred/data/data.py:315-334 | a successful construction has dropped the invalid rows, keeps their index, and has its target column and the thresholds of a thresholded classification; regression with thresholds fails |
| DatasetTargets.FramingSteps | qsprpred/data/data.py:319-334 | the construction is the drop, then the transform, then the task step |
| QSPRDatasets.CreateSpec | qsprpred/data/data.py:281-334 | a missing store directory fails with `FileNotFoundError`; regression with thresholds fails; on success the framed table has the task asked for and its target column, named `<target>`, `<target>_transformed`, `<target>_class` or `<target>_transformed_class` as the transformer and thresholds say |
| QSPRDatasets.QSPRDataset.Init | qsprpred/data/data.py:336-345 | a new dataset has the framed target, task, thresholds and fold count, no split parts, no features, no standardizers and no feature filters |
| QSPRDatasets.QSPRDataset.Create | qsprpred/data/data.py:281-347 | the constructor succeeds and fails exactly as `CreateSpec` says and then holds its table, target, task, thresholds, calculator and fold count, with nothing split |
| QSPRDatasets.QSPRDataset.DropInvalids | qsprpred/data/data.py:361-371 | `dropInvalids` on the dataset's table: the new frame is that of `DropInvalidsSpec`, or the old one with its error |
| QSPRDatasets.QSPRDataset.MakeClassification | qsprpred/data/data.py:386-408 | on success the frame and target are those of `MakeClassificationSpec` (which bins `NaN` targets after the first row as the source does), the task is classification and `th` is recorded; on failure nothing changes |
| QSPRDatasets.ReplaceColumn | qsprpred/data/data.py:381-384 | replacing a column succeeds exactly when it exists (else `KeyError`), applies the function to each of its cells and changes no other column |
| QSPRDatasets.CleanSpec | qsprpred/data/data.py:373-384 | cleaning with neither step changes nothing; otherwise it succeeds exactly when the SMILES column exists, and only that column changes |
| QSPRDatasets.CleanCells | qsprpred/data/data.py:375-384 | each SMILES is first standardized (if asked) and then sanitized (if asked) |
| QSPRDatasets.QSPRDataset.CleanMolecules | qsprpred/data/data.py:373-378 | the new frame is that of `CleanSpec`, or the old one with its error |
| QSPRDatasets.SplitSpec | qsprpred/data/data.py:487-489 | the split succeeds exactly when the SMILES and target columns exist (else `KeyError`) and gives the split parts |
| QSPRDatasets.SplitParts | qsprpred/data/data.py:487-489 | `X`/`X_ind` hold the SMILES column and `y`/`y_ind` the target, each pair on the same row keys |
| QSPRDatasets.SplitPartition | qsprpred/data/data.py:487-489 | every row goes to exactly one of the training and independent parts, each in table order, and no other rows appear |
| QSPRDatasets.SplitCells | qsprpred/data/data.py:487-489 | each part holds the table's own SMILES and target cells for its rows |
| QSPRDatasets.QSPRDataset.Split | qsprpred/data/data.py:481-489 | on success the four parts are those of `SplitSpec`, pairwise aligned; on failure they are unchanged |
| QSPRDatasets.Descriptors | qsprpred/data/data.py:191-192 | `getDescriptors` is the frame of the descriptor columns, on the table's index |
| QSPRDatasets.Reslice | qsprpred/data/data.py:520-521 | `loc[part.index, :]` succeeds exactly when the part is set and all its keys are rows, and gives those rows of every column, in the part's order; an unset part raises `AttributeError` |
| QSPRDatasets.ResliceTarget | qsprpred/data/data.py:522-523 | `loc[part.index, [target]]` succeeds exactly when the part is set, the target exists and all its keys are rows, and gives the target cells of those rows |
| QSPRDatasets.FeaturizeSpec | qsprpred/data/data.py:517-523 | a successful `featurizeSplits` leaves all four parts set |
| QSPRDatasets.FeaturizeFeatures | qsprpred/data/data.py:520-521 | re-slicing `X` and `X_ind` leaves `y` and `y_ind` alone |
| QSPRDatasets.FeaturizeTargets | qsprpred/data/data.py:522-523 | re-slicing `y` and `y_ind` leaves `X` and `X_ind` alone |
| QSPRDatasets.FeaturizeKeepsAlignment | qsprpred/data/data.py:517-523 | featurising keeps every part on its own row keys, so aligned pairs stay aligned; the feature parts hold exactly the descriptor columns and the target parts the target |
| QSPRDatasets.QSPRDataset.FeaturizeSplits | qsprpred/data/data.py:517-523 | the new parts and outcome are those of `FeaturizeSpec` |
| QSPRDatasets.QSPRDataset.ResliceFeatures | qsprpred/data/data.py:519-521 | the new feature parts and outcome are those of `FeaturizeFeatures` on the descriptors |
| QSPRDatasets.QSPRDataset.ResliceTargets | qsprpred/data/data.py:522-523 | the new target parts and outcome are those of `FeaturizeTargets` |
| QSPRDatasets.FillMissingSpec | qsprpred/data/data.py:525-527 | filling succeeds exactly when every column to fill (the given ones, or the descriptor columns when none are given) exists, else `KeyError`; it keeps the index and columns |
| QSPRDatasets.FillMissingCells | qsprpred/data/data.py:525-527 | each `NaN` of a filled column becomes the fill value, every other cell and column is unchanged |
| QSPRDatasets.FilledColumns | qsprpred/data/data.py:527 | assigning the filled selection back replaces exactly the `NaN` cells of the filled columns |
| QSPRDatasets.FilledCell | qsprpred/data/data.py:527 | one filled cell is the fill value when it was `NaN` and its old value otherwise |
| QSPRDatasets.QSPRDataset.FillMissing | qsprpred/data/data.py:525-528 | the new frame is that of `FillMissingSpec`, or the old one with its error |
| QSPRDatasets.FeatureFiltersSpec | qsprpred/data/data.py:533-534 | the filters keep the rows and only drop columns: the result's columns are old ones, in order, with their cells |
| QSPRDatasets.QSPRDataset.ApplyFeatureFilters | qsprpred/data/data.py:533-534 | the filter loop gives `FeatureFiltersSpec` |
| QSPRDatasets.ProjectFeatures | qsprpred/data/data.py:537 | `X_ind[features]` succeeds exactly when every training feature is a test column (else `KeyError` naming a missing one) and gives those columns of `X_ind`, on its rows, in the training order |
| QSPRDatasets.FilterFeaturesSpec | qsprpred/data/data.py:530-541 | an unset `X` raises `AttributeError`; `X` becomes the filtered features and `features` its columns; an unset `X_ind` raises `TypeError`; success exactly when `X_ind` has every kept feature and there is a calculator, which is then told to keep them; on failure the calculator is unchanged |
| QSPRDatasets.FilterFeaturesKeepsAlignment | qsprpred/data/data.py:530-541 | filtering keeps an aligned split aligned, and the kept features are training columns, in order, and the columns of `X_ind` |
| QSPRDatasets.QSPRDataset.FilterFeatures | qsprpred/data/data.py:530-541 | the filters given (or the stored ones) become the dataset's, and the new parts, features, calculator and outcome are those of `FilterFeaturesSpec` |
| QSPRDatasets.ApplyStandardizersSpec | qsprpred/data/data.py:616-631 | one standardizer used per standardizer given |
| QSPRDatasets.ChainStep | qsprpred/data/data.py:619-629 | one pass: the standardizer is fitted on the current matrix (or kept), applied to it, and recorded before the rest |
| QSPRDatasets.ApplyWithoutFit | qsprpred/data/data.py:625-629 | without fitting, the standardizers used are exactly those given |
| QSPRDatasets.ApplyFitsOnInput | qsprpred/data/data.py:623-629 | with fitting, the `i`-th standardizer is fitted on the matrix the earlier ones produced |
| QSPRDatasets.ApplyFittedAgain | qsprpred/data/data.py:616-631 | applying the fitted chain again, with or without fitting, gives the same matrix and chain |
| QSPRDatasets.QSPRDataset.ApplyFeatureStandardizers | qsprpred/data/data.py:616-631 | the loop gives the matrix and standardizers of `ApplyStandardizersSpec` |
| QSPRDatasets.StandardizeSpec | qsprpred/data/data.py:659-676 | an empty chain raises `ValueError`; unset features raise `AttributeError`; the chain fitted on `X` replaces the old one; on success `X` is the fitted result and `X_ind` the fitted chain applied without fitting, both on their own rows and columns; on failure `X_ind` is unchanged |
| QSPRDatasets.StandardizeFitsOnTrainOnly | qsprpred/data/data.py:664-673 | each standardizer of the new chain is fitted on what the training features give it, the chain does not depend on the test features, and applying it to them leaves it unchanged |
| QSPRDatasets.StandardizeKeepsAlignment | qsprpred/data/data.py:675-676 | standardizing keeps an aligned split aligned |
| QSPRDatasets.QSPRDataset.StandardizeFeatures | qsprpred/data/data.py:659-676 | the new chain, feature parts and outcome are those of `StandardizeSpec` with the given or the stored chain |
| QSPRDatasets.Pick | qsprpred/data/data.py:647-650 | `values[idx]` succeeds exactly when every position is a row (else `IndexError`) and gives those rows in order |
| QSPRDatasets.FirstColumn | qsprpred/data/data.py:651 | `y[:, 0]` succeeds exactly when every row has a cell and gives the first cell of each |
| QSPRDatasets.FoldsSpec | qsprpred/data/data.py:644-651 | the folds succeed exactly when every fold does and then give one standardized fold per fold, in order |
| QSPRDatasets.FoldsSpecStep | qsprpred/data/data.py:645-651 | one fold, then the rest, stopping at the first that raises |
| QSPRDatasets.FoldFittedOnTrain | qsprpred/data/data.py:644-651 | in every fold the chain is fitted stage by stage on the training rows alone and reused without fitting on the test rows; the targets are the first target cell of each fold's rows |
| QSPRDatasets.QSPRDataset.StandardizeFold | qsprpred/data/data.py:646-651 | one fold as `FoldSpec` says |
| QSPRDatasets.QSPRDataset.StandardizeFolds | qsprpred/data/data.py:644-651 | the fold loop gives `FoldsSpec` |
| QSPRDatasets.FoldCount | qsprpred/data/data.py:635 | a given non-zero fold count replaces the stored one; otherwise the stored one stays |
| QSPRDatasets.FoldChain | qsprpred/data/data.py:638 | given standardizers are used when there are some, otherwise the dataset's own |
| QSPRDatasets.FoldSetup | qsprpred/data/data.py:635-642 | the part of `createFolds` that runs on the call: the fold count becomes `FoldCount`; none or zero raises `ValueError`, and a count below two raises the `ValueError` of the `KFold`/`StratifiedKFold` constructor; any count of two or more succeeds, whatever the split state |
| QSPRDatasets.CreateFoldsSpec | qsprpred/data/data.py:633-657 | the fold count and every error raised before the first fold are those of `FoldSetup`; on success there is one standardized fold per fold, each as `FoldSpec` says with the chain `FoldChain` picks |
| QSPRDatasets.QSPRDataset.SetUpFolds | qsprpred/data/data.py:635-642 | the stored fold count and the outcome are those of `FoldSetup`; no fold is read or standardized |
| QSPRDatasets.QSPRDataset.CreateFolds | qsprpred/data/data.py:633-657 | the new fold count and the folds are those of `CreateFoldsSpec`, one per fold on success |
| QSPRDatasets.MetaSpec | qsprpred/data/data.py:453-466 | the metadata records target, task name, fold count and SMILES column, and the thresholds for classification; a classification dataset without thresholds raises `AttributeError` |
| QSPRDatasets.StandardizerPaths | qsprpred/data/data.py:434-435 | the `i`-th standardizer goes to `<prefix>_feature_standardizer_<i>.json` |
| QSPRDatasets.StandardizerPathsDistinct | qsprpred/data/data.py:434-435 | no two standardizers share a file |
| QSPRDatasets.SaveStandardizers | qsprpred/data/data.py:433-440 | each standardizer is written to its own path; files at other paths are unchanged and no other file appears |
| QSPRDatasets.SplitPathsDistinct | qsprpred/data/data.py:444-451 | the four split files and the frame file are five different paths |
| QSPRDatasets.ReloadSplits | qsprpred/data/data.py:472-479 | reloading the split parts keeps them well formed |
| QSPRDatasets.SaveReloadSplits | qsprpred/data/data.py:443-477 | saving a fully set split and reloading it from the same prefix gives back every part |
| QSPRDatasets.QSPRDataset.Save | qsprpred/data/data.py:429-468 | the table's frame is saved and its calculator as the table saves it; each standardizer goes to its numbered file; with `save_split` an aligned split reloads as it was; the metadata is written, or `AttributeError` for a classification dataset without thresholds |
| QSPRDatasets.QSPRDataset.SplitFiles | qsprpred/data/data.py:443-451 | the split files are written only with `save_split`, leave the frame file alone and reload to the split |
| QSPRDatasets.QSPRDataset.SaveMeta | qsprpred/data/data.py:453-468 | only the metadata file changes, holding `MetaSpec`'s record, unless that raises |
| QSPRDatasets.QSPRDataset.Reload | qsprpred/data/data.py:470-479 | the table reloads as `MoleculeTable.reload` does (a missing frame file raises and nothing changes); with `load_split` the split parts are read in turn up to the first missing file |
| QSPRDatasets.DatasetFromFileOfStorePath | qsprpred/data/data.py:411-415 | `QSPRDataset.fromFile` of a dataset's store path recovers its directory and name and opens its metadata file |
| QSPRDatasets.DatasetArgsOfStorePath | qsprpred/data/data.py:413-414 | `rsplit('_', 1)[0]` of the store file name is the name |
| QSPRDatasets.MetaJoin | qsprpred/data/data.py:415 | `os.path.join(dir, name + "_meta.json")` is the metadata path `save` writes |
| QSPRDatasets.QSPRDataset.CleanAndDescribe | qsprpred/data/data.py:571-577 | the cleaning and descriptor steps run when asked, in that order, stopping at the first failure |
| QSPRDatasets.QSPRDataset.FilterAndFill | qsprpred/data/data.py:579-586 | the data filter and fill steps run when asked, in that order, stopping at the first failure |
| QSPRDatasets.QSPRDataset.SplitAndFeaturize | qsprpred/data/data.py:588-594 | the split runs when asked and featurising when the table has descriptors, stopping at the first failure |
| QSPRDatasets.QSPRDataset.SelectAndStandardize | qsprpred/data/data.py:596-610 | feature filters and standardizers run when given, in that order, stopping at the first failure |
| QSPRDatasets.QSPRDataset.PrepareTable | qsprpred/data/data.py:571-586 | the four table steps run as planned, or a non-empty prefix of the plan up to the failing one |
| QSPRDatasets.QSPRDataset.PrepareSplit | qsprpred/data/data.py:588-610 | the four split steps run as planned, or a prefix up to the failing one |
| QSPRDatasets.QSPRDataset.PrepareRest | qsprpred/data/data.py:588-613 | the split steps and then `createFolds(n_folds)` run as planned, or a prefix up to the failing step; once the folds step is reached, the fold count and the outcome are those of `FoldSetup`, since the returned fold generator is discarded unconsumed |
| QSPRDatasets.TableStepsRun | qsprpred/data/data.py:571-586 | the table steps are in order and include each step exactly when it is asked for |
| QSPRDatasets.SplitStepsRun | qsprpred/data/data.py:588-610 | the split steps are in order and include each step exactly when it is asked for |
| QSPRDatasets.PlannedStepsInOrder | qsprpred/data/data.py:571-613 | the planned steps are in the order of the source |
| QSPRDatasets.PlannedStepsAsked | qsprpred/data/data.py:571-613 | the plan holds exactly the steps asked for and ends with creating the folds |
| QSPRDatasets.QSPRDataset.PrepareDataset | qsprpred/data/data.py:543-613 | `prepareDataset` runs exactly the planned steps, in order, or a non-empty proper prefix of the plan ending at the step that raises; when all of them ran, the fold count and the outcome are those of `FoldSetup`, so no fold is consumed and the split state is not read for folds |
| DescriptorSets.IterMols | qsprpred/data/utils/descriptorsets.py:90-105 | one entry per input: a SMILES is parsed, a molecule passes through unchanged |
| DescriptorSets.Trunc | qsprpred/data/utils/descriptorsets.py:181 | `int(x)` truncates toward zero: for non-negative `x` the result is the floor, for negative `x` the ceiling |
| DescriptorSets.Position | qsprpred/data/utils/descriptorsets.py:169 | a column index inside the axis names a unique position; non-negative indices count from the left, negative ones from the right |
| DescriptorSets.ColumnsAt | qsprpred/data/utils/descriptorsets.py:168-169 | `ret[:, keep]` succeeds exactly when every kept index is inside every row; then each row has one entry per kept index, taken at that index; otherwise `IndexError` |
| DescriptorSets.ColumnsAtAll | qsprpred/data/utils/descriptorsets.py:168-169 | keeping every index `0..w-1` of rows of width `w` returns the rows unchanged |
| DescriptorSets.DataFrameDescriptorSet.constructor | qsprpred/data/utils/descriptorsets.py:110-112 | the set keeps the frame and takes its columns, in order, as its descriptors |
| DescriptorSets.DataFrameDescriptorSet.SetDescriptors | qsprpred/data/utils/descriptorsets.py:129-131 | the descriptors become the given names |
| DescriptorSets.DataFrameDescriptorSet.Compute | qsprpred/data/utils/descriptorsets.py:120-123 | the left merge onto the requested index then `ret[descriptors]`: fails with `KeyError` naming a descriptor exactly when some descriptor is not a frame column; otherwise one row per requested key, one value per descriptor in descriptor order, the frame's cell for a key it holds and a missing value for one it does not |
| DescriptorSets.DataFrameDescriptorSet.ComputeOwnIndex | qsprpred/data/utils/descriptorsets.py:110-123 | called on the frame's own index with its own columns as descriptors, the set returns the frame's rows exactly |
| DescriptorSets.FingerprintSet.constructor | qsprpred/data/utils/descriptorsets.py:148-161 | a new fingerprint set keeps its type and generator and is not narrowed |
| DescriptorSets.FingerprintSet.SetKeepIndices | qsprpred/data/utils/descriptorsets.py:178-181 | an absent or empty argument clears the narrowing; otherwise the indices are stored truncated to integers, in order; the set is narrowed exactly when indices are stored |
| DescriptorSets.FingerprintSet.SetDescriptors | qsprpred/data/utils/descriptorsets.py:206-209 | the setter calls the value of `keepindices`, so it always raises `TypeError` (`None` or a list is not callable) and changes nothing |
| DescriptorSets.FingerprintSet.StrInjective | qsprpred/data/utils/descriptorsets.py:197-198 | two fingerprint sets with the same string tag have the same fingerprint type |
| DescriptorSets.FingerprintSet.Descriptors | qsprpred/data/utils/descriptorsets.py:200-204 | narrowed: the kept indices written as decimal strings, in order; not narrowed: `"0"` .. `"get_len()-1"` |
| DescriptorSets.FingerprintSet.DescriptorsDistinct | qsprpred/data/utils/descriptorsets.py:200-204 | the descriptor names are distinct whenever the kept indices are |
| DescriptorSets.FingerprintSet.Settings | qsprpred/data/utils/descriptorsets.py:188-191 | the keys are `fingerprint_type` and the generator's settings keys; the generator's settings win on a clash |
| DescriptorSets.FingerprintSet.WithHydrogens | qsprpred/data/utils/descriptorsets.py:165 | every molecule gets explicit hydrogens; a SMILES that does not parse makes `AddHs` raise `TypeError` |
| DescriptorSets.FingerprintSet.Compute | qsprpred/data/utils/descriptorsets.py:163-171 | the generator's output on the hydrogenated molecules, restricted to the kept columns when narrowed and complete otherwise; a parse failure propagates |
| DescriptorSets.FingerprintSet.ComputeMatchesDescriptors | qsprpred/data/utils/descriptorsets.py:163-204 | every computed row has exactly as many values as the set has descriptor names, narrowed or not |
| DescriptorSets.FingerprintSet.NarrowToAll | qsprpred/data/utils/descriptorsets.py:168-169 | narrowing to every index gives the same output as not narrowing |
| DescriptorSets.DrugExPhyschem.constructor | qsprpred/data/utils/descriptorsets.py:220-227 | the properties are those `Property(physchem_props)` selects |
| DescriptorSets.DrugExPhyschem.SetDescriptors | qsprpred/data/utils/descriptorsets.py:246-249 | the descriptors become those `Property(props)` selects |
| DescriptorSets.DrugExPhyschem.Settings | qsprpred/data/utils/descriptorsets.py:238-240 | the only setting is `physchem_props`, the current descriptors |
| DescriptorSets.RDKitDesc.constructor | qsprpred/data/utils/descriptorsets.py:266 | the inner calculator holds the given descriptors and 3D flag |
| DescriptorSets.RDKitDescs.constructor | qsprpred/data/utils/descriptorsets.py:264-268 | a fresh inner calculator; the set's descriptors are those the calculator selected |
| DescriptorSets.RDKitDescs.SetDescriptors | qsprpred/data/utils/descriptorsets.py:285-288 | the set and its inner calculator both take the new descriptors, and keep agreeing |
| DescriptorSets.RDKitDescs.Settings | qsprpred/data/utils/descriptorsets.py:277-279 | the settings are exactly the descriptors and the 3D flag |
| DescriptorSets.RDKitDescs.ComputeUsesDescriptors | qsprpred/data/utils/descriptorsets.py:270-279 | the set computes exactly the descriptors it reports, which are the inner calculator's |
| DescriptorSets.TanimotoDistances.constructor | qsprpred/data/utils/descriptorsets.py:305-320 | the descriptors are the reference SMILES and their fingerprints are computed |
| DescriptorSets.TanimotoDistances.CalculateFingerprints | qsprpred/data/utils/descriptorsets.py:335-340 | `fps` becomes the fingerprints of the given SMILES |
| DescriptorSets.TanimotoDistances.SetDescriptors | qsprpred/data/utils/descriptorsets.py:355-360 | the descriptors and `list_of_smiles` become the new SMILES, and `fps` becomes `None`, the value `calculate_fingerprints` returns |
| DescriptorSets.TanimotoDistances.Settings | qsprpred/data/utils/descriptorsets.py:346-349 | the four settings, with `list_of_smiles` the current descriptors |
| DescriptorSets.TanimotoDistances.Compute | qsprpred/data/utils/descriptorsets.py:322-333 | one row per query fingerprint, one value per reference fingerprint, each `1 - similarity`; with `fps` unset and any query, `BulkTanimotoSimilarity` raises Boost.Python's `ArgumentError`, a `TypeError` |
| DescriptorSets.TanimotoDistances.OneDistancePerReference | qsprpred/data/utils/descriptorsets.py:312-333 | with fingerprints present, one row per molecule and one distance per reference SMILES |
| DescriptorSets.TanimotoDistances.SetterDisablesDistances | qsprpred/data/utils/descriptorsets.py:332-360 | after the descriptors setter, any non-empty call raises |
| DescriptorSets.PredictorDesc.constructor | qsprpred/data/utils/descriptorsets.py:369-383 | a path is loaded into a model, a model is kept; the single descriptor is the model's name |
| DescriptorSets.PredictorDesc.SetDescriptors | qsprpred/data/utils/descriptorsets.py:415-417 | the descriptors become the given names |
| DescriptorSets.PredictorDesc.Settings | qsprpred/data/utils/descriptorsets.py:404-409 | the only setting is the model's meta-file path |
| DescriptorSets.PredictorDesc.Compute | qsprpred/data/utils/descriptorsets.py:385-398 | an empty list raises `IndexError`; SMILES input goes to the model as is; molecule input is written back to SMILES first, which fails if a later entry is a SMILES |
| DescriptorSets.GetLen | qsprpred/data/utils/descriptorsets.py:193-195 | `len(set)`: the generator length for a fingerprint set, 1 for a predictor set, otherwise the number of descriptors |
| DescriptorSets.FingerprintLength | qsprpred/data/utils/descriptorsets.py:193-204 | unnarrowed, the length equals the number of descriptors; narrowed, it stays the generator length while the descriptors shrink to the kept indices |
| DescriptorSets.IsFp | qsprpred/data/utils/descriptorsets.py:133-135 | only a fingerprint set is a fingerprint |
| DescriptorSets.RegisteredName | qsprpred/data/utils/descriptorsets.py:439-468 | each of the nine `get_<name>` getters is found under its own name |
| DescriptorSets.RegisteredOnly | qsprpred/data/utils/descriptorsets.py:432-468 | a name the registry finds is one of the nine getter names, never `descriptor` |
| DescriptorSets.Retrieve | qsprpred/data/utils/descriptorsets.py:432-437 | `getattr(self, "get_" + t)`: a success hands the getter at most the arguments given; a failure is `AttributeError` or `TypeError` |
| DescriptorSets.RetrieveRegistered | qsprpred/data/utils/descriptorsets.py:432-437 | a registered name dispatches to its getter with the arguments unchanged |
| DescriptorSets.RetrieveUnknown | qsprpred/data/utils/descriptorsets.py:432-436 | an unknown name raises `AttributeError("get_" + t)` inside `getattr`, so the `None` check is never reached |
| DescriptorSets.RetrieveIndirect | qsprpred/data/utils/descriptorsets.py:432-437 | `get_descriptor` reached through the retriever's own `get_descriptor` name dispatches on its first argument |
| DescriptorSets.GetDescriptor | qsprpred/data/utils/descriptorsets.py:432-472 | an unknown name fails as `Retrieve` says; a known one builds a set of that kind exactly when its constructor accepts the arguments; the result is a fingerprint exactly when it is a `FingerprintSet` |
| MSA.Zip | qsprpred/extra/data/utils/descriptor_utils/msa_calculator.py:249-257 | `dict(zip(keys, aligned))`: as many entries as the shorter list, each key paired with the aligned string at its position |
| MSA.CacheKeyInjective | qsprpred/extra/data/utils/descriptor_utils/msa_calculator.py:121-135 | two different non-empty id lists without `~` in any id never share a cache key |
| MSA.CacheKeyCollision | qsprpred/extra/data/utils/descriptor_utils/msa_calculator.py:121-135 | an id containing `~` collides: `["a~b"]` and `["a", "b"]` share the key `"a~b"` |
| MSA.CacheGet | qsprpred/extra/data/utils/descriptor_utils/msa_calculator.py:109-123 | `getFromCache`: the alignment stored under the joined key, `None` exactly when that key is absent |
| MSA.CachePutGet | qsprpred/extra/data/utils/descriptor_utils/msa_calculator.py:109-136 | after `saveToCache(ids, a)`, `getFromCache(ids)` is `a`; any other id list without `~` reads what it read before |
| MSA.ParseAlignmentSpec | qsprpred/extra/data/utils/descriptor_utils/msa_calculator.py:238-260 | fails exactly when the alignment file is absent; otherwise pairs the original keys, in order, with the parsed aligned strings, caches that under the sorted keys and makes it current |
| MSA.CallWithoutSequences | qsprpred/extra/data/utils/descriptor_utils/msa_calculator.py:290-292 | with no or empty sequences the call returns the current alignment and changes neither state nor files |
| MSA.CallCacheHit | qsprpred/extra/data/utils/descriptor_utils/msa_calculator.py:293-297 | a non-empty cached alignment under the sorted ids becomes current and is returned; no file is written |
| MSA.MafftAligns | qsprpred/extra/data/utils/descriptor_utils/msa_calculator.py:298-310 | on a cache miss MAFFT's output, written to `outDir/fName` and parsed back, pairs the keys in order with the aligned strings |
| MSA.CallReusesAlignment | qsprpred/extra/data/utils/descriptor_utils/msa_calculator.py:249-297 | once a call has produced a non-empty alignment, a later call on the same ids in any order hits the cache: same result and state, no file written |
| MSA.ClustalReadsOtherFile | qsprpred/extra/data/utils/descriptor_utils/msa_calculator.py:349-358 | as written: Clustal writes `outDir/alignment.aln-fasta.fasta`, but with any other `fName` the parse reads `outDir/fName` and fails with a missing file |
| MSA.CorrectedAligns | qsprpred/extra/data/utils/descriptor_utils/msa_calculator.py:349-358 | with the output written where it is read, either tool's cache miss returns the aligned records and caches them as current |
| MSA.ToolOfClass | qsprpred/extra/data/utils/descriptor_utils/msa_calculator.py:202 | a recognised class path is the path of the tool it names |
| MSA.ToolOfClassPath | qsprpred/extra/data/utils/descriptor_utils/msa_calculator.py:202 | the class path written for a tool reads back as that tool |
| MSA.CurrentToFileSpec | qsprpred/extra/data/utils/descriptor_utils/msa_calculator.py:138-146 | `currentToFile` writes the current alignment exactly when it is truthy; otherwise the files are unchanged |
| MSA.CurrentFromFileSpec | qsprpred/extra/data/utils/descriptor_utils/msa_calculator.py:148-161 | `currentFromFile`: a missing file raises; a JSON alignment becomes current and is cached under its sorted keys |
| MSA.CurrentName | qsprpred/extra/data/utils/descriptor_utils/msa_calculator.py:195 | the recorded alignment name has no directory part and ends in `.msa` |
| MSA.FromFileWith | qsprpred/extra/data/utils/descriptor_utils/msa_calculator.py:167-186 | a provider that loads has a current alignment |
| MSA.ProviderRecordLookups | qsprpred/extra/data/utils/descriptor_utils/msa_calculator.py:195-205 | the saved record maps `out_dir`, `fname`, `current` and `class` to the provider's directory, file name, alignment name and class path |
| MSA.ReadRecord | qsprpred/extra/data/utils/descriptor_utils/msa_calculator.py:181-185 | loading a saved record restores the directory and file name and the current alignment read from the recorded path, or propagates that read's error |
| MSA.ToFileWrites | qsprpred/extra/data/utils/descriptor_utils/msa_calculator.py:188-206 | `toFile` writes the record under `fname`, and writes the current alignment beside it when it is truthy |
| MSA.CorrectedRoundTrip | qsprpred/extra/data/utils/descriptor_utils/msa_calculator.py:167-206 | with the alignment read from where it was written, `fromFile(toFile(p))` restores the provider's directory, file name and current alignment, cached under its sorted keys |
| MSA.RoundTripInDirectory | qsprpred/extra/data/utils/descriptor_utils/msa_calculator.py:184-206 | as written, the round trip works when `fname` has a directory part not ending in `/` |
| MSA.RoundTripWithoutDirectory | qsprpred/extra/data/utils/descriptor_utils/msa_calculator.py:184-206 | as written, a bare file name is written as `fname.msa` but read back from `/fname.msa`, which fails |
| MSA.BioPythonMSA.constructor | qsprpred/extra/data/utils/descriptor_utils/msa_calculator.py:97-107 | a new provider keeps its directory and file name, with an empty cache and no current alignment |
| MSA.BioPythonMSA.SaveToCache | qsprpred/extra/data/utils/descriptor_utils/msa_calculator.py:125-136 | only the entry under the joined key changes, and it now holds the alignment |
| MSA.BioPythonMSA.ParseSequences | qsprpred/extra/data/utils/descriptor_utils/msa_calculator.py:208-236 | the records go to `outDir/sequences.fasta`; that path and the number of records are returned |
| MSA.BioPythonMSA.ParseAlignment | qsprpred/extra/data/utils/descriptor_utils/msa_calculator.py:238-260 | the provider's state and result follow `ParseAlignmentSpec` on its own `outDir/fName`; on a missing file nothing changes |
| MSA.BioPythonMSA.Call | qsprpred/extra/data/utils/descriptor_utils/msa_calculator.py:271-358 | the call's result, new state and files are those `CallSpec` gives for the provider's tool |
| MSA.BioPythonMSA.CurrentToFile | qsprpred/extra/data/utils/descriptor_utils/msa_calculator.py:138-146 | the files become `CurrentToFileSpec` of the provider's state |
| MSA.BioPythonMSA.CurrentFromFile | qsprpred/extra/data/utils/descriptor_utils/msa_calculator.py:148-161 | result and new state follow `CurrentFromFileSpec`; on failure nothing changes |
| MSA.BioPythonMSA.ToFile | qsprpred/extra/data/utils/descriptor_utils/msa_calculator.py:188-206 | the files become `ToFileSpec` of the provider |
| MSA.BioPythonMSA.FromFile | qsprpred/extra/data/utils/descriptor_utils/msa_calculator.py:167-186 | a load failure propagates; otherwise the new provider is the one `FromFileSpec` restores, of the given class |
| ProteinCalculator.PrefixAll | qsprpred/extra/data/utils/descriptorcalculator.py:59 | `add_prefix` on names: each name is the prefix followed by the old name, in order; distinct names stay distinct |
| ProteinCalculator.AddPrefix | qsprpred/extra/data/utils/descriptorcalculator.py:59 | renaming keeps the index and every column's cells, under the prefixed names |
| ProteinCalculator.Block | qsprpred/extra/data/utils/descriptorcalculator.py:55-59 | a block keeps the index of the set's values and names its columns `Descriptor_PCM_<set>_<column>`; the fingerprint-type prefix is discarded |
| ProteinCalculator.BlockCells | qsprpred/extra/data/utils/descriptorcalculator.py:57-59 | each block cell is the set's value cast to `dtype` and then passed through `treatInfs` |
| ProteinCalculator.MergeLeftCells | qsprpred/extra/data/utils/descriptorcalculator.py:60 | the inner merge of frames with distinct columns keeps the left columns then the right, the shared keys in left order, and the left cells |
| ProteinCalculator.MergeRightCells | qsprpred/extra/data/utils/descriptorcalculator.py:60 | the inner merge keeps the right frame's cells on the shared keys |
| ProteinCalculator.MergeAllShape | qsprpred/extra/data/utils/descriptorcalculator.py:48-61 | merging the blocks in order gives the start columns then every block's columns, and keeps in the start's order exactly the keys every block has |
| ProteinCalculator.MergeAllKeepsStart | qsprpred/extra/data/utils/descriptorcalculator.py:48-61 | the start frame's cells survive every merge |
| ProteinCalculator.MergeAllCells | qsprpred/extra/data/utils/descriptorcalculator.py:48-61 | each block's cells appear unchanged in the merged table |
| ProteinCalculator.AssemblePrefixes | qsprpred/extra/data/utils/descriptorcalculator.py:49-59 | the loop makes one block per set, in set order, each prefixed with its own set's column prefix |
| ProteinCalculator.AssembleMerges | qsprpred/extra/data/utils/descriptorcalculator.py:48-61 | when no merge fails, the result is the start merged with all blocks in order |
| ProteinCalculator.CalculatorColumns | qsprpred/extra/data/utils/descriptorcalculator.py:41-62 | one block per set, each with its own prefix; the result's columns are the blocks' columns in order; its index keeps, in `acc_keys` order, exactly the keys every block has |
| ProteinCalculator.CalculatorCells | qsprpred/extra/data/utils/descriptorcalculator.py:41-62 | every cell of the result is the cell of the block that holds that column |
| ProteinCalculator.NoAlignmentWithoutSetMSA | qsprpred/extra/data/utils/descriptorcalculator.py:50-52 | when no set takes an alignment, the provider is never called: its state and the files are unchanged |
| ProteinCalculator.ProviderFile | qsprpred/extra/data/utils/descriptorcalculator.py:71-78 | the provider file name extends the calculator's file name and never ends in `.msa` |
| ProteinCalculator.ProviderClass | qsprpred/extra/data/utils/descriptorcalculator.py:76-77 | the provider class is read from a JSON object stored under `<fname>.msaprovider` |
| ProteinCalculator.ProviderClassRoundTrip | qsprpred/extra/data/utils/descriptorcalculator.py:71-77 | after `toFile`, the class read back is the provider's own tool |
| ProteinCalculator.ProteinDescriptorCalculator.constructor | qsprpred/extra/data/utils/descriptorcalculator.py:27-39 | the calculator keeps its sets and its provider |
| ProteinCalculator.DefaultProviderShared | qsprpred/extra/data/utils/descriptorcalculator.py:27-39 | two calculators built without a provider hold the one default `ClustalMSA()`, and after a call through the first the second sees the cache and current alignment that call left |
| ProteinCalculator.ProteinDescriptorCalculator.AlignFor | qsprpred/extra/data/utils/descriptorcalculator.py:50-52 | the provider is called, and its state and the files change, only for a set that takes an alignment |
| ProteinCalculator.ProteinDescriptorCalculator.BlockOf | qsprpred/extra/data/utils/descriptorcalculator.py:53-59 | the block is `Block` of the set's values |
| ProteinCalculator.ProteinDescriptorCalculator.Call | qsprpred/extra/data/utils/descriptorcalculator.py:41-62 | result, files and provider state are what `CalculatorSpec` gives for the calculator's sets and provider |
| ProteinCalculator.ProteinDescriptorCalculator.ToFile | qsprpred/extra/data/utils/descriptorcalculator.py:67-71 | the provider is saved under `<fname>.msaprovider` |
| ProteinCalculator.ProteinDescriptorCalculator.FromFile | qsprpred/extra/data/utils/descriptorcalculator.py:73-79 | a failure to read the class or the provider propagates; otherwise the provider is restored from `<fname>.msaprovider` with the class recorded there |
| TargetSplitters.PositionsMembers | qsprpred/extra/data/utils/datasplitters.py:33-36 | `indices[mask]` / `indices[~mask]`: a position is selected exactly when it is a row position whose protein's membership matches the mask |
| TargetSplitters.PositionsAscending | qsprpred/extra/data/utils/datasplitters.py:33-36 | the selected positions are ascending |
| TargetSplitters.PositionsCount | qsprpred/extra/data/utils/datasplitters.py:33-36 | the positions selected by a mask and by its negation number `len(ds)` together |
| TargetSplitters.RemoveFirst | qsprpred/extra/data/utils/datasplitters.py:32 | `list.remove` takes out one occurrence |
| TargetSplitters.RemoveFirstDistinct | qsprpred/extra/data/utils/datasplitters.py:32 | on a list without repeats, `remove(x)` leaves exactly the other elements, still without repeats |
| TargetSplitters.RemoveTargetsMeaning | qsprpred/extra/data/utils/datasplitters.py:29-32 | the loop succeeds exactly when every target is a protein key, and then leaves exactly the keys not left out; otherwise the assertion fails naming a target that is not a key |
| TargetSplitters.LeaveOutPartition | qsprpred/extra/data/utils/datasplitters.py:27-37 | the split succeeds exactly when every left-out target is a key; it yields one pair whose test positions are exactly the rows of left-out targets and whose train positions are all the others, both ascending, `len(ds)` together |
| TargetSplitters.LeaveTargetsOut.constructor | qsprpred/extra/data/utils/datasplitters.py:16-25 | `list(set(targets))`: the same targets without repeats |
| TargetSplitters.LeaveTargetsOut.Split | qsprpred/extra/data/utils/datasplitters.py:27-37 | the loops compute `LeaveOutSpec`: the assertions in target order, then the mask over the rows |
| TargetSplitters.CheckChoice | qsprpred/extra/data/utils/datasplitters.py:54-57 | accepts exactly when one of `splitter` and `splitters` is given; raises the first assertion when neither is and the second when both are |
| TargetSplitters.SplitterFor | qsprpred/extra/data/utils/datasplitters.py:66 | the shared splitter, or the target's entry in `splitters`; a target without one raises `KeyError` |
| TargetSplitters.TargetRows | qsprpred/extra/data/utils/datasplitters.py:67 | `df[df[proteincol] == target]`: exactly the rows of that target |
| TargetSplitters.PartsBound | qsprpred/extra/data/utils/datasplitters.py:65-77 | every position the loop collects is a row position |
| TargetSplitters.PartsMembers | qsprpred/extra/data/utils/datasplitters.py:65-77 | a position is in `train` (`test`) exactly when its row's key is in the training (test) part of its own target's split |
| TargetSplitters.PartsOk | qsprpred/extra/data/utils/datasplitters.py:65-66 | in the corrected loop, whose sub-dataset build succeeds (see Findings), the loop does not raise when every target has a splitter |
| TargetSplitters.PartsOnePart | qsprpred/extra/data/utils/datasplitters.py:65-77 | when each target's split partitions its rows, every row position lands in exactly one part |
| TargetSplitters.StratifiedPartition | qsprpred/extra/data/utils/datasplitters.py:59-80 | for the corrected split (see Findings), with such splits, the coverage assertion holds, one pair is returned, and train and test are disjoint and together cover `0..len(ds)-1` |
| TargetSplitters.StratifiedCoverage | qsprpred/extra/data/utils/datasplitters.py:79 | once train and test do not overlap, the assertion implies they cover every position |
| TargetSplitters.CoverageCheckOverlap | qsprpred/extra/data/utils/datasplitters.py:79 | without that, the assertion proves less: parts `{0, 1}` and `{1}` of three rows pass it while row 2 is in neither |
| TargetSplitters.MissingSplitter | qsprpred/extra/data/utils/datasplitters.py:66 | in the corrected loop, with per-target splitters, a protein key that has none makes the split raise `KeyError` for such a key; as written only a first key without a splitter does (`AsWrittenRaises`) |
| TargetSplitters.StratifiedPerTarget.constructor | qsprpred/extra/data/utils/datasplitters.py:51-53 | the splitter keeps the validated choice |
| TargetSplitters.StratifiedPerTarget.Create | qsprpred/extra/data/utils/datasplitters.py:43-57 | construction raises as `CheckChoice` says, and otherwise keeps the choice |
| TargetSplitters.StratifiedPerTarget.Split | qsprpred/extra/data/utils/datasplitters.py:59-80 | the loop computes the corrected `StratifiedSpec` (see Findings): the parts per target, then the coverage assertion |
| TargetSplitters.NewTargetDataset | qsprpred/extra/data/utils/datasplitters.py:68-74 | building a target's sub-dataset always raises: `AttributeError` exactly when the PCM dataset lacks `targetProperties` or `indexCols`, naming a missing one, and otherwise the `TypeError` for the unexpected keyword `target_props` |
| TargetSplitters.AsWrittenRaises | qsprpred/extra/data/utils/datasplitters.py:59-75 | as written, any dataset with a protein key raises on the first key: `KeyError` exactly when that key has no splitter, the build's error otherwise |
| TargetSplitters.AsWrittenNeverSplits | qsprpred/extra/data/utils/datasplitters.py:59-80 | as written, the split succeeds exactly when there are no protein keys and no rows, and then yields one empty pair |
| TargetSplitters.AsWrittenRaisesOnSplittable | qsprpred/extra/data/utils/datasplitters.py:59-80 | as written, a dataset with a row whose proteins all have splitters raises the build's error |
| TargetSplitters.TemporalSplitters | qsprpred/extra/data/utils/datasplitters.py:98-104 | one temporal splitter per key of `split_years`, on the year column at that target's year |
| TargetSplitters.TemporalPerTarget.constructor | qsprpred/extra/data/utils/datasplitters.py:85-95 | the splitter keeps the year column and the split years |
| TargetSplitters.TemporalPerTarget.Split | qsprpred/extra/data/utils/datasplitters.py:97-105 | the temporal splitters pass the one-of-two check, and the split is the corrected per-target split with them (see Findings) |
| TargetSplitters.TemporalAsWrittenRaises | qsprpred/extra/data/utils/datasplitters.py:97-105 | as written, the temporal split of a dataset with a protein key raises: `KeyError` when the first key has no split year, the build's error otherwise |

## Left out

- **File persistence.** Pickle and JSON files are modelled as maps from path to value: `Store`, `DatasetStore` and the alignment provider's `Files`. File formats, encodings and partial writes are not modelled.
- **Parallelism.** `ProcessPoolExecutor` and `tqdm` are left out. `papply` is modelled as the sequential loop over batches of chunks whose results it concatenates, and concurrency is not modelled.
- **External libraries and tools.** These are function-valued parameters or opaque values:
  - RDKit parsing, fingerprints and Tanimoto similarity, and the descriptor back-ends (`Property`, `RDKit_desc`, trained models);
  - scaffold derivation and `AddMoleculeColumnToFrame`;
  - the ChEMBL standardizer and the sanitizer;
  - the numeric effect of fitted sklearn standardizers;
  - the MAFFT and Clustal runs and FASTA parsing;
  - the protein descriptor sets, the `dtype` cast and `treatInfs`, whose body is not part of this model;
  - `float` on strings, a parameter from a string to a finite number, a non-finite one or a conversion failure;
  - the optional extras behind `get_Mordred`, `get_Mold2`, `get_PaDEL` and `get_ProDec`. These getters import them when called and raise `ImportError` when they are not installed; the model assumes they are installed.
- Fold generation by `KFold`/`StratifiedKFold` is a parameter, a list of train/test position lists; only their constructor's `ValueError` for fewer than two folds is modelled (`FoldSetup`). `createFolds` returns the folds as a finished list rather than a generator. The `hasattr(self, "feature_standardizers")` test always holds, so the folds are always wrapped.
- `pd.cut` interval-label formatting is a parameter taking a bin number to a label. Codes are ranks of the distinct occupied labels, as `LabelEncoder` gives them.
- **Floating point.** Target values and thresholds are `real`, and only comparisons are used. `float(x).is_integer()` is modelled on exact reals, and the `float32` casts are left out.
- Logging and warnings are left out.
- **Trivial accessors and wrappers.** `getDF`, `__len__`, `getProperties`, `hasProperty` and `fromMolTable` are thin wrappers over modelled operations and are left out.
- **The multi-class assertion in `split`** (`qsprpred/data/data.py:504-511`). It asserts that every `value_counts()` entry is positive, and `value_counts` never reports a zero count, so the assertion always holds and is left out.
- **The category-to-codes conversion in `split`** (`qsprpred/data/data.py:513-515`) is left out. Target cells in this model are never categorical.
- `DescriptorsCalculator.toFile`/`fromFile`, which the protein calculator inherits, are not part of this model. Only the provider file name and the provider class it records are modelled.
- MoleculeTables.MoleculeTable.Apply: models only `axis=1`, with each row given to `f` as its list of cells, one result per row, and no `func_args`/`func_kwargs`. The source's default `axis=0` calls `f` once per column, and `raw`, `result_type` and the extra arguments are passed on to `DataFrame.apply`. The call sites in this model (`addScaffolds` with `axis=1`, and `addDescriptors` as stated below) are row-wise.
- MoleculeTables.MoleculeTable.Papply: the same restriction to `axis=1` applies to each chunk.
- MoleculeTables.ApplyIsRowwise: states the row-wise result for `axis=1` only.
- Frames.InnerMerge: raises `ValueError` whenever the merged column names repeat, because a frame here holds each name once. pandas checks the suffixed names on each side separately and can return a repeated name (left `a`, `a_y` and right `a` give `a_x`, `a_y`, `a_y`). No protein descriptor block produces such names.
- Missing target values are `NaN`. A `None` in an object column, which `>` and `max` would reject with `TypeError`, is not distinguished from `NaN`.
- MoleculeTables.MoleculeTable.Transform: transformers are modelled as functions on cells applied to every cell of the selection. The source passes the whole selected frame to each transformer.
- MoleculeTables.MoleculeTable.AddDescriptors: the calculator is modelled row by row, one row of its block per SMILES. The source hands it the SMILES column, or one chunk of that column per process, and concatenates the blocks.
- MoleculeTables.MoleculeTable.AddDescriptors: it requires the calculator's column names to be distinct. pandas would also accept repeated names.
- MoleculeTables.MoleculeTable.Transform: it requires the target names to be distinct.
- QSPRDatasets.QSPRDataset.FillMissing: it requires the names of the columns to fill to be distinct.
- MoleculeTables.MoleculeTable.Filter: a table filter is modelled as choosing the row keys to keep. A filter that adds rows or changes cells is not modelled.
- QSPRDatasets.FeatureFiltersSpec: a feature filter is modelled as naming the training columns it drops.
- QSPRDatasets.QSPRDataset.PrepareDataset: states which steps ran, in which order, and the final `n_folds` and outcome of the folds step. It does not compose the rest of the final state from the steps' specifications; each step's own method states that.
- QSPRDatasets.QSPRDataset.PrepareRest: states its steps and the final `n_folds` and outcome of the folds step, not the rest of the final state.
- QSPRDatasets.QSPRDataset.PrepareSplit: states only its steps.
- QSPRDatasets.QSPRDataset.PrepareTable: states only its steps.
- QSPRDatasets.QSPRDataset.CleanAndDescribe: states only its steps.
- QSPRDatasets.QSPRDataset.FilterAndFill: states only its steps.
- QSPRDatasets.QSPRDataset.SplitAndFeaturize: states only its steps.
- QSPRDatasets.QSPRDataset.SelectAndStandardize: states only its steps.
- TargetSplitters.StratifiedPerTarget.Split: models the corrected loop, in which a target's sub-dataset is built and split. As written, building it raises on the first protein key (see Findings), so the source never reaches a split for a dataset with a protein key.
- TargetSplitters.TemporalPerTarget.Split: delegates to the corrected per-target split, so it shares that gap. As written it raises on the first protein key.
- Whether the PCM dataset has the attributes `targetProperties` and `indexCols` is a parameter (`attrs`); the PCM dataset class is not part of this model.

## Findings

| source | as written | input that shows it | evidently intended | confidence | as-written member | corrected member |
|---|---|---|---|---|---|---|
| qsprpred/extra/data/utils/descriptor_utils/msa_calculator.py:349-358 | Clustal writes its output to `outDir/alignment.aln-fasta.fasta`, but `parseAlignment` reads `outDir/fName` | a provider with `fName` other than `alignment.aln-fasta.fasta`, on a cache miss | the alignment is read from the file Clustal wrote | not executed | MSA.ClustalReadsOtherFile | MSA.CorrectedAligns |
| qsprpred/extra/data/utils/descriptor_utils/msa_calculator.py:184-206 | `toFile` writes the alignment to `join(dirname(fname), basename(fname) + ".msa")`, but `fromFile` reads it from `f"{dirname(fname)}/{...}"` | `fname = "provider.json"` with no directory part: the alignment is written to `provider.json.msa` and read from `/provider.json.msa` | `fromFile(toFile(fname))` restores the provider for every file name | not executed | MSA.RoundTripWithoutDirectory | MSA.CorrectedRoundTrip |
| qsprpred/extra/data/utils/datasplitters.py:68-74 | `StratifiedPerTarget.split` builds each target's sub-dataset with `QSPRDataset(..., target_props=ds.targetProperties, index_cols=ds.indexCols)`; the constructor (qsprpred/data/data.py:281-294) has no such parameters and no `**kwargs`, and needs `target_prop` | any PCM dataset with a protein key that has a splitter (or a shared splitter): the first pass of the loop raises `AttributeError` or the unexpected-keyword `TypeError`, and no split is returned; `TemporalPerTarget.split` delegates to it | each target's sub-dataset is built with the constructor's own arguments and split, and the joined parts partition the rows | not executed | TargetSplitters.AsWrittenRaises | TargetSplitters.StratifiedPartition |
