# Avogadro yaehmop input generator and MongoChem record list, in Dafny

This project models two small pieces of Avogadro's Qt plugins and proves
properties of them.

**The yaehmop plugin** prepares band-structure calculations for the
external tight-binding program yaehmop. For a molecule with a unit cell it
writes an input text with these parts:

- a title;
- a `Geometry` section: the numbered atoms with near-zero coordinates
  snapped to 0, followed by `numDim + 1` dummy atoms `&` that mark the
  origin and the ends of the lattice vectors;
- a `lattice` section: the dimension count, one overlap count per axis, and
  the pairs of dummy-record numbers that define each lattice vector;
- a `Band` section: the number of k points per path segment, the number of
  special k points (the non-blank lines of the user's text), and that text
  verbatim.

The plugin looks for the program in three places: the `YAEHMOP_EXECUTABLE`
environment variable, then the application directory, then `../bin`. It
enables its menu action only when a molecule with a unit cell is set.

**The MongoChem record list** is a one-level item model. A private root item
owns the molecule records, and each record is a key/value map. Every record
is one row with three columns: formula, SMILES and InChIKey. Rows change
only through `addMolecule`, `deleteMolecule` and `clear`. Each change is
announced to the views with a begin/end notification pair that names the
affected rows.

Modules:

- `Common` (`common.dfy`): `Option` and `Result`.
- `YaehmopInput` (`yaehmop_input.dfy`): the Geometry and lattice sections.
  - The output is a sequence of lines, each a sequence of fields (`Word`,
    `Count`, `Coord`, `Raw`).
  - Specification functions define the sections. The imperative generator
    `GeometryAndLatticeLines` and the overlap loop `Overlaps` are proved
    equal to them.
  - Lemmas state the layout: counts, numbering, snapping, dummies, overlaps
    and vector pairs.
- `YaehmopBand` (`yaehmop_band.dfy`): the Band section, and the split of the
  special-k-point text at carriage returns and line feeds with empty
  pieces skipped.
- `YaehmopPlugin` (`yaehmop_plugin.dfy`):
  - the `Yaehmop` class: the molecule it watches, the enabled flag of its
    action, its settings;
  - action enablement;
  - the complete calculation input;
  - the executable search.
- `MongoChem` (`mongochem.dfy`):
  - the `TreeItem` and `MongoChemTreeModel` classes;
  - the notification log `events`, with the item-model rules for it
    (`Replay`);
  - the model invariant `Valid`: a view that follows the log from an empty
    model sees exactly as many rows as the model has.

The inputs the plugin gets from the application are parameters:

- `Elements::symbol` is the function parameter `symbol`;
- `QFile::exists` is the oracle `fileExists`;
- the environment variable value is `envValue`;
- the application directory is `appDir`;
- the platform is `Unix` or `Windows`;
- the unit cell's matrix and lengths are the fields of `UnitCell`.

Every query of the record list is a Dafny function, so by construction it
changes nothing. The root item is a `const` field of the model. Avogadro keeps it private; here a caller can reach it, and only `AddMolecule`, `DeleteMolecule` and the two clears are shown to keep the model's invariant.

## Model

| member | source | states |
|---|---|---|
| YaehmopInput.SnapAtom | avogadro/qtplugins/yaehmop/yaehmop.cpp:269-271 | An atom coordinate is kept exactly when its magnitude is strictly above 1e-8. Otherwise it is written as 0, so a written coordinate is 0 or above the threshold. |
| YaehmopInput.SnapCell | avogadro/qtplugins/yaehmop/yaehmop.cpp:292-294 | A cell-matrix entry is zeroed only when its magnitude is strictly below 1e-8. Whatever is kept is unchanged. |
| YaehmopInput.SnapThresholdsDiffer | avogadro/qtplugins/yaehmop/yaehmop.cpp:264-292 | At exactly ±1e-8, an atom coordinate becomes 0 but a cell entry is kept. |
| YaehmopInput.BelowSpanBound | avogadro/qtplugins/yaehmop/yaehmop.cpp:308-309 | While n overlaps times a positive length stay below 20, n is at most floor(20/length). This bounds the increment loop. |
| YaehmopInput.OverlapFrom | avogadro/qtplugins/yaehmop/yaehmop.cpp:308-309 | Incrementing from n while the span is short ends at a count of at least n that satisfies the overlap rule. |
| YaehmopInput.Overlap | avogadro/qtplugins/yaehmop/yaehmop.cpp:305-311 | The overlap count is at least 3 and count × length ≥ 20. Either it is 3 or one fewer would fall short of 20. |
| YaehmopInput.OverlapIsLeast | avogadro/qtplugins/yaehmop/yaehmop.cpp:301-311 | The count is the least integer ≥ 3 whose product with the length reaches 20. |
| YaehmopInput.OverlapUnique | avogadro/qtplugins/yaehmop/yaehmop.cpp:305-311 | Exactly one count satisfies the rule, and it is the computed one. |
| YaehmopInput.OverlapStaysAtMinimum | avogadro/qtplugins/yaehmop/yaehmop.cpp:301-311 | When 3 × length ≥ 20 the count stays 3. |
| YaehmopInput.OverlapAtMost | avogadro/qtplugins/yaehmop/yaehmop.cpp:305-311 | For a positive length the count is 3 or at most floor(20/length)+1, so overall it is at most max(3, floor(20/length)+1). |
| YaehmopInput.OverlapForLengthFour | avogadro/qtplugins/yaehmop/yaehmop.cpp:305-311 | A 4 Å axis gets 5 overlaps. |
| YaehmopInput.Overlaps | avogadro/qtplugins/yaehmop/yaehmop.cpp:305-311 | The nested loop starts every axis at 3 and increments while the product is below 20. Each result is that axis's least overlap count. All three lengths must be positive, or the loop does not terminate. |
| YaehmopInput.GeometryHeaderCountsRecords | avogadro/qtplugins/yaehmop/yaehmop.cpp:255-261 | The header announces N = numAtoms + numDim + 1 records. Exactly N five-field records follow, numbered 1..N in order. After them come `lattice` and `numDim`.  The whole text has N + numDim + 5 lines. |
| YaehmopInput.AtomRecords | avogadro/qtplugins/yaehmop/yaehmop.cpp:263-273 | Atom i is record i+1: the symbol of its atomic number, then its three coordinates, each snapped with the strict > 1e-8 rule. |
| YaehmopInput.DummyRecords | avogadro/qtplugins/yaehmop/yaehmop.cpp:275-299 | The numDim+1 dummies `&` are records numAtoms+1 .. numAtoms+numDim+1. Dummy 0 is `0 0 0`. Dummy k ≥ 1 holds row k-1 of the cell matrix, snapped with the strict < 1e-8 rule. |
| YaehmopInput.LatticeOverlapLine | avogadro/qtplugins/yaehmop/yaehmop.cpp:313-319 | The overlap line has exactly numDim counts: the least overlap count of a, b, c in that order. |
| YaehmopInput.LatticeVectorsRunFromOrigin | avogadro/qtplugins/yaehmop/yaehmop.cpp:320-327 | The last numDim lines are the pairs (numAtoms+1, numAtoms+i+2). The first names the origin dummy and the second the dummy that holds row i of the cell matrix. |
| YaehmopInput.WriteAtomLine | avogadro/qtplugins/yaehmop/yaehmop.cpp:265-272 | The loop over the three coordinates writes exactly the atom record: number i+1, the symbol, and each coordinate snapped with the strict > 1e-8 rule. |
| YaehmopInput.WriteDummyLine | avogadro/qtplugins/yaehmop/yaehmop.cpp:280-298 | Writes exactly the dummy record. For k = 0 that is the origin. Otherwise the loop writes row k-1 of the cell matrix, with entries below 1e-8 zeroed. |
| YaehmopInput.WriteGeometry | avogadro/qtplugins/yaehmop/yaehmop.cpp:255-299 | The header, the atom loop and the dummy loop produce exactly the specified Geometry section. |
| YaehmopInput.WriteLattice | avogadro/qtplugins/yaehmop/yaehmop.cpp:313-327 | `lattice`, numDim, the loop over the first numDim overlap counts, and the loop over the vector pairs produce exactly the specified lattice section. |
| YaehmopInput.GeometryAndLatticeLines | avogadro/qtplugins/yaehmop/yaehmop.cpp:250-329 | The Geometry section, the overlap loop and the lattice section together produce exactly the specified text. The layout lemmas above describe it. |
| YaehmopBand.RunLength | avogadro/qtplugins/yaehmop/yaehmop.cpp:209-211 | The longest prefix without `\r`/`\n`: it contains no separator, and it ends at the end of the text or at a separator. |
| YaehmopBand.SplitSkipEmpty | avogadro/qtplugins/yaehmop/yaehmop.cpp:209-211 | Splitting at `\r`/`\n` with empty parts skipped gives only non-empty pieces without separators. |
| YaehmopBand.SplitKeepsText | avogadro/qtplugins/yaehmop/yaehmop.cpp:209-211 | The pieces put back together are the text with the separators removed. Nothing else is lost or reordered. |
| YaehmopBand.SplitCountsLines | avogadro/qtplugins/yaehmop/yaehmop.cpp:209-212 | The number of pieces, which is what the Band section writes, is the number of non-blank lines of the text. |
| YaehmopBand.SplitAtBreak | avogadro/qtplugins/yaehmop/yaehmop.cpp:209-211 | The pieces break exactly at the separators: text with a separator in it splits into the pieces before it followed by the pieces after it. |
| YaehmopBand.SplitSingleLine | avogadro/qtplugins/yaehmop/yaehmop.cpp:209-211 | Text without separators is one special k point, or none when it is empty. |
| YaehmopBand.BandSection | avogadro/qtplugins/yaehmop/yaehmop.cpp:203-214 | The section is, in order: `Band`, numBandKPoints, the number of non-blank lines of the special-k-point text, and that text verbatim. |
| YaehmopPlugin.ResolveExecutable | avogadro/qtplugins/yaehmop/yaehmop.cpp:342-365 | A non-empty YAEHMOP_EXECUTABLE wins. Otherwise `<appdir>/yaehmop` is used if it exists, else `<appdir>/../bin/yaehmop`. Nothing is found exactly when the variable is empty and neither file exists. A program found by search exists. |
| YaehmopPlugin.PrepareInvocation | avogadro/qtplugins/yaehmop/yaehmop.cpp:359-368 | If no program is found, the result is the "could not find yaehmop executable" failure and no invocation. Otherwise the resolved program is started with `--use_stdin_stdout` and is given the input unchanged. |
| YaehmopPlugin.AppDirPreferred | avogadro/qtplugins/yaehmop/yaehmop.cpp:355-358 | With the variable unset, the application directory is preferred to `../bin` whenever the file there exists. |
| YaehmopPlugin.Yaehmop.constructor | avogadro/qtplugins/yaehmop/yaehmop.cpp:47-64 | The plugin starts with no molecule and with its one action disabled. |
| YaehmopPlugin.Yaehmop.UpdateActions | avogadro/qtplugins/yaehmop/yaehmop.cpp:106-123 | Every action is enabled exactly when a molecule is set and it has a unit cell. |
| YaehmopPlugin.Yaehmop.SetMolecule | avogadro/qtplugins/yaehmop/yaehmop.cpp:78-92 | Setting the molecule that is already set changes nothing, not even the actions. Any other molecule, null included, is taken, and the actions follow it. |
| YaehmopPlugin.Yaehmop.MoleculeChanged | avogadro/qtplugins/yaehmop/yaehmop.cpp:94-104 | The actions are re-evaluated exactly when the change set has a unit-cell change together with an addition or a removal. Otherwise they are unchanged. |
| YaehmopPlugin.Yaehmop.GeometryText | avogadro/qtplugins/yaehmop/yaehmop.cpp:232-330 | The text is empty exactly when there is no molecule or it has no unit cell. Otherwise it starts with `Geometry`. |
| YaehmopPlugin.Yaehmop.CreateGeometryAndLatticeInput | avogadro/qtplugins/yaehmop/yaehmop.cpp:232-330 | The method returns the empty text without a molecule or without a unit cell. Otherwise it returns both sections computed by the loops. |
| YaehmopPlugin.Yaehmop.BandInput | avogadro/qtplugins/yaehmop/yaehmop.cpp:193-214 | The input is `Title`, then the Geometry/lattice text, then the four lines of the Band section. |
| YaehmopPlugin.Yaehmop.CalculateBandStructure | avogadro/qtplugins/yaehmop/yaehmop.cpp:193-221 | The assembled input is handed to the program the search finds, or the call fails with the not-found error. |
| MongoChem.NatText | avogadro/qtplugins/mongochem/mongochemtreemodel.cpp:177 | A natural number's text is non-empty, all digits and has no leading zero, and the digits stand for exactly that number. This is what `toString` writes for an integer. |
| MongoChem.IntText | avogadro/qtplugins/mongochem/mongochemtreemodel.cpp:177 | An integer's text: a minus sign exactly when the number is negative, followed by the canonical digits of its magnitude (`NatText`, so no leading zero). |
| MongoChem.ToString | avogadro/qtplugins/mongochem/mongochemtreemodel.cpp:177-190 | A text value is its own text, an integer its canonical decimal text, a boolean `true` or `false`, and null or a map the empty string. |
| MongoChem.RecordName | avogadro/qtplugins/mongochem/mongochemtreemodel.cpp:186-192 | A record's displayed name is its `name` text, or the text of `properties.formula` when the name is empty. |
| MongoChem.ColumnValue | avogadro/qtplugins/mongochem/mongochemtreemodel.cpp:98-107 | Column 0 shows `properties.formula`, column 1 `smiles`, column 2 `inchikey`, any other column the null value. |
| MongoChem.CreateIndex | avogadro/qtplugins/mongochem/mongochemtreemodel.cpp:155 | An index made with a negative row or column is invalid. Otherwise it keeps its row and column. |
| MongoChem.InsertBracket | avogadro/qtplugins/mongochem/mongochemtreemodel.cpp:197-200 | An insertion bracket at a row in 0..n grows a consistent view by the size of the range. |
| MongoChem.RemoveBracket | avogadro/qtplugins/mongochem/mongochemtreemodel.cpp:210-212 | A removal bracket keeps a view consistent if and only if its range lies within the existing rows. The view then shrinks by the size of the range. |
| MongoChem.EmptyClearBreaksLog | avogadro/qtplugins/mongochem/mongochemtreemodel.cpp:216-223 | On an empty model, the announcement `clear` makes (removal of rows 0..0) breaks the item-model rules. |
| MongoChem.ClearAllRowsKeepsLog | avogadro/qtplugins/mongochem/mongochemtreemodel.cpp:216-223 | With n > 0 rows, announcing the removal of rows 0..n-1 leaves a consistent view with no rows. |
| MongoChem.TreeItem.constructor | avogadro/qtplugins/mongochem/mongochemtreemodel.cpp:25-28 | A new item has no children. |
| MongoChem.TreeItem.ChildCount | avogadro/qtplugins/mongochem/mongochemtreemodel.cpp:34 | The number of children: every index below it names a child, and the index equal to it names none. |
| MongoChem.TreeItem.Child | avogadro/qtplugins/mongochem/mongochemtreemodel.cpp:33 | The child at an index inside the list, or nothing (the null pointer) outside it, negative indices included. |
| MongoChem.TreeItem.AppendChild | avogadro/qtplugins/mongochem/mongochemtreemodel.cpp:43-46 | The record is appended at the end. Earlier children are unchanged. |
| MongoChem.TreeItem.RemoveChild | avogadro/qtplugins/mongochem/mongochemtreemodel.cpp:48-55 | If pos is in bounds, exactly that child is removed and the result is true. If pos < 0 or pos ≥ size, the result is false and nothing changes. |
| MongoChem.TreeItem.ClearChildren | avogadro/qtplugins/mongochem/mongochemtreemodel.cpp:35-39 | No children remain. |
| MongoChem.MongoChemTreeModel.constructor | avogadro/qtplugins/mongochem/mongochemtreemodel.cpp:71-73 | One fresh, empty root and no notifications. The invariant holds. |
| MongoChem.MongoChemTreeModel.RowCount | avogadro/qtplugins/mongochem/mongochemtreemodel.h:35 | The row count is the root's record count whatever the parent argument is, and the parent defaults to the invalid index. |
| MongoChem.MongoChemTreeModel.ColumnCount | avogadro/qtplugins/mongochem/mongochemtreemodel.cpp:83-86 | There are always 3 columns. |
| MongoChem.MongoChemTreeModel.Index | avogadro/qtplugins/mongochem/mongochemtreemodel.cpp:158-169 | An index is valid if and only if the parent is the root (the default) and the row and column lie inside the table. A valid index carries that row and column. |
| MongoChem.MongoChemTreeModel.Parent | avogadro/qtplugins/mongochem/mongochemtreemodel.cpp:145-156 | Every parent is the invalid index: the root has no parent, and a cell's parent is the root with row -1. |
| MongoChem.MongoChemTreeModel.Data | avogadro/qtplugins/mongochem/mongochemtreemodel.cpp:88-112 | For the display role, a cell shows its column's value of the row's record. An invalid index or any other role gives the null value. |
| MongoChem.MongoChemTreeModel.HeaderData | avogadro/qtplugins/mongochem/mongochemtreemodel.cpp:119-143 | Only the display role has headers. Vertical section s gives s+1. Horizontal sections 0/1/2 give Formula/SMILES/InChIKey, and anything else gives the null value. |
| MongoChem.MongoChemTreeModel.MoleculeId | avogadro/qtplugins/mongochem/mongochemtreemodel.cpp:171-178 | The text of the row's `_id`, or "" for a row outside the list. |
| MongoChem.MongoChemTreeModel.MoleculeName | avogadro/qtplugins/mongochem/mongochemtreemodel.cpp:180-193 | The row's name, with the formula as fallback, or "" for a row outside the list. |
| MongoChem.MongoChemTreeModel.AddMolecule | avogadro/qtplugins/mongochem/mongochemtreemodel.cpp:195-201 | The record becomes the last row, and the count grows by one. An insert bracket (n, n) with n the old count is logged. The invariant is kept. |
| MongoChem.MongoChemTreeModel.DeleteMolecule | avogadro/qtplugins/mongochem/mongochemtreemodel.cpp:203-214 | For a valid index with row < count, exactly that row is removed: earlier rows stay and later rows shift down. A remove bracket (row, row) is logged. Otherwise nothing changes and nothing is logged. The invariant is kept. |
| MongoChem.MongoChemTreeModel.Clear | avogadro/qtplugins/mongochem/mongochemtreemodel.cpp:216-223 | As written, the list is left empty. A remove bracket (0, count-1) is logged, or (0, 0) when the list was already empty. The invariant is kept only when there were rows; from an empty model the log becomes inconsistent. |
| MongoChem.MongoChemTreeModel.ClearWithinRange | avogadro/qtplugins/mongochem/mongochemtreemodel.cpp:216-223 | Corrected clear: the list is left empty. A bracket (0, count-1) is logged only when there were rows. The invariant is always kept. |
| MongoChem.DefaultDataIsDisplay | avogadro/qtplugins/mongochem/mongochemtreemodel.h:37-38 | A call of `data` without a role gives the column's display value. A call with the edit role gives the null value. |
| MongoChem.HeadersMatchColumns | avogadro/qtplugins/mongochem/mongochemtreemodel.cpp:119-143 | A horizontal title exists exactly for the sections 0 .. columnCount-1. Past the last column, no row shows a value. |
| MongoChem.NameFallsBackToFormulaColumn | avogadro/qtplugins/mongochem/mongochemtreemodel.cpp:186-190 | A row without a name is named by the text its formula column shows. |
| MongoChem.IndexParentRoundTrip | avogadro/qtplugins/mongochem/mongochemtreemodel.cpp:145-169 | A valid index's parent is the root, and asking the root for that row and column gives the same index again. |
| MongoChem.AddThreeThenClear | avogadro/qtplugins/mongochem/mongochemtreemodel.cpp:180-223 | Three additions to a fresh model, then `clear` as written. The names of rows 0-2 are the three records' names in order. The log is exactly the insert brackets (0,0), (1,1), (2,2) followed by ONE removal bracket (0, 2). The list ends empty and the log is consistent. |

## Left out

- Process execution in `executeYaehmop` is not modelled: starting yaehmop, writing its input, waiting for it, classifying its exit status and reading its output (yaehmop.cpp:367-417). `CalculateBandStructure` ends at the invocation that would be started.
- Text rendering is not modelled: `QString::number` formatting, the separating spaces and the line feeds. Numbers are fields of the line model.
- `double` is modelled as exact `real`. In particular the threshold 1e-8 is the exact rational, not the nearest double.
- The unit-cell accessors do not appear. The cell matrix and the lengths a, b, c are plain inputs, with no relation assumed between them. `cellMatrix(i - 1, j)` is read as row i-1 of `cellMatrix`. Whether Avogadro stores lattice vectors as rows or columns is set in a file that is not part of this model.
- `Elements::symbol` is the parameter `symbol`.
- The dimension count must be at most 3. The source indexes a 3×3 matrix and a three-component vector with it and does not check it.
- YaehmopInput.Overlaps: the source's overlap counter is a 32-bit `int` (yaehmop.cpp:305-310); the model's is unbounded. For a positive length the final count is at most max(3, floor(20/length)+1) (`OverlapAtMost`). For a length below about 20/2^31 ≈ 9.3e-9 Å, the source's counter overflows before its loop stops. The model does not capture that overflow.
- YaehmopInput.WellFormedInput: requires as many positions as atomic numbers. The source indexes `atomPositions3d()` for every atom index (yaehmop.cpp:248-249, 264-266) without checking its length, relying on the molecule's own invariant. The model does not describe a molecule whose two arrays differ in length.
- Settings persistence (`readSettings`/`writeSettings`) and the band dialog are not modelled; the settings are a constructor argument. `displayBandDialog` is not modelled either: it checks for a molecule and a unit cell and runs the dialog before calculating.
- Message boxes, `qDebug` output, the `Q_ASSERT` on the sender in `moleculeChanged` and the signal/slot connections made in `setMolecule` are not modelled.
- Change kinds are a set of named flags; the plugin tests only `UnitCellChange`, `Added` and `Removed`. Change flags are a set rather than a bit mask, because their bit values are defined in a file that is not part of this model. Only the atomic numbers, positions and unit cell of a molecule are modelled.
- `flags` is not modelled; it forwards to the base class.
- Translation through `tr()` is not modelled. The header titles (mongochemtreemodel.cpp:132-138) and the not-found message (yaehmop.cpp:361) are the untranslated English literals.
- The `QModelIndex` internal pointers, `getItem` and `TreeItem::row` are summarised. An index is its row and column. The root's row number is the constant -1 used by `Parent`.
- TreeItem children: the root's children are held as their records; they are not separate `TreeItem` objects with parent pointers.
- `QVariant` is modelled only with the kinds a record uses here: null, text, integer, boolean and nested map. `toString` of other kinds (doubles, lists, dates) is not modelled.
- MongoChem.MongoChemTreeModel.Data: requires a valid index's row to be inside the list. The source reads the item the index's internal pointer names (mongochemtreemodel.cpp:95-96); the model reads the record at the index's row. The two agree for indices made since the last change of rows. A stale index is excluded. That includes one whose item still exists at another row: with rows [A,B,C], the index made for C before row 0 was deleted still reads C in the source, while its row 2 is past the new count.
- MongoChem.MongoChemTreeModel.HeaderData: the vertical header's `section + 1` is unbounded here. The source computes it in `int`.
- The plugin downloader and the VTK chart wrapper are not part of this model.

## Findings

| source | as written | input that shows it | evidently intended | confidence | as-written member | corrected member |
|---|---|---|---|---|---|---|
| avogadro/qtplugins/mongochem/mongochemtreemodel.cpp:216-223 | `clear` always calls `beginRemoveRows(QModelIndex(), 0, lastRow)`, using `lastRow = 0` when the list is empty | `clear()` on a model with no rows announces the removal of row 0 while the row count is 0. That breaks the item-model rule that the last removed row is below the row count. | announce nothing, and remove nothing, when there are no rows | medium, not executed | MongoChem.MongoChemTreeModel.Clear, MongoChem.EmptyClearBreaksLog | MongoChem.MongoChemTreeModel.ClearWithinRange |
