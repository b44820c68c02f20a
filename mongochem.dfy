/**
 * The MongoChem record list: a one-level item model whose root item owns
 * the molecule records fetched from a MongoChem server.  Each record is a
 * key/value map; the model shows one row per record with three columns
 * (formula, SMILES, InChIKey), and announces every change of the rows to
 * its views with a begin/end notification pair.
 */
module MongoChem {
  import opened Common

  // ---------------------------------------------------------------------
  // Records
  // ---------------------------------------------------------------------

  /** The kinds of value a record holds that the model reads. */
  datatype Variant =
    | Null
    | Text(s: string)
    | Number(n: int)
    | Boolean(b: bool)
    | Dict(entries: map<string, Variant>)

  /** A molecule record: what the server sent for one molecule. */
  type Record = map<string, Variant>

  /** The value under `key`, or the null value when the key is missing. */
  function Value(m: map<string, Variant>, key: string): (v: Variant)
    ensures key !in m ==> v == Null
    ensures key in m ==> v == m[key]
  {
    if key in m then m[key] else Null
  }

  /** A nested map, or the empty map for any other kind of value. */
  function ToMap(v: Variant): (m: map<string, Variant>)
    ensures v.Dict? ==> m == v.entries
    ensures !v.Dict? ==> m == map[]
  {
    if v.Dict? then v.entries else map[]
  }

  function DigitChar(d: nat): (c: char)
    requires d < 10
    ensures '0' <= c <= '9' && (c as int) - ('0' as int) == d
  {
    "0123456789"[d]
  }

  predicate AllDigits(s: string)
  {
    forall k :: 0 <= k < |s| ==> '0' <= s[k] <= '9'
  }

  /** The number a string of decimal digits stands for, most significant digit first. */
  ghost function DigitsValue(s: string): nat
    requires AllDigits(s)
  {
    if s == [] then 0 else DigitsValue(s[..|s| - 1]) * 10 + ((s[|s| - 1] as int) - ('0' as int))
  }

  /** The decimal digits of `n`, most significant first, without leading zeros. */
  function NatText(n: nat): (s: string)
    ensures s != [] && AllDigits(s)
    ensures DigitsValue(s) == n
    ensures n < 10 <==> |s| == 1
    ensures s[0] != '0' || n == 0
    decreases n
  {
    if n < 10 then [DigitChar(n)]
    else
      var s := NatText(n / 10) + [DigitChar(n % 10)];
      assert s[..|s| - 1] == NatText(n / 10);
      s
  }

  /** The decimal text of an integer: a minus sign before the digits of a negative one. */
  function IntText(n: int): (s: string)
    ensures s != []
    ensures n < 0 <==> s[0] == '-'
    ensures n >= 0 ==> AllDigits(s) && DigitsValue(s) == n
    ensures n < 0 ==> AllDigits(s[1..]) && DigitsValue(s[1..]) == -n
    ensures n >= 0 ==> s == NatText(n)
    ensures n < 0 ==> s[1..] == NatText(-n)
  {
    if n < 0 then
      var s := "-" + NatText(-n);
      assert s[1..] == NatText(-n);
      s
    else NatText(n)
  }

  /** The text of a value: text as it is, numbers and flags written out, anything else empty. */
  function ToString(v: Variant): (s: string)
    ensures v.Text? ==> s == v.s
    ensures (v.Number? || v.Boolean?) ==> s != []
    ensures v.Number? ==> s == IntText(v.n)
    ensures v.Boolean? ==> s == (if v.b then "true" else "false")
    ensures (v.Null? || v.Dict?) ==> s == []
  {
    match v
    case Null => ""
    case Text(t) => t
    case Number(n) => IntText(n)
    case Boolean(b) => if b then "true" else "false"
    case Dict(_) => ""
  }

  /** The formula stored under `properties`. */
  function Formula(r: Record): Variant
  {
    Value(ToMap(Value(r, "properties")), "formula")
  }

  /** The name shown for a record: its `name`, or its formula when the name is empty. */
  function RecordName(r: Record): (name: string)
    ensures ToString(Value(r, "name")) != "" ==> name == ToString(Value(r, "name"))
    ensures ToString(Value(r, "name")) == "" ==> name == ToString(Formula(r))
  {
    var name := ToString(Value(r, "name"));
    if name == [] then ToString(Formula(r)) else name
  }

  /** What column `column` of the row of record `r` shows. */
  function ColumnValue(r: Record, column: int): (v: Variant)
    ensures column == 0 ==> v == Formula(r)
    ensures column == 1 ==> v == Value(r, "smiles")
    ensures column == 2 ==> v == Value(r, "inchikey")
    ensures !(0 <= column < 3) ==> v == Null
  {
    if column == 0 then Formula(r)
    else if column == 1 then Value(r, "smiles")
    else if column == 2 then Value(r, "inchikey")
    else Null
  }

  // ---------------------------------------------------------------------
  // Indices, roles and notifications
  // ---------------------------------------------------------------------

  /** A model index: the invalid one stands for the root, a valid one for a cell. */
  datatype ModelIndex = InvalidIndex | ValidIndex(row: nat, column: nat)

  /** An index as the item-model base class makes it: a negative row or column gives the invalid index. */
  function CreateIndex(row: int, column: int): (r: ModelIndex)
    ensures r.ValidIndex? <==> row >= 0 && column >= 0
    ensures r.ValidIndex? ==> r.row == row && r.column == column
  {
    if row < 0 || column < 0 then InvalidIndex else ValidIndex(row, column)
  }

  /** The row number of the root item, which has no parent list. */
  const RootRow: int := -1

  const DisplayRole: int := 0
  const EditRole: int := 2

  datatype Orientation = Horizontal | Vertical

  /** The notifications the model sends its views around a change of rows. */
  datatype Event =
    | BeginInsertRows(first: int, last: int)
    | EndInsertRows
    | BeginRemoveRows(first: int, last: int)
    | EndRemoveRows

  /**
   * The row count a view ends with when it starts from `rows` rows and
   * follows `events`, or None when the events break the item-model rules:
   * an insertion starts at an existing row or right after the last one, a
   * removal covers rows that exist, the first row of a range is not after
   * its last, and every begin is followed by its end.
   */
  function Replay(events: seq<Event>, rows: int): Option<int>
    decreases |events|
  {
    if events == [] then Some(rows)
    else if |events| < 2 then None
    else match events[0]
      case BeginInsertRows(first, last) =>
        if 0 <= first <= rows && first <= last && events[1] == EndInsertRows
        then Replay(events[2..], rows + (last - first + 1))
        else None
      case BeginRemoveRows(first, last) =>
        if 0 <= first <= last < rows && events[1] == EndRemoveRows
        then Replay(events[2..], rows - (last - first + 1))
        else None
      case _ => None
  }

  /** Following a log that leaves `m` rows, and then more events, is following the later events from `m`. */
  lemma {:induction false} ReplayConcat(earlier: seq<Event>, later: seq<Event>, rows: int, m: int)
    requires Replay(earlier, rows) == Some(m)
    ensures Replay(earlier + later, rows) == Replay(later, m)
    decreases |earlier|
  {
    if earlier == [] {
      assert earlier + later == later;
    } else {
      var all := earlier + later;
      assert all[0] == earlier[0] && all[1] == earlier[1];
      assert all[2..] == earlier[2..] + later;
      match earlier[0]
      case BeginInsertRows(first, last) =>
        ReplayConcat(earlier[2..], later, rows + (last - first + 1), m);
      case BeginRemoveRows(first, last) =>
        ReplayConcat(earlier[2..], later, rows - (last - first + 1), m);
    }
  }

  /** One insertion of `last - first + 1` rows at `first`, with its notifications. */
  lemma InsertBracket(events: seq<Event>, n: int, first: int, last: int)
    requires Replay(events, 0) == Some(n) && 0 <= first <= n && first <= last
    ensures Replay(events + [BeginInsertRows(first, last), EndInsertRows], 0) == Some(n + (last - first + 1))
  {
    ReplayConcat(events, [BeginInsertRows(first, last), EndInsertRows], 0, n);
  }

  /** One removal of rows `first` to `last`, with its notifications; within range it keeps the log consistent, out of range it breaks it. */
  lemma RemoveBracket(events: seq<Event>, n: int, first: int, last: int)
    requires Replay(events, 0) == Some(n)
    ensures Replay(events + [BeginRemoveRows(first, last), EndRemoveRows], 0)
              == if 0 <= first <= last < n then Some(n - (last - first + 1)) else None
  {
    ReplayConcat(events, [BeginRemoveRows(first, last), EndRemoveRows], 0, n);
  }

  /** The announcement `clear` makes on an empty model names row 0, which does not exist. */
  lemma EmptyClearBreaksLog(events: seq<Event>)
    requires Replay(events, 0) == Some(0)
    ensures Replay(events + [BeginRemoveRows(0, 0), EndRemoveRows], 0).None?
  {
    RemoveBracket(events, 0, 0, 0);
  }

  /** Removing every one of `n > 0` rows at once leaves a view with no rows. */
  lemma ClearAllRowsKeepsLog(events: seq<Event>, n: int)
    requires Replay(events, 0) == Some(n) && n > 0
    ensures Replay(events + [BeginRemoveRows(0, n - 1), EndRemoveRows], 0) == Some(0)
  {
    RemoveBracket(events, n, 0, n - 1);
  }

  // ---------------------------------------------------------------------
  // The root item
  // ---------------------------------------------------------------------

  /** The root of the tree: the list of records it owns, one per row. */
  class TreeItem {
    var children: seq<Record>

    constructor()
      ensures children == []
    {
      children := [];
    }

    /** The record at `index`, or nothing outside the list. */
    function Child(index: int): (r: Option<Record>)
      reads this
      ensures r.Some? <==> 0 <= index < |children|
      ensures r.Some? ==> r.value == children[index]
    {
      if 0 <= index < |children| then Some(children[index]) else None
    }

    function ChildCount(): (n: nat)
      reads this
      ensures n == |children|
      ensures forall i :: 0 <= i < n ==> Child(i).Some?
      ensures Child(n).None?
    {
      |children|
    }

    method AppendChild(data: Record)
      modifies this
      ensures children == old(children) + [data]
    {
      children := children + [data];
    }

    /** Removes the record at `pos`; a position outside the list is refused and nothing changes. */
    method RemoveChild(pos: int) returns (removed: bool)
      modifies this
      ensures removed <==> 0 <= pos < |old(children)|
      ensures removed ==> children == old(children)[..pos] + old(children)[pos + 1..]
      ensures !removed ==> children == old(children)
    {
      if pos < 0 || pos >= |children| {
        return false;
      }
      children := children[..pos] + children[pos + 1..];
      return true;
    }

    method ClearChildren()
      modifies this
      ensures children == []
    {
      children := [];
    }
  }

  // ---------------------------------------------------------------------
  // The model
  // ---------------------------------------------------------------------

  /**
   * The item model over the root item.  In Avogadro the root is private
   * to the model; here it is a field any caller can reach, and only
   * AddMolecule, DeleteMolecule and the two clears are shown to keep
   * Valid.  Every query is a function and changes nothing.  `events` is
   * the log of notifications sent so far.
   */
  class MongoChemTreeModel {
    const root: TreeItem
    var events: seq<Event>

    /** A view that follows the notifications from an empty model sees as many rows as the model has. */
    ghost predicate Valid()
      reads this, root
    {
      Replay(events, 0) == Some(|root.children|)
    }

    constructor()
      ensures fresh(root) && root.children == [] && events == []
      ensures Valid()
    {
      root := new TreeItem();
      events := [];
    }

    /** The number of rows: whatever `parent` is, the number of records of the root. */
    function RowCount(parent: ModelIndex := InvalidIndex): (n: nat)
      reads this, root
      ensures n == |root.children|
    {
      root.ChildCount()
    }

    function ColumnCount(parent: ModelIndex := InvalidIndex): (n: nat)
      ensures n == 3
    {
      3
    }

    /** The index of a cell: valid only under the root and inside the table. */
    function Index(row: int, column: int, parent: ModelIndex := InvalidIndex): (r: ModelIndex)
      reads this, root
      ensures r.ValidIndex? <==> parent.InvalidIndex? && 0 <= row < RowCount() && 0 <= column < ColumnCount()
      ensures r.ValidIndex? ==> r.row == row && r.column == column
    {
      if 0 <= row < RowCount(parent) && 0 <= column < ColumnCount(parent) && parent.InvalidIndex?
         && root.Child(row).Some?
      then ValidIndex(row, column)
      else InvalidIndex
    }

    /**
     * The parent of a cell is the root, whose own row number is -1; an index
     * made with a negative row is invalid, so every parent is the invalid index.
     */
    function Parent(child: ModelIndex): (r: ModelIndex)
      ensures r == InvalidIndex
    {
      if child.InvalidIndex? then InvalidIndex   // the root has no parent
      else CreateIndex(RootRow, child.column)
    }

    /** What a cell shows: for the display role, the column's value of the row's record; anything else is null. */
    function Data(index: ModelIndex, role: int := DisplayRole): (v: Variant)
      reads this, root
      requires index.ValidIndex? ==> index.row < RowCount()
      ensures index.InvalidIndex? || role != DisplayRole ==> v == Null
      ensures index.ValidIndex? && role == DisplayRole ==> v == ColumnValue(root.children[index.row], index.column)
    {
      if index.InvalidIndex? then Null
      else if role == DisplayRole then
        var mol := root.children[index.row];
        if index.column == 0 then Value(ToMap(Value(mol, "properties")), "formula")
        else if index.column == 1 then Value(mol, "smiles")
        else if index.column == 2 then Value(mol, "inchikey")
        else Null
      else Null
    }

    /** Column titles across the top, row numbers from one down the side, for the display role only. */
    function HeaderData(section: int, orientation: Orientation, role: int): (v: Variant)
      ensures role != DisplayRole ==> v == Null
      ensures role == DisplayRole && orientation == Vertical ==> v == Number(section + 1)
      ensures role == DisplayRole && orientation == Horizontal ==>
                v == (if section == 0 then Text("Formula")
                      else if section == 1 then Text("SMILES")
                      else if section == 2 then Text("InChIKey")
                      else Null)
    {
      if role != DisplayRole then Null
      else if orientation == Vertical then Number(section + 1)
      else if section == 0 then Text("Formula")
      else if section == 1 then Text("SMILES")
      else if section == 2 then Text("InChIKey")
      else Null
    }

    /** The `_id` of the record in `row`, or "" outside the list. */
    function MoleculeId(row: int): (id: string)
      reads this, root
      ensures !(0 <= row < RowCount()) ==> id == ""
      ensures 0 <= row < RowCount() ==> id == ToString(Value(root.children[row], "_id"))
    {
      match root.Child(row)
      case None => ""
      case Some(r) => ToString(Value(r, "_id"))
    }

    /** The `name` of the record in `row`, its formula when that is empty, or "" outside the list. */
    function MoleculeName(row: int): (name: string)
      reads this, root
      ensures !(0 <= row < RowCount()) ==> name == ""
      ensures 0 <= row < RowCount() ==> name == RecordName(root.children[row])
    {
      match root.Child(row)
      case None => ""
      case Some(r) =>
        var name := ToString(Value(r, "name"));
        if name == [] then ToString(Value(ToMap(Value(r, "properties")), "formula")) else name
    }

    /** Appends `mol` as the last row, announced as an insertion at the old row count. */
    method AddMolecule(mol: Record)
      modifies this, root
      ensures root.children == old(root.children) + [mol]
      ensures events == old(events) + [BeginInsertRows(|old(root.children)|, |old(root.children)|), EndInsertRows]
      ensures old(Valid()) ==> Valid()
    {
      ghost var n := |root.children|;
      events := events + [BeginInsertRows(root.ChildCount(), root.ChildCount())];
      root.AppendChild(mol);
      events := events + [EndInsertRows];
      assert events == old(events) + [BeginInsertRows(n, n), EndInsertRows];
      if old(Valid()) {
        InsertBracket(old(events), n, n, n);
      }
    }

    /**
     * Removes the row of a valid index inside the list, announced as the
     * removal of that one row; any other index changes nothing and
     * announces nothing.
     */
    method DeleteMolecule(index: ModelIndex)
      modifies this, root
      ensures index.ValidIndex? && index.row < |old(root.children)| ==>
                root.children == old(root.children)[..index.row] + old(root.children)[index.row + 1..]
                && events == old(events) + [BeginRemoveRows(index.row, index.row), EndRemoveRows]
      ensures !(index.ValidIndex? && index.row < |old(root.children)|) ==>
                root.children == old(root.children) && events == old(events)
      ensures old(Valid()) ==> Valid()
    {
      if index.InvalidIndex? {
        return;
      }
      var row := index.row;
      if row < root.ChildCount() {
        ghost var n := |root.children|;
        events := events + [BeginRemoveRows(row, row)];
        var _ := root.RemoveChild(row);
        events := events + [EndRemoveRows];
        assert events == old(events) + [BeginRemoveRows(row, row), EndRemoveRows];
        if old(Valid()) {
          RemoveBracket(old(events), n, row, row);
        }
      }
    }

    /**
     * `clear` as written: announces the removal of rows 0 to count-1, or of
     * row 0 when there are no rows at all, and empties the list.  From an
     * empty model that announcement names a row that does not exist.
     */
    method Clear()
      modifies this, root
      ensures root.children == []
      ensures events == old(events) + [BeginRemoveRows(0, if |old(root.children)| == 0 then 0 else |old(root.children)| - 1), EndRemoveRows]
      ensures old(Valid()) && |old(root.children)| > 0 ==> Valid()
      ensures old(Valid()) && |old(root.children)| == 0 ==> Replay(events, 0).None?
    {
      ghost var n := |root.children|;
      var noChildren := root.ChildCount() == 0;
      var lastRow := if noChildren then 0 else root.ChildCount() - 1;
      events := events + [BeginRemoveRows(0, lastRow)];
      root.ClearChildren();
      events := events + [EndRemoveRows];
      assert events == old(events) + [BeginRemoveRows(0, lastRow), EndRemoveRows];
      if old(Valid()) {
        RemoveBracket(old(events), n, 0, lastRow);
      }
    }

    /** `clear` with the announcement kept within the rows that exist: an empty model announces nothing. */
    method ClearWithinRange()
      modifies this, root
      ensures root.children == []
      ensures |old(root.children)| == 0 ==> events == old(events)
      ensures |old(root.children)| > 0 ==>
                events == old(events) + [BeginRemoveRows(0, |old(root.children)| - 1), EndRemoveRows]
      ensures old(Valid()) ==> Valid()
    {
      if root.ChildCount() == 0 {
        return;
      }
      ghost var n := |root.children|;
      var lastRow := root.ChildCount() - 1;
      events := events + [BeginRemoveRows(0, lastRow)];
      root.ClearChildren();
      events := events + [EndRemoveRows];
      assert events == old(events) + [BeginRemoveRows(0, lastRow), EndRemoveRows];
      if old(Valid()) {
        RemoveBracket(old(events), n, 0, lastRow);
      }
    }
  }

  // ---------------------------------------------------------------------
  // Properties of the queries
  // ---------------------------------------------------------------------

  /** A default `data` call on a cell is its column's display text; a call with another role is null. */
  lemma DefaultDataIsDisplay(model: MongoChemTreeModel, row: nat, column: nat)
    requires row < model.RowCount()
    ensures model.Data(ValidIndex(row, column)) == ColumnValue(model.root.children[row], column)
    ensures model.Data(ValidIndex(row, column), EditRole) == Null
  {
  }

  /** Every column has a title, and past the last column there are neither titles nor values. */
  lemma HeadersMatchColumns(model: MongoChemTreeModel, section: int)
    ensures model.HeaderData(section, Horizontal, DisplayRole).Text? <==> 0 <= section < model.ColumnCount()
    ensures section >= model.ColumnCount() ==>
              forall row: nat :: row < model.RowCount() ==> model.Data(ValidIndex(row, section)) == Null
  {
  }

  /** A row with no name is named by the formula shown in its first column. */
  lemma NameFallsBackToFormulaColumn(model: MongoChemTreeModel, row: nat)
    requires row < model.RowCount()
    requires ToString(Value(model.root.children[row], "name")) == ""
    ensures model.MoleculeName(row) == ToString(model.Data(model.Index(row, 0)))
  {
  }

  /** Indices made by the model point back at the root, and the root gives the same index again. */
  lemma IndexParentRoundTrip(model: MongoChemTreeModel, row: int, column: int)
    requires model.Index(row, column).ValidIndex?
    ensures model.Parent(model.Index(row, column)) == InvalidIndex
    ensures model.Index(row, column, model.Parent(model.Index(row, column))) == model.Index(row, column)
  {
  }

  /**
   * Three records added to a fresh model, then `clear`: three insertions at
   * rows 0, 1 and 2, then one removal covering rows 0 to 2, and the list
   * ends empty with a consistent log.
   */
  method AddThreeThenClear(a: Record, b: Record, c: Record)
    returns (names: seq<string>, rowsAfter: nat, log: seq<Event>, consistent: bool)
    ensures names == [RecordName(a), RecordName(b), RecordName(c)]
    ensures log == [BeginInsertRows(0, 0), EndInsertRows, BeginInsertRows(1, 1), EndInsertRows,
                    BeginInsertRows(2, 2), EndInsertRows, BeginRemoveRows(0, 2), EndRemoveRows]
    ensures log[|log| - 2..] == [BeginRemoveRows(0, 2), EndRemoveRows]
    ensures rowsAfter == 0 && consistent
  {
    var model := new MongoChemTreeModel();
    model.AddMolecule(a);
    model.AddMolecule(b);
    model.AddMolecule(c);
    names := [model.MoleculeName(0), model.MoleculeName(1), model.MoleculeName(2)];
    model.Clear();
    rowsAfter := model.RowCount();
    log := model.events;
    consistent := Replay(log, 0) == Some(rowsAfter);
  }
}
