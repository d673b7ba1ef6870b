/** What the spreadsheet's cell names, edits and cursor moves guarantee. */
module SpreadsheetFacts {
  import opened Wrappers
  import opened Strings
  import opened Spreadsheet

  /** The cell name parses back: its first character is the column, the rest is the row. */
  lemma {:induction false} NameParses(col: nat, row: nat)
    requires col < |Cols|
    ensures ColIndex(CellName(col, row)[0]) == col
    ensures ParseInt(CellName(col, row)[1..]) == Some(row)
  {
    LeadingAllDigits(NatToString(row));
  }

  /** Different cells have different names. */
  lemma NamesDistinct(c1: nat, r1: nat, c2: nat, r2: nat)
    requires c1 < |Cols| && c2 < |Cols|
    requires CellName(c1, r1) == CellName(c2, r2)
    ensures c1 == c2 && r1 == r2
  {
    NameParses(c1, r1);
    NameParses(c2, r2);
  }

  /** Enter moves one row down in the same column, except on the last row. */
  lemma EnterMoves(col: nat, row: nat)
    requires col < |Cols|
    ensures BelowOf(CellName(col, row)) == if row < Rows then Some(CellName(col, row + 1)) else None
  {
    NameParses(col, row);
  }

  /** Tab moves one column right in the same row, except in the last column. */
  lemma TabMoves(col: nat, row: nat)
    requires col < |Cols|
    ensures RightOf(CellName(col, row)) == if col < |Cols| - 1 then Some(CellName(col + 1, row)) else None
  {
    NameParses(col, row);
  }

  /** Enter and Tab in a grid cell select a grid cell, or leave the selection alone. */
  lemma KeyInGrid(s: Sheet, key: Key, id: string)
    requires InGrid(s.selected) && InGrid(id)
    ensures InGrid(KeyStep(s, key, id).selected)
  {
    var col: nat, row: nat :| col < |Cols| && 1 <= row <= Rows && id == CellName(col, row);
    EnterMoves(col, row);
    TabMoves(col, row);
    if key == Enter && row < Rows {
      assert KeyStep(s, key, id).selected == CellName(col, row + 1);
    } else if key == Tab && col < |Cols| - 1 {
      assert KeyStep(s, key, id).selected == CellName(col + 1, row);
    }
  }

  /** What was typed is what the cell's edit box shows and its value, and other cells keep theirs. */
  lemma ChangeShows(s: Sheet, id: string, value: string, other: string)
    requires other != id
    ensures EditText(ChangeStep(s, id, value).cells, id) == value
    ensures CellValue(ChangeStep(s, id, value).cells, id) == value
    ensures CellValue(ChangeStep(s, id, value).cells, other) == CellValue(s.cells, other)
    ensures EditText(ChangeStep(s, id, value).cells, other) == EditText(s.cells, other)
  {
  }

  /** The selected and edited cells are cells of the grid. */
  predicate Inv(s: Sheet) {
    InGrid(s.selected) && (s.editing.Some? ==> InGrid(s.editing.value))
  }

  /** What the user does: type in a cell, click it, double-click it, leave it, or press a key in the edited cell. */
  datatype Op = Change(id: string, value: string) | Click(id: string) | DoubleClick(id: string) | Blur | Press(key: Key)

  function Apply(s: Sheet, op: Op): Sheet {
    match op
    case Change(id, value) => ChangeStep(s, id, value)
    case Click(id) => SelectStep(s, id)
    case DoubleClick(id) => DoubleClickStep(s, id)
    case Blur => BlurStep(s)
    case Press(key) => if s.editing.Some? then KeyStep(s, key, s.editing.value) else s
  }

  /** The cells the user clicks are cells of the grid. */
  predicate OnGrid(op: Op) {
    (op.Click? ==> InGrid(op.id)) && (op.DoubleClick? ==> InGrid(op.id))
  }

  lemma ApplyKeeps(s: Sheet, op: Op)
    requires Inv(s) && OnGrid(op)
    ensures Inv(Apply(s, op))
  {
    if op.Press? && s.editing.Some? {
      KeyInGrid(s, op.key, s.editing.value);
    }
  }

  function Run(s: Sheet, ops: seq<Op>): Sheet
    decreases |ops|
  {
    if |ops| == 0 then s else Run(Apply(s, ops[0]), ops[1..])
  }

  lemma {:induction false} RunKeeps(s: Sheet, ops: seq<Op>)
    requires Inv(s)
    requires forall i :: 0 <= i < |ops| ==> OnGrid(ops[i])
    ensures Inv(Run(s, ops))
    decreases |ops|
  {
    if |ops| > 0 {
      ApplyKeeps(s, ops[0]);
      RunKeeps(Apply(s, ops[0]), ops[1..]);
    }
  }

  /** The window opens on `A1`, a cell of the grid, with nothing edited, whatever the cells hold. */
  lemma InitialInv(cells: map<string, CellData>)
    ensures Inv(Sheet(cells, "A1", None))
  {
    assert CellName(0, 1) == "A1";
  }

  /** However the user clicks and types on the grid, the selection stays inside `A`..`J` by `1`..`20`. */
  lemma Reachable(cells: map<string, CellData>, ops: seq<Op>)
    requires forall i :: 0 <= i < |ops| ==> OnGrid(ops[i])
    ensures Inv(Run(Sheet(cells, "A1", None), ops))
  {
    var s := Sheet(cells, "A1", None);
    InitialInv(cells);
    RunKeeps(s, ops);
  }
}
