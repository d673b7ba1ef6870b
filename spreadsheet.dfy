/**
 * The spreadsheet window of ndi-app/src/components/apps/Calc.tsx: a map from
 * cell names such as `B3` to cell contents, a selected cell and the cell being
 * edited. Editing stores what was typed, as a formula too when it starts with
 * `=`; Enter and Tab in the edited cell move the selection one row down or
 * one column right, inside the ten columns `A`..`J` and twenty rows.
 *
 * The window's state is the `Sheet` value; each handler is a `...Step`
 * function, and `CalcWindow` holds the three state fields and rewrites them
 * in place.
 */
module Spreadsheet {
  import opened Wrappers
  import opened Strings

  /** `COLS`. */
  const Cols: seq<char> := ['A', 'B', 'C', 'D', 'E', 'F', 'G', 'H', 'I', 'J']

  /** `ROWS`. */
  const Rows: nat := 20

  /** `CellData`: the value shown, and the formula when one was typed. */
  datatype CellData = CellData(value: string, formula: Option<string>)

  /** The name of the cell in column `col` (from 0) and row `row` (from 1): `${col}${row}`. */
  function CellName(col: nat, row: nat): (r: string)
    requires col < |Cols|
    ensures |r| >= 2 && r[0] == Cols[col] && r[1..] == NatToString(row)
  {
    [Cols[col]] + NatToString(row)
  }

  /** One of the grid's cells. */
  predicate InGrid(id: string) {
    exists col: nat, row: nat :: col < |Cols| && 1 <= row <= Rows && id == CellName(col, row)
  }

  /** `COLS.indexOf(c)`, -1 when absent. */
  function ColIndex(c: char): (r: int)
    ensures -1 <= r < |Cols|
    ensures r >= 0 ==> Cols[r] == c
    ensures r == -1 <==> c !in Cols
  {
    if 'A' <= c <= 'J' then c as int - 'A' as int else -1
  }

  /** `parseInt` of a string that has no leading blank or sign: the value of its leading digits, NaN (`None`) without one. */
  function ParseInt(t: string): (r: Option<nat>)
    ensures r.None? <==> |t| == 0 || !IsDigit(t[0])
  {
    var d := LeadingDigits(t);
    if |d| == 0 then None else Some(DigitsValue(d))
  }

  /** The example data the window opens with. */
  const InitialCells: map<string, CellData> := map[
    "A1" := CellData("Produit", None),
    "B1" := CellData("Quantit\U{E9}", None),
    "C1" := CellData("Prix unitaire", None),
    "D1" := CellData("Total", None),
    "A2" := CellData("Ordinateur", None),
    "B2" := CellData("5", None),
    "C2" := CellData("800", None),
    "D2" := CellData("4000", Some("=B2*C2")),
    "A3" := CellData("\U{C9}cran", None),
    "B3" := CellData("10", None),
    "C3" := CellData("250", None),
    "D3" := CellData("2500", Some("=B3*C3")),
    "A4" := CellData("Clavier", None),
    "B4" := CellData("15", None),
    "C4" := CellData("50", None),
    "D4" := CellData("750", Some("=B4*C4")),
    "A6" := CellData("TOTAL", None),
    "D6" := CellData("7250", Some("=SOMME(D2:D4)"))]

  /** `cells`, `selectedCell` and `editingCell`. */
  datatype Sheet = Sheet(cells: map<string, CellData>, selected: string, editing: Option<string>)

  /** The keys `handleKeyDown` looks at, and any other. */
  datatype Key = Enter | Escape | Tab | OtherKey

  /** `getCellValue`: the cell's value, `''` for a cell never written. */
  function CellValue(cells: map<string, CellData>, id: string): (r: string)
    ensures id !in cells ==> r == ""
    ensures id in cells ==> r == cells[id].value
  {
    if id in cells then cells[id].value else ""
  }

  /** What the edit box of a cell shows: `cellData?.formula || cellData?.value || ''`. */
  function EditText(cells: map<string, CellData>, id: string): string {
    if id !in cells then ""
    else if cells[id].formula.Some? && cells[id].formula.value != "" then cells[id].formula.value
    else cells[id].value
  }

  /** `handleCellChange`: the cell holds exactly what was typed, also as its formula when it starts with `=`. */
  function ChangeStep(s: Sheet, id: string, value: string): (r: Sheet)
    ensures r.selected == s.selected && r.editing == s.editing
    ensures r.cells.Keys == s.cells.Keys + {id}
    ensures r.cells[id].value == value && (r.cells[id].formula.Some? <==> StartsWith(value, "="))
    ensures forall other :: other in s.cells && other != id ==> r.cells[other] == s.cells[other]
  {
    s.(cells := s.cells[id := CellData(value, if StartsWith(value, "=") then Some(value) else None)])
  }

  /** A click on a cell selects it. */
  function SelectStep(s: Sheet, id: string): (r: Sheet)
    ensures r.selected == id && r.cells == s.cells && r.editing == s.editing
  {
    s.(selected := id)
  }

  /** `handleCellDoubleClick`: the cell is edited. */
  function DoubleClickStep(s: Sheet, id: string): (r: Sheet)
    ensures r.editing == Some(id) && r.cells == s.cells && r.selected == s.selected
  {
    s.(editing := Some(id))
  }

  /** `handleCellBlur`: nothing is edited. */
  function BlurStep(s: Sheet): (r: Sheet)
    ensures r.editing.None? && r.cells == s.cells && r.selected == s.selected
  {
    s.(editing := None)
  }

  /** Enter in cell `id`: the cell below, unless its row is the last or not a number. */
  function BelowOf(id: string): Option<string> {
    if |id| == 0 then None
    else
      var row := ParseInt(id[1..]);
      if row.Some? && row.value < Rows then Some([id[0]] + NatToString(row.value + 1)) else None
  }

  /** Tab in cell `id`: the cell to the right, unless the column is the last. */
  function RightOf(id: string): Option<string> {
    var colIndex := if |id| == 0 then -1 else ColIndex(id[0]);
    var row := if |id| == 0 then "" else id[1..];
    if colIndex < |Cols| - 1 then Some([Cols[colIndex + 1]] + row) else None
  }

  /** `handleKeyDown` in the edited cell `id`: Enter, Escape and Tab end the editing; Enter and Tab also move. */
  function KeyStep(s: Sheet, key: Key, id: string): (r: Sheet)
    ensures r.cells == s.cells
    ensures key == OtherKey ==> r == s
    ensures key != OtherKey ==> r.editing.None?
    ensures key == Escape ==> r.selected == s.selected
  {
    match key
    case Enter => var below := BelowOf(id); s.(editing := None, selected := if below.Some? then below.value else s.selected)
    case Escape => s.(editing := None)
    case Tab => var right := RightOf(id); s.(editing := None, selected := if right.Some? then right.value else s.selected)
    case OtherKey => s
  }

  const InitialSheet: Sheet := Sheet(InitialCells, "A1", None)

  /** The spreadsheet window's state. */
  class CalcWindow {
    var cells: map<string, CellData>
    var selectedCell: string
    var editingCell: Option<string>

    function State(): Sheet
      reads this
    {
      Sheet(cells, selectedCell, editingCell)
    }

    constructor ()
      ensures State() == InitialSheet
    {
      cells := InitialCells;
      selectedCell := "A1";
      editingCell := None;
    }

    method HandleCellChange(id: string, value: string)
      modifies this
      ensures State() == ChangeStep(old(State()), id, value)
    {
      var formula := if |value| >= 1 && value[0] == '=' then Some(value) else None;
      assert formula.Some? <==> StartsWith(value, "=");
      cells := cells[id := CellData(value, formula)];
    }

    method Select(id: string)
      modifies this
      ensures State() == SelectStep(old(State()), id)
    {
      selectedCell := id;
    }

    method HandleCellDoubleClick(id: string)
      modifies this
      ensures State() == DoubleClickStep(old(State()), id)
    {
      editingCell := Some(id);
    }

    method HandleCellBlur()
      modifies this
      ensures State() == BlurStep(old(State()))
    {
      editingCell := None;
    }

    method HandleKeyDown(key: Key, id: string)
      modifies this
      ensures State() == KeyStep(old(State()), key, id)
    {
      if key == Enter {
        editingCell := None;
        var below := BelowOf(id);
        if below.Some? {
          selectedCell := below.value;
        }
      } else if key == Escape {
        editingCell := None;
      } else if key == Tab {
        editingCell := None;
        var right := RightOf(id);
        if right.Some? {
          selectedCell := right.value;
        }
      }
    }
  }
}
