/**
 * The label-colour picker: a table of seven preset colours, a cursor on the
 * selected row, and an apply button that hands the selected preset back.
 */
module ColorSelection {

  /** The system colours the presets use. */
  datatype SystemColor = SystemRed | SystemOrange | SystemYellow | SystemGreen
                       | SystemBlue | SystemPurple | SystemIndigo

  /** A preset: the name shown in the row and its colour. */
  datatype LabelColor = LabelColor(name: string, color: SystemColor)

  /** The fixed preset table, in row order. */
  const Presets: seq<LabelColor> := [
    LabelColor("빨간색", SystemRed),
    LabelColor("주황색", SystemOrange),
    LabelColor("노란색", SystemYellow),
    LabelColor("초록색", SystemGreen),
    LabelColor("파란색", SystemBlue),
    LabelColor("보라색", SystemPurple),
    LabelColor("남색", SystemIndigo)
  ]

  /** What a row's cell is configured with. */
  datatype ColorCellConfig = ColorCellConfig(name: string, color: SystemColor, isSelected: bool)

  /** Row `row`'s cell: that preset's name and colour, marked when it is the selected row. */
  function CellFor(colors: seq<LabelColor>, row: nat, selectedIndex: int): (cell: ColorCellConfig)
    requires row < |colors|
    ensures cell.name == colors[row].name && cell.color == colors[row].color
    ensures cell.isSelected <==> row == selectedIndex
  {
    ColorCellConfig(colors[row].name, colors[row].color, row == selectedIndex)
  }

  /** The rows rendered as selected. */
  function SelectedRows(colors: seq<LabelColor>, selectedIndex: int): set<nat>
  {
    set row: nat | row < |colors| && CellFor(colors, row, selectedIndex).isSelected
  }

  /** With the cursor on a row of the table, exactly that one row is rendered as selected. */
  lemma ExactlyOneRowSelected(colors: seq<LabelColor>, selectedIndex: int)
    requires 0 <= selectedIndex < |colors|
    ensures SelectedRows(colors, selectedIndex) == {selectedIndex as nat}
    ensures |SelectedRows(colors, selectedIndex)| == 1
  {
  }

  class ColorSelectionController {
    const colors: seq<LabelColor>
    /** The row the user last picked; 0 until then. */
    var selectedIndex: int

    /** The table is the preset table and the cursor is on one of its rows. */
    ghost predicate Valid()
      reads this
    {
      colors == Presets && 0 <= selectedIndex < |colors|
    }

    constructor ()
      ensures Valid()
      ensures selectedIndex == 0
      ensures colors[selectedIndex] == LabelColor("빨간색", SystemRed)
    {
      colors := Presets;
      selectedIndex := 0;
    }

    /** `numberOfRowsInSection`: one row per preset. */
    method NumberOfRowsInSection(section: int) returns (rows: int)
      requires Valid()
      ensures rows == |colors| == 7
    {
      rows := |colors|;
    }

    /** `cellForRowAt`: the preset of that row, selected exactly on the cursor row. */
    method CellForRowAt(row: nat) returns (cell: ColorCellConfig)
      requires Valid() && row < |colors|
      ensures cell == CellFor(colors, row, selectedIndex)
    {
      var color := colors[row];
      cell := ColorCellConfig(color.name, color.color, row == selectedIndex);
    }

    /** `didSelectRowAt`: the cursor moves to the tapped row; nothing else changes. */
    method DidSelectRowAt(row: nat)
      requires Valid() && row < |colors|
      modifies this`selectedIndex
      ensures Valid()
      ensures selectedIndex == row
    {
      selectedIndex := row;
    }

    /** `didTapApply`: the preset under the cursor is what `onSelect` receives. */
    method DidTapApply() returns (selected: LabelColor)
      requires Valid()
      ensures selected == colors[selectedIndex]
      ensures selected in Presets
    {
      selected := colors[selectedIndex];
    }
  }

  /** A fresh picker applied without any row tap hands back the first preset, red. */
  method ApplyWithoutSelection() returns (selected: LabelColor)
    ensures selected == LabelColor("빨간색", SystemRed)
  {
    var picker := new ColorSelectionController();
    selected := picker.DidTapApply();
  }
}
