/**
 * `RightView` (views/right_view.py): a two-column grid of action buttons, filled
 * from the configured actions and extended by typing a name and pressing "Add".
 */
module RightView {
  import opened Wrappers
  import opened Text

  /** `BUTTONS_PER_ROW`. */
  const ButtonsPerRow: nat := 2

  /** A grid cell `(row, column)`. */
  datatype GridPos = GridPos(row: nat, column: nat)

  /** A push button with its text, as placed in the grid. */
  datatype Button = Button(text: string, row: nat, column: nat)

  /** How `init_buttons` moves on after placing a button: next column, wrapping to the next row. */
  function GridStep(p: GridPos): (q: GridPos)
    requires p.column < ButtonsPerRow
    ensures q.column < ButtonsPerRow
    ensures q == if p.column + 1 < ButtonsPerRow then GridPos(p.row, p.column + 1) else GridPos(p.row + 1, 0)
  {
    var column := p.column + 1;
    if column >= ButtonsPerRow then GridPos(p.row + 1, 0) else GridPos(p.row, column)
  }

  /** How `add_button_to_list` moves on: the column wraps to 0 but the row is never advanced. */
  function AddStep(p: GridPos): (q: GridPos)
    requires p.column < ButtonsPerRow
    ensures q.column < ButtonsPerRow && q.row == p.row
    ensures q.column == if p.column + 1 < ButtonsPerRow then p.column + 1 else 0
  {
    var column := p.column + 1;
    if column >= ButtonsPerRow then GridPos(p.row, 0) else GridPos(p.row, column)
  }

  /** The cell after `k` steps of `init_buttons` from `start`. */
  function PosAfter(start: GridPos, k: nat): (p: GridPos)
    requires start.column < ButtonsPerRow
    ensures p.column < ButtonsPerRow
  {
    if k == 0 then start else GridStep(PosAfter(start, k - 1))
  }

  /** Each step moves one cell on in row-major order: k steps advance the cell index by k. */
  lemma {:induction false} PosAfterIndex(start: GridPos, k: nat)
    requires start.column < ButtonsPerRow
    ensures var p := PosAfter(start, k);
      p.row * ButtonsPerRow + p.column == start.row * ButtonsPerRow + start.column + k
  {
    if k > 0 {
      PosAfterIndex(start, k - 1);
    }
  }

  /** The buttons `init_buttons` places for the first `n` actions, starting at cell `start`. */
  function Placed(items: seq<string>, start: GridPos, n: nat): (r: seq<Button>)
    requires start.column < ButtonsPerRow && n <= |items|
    ensures |r| == n
  {
    if n == 0 then [] else
      var p := PosAfter(start, n - 1);
      Placed(items, start, n - 1) + [Button(items[n - 1], p.row, p.column)]
  }

  /** The k-th placed button carries the k-th action's name and sits k steps from `start`. */
  lemma {:induction false} PlacedAt(items: seq<string>, start: GridPos, n: nat, k: nat)
    requires start.column < ButtonsPerRow && k < n <= |items|
    ensures var p := PosAfter(start, k);
      Placed(items, start, n)[k] == Button(items[k], p.row, p.column)
  {
    if k < n - 1 {
      PlacedAt(items, start, n - 1, k);
    }
  }

  /** From the origin, the k-th button of `init_buttons` sits at row k div 2, column k mod 2. */
  lemma {:induction false} PosFromOrigin(k: nat)
    ensures PosAfter(GridPos(0, 0), k) == GridPos(k / 2, k % 2)
  {
    if k > 0 {
      PosFromOrigin(k - 1);
    }
  }

  /** `init_buttons` never puts two buttons in one cell. */
  lemma GridCellsDistinct(j: nat, k: nat)
    requires j != k
    ensures PosAfter(GridPos(0, 0), j) != PosAfter(GridPos(0, 0), k)
  {
    PosFromOrigin(j);
    PosFromOrigin(k);
    assert j == 2 * (j / 2) + j % 2 && k == 2 * (k / 2) + k % 2;
  }

  /** Because `add_button_to_list` never advances the row, the third added button lands on the first one's cell. */
  lemma AddedButtonsShareCells(p: GridPos)
    requires p.column < ButtonsPerRow
    ensures AddStep(AddStep(p)) == p
  {
  }

  class RightView {
    const handJoint: string
    const handType: string
    /** The `ACTION_NAME` of each configured action, or None when there are none. */
    const allAction: Option<seq<string>>
    var row: nat
    var column: nat
    /** Every button added to the grid layout, in order. */
    var layout: seq<Button>
    /** `self.buttons`: only the buttons added through the input field. */
    var buttons: seq<Button>
    /** The text of the input field. */
    var inputText: string
    /** The `add_button_handle` signals emitted. */
    var added: seq<string>

    ghost predicate Valid()
      reads this
    {
      column < ButtonsPerRow
    }

    /** `__init__`: `init_ui` starts the grid at (0, 0), then `init_buttons` places the configured actions. */
    constructor (handJoint: string, handType: string, allAction: Option<seq<string>>)
      ensures Valid()
      ensures this.allAction == allAction && buttons == [] && inputText == "" && added == []
      ensures allAction.None? ==> layout == [] && row == 0 && column == 0
      ensures allAction.Some? ==> (|layout| == |allAction.value|
        && GridPos(row, column) == PosAfter(GridPos(0, 0), |allAction.value|)
        && forall k :: 0 <= k < |layout| ==> layout[k] == Button(allAction.value[k], k / 2, k % 2))
    {
      this.handJoint := handJoint;
      this.handType := handType;
      this.allAction := allAction;
      buttons := [];
      inputText := "";
      added := [];
      layout := [];
      row := 0;
      column := 0;
      new;
      InitButtons();
      if allAction.Some? {
        forall k | 0 <= k < |layout| ensures layout[k] == Button(allAction.value[k], k / 2, k % 2) {
          PlacedAt(allAction.value, GridPos(0, 0), |allAction.value|, k);
          PosFromOrigin(k);
        }
      }
    }

    /** `init_buttons`: one button per action, each at the current cell, which then moves on. */
    method InitButtons()
      requires Valid()
      modifies this`row, this`column, this`layout
      ensures Valid()
      ensures allAction.None? ==> (row == old(row) && column == old(column) && layout == old(layout))
      ensures allAction.Some? ==> (
        layout == old(layout) + Placed(allAction.value, GridPos(old(row), old(column)), |allAction.value|)
        && GridPos(row, column) == PosAfter(GridPos(old(row), old(column)), |allAction.value|))
    {
      if allAction.None? {
        return;
      }
      var items := allAction.value;
      ghost var start := GridPos(row, column);
      var i := 0;
      while i < |items|
        invariant 0 <= i <= |items| && Valid()
        invariant layout == old(layout) + Placed(items, start, i)
        invariant GridPos(row, column) == PosAfter(start, i)
      {
        layout := layout + [Button(items[i], row, column)];
        column := column + 1;
        if column >= ButtonsPerRow {
          column := 0;
          row := row + 1;
        }
        assert GridPos(row, column) == GridStep(PosAfter(start, i));
        i := i + 1;
      }
    }

    /** The user types into the input field. */
    method SetInputText(text: string)
      modifies this`inputText
      ensures inputText == text
    {
      inputText := text;
    }

    /**
     * `add_button_to_list`: blank input changes nothing; otherwise one button with
     * the stripped text joins the grid and `buttons`, the column moves on (the row
     * does not), and the input is cleared.
     */
    method AddButtonToList()
      requires Valid()
      modifies this`row, this`column, this`layout, this`buttons, this`inputText, this`added
      ensures Valid()
      ensures Strip(old(inputText)) == [] ==> (row == old(row) && column == old(column) && layout == old(layout)
        && buttons == old(buttons) && inputText == old(inputText) && added == old(added))
      ensures Strip(old(inputText)) != [] ==> (
        var text := Strip(old(inputText));
        buttons == old(buttons) + [Button(text, old(row), old(column))]
        && layout == old(layout) + [Button(text, old(row), old(column))]
        && GridPos(row, column) == AddStep(GridPos(old(row), old(column)))
        && inputText == "" && added == old(added) + [text])
    {
      var text := Strip(inputText);
      if text != [] {
        var button := Button(text, row, column);
        layout := layout + [button];
        column := column + 1;
        if column >= ButtonsPerRow {
          column := 0;
        }
        inputText := "";
        buttons := buttons + [button];
        added := added + [text];
      }
    }
  }
}
