/**
 * `DotMatrixWidget` (gui_control.py): a 12x6 grid of dots that shows one
 * finger's touch readings as a white-to-dark-red heat map.
 */
module DotMatrix {
  import opened Wrappers

  datatype Rgb = Rgb(red: int, green: int, blue: int)

  /** `QColor('#c8c8c8')`, the colour of a dot with no positive reading. */
  const Gray := Rgb(200, 200, 200)

  /**
   * One element of the data a widget holds. The 2-D path of
   * `MatrixDisplayWidget.update_matrix_data` leaves only numbers; the 1-D path
   * passes its input through, so a nested list can survive at a later index.
   */
  datatype Cell = Scalar(value: int) | Row(items: seq<int>)

  /** `min(255, max(0, v))`. */
  function Clamp(v: int): (i: int)
    ensures 0 <= i <= 255
    ensures 0 <= v <= 255 ==> i == v
    ensures v > 255 ==> i == 255
    ensures v < 0 ==> i == 0
  {
    if v > 255 then 255 else if v < 0 then 0 else v
  }

  /** Green (and blue) level of a dot of intensity `i`. */
  function HeatGreen(i: int): (g: int)
    requires 0 <= i <= 255
    ensures i < 128 ==> 201 <= g <= 255
    ensures i >= 128 ==> 0 <= g <= 200
  {
    if i < 128 then 255 - i * 55 / 128 else 200 - (i - 128) * 200 / 127
  }

  /** The colour of a dot with a positive reading of intensity `i`. */
  function HeatColour(i: int): (c: Rgb)
    requires 0 <= i <= 255
    ensures c.red == 255 && c.green == c.blue
    ensures i < 128 ==> 201 <= c.green <= 255
    ensures i >= 128 ==> 0 <= c.green <= 200
  {
    Rgb(255, HeatGreen(i), HeatGreen(i))
  }

  /** The colour of dot `index` (row-major) for the data a widget holds. */
  function DotColour(data: Option<seq<Cell>>, index: nat): (c: Rgb)
    ensures data.None? || index >= |data.value| ==> c == Gray
    ensures c == Gray || (c.red == 255 && c.green == c.blue && c.green <= 255)
  {
    if data.None? || index >= |data.value| then Gray
    else match data.value[index]
      case Scalar(v) => if v > 0 then HeatColour(Clamp(v)) else Gray
      // comparing a list with 0 raises TypeError, which the painter turns into gray
      case Row(_) => Gray
  }

  /** The heat map only darkens as the intensity grows. */
  lemma HeatGreenMonotone(i: int, j: int)
    requires 0 <= i <= j <= 255
    ensures HeatGreen(j) <= HeatGreen(i)
  {
  }

  /** A dot is gray exactly when there is no data, no element at its index, or no positive number there. */
  lemma DotColourGray(data: Option<seq<Cell>>, index: nat)
    ensures DotColour(data, index) == Gray <==>
      !(data.Some? && index < |data.value| && data.value[index].Scalar? && data.value[index].value > 0)
  {
  }

  /** For a positive reading the dot is red with equal green and blue, in the band of its clamped intensity. */
  lemma DotColourPositive(data: seq<Cell>, index: nat)
    requires index < |data| && data[index].Scalar? && data[index].value > 0
    ensures DotColour(Some(data), index) == HeatColour(Clamp(data[index].value))
    ensures DotColour(Some(data), index).red == 255
  {
  }

  /** A larger positive reading never gives a lighter dot. */
  lemma DotColourMonotone(v: int, w: int)
    requires 0 < v <= w
    ensures DotColour(Some([Scalar(w)]), 0).green <= DotColour(Some([Scalar(v)]), 0).green
  {
    HeatGreenMonotone(Clamp(v), Clamp(w));
  }

  class DotMatrixWidget {
    const rows: nat
    const cols: nat
    /** `self.data`: None until data arrives. */
    var data: Option<seq<Cell>>

    constructor (rows: nat, cols: nat)
      ensures this.rows == rows && this.cols == cols && data == None
    {
      this.rows := rows;
      this.cols := cols;
      data := None;
    }

    /** `set_data`: keeps the data it is given, or None. */
    method SetData(d: Option<seq<Cell>>)
      modifies this
      ensures data == d
    {
      data := d;
    }

    /** `paintEvent`: the colour of every dot, row by row. */
    method PaintEvent() returns (colours: seq<Rgb>)
      ensures |colours| == rows * cols
      ensures forall k :: 0 <= k < rows * cols ==> colours[k] == DotColour(data, k)
    {
      colours := [];
      var row := 0;
      while row < rows
        invariant 0 <= row <= rows
        invariant |colours| == row * cols
        invariant forall k :: 0 <= k < |colours| ==> colours[k] == DotColour(data, k)
      {
        var col := 0;
        while col < cols
          invariant 0 <= col <= cols
          invariant |colours| == row * cols + col
          invariant forall k :: 0 <= k < |colours| ==> colours[k] == DotColour(data, k)
        {
          var colour := Gray;
          if data.Some? {
            var index := row * cols + col;
            if index < |data.value| {
              var value := data.value[index];
              if value.Scalar? && value.value > 0 {
                var intensity := if value.value > 255 then 255 else value.value;
                if intensity < 128 {
                  colour := Rgb(255, 255 - intensity * 55 / 128, 255 - intensity * 55 / 128);
                } else {
                  colour := Rgb(255, 200 - (intensity - 128) * 200 / 127, 200 - (intensity - 128) * 200 / 127);
                }
              }
            }
          }
          colours := colours + [colour];
          col := col + 1;
        }
        assert row * cols + cols == (row + 1) * cols;
        row := row + 1;
      }
    }
  }
}
