/**
 * `MatrixDisplayWidget` (gui_control.py): one `DotMatrixWidget` per finger and
 * the normalisation of touch data before it reaches a widget.
 */
module MatrixDisplay {
  import opened Wrappers
  import opened DotMatrix

  /** The `data` argument of `update_matrix_data`: None, or a list that may hold rows. */
  datatype TouchData = Absent | Present(items: seq<Cell>)

  /** The keys of `finger_matrices`, in the order the widgets are created. */
  const FingerNames: seq<string> :=
    ["thumb_matrix", "index_matrix", "middle_matrix", "ring_matrix", "little_matrix"]

  /** `[0] * n`. */
  function Zeros(n: nat): (z: seq<Cell>)
    ensures |z| == n && forall k :: 0 <= k < n ==> z[k] == Scalar(0)
  {
    if n == 0 then [] else Zeros(n - 1) + [Scalar(0)]
  }

  /** `[0] * 72`: a 12x6 matrix with no reading. */
  const DefaultMatrix: seq<Cell> := Zeros(72)

  /** What the 2-D path adds for one item: a row is spread out, anything else appended. */
  function Expand(c: Cell): (cells: seq<Cell>)
    ensures c.Scalar? ==> cells == [c]
    ensures c.Row? ==> |cells| == |c.items| && forall k :: 0 <= k < |cells| ==> cells[k] == Scalar(c.items[k])
  {
    match c
    case Scalar(_) => [c]
    case Row(r) => seq(|r|, i requires 0 <= i < |r| => Scalar(r[i]))
  }

  /** The 2-D path: the concatenation of the expanded items, left to right. */
  function Flattened(items: seq<Cell>): seq<Cell>
  {
    if items == [] then [] else Flattened(items[..|items| - 1]) + Expand(items[|items| - 1])
  }

  /** On a list of numbers the 2-D path changes nothing. */
  lemma {:induction false} FlattenedOfScalars(items: seq<Cell>)
    requires forall i :: 0 <= i < |items| ==> items[i].Scalar?
    ensures Flattened(items) == items
  {
    if items != [] {
      var front := items[..|items| - 1];
      FlattenedOfScalars(front);
      assert front + [items[|items| - 1]] == items;
    }
  }

  /** The data `update_matrix_data` hands to a finger's widget. */
  function Normalized(data: TouchData): (cells: seq<Cell>)
    ensures data.Absent? ==> cells == DefaultMatrix
    ensures data.Present? && (data.items == [] || data.items[0].Scalar?) ==> cells == data.items
    ensures data.Present? && data.items != [] && data.items[0].Row? ==>
      cells == Flattened(data.items) && forall k :: 0 <= k < |cells| ==> cells[k].Scalar?
  {
    match data
    case Absent => DefaultMatrix
    case Present(items) =>
      if |items| > 0 && items[0].Row? then
        FlattenedScalars(items);
        Flattened(items)
      else items
  }

  /** A 2-D list: every item is a row. */
  function Grid(rows: seq<seq<int>>): (g: seq<Cell>)
    ensures |g| == |rows| && forall i :: 0 <= i < |rows| ==> g[i] == Row(rows[i])
  {
    seq(|rows|, i requires 0 <= i < |rows| => Row(rows[i]))
  }

  /** The 2-D path leaves only numbers. */
  lemma {:induction false} FlattenedScalars(items: seq<Cell>)
    ensures forall k :: 0 <= k < |Flattened(items)| ==> Flattened(items)[k].Scalar?
  {
    if items != [] {
      FlattenedScalars(items[..|items| - 1]);
    }
  }

  /** Flattening rows of width `w` gives |rows| * w cells. */
  lemma {:induction false} FlattenedGridLength(rows: seq<seq<int>>, w: nat)
    requires forall i :: 0 <= i < |rows| ==> |rows[i]| == w
    ensures |Flattened(Grid(rows))| == |rows| * w
  {
    if rows != [] {
      var n := |rows|;
      assert Grid(rows)[..n - 1] == Grid(rows[..n - 1]);
      FlattenedGridLength(rows[..n - 1], w);
      assert (n - 1) * w + w == n * w;
    }
  }

  /** Multiplying by a natural number is monotone. */
  lemma MulMonotone(a: nat, b: nat, w: nat)
    requires a <= b
    ensures a * w <= b * w
  {
  }

  /** Flattening a grid appends the last row's numbers to the flattening of the others. */
  lemma FlattenedGridSnoc(rows: seq<seq<int>>)
    requires rows != []
    ensures Flattened(Grid(rows)) == Flattened(Grid(rows[..|rows| - 1])) + Expand(Row(rows[|rows| - 1]))
  {
    assert Grid(rows)[..|rows| - 1] == Grid(rows[..|rows| - 1]);
  }

  /** Flattening is row-major: cell (r, c) of a width-`w` grid lands at index r * w + c. */
  lemma {:induction false} FlattenedGridAt(rows: seq<seq<int>>, w: nat, r: nat, c: nat)
    requires forall i :: 0 <= i < |rows| ==> |rows[i]| == w
    requires r < |rows| && c < w
    ensures r * w + c < |Flattened(Grid(rows))|
    ensures Flattened(Grid(rows))[r * w + c] == Scalar(rows[r][c])
  {
    var n := |rows|;
    var init := rows[..n - 1];
    FlattenedGridSnoc(rows);
    FlattenedGridLength(init, w);
    FlattenedGridLength(rows, w);
    var prefix := Flattened(Grid(init));
    assert |prefix| == (n - 1) * w;
    if r < n - 1 {
      FlattenedGridAt(init, w, r, c);
      MulMonotone(r + 1, n - 1, w);
      assert r * w + c < |prefix|;
    } else {
      assert r * w == |prefix|;
    }
  }

  /** A 12x6 matrix of readings is painted cell by cell: dot (r, c) shows reading rows[r][c]. */
  lemma GridDotColour(rows: seq<seq<int>>, r: nat, c: nat)
    requires |rows| == 12 && forall i :: 0 <= i < 12 ==> |rows[i]| == 6
    requires r < 12 && c < 6
    ensures DotColour(Some(Normalized(Present(Grid(rows)))), r * 6 + c)
         == DotColour(Some([Scalar(rows[r][c])]), 0)
  {
    FlattenedGridAt(rows, 6, r, c);
  }

  /** With no data every one of the 72 dots is gray. */
  lemma AbsentIsAllGray(k: nat)
    requires k < 72
    ensures |Normalized(Absent)| == 72 && DotColour(Some(Normalized(Absent)), k) == Gray
  {
  }

  /** 1-D data (empty, or a number first) reaches the widget unchanged. */
  lemma FlatDataPassesThrough(items: seq<Cell>)
    requires items == [] || items[0].Scalar?
    ensures Normalized(Present(items)) == items
  {
  }

  /** The `flattened.extend` / `flattened.append` loop of the 2-D path. */
  method Flatten(items: seq<Cell>) returns (flattened: seq<Cell>)
    ensures flattened == Flattened(items)
  {
    flattened := [];
    var i := 0;
    while i < |items|
      invariant 0 <= i <= |items|
      invariant flattened == Flattened(items[..i])
    {
      var item := items[i];
      match item {
        case Row(r) =>
          var j := 0;
          while j < |r|
            invariant 0 <= j <= |r|
            invariant flattened == Flattened(items[..i]) + seq(j, k requires 0 <= k < j => Scalar(r[k]))
          {
            flattened := flattened + [Scalar(r[j])];
            j := j + 1;
          }
        case Scalar(_) =>
          flattened := flattened + [item];
      }
      assert items[..i + 1][..i] == items[..i];
      i := i + 1;
    }
    assert items[..i] == items;
  }

  class MatrixDisplayWidget {
    /** `finger_matrices`: one widget per finger, filled once by `init_ui`. */
    const fingerMatrices: map<string, DotMatrixWidget>

    ghost predicate Valid()
      reads this
    {
      forall a, b :: a in fingerMatrices && b in fingerMatrices && a != b ==> fingerMatrices[a] != fingerMatrices[b]
    }

    /** `init_ui`: five 12x6 widgets holding no data. */
    constructor ()
      ensures Valid()
      ensures forall f :: f in fingerMatrices <==> f in FingerNames
      ensures forall f :: f in fingerMatrices ==> fresh(fingerMatrices[f])
      ensures forall f :: f in fingerMatrices ==>
        fingerMatrices[f].data == None && fingerMatrices[f].rows == 12 && fingerMatrices[f].cols == 6
    {
      var thumb := new DotMatrixWidget(12, 6);
      var index := new DotMatrixWidget(12, 6);
      var middle := new DotMatrixWidget(12, 6);
      var ring := new DotMatrixWidget(12, 6);
      var little := new DotMatrixWidget(12, 6);
      fingerMatrices := map[
        "thumb_matrix" := thumb, "index_matrix" := index, "middle_matrix" := middle,
        "ring_matrix" := ring, "little_matrix" := little];
    }

    /** `update_matrix_data`: an unknown finger changes nothing; a known one gets the normalised data. */
    method UpdateMatrixData(fingerName: string, data: TouchData)
      requires Valid()
      modifies fingerMatrices.Values
      ensures forall f :: f in fingerMatrices ==>
        fingerMatrices[f].data == if f == fingerName then Some(Normalized(data)) else old(fingerMatrices[f].data)
    {
      if fingerName in fingerMatrices {
        var widget := fingerMatrices[fingerName];
        if data.Present? {
          var items := data.items;
          var flattened;
          if |items| > 0 && items[0].Row? {
            flattened := Flatten(items);
          } else {
            flattened := items;
          }
          widget.SetData(Some(flattened));
        } else {
          widget.SetData(Some(DefaultMatrix));
        }
      }
    }

    /** `initialize_default_matrices`: every finger shows the all-zero matrix. */
    method InitializeDefaultMatrices()
      requires Valid()
      modifies fingerMatrices.Values
      ensures forall f :: f in fingerMatrices ==> fingerMatrices[f].data == Some(DefaultMatrix)
    {
      var remaining := fingerMatrices.Keys;
      while remaining != {}
        invariant remaining <= fingerMatrices.Keys
        invariant forall f :: f in fingerMatrices && f !in remaining ==> fingerMatrices[f].data == Some(DefaultMatrix)
        decreases remaining
      {
        var f :| f in remaining;
        fingerMatrices[f].SetData(Some(DefaultMatrix));
        remaining := remaining - {f};
      }
    }

    /**
     * `HandControlGUI.update_matrix_display`: every finger named in the signal's
     * dictionary is updated; the others keep their data.
     */
    method UpdateMatrixDisplay(matrixData: map<string, TouchData>)
      requires Valid()
      modifies fingerMatrices.Values
      ensures forall f :: f in fingerMatrices ==>
        fingerMatrices[f].data == if f in matrixData then Some(Normalized(matrixData[f])) else old(fingerMatrices[f].data)
    {
      var remaining := matrixData.Keys;
      while remaining != {}
        invariant remaining <= matrixData.Keys
        invariant forall f :: f in fingerMatrices ==>
          fingerMatrices[f].data == if f in matrixData && f !in remaining then Some(Normalized(matrixData[f])) else old(fingerMatrices[f].data)
        decreases remaining
      {
        var f :| f in remaining;
        UpdateMatrixData(f, matrixData[f]);
        remaining := remaining - {f};
      }
    }
  }
}
