/**
 * The prototype dot grid: how many rows it has, which columns and rows get
 * an axis label and where, and how each cell is drawn.
 */
module DotsGrid {
  import opened Wrappers
  import opened LifeDotsData

  const AXIS_OFFSET: real := 18.0
  const COLUMN_STEP: nat := 13
  const ROW_STEP: nat := 5

  /** `Math.ceil(total / perRow)`: just enough rows of `perRow` for `total` cells. */
  function Rows(total: nat, perRow: nat): (r: nat)
    requires perRow > 0
    ensures total <= r * perRow
    ensures r > 0 ==> (r - 1) * perRow < total
  {
    (total + perRow - 1) / perRow
  }

  /** Column `i` is labelled when it is the first, a multiple-of-13th, or the last. */
  predicate ColumnLabelled(i: nat, perRow: nat) {
    i == 0 || (i + 1) % COLUMN_STEP == 0 || i == perRow - 1
  }

  /** Row `i` is labelled when it is the first, a multiple-of-5th, or the last. */
  predicate RowLabelled(i: nat, rows: nat) {
    i == 0 || (i + 1) % ROW_STEP == 0 || i == rows - 1
  }

  /** Where a label sits along its axis: the centre of the dot it names. */
  function LabelOffset(i: nat, dotSize: real, gap: real): real {
    AXIS_OFFSET + i as real * (dotSize + gap) + dotSize / 2.0
  }

  /** An axis label: the 1-based number it shows and its offset. */
  datatype AxisLabel = AxisLabel(number: nat, offset: real)

  function Labels(count: nat, labelled: nat -> bool, dotSize: real, gap: real): (r: seq<Option<AxisLabel>>)
    ensures |r| == count
    ensures forall i :: 0 <= i < count ==> (r[i].Some? <==> labelled(i))
    ensures forall i :: 0 <= i < count && r[i].Some? ==> r[i].value == AxisLabel(i + 1, LabelOffset(i, dotSize, gap))
  {
    seq(count, i requires 0 <= i < count => if labelled(i) then Some(AxisLabel(i + 1, LabelOffset(i, dotSize, gap))) else None)
  }

  function ColumnLabels(perRow: nat, dotSize: real, gap: real): (r: seq<Option<AxisLabel>>)
    ensures |r| == perRow
    ensures forall i :: 0 <= i < perRow ==> (r[i].Some? <==> ColumnLabelled(i, perRow))
    ensures forall i :: 0 <= i < perRow && r[i].Some? ==> r[i].value == AxisLabel(i + 1, LabelOffset(i, dotSize, gap))
  {
    Labels(perRow, (i: nat) => ColumnLabelled(i, perRow), dotSize, gap)
  }

  function RowLabels(total: nat, perRow: nat, dotSize: real, gap: real): (r: seq<Option<AxisLabel>>)
    requires perRow > 0
    ensures |r| == Rows(total, perRow)
    ensures forall i :: 0 <= i < |r| ==> (r[i].Some? <==> RowLabelled(i, Rows(total, perRow)))
    ensures forall i :: 0 <= i < |r| && r[i].Some? ==> r[i].value == AxisLabel(i + 1, LabelOffset(i, dotSize, gap))
  {
    var rows := Rows(total, perRow);
    Labels(rows, (i: nat) => RowLabelled(i, rows), dotSize, gap)
  }

  /** No run of more than twelve columns goes without a label, and the first and last columns have one. */
  lemma ColumnLabelsAreDense(perRow: nat, i: nat)
    requires i < perRow
    ensures ColumnLabelled(0, perRow) && ColumnLabelled(perRow - 1, perRow)
    ensures exists j :: i <= j < i + COLUMN_STEP && j < perRow && ColumnLabelled(j, perRow)
  {
    var j := i + (COLUMN_STEP - 1 - i % COLUMN_STEP);
    if j < perRow {
      assert (j + 1) % COLUMN_STEP == 0;
      assert ColumnLabelled(j, perRow);
    } else {
      assert ColumnLabelled(perRow - 1, perRow);
    }
  }

  /** Labels further along sit further along when dots take up room. */
  lemma LabelOffsetsIncrease(i: nat, j: nat, dotSize: real, gap: real)
    requires i < j && dotSize + gap > 0.0
    ensures LabelOffset(i, dotSize, gap) < LabelOffset(j, dotSize, gap)
  {
    var step := dotSize + gap;
    assert j as real * step - i as real * step == (j - i) as real * step;
  }

  /** How a cell is drawn: its shape and its colour class. */
  datatype Cell = Cell(round: bool, colour: string)

  const FILLED_CLASSIC: string := "bg-neutral-900 dark:bg-white"
  const EMPTY_CELL: string := "bg-neutral-200 dark:bg-neutral-800"

  /** The colour class of cell `index`; an empty rainbow list yields JavaScript's `undefined`. */
  function CellColour(index: nat, filled: int, dotStyle: DotStyle, rainbowColors: seq<string>): (r: string)
    ensures index >= filled ==> r == EMPTY_CELL
    ensures index < filled && dotStyle == ClassicDots ==> r == FILLED_CLASSIC
    ensures index < filled && dotStyle == RainbowBox && |rainbowColors| > 0 ==>
      r == rainbowColors[index % |rainbowColors|]
  {
    if index < filled then
      if dotStyle == ClassicDots then FILLED_CLASSIC
      else if |rainbowColors| > 0 then rainbowColors[index % |rainbowColors|]
      else "undefined"
    else EMPTY_CELL
  }

  /** The grid's cells: exactly `total` of them, the first `filled` filled. */
  function Cells(total: nat, filled: int, dotStyle: DotStyle, rainbowColors: seq<string>): (r: seq<Cell>)
    ensures |r| == total
    ensures forall i :: 0 <= i < total ==> r[i].round == (dotStyle == ClassicDots)
    ensures forall i :: 0 <= i < total ==> (r[i].colour == EMPTY_CELL <==> i >= filled) || dotStyle == RainbowBox
    ensures forall i :: 0 <= i < total ==> r[i].colour == CellColour(i, filled, dotStyle, rainbowColors)
  {
    seq(total, i requires 0 <= i < total => Cell(dotStyle == ClassicDots, CellColour(i, filled, dotStyle, rainbowColors)))
  }

  /** The rainbow repeats: cells a whole cycle apart share their colour. */
  lemma RainbowCycles(i: nat, filled: int, rainbowColors: seq<string>)
    requires |rainbowColors| > 0 && i + |rainbowColors| < filled
    ensures CellColour(i, filled, RainbowBox, rainbowColors) == CellColour(i + |rainbowColors|, filled, RainbowBox, rainbowColors)
  {
    var n := |rainbowColors|;
    ModShift(i, n);
  }

  lemma {:induction false} MulAtLeast(d: int, n: int)
    requires d >= 1 && n > 0
    ensures d * n >= n
  {
    if d > 1 {
      MulAtLeast(d - 1, n);
      assert d * n == (d - 1) * n + n;
    }
  }

  lemma ModUnique(a: int, n: int, q: int, r: int)
    requires n > 0 && 0 <= r < n && a == q * n + r
    ensures a % n == r
  {
    var q2, r2 := a / n, a % n;
    assert (q - q2) * n == r2 - r by {
      assert q * n - q2 * n == (q - q2) * n;
    }
    if q - q2 >= 1 {
      MulAtLeast(q - q2, n);
    }
    if q2 - q >= 1 {
      MulAtLeast(q2 - q, n);
    }
  }

  lemma ModShift(i: nat, n: nat)
    requires n > 0
    ensures (i + n) % n == i % n
  {
    var q, r := i / n, i % n;
    assert i + n == (q + 1) * n + r by {
      assert (q + 1) * n == q * n + n;
    }
    ModUnique(i + n, n, q + 1, r);
  }
}
