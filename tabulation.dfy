/** Aligned text tables (tabulation.py). A table is framed by separator
    lines `+----+---+`; each row line is `|`, then for each column the value
    right-aligned to the column's width, one space and `|`. A column is as
    wide as its longest value. The functions here return the lines the
    original prints. */
module Tabulation {
  import opened Errors

  function Max(a: nat, b: nat): nat
  {
    if a < b then b else a
  }

  /** `n * ' '`: no spaces at all when `n` is not positive. */
  function Pad(n: int): (r: string)
    ensures |r| == if n <= 0 then 0 else n
  {
    if n <= 0 then "" else seq(n, _ => ' ')
  }

  /** One cell: the value right-aligned in a column `width` wide, then ` |`. */
  function Cell(v: string, width: nat): (r: string)
    ensures |v| <= width ==> |r| == width + 3
  {
    Pad(width - |v| + 1) + v + " |"
  }

  /** A cell ends with its value and ` |`, and is blank before the value. */
  lemma {:induction false} CellRightAligned(v: string, width: nat)
    ensures var r := Cell(v, width);
      && |r| >= |v| + 2 && r[|r| - |v| - 2..] == v + " |"
      && (forall k :: 0 <= k < |r| - |v| - 2 ==> r[k] == ' ')
      && (|v| <= width ==> |r| - |v| - 2 == width - |v| + 1)
  {
    var pad := Pad(width - |v| + 1);
    assert forall k :: 0 <= k < |pad| ==> pad[k] == ' ';
    assert Cell(v, width) == pad + (v + " |");
  }

  /** The cells of a row, column by column. */
  function Cells(cells: seq<string>, widths: seq<nat>): string
    requires |cells| == |widths|
  {
    if cells == [] then ""
    else Cells(cells[..|cells| - 1], widths[..|widths| - 1]) + Cell(cells[|cells| - 1], widths[|widths| - 1])
  }

  /** The separator after its leading `+`: width + 2 dashes and `+` per
      column. */
  function Rule(widths: seq<nat>): string
  {
    if widths == [] then ""
    else Rule(widths[..|widths| - 1]) + seq(widths[|widths| - 1] + 2, _ => '-') + "+"
  }

  function Separator(widths: seq<nat>): string
  {
    "+" + Rule(widths)
  }

  /** A row whose values fit their columns is exactly as long as the
      separator. */
  lemma {:induction false} CellsLength(cells: seq<string>, widths: seq<nat>)
    requires |cells| == |widths|
    requires forall i :: 0 <= i < |cells| ==> |cells[i]| <= widths[i]
    ensures |Cells(cells, widths)| == |Rule(widths)|
  {
    if cells != [] {
      CellsLength(cells[..|cells| - 1], widths[..|widths| - 1]);
    }
  }

  lemma {:induction false} CellsSnoc(cells: seq<string>, widths: seq<nat>, v: string, w: nat)
    requires |cells| == |widths|
    ensures Cells(cells + [v], widths + [w]) == Cells(cells, widths) + Cell(v, w)
  {
    assert (cells + [v])[..|cells|] == cells;
    assert (widths + [w])[..|widths|] == widths;
  }

  lemma {:induction false} RuleSnoc(widths: seq<nat>, w: nat)
    ensures Rule(widths + [w]) == Rule(widths) + seq(w + 2, _ => '-') + "+"
  {
    assert (widths + [w])[..|widths|] == widths;
  }

  // ---------------------------------------------------------------- lists

  /** The values of column `i`, from the rows that reach it. */
  function Column(rows: seq<seq<string>>, i: nat): seq<string>
  {
    if rows == [] then []
    else
      var last := rows[|rows| - 1];
      Column(rows[..|rows| - 1], i) + (if i < |last| then [last[i]] else [])
  }

  lemma {:induction false} ColumnMembers(rows: seq<seq<string>>, i: nat)
    ensures forall v :: v in Column(rows, i) <==>
      exists j :: 0 <= j < |rows| && i < |rows[j]| && rows[j][i] == v
  {
    if rows != [] {
      var front := rows[..|rows| - 1];
      ColumnMembers(front, i);
      forall v | v in Column(rows, i)
        ensures exists j :: 0 <= j < |rows| && i < |rows[j]| && rows[j][i] == v
      {
        if v in Column(front, i) {
          var j :| 0 <= j < |front| && i < |front[j]| && front[j][i] == v;
          assert rows[j] == front[j];
        } else {
          assert i < |rows[|rows| - 1]| && rows[|rows| - 1][i] == v;
        }
      }
      forall v | exists j :: 0 <= j < |rows| && i < |rows[j]| && rows[j][i] == v
        ensures v in Column(rows, i)
      {
        var j :| 0 <= j < |rows| && i < |rows[j]| && rows[j][i] == v;
        if j < |front| {
          assert front[j] == rows[j];
        }
      }
    }
  }

  lemma {:induction false} ColumnSnoc(rows: seq<seq<string>>, row: seq<string>, i: nat)
    ensures Column(rows + [row], i) == Column(rows, i) + (if i < |row| then [row[i]] else [])
  {
    assert (rows + [row])[..|rows|] == rows;
  }

  /** The length of the longest value (0 for none). */
  function MaxLen(cells: seq<string>): nat
  {
    if cells == [] then 0 else Max(MaxLen(cells[..|cells| - 1]), |cells[|cells| - 1]|)
  }

  /** No value is longer than `MaxLen`. */
  lemma {:induction false} MaxLenBound(cells: seq<string>)
    ensures forall v :: v in cells ==> |v| <= MaxLen(cells)
  {
    if cells != [] {
      var front := cells[..|cells| - 1];
      var last := cells[|cells| - 1];
      MaxLenBound(front);
      assert cells == front + [last];
      forall v | v in cells
        ensures |v| <= MaxLen(cells)
      {
        if v != last {
          assert v in front;
        }
      }
    }
  }

  /** Some value is exactly `MaxLen` long. */
  lemma {:induction false} MaxLenAttained(cells: seq<string>)
    requires cells != []
    ensures exists v :: v in cells && |v| == MaxLen(cells)
  {
    var front := cells[..|cells| - 1];
    var last := cells[|cells| - 1];
    assert cells == front + [last];
    assert MaxLen(cells) == Max(MaxLen(front), |last|);
    if front != [] && MaxLen(front) >= |last| {
      MaxLenAttained(front);
      var v :| v in front && |v| == MaxLen(front);
      assert v in cells;
    } else {
      assert front == [] ==> MaxLen(front) == 0;
      assert MaxLen(cells) == |last|;
      assert last in cells;
    }
  }

  /** No value is longer than `MaxLen`, and some value is that long. */
  lemma {:induction false} MaxLenIsMax(cells: seq<string>)
    ensures forall v :: v in cells ==> |v| <= MaxLen(cells)
    ensures cells != [] ==> exists v :: v in cells && |v| == MaxLen(cells)
  {
    MaxLenBound(cells);
    if cells != [] {
      MaxLenAttained(cells);
    }
  }

  lemma {:induction false} MaxLenSnoc(cells: seq<string>, v: string)
    ensures MaxLen(cells + [v]) == Max(MaxLen(cells), |v|)
  {
    assert (cells + [v])[..|cells|] == cells;
  }

  /** The widths of the first `n` columns. */
  function Widths(data: seq<seq<string>>, n: nat): (w: seq<nat>)
    ensures |w| == n
  {
    if n == 0 then [] else Widths(data, n - 1) + [MaxLen(Column(data, n - 1))]
  }

  lemma {:induction false} WidthOfColumn(data: seq<seq<string>>, n: nat, i: nat)
    requires i < n
    ensures Widths(data, n)[i] == MaxLen(Column(data, i))
  {
    if i < n - 1 {
      WidthOfColumn(data, n - 1, i);
    }
  }

  /** The column widths of `tabulate_list`: a row with more values than the
      first row is an IndexError; otherwise each column is as wide as its
      longest value. */
  function ListWidths(data: seq<seq<string>>): (r: Result<seq<nat>>)
    requires data != []
    ensures r.Failure? <==> exists j :: 0 <= j < |data| && |data[j]| > |data[0]|
    ensures r.Failure? ==> r.error == IndexError
    ensures r.Success? ==> |r.value| == |data[0]| && Fits(data, r.value)
  {
    if exists j :: 0 <= j < |data| && |data[j]| > |data[0]| then Failure(IndexError)
    else Success(Widths(data, |data[0]|))
  }

  /** Each width is the length of some value in its column, and no value of
      the column is longer. */
  lemma {:induction false} ListWidthsAreMaxima(data: seq<seq<string>>)
    requires data != [] && ListWidths(data).Success?
    ensures var w := ListWidths(data).value;
      && (forall j, i :: 0 <= j < |data| && 0 <= i < |data[j]| ==> |data[j][i]| <= w[i])
      && (forall i :: 0 <= i < |w| ==> exists j :: 0 <= j < |data| && i < |data[j]| && |data[j][i]| == w[i])
  {
    var w := ListWidths(data).value;
    forall j, i | 0 <= j < |data| && 0 <= i < |data[j]|
      ensures |data[j][i]| <= w[i]
    {
      WidthOfColumn(data, |data[0]|, i);
      ColumnMembers(data, i);
      MaxLenIsMax(Column(data, i));
      assert data[j][i] in Column(data, i);
    }
    forall i | 0 <= i < |w|
      ensures exists j :: 0 <= j < |data| && i < |data[j]| && |data[j][i]| == w[i]
    {
      WidthOfColumn(data, |data[0]|, i);
      ColumnMembers(data, i);
      MaxLenIsMax(Column(data, i));
      assert data[0][i] in Column(data, i);
      var v :| v in Column(data, i) && |v| == w[i];
    }
  }

  /** The inner loop of `tabulate_list`'s width pass: each width grows to
      the length of the row's value in that column; a value beyond the last
      width is an IndexError. */
  method Widen(widths: seq<nat>, row: seq<string>) returns (r: Result<seq<nat>>)
    ensures r.Failure? <==> |row| > |widths|
    ensures r.Failure? ==> r.error == IndexError
    ensures r.Success? ==> |r.value| == |widths|
    ensures r.Success? ==>
      forall c :: 0 <= c < |widths| ==> r.value[c] == if c < |row| then Max(widths[c], |row[c]|) else widths[c]
  {
    var w := widths;
    var j := 0;
    while j < |row|
      invariant j <= |row| && j <= |w| == |widths|
      invariant forall c :: 0 <= c < |w| ==> w[c] == if c < j then Max(widths[c], |row[c]|) else widths[c]
    {
      if j >= |w| {
        return Failure(IndexError);
      }
      w := w[j := Max(w[j], |row[j]|)];
      j := j + 1;
    }
    r := Success(w);
  }

  /** The widths after the first `k` rows of the width pass. */
  predicate WidthsSoFar(data: seq<seq<string>>, k: nat, widths: seq<nat>)
    requires 0 < |data| && k <= |data|
  {
    |widths| == |data[0]| &&
    forall c :: 0 <= c < |widths| ==> widths[c] == Max(|data[0][c]|, MaxLen(Column(data[..k], c)))
  }

  lemma {:induction false} WidenStep(data: seq<seq<string>>, k: nat, widths: seq<nat>, wider: seq<nat>)
    requires k < |data| && WidthsSoFar(data, k, widths) && |data[k]| <= |widths|
    requires |wider| == |widths|
    requires forall c :: 0 <= c < |widths| ==> wider[c] == if c < |data[k]| then Max(widths[c], |data[k][c]|) else widths[c]
    ensures WidthsSoFar(data, k + 1, wider)
  {
    forall c | 0 <= c < |widths|
      ensures wider[c] == Max(|data[0][c]|, MaxLen(Column(data[..k + 1], c)))
    {
      var before := Column(data[..k], c);
      var row := data[k];
      assert Column(data[..k + 1], c) == before + (if c < |row| then [row[c]] else []) by {
        assert data[..k + 1] == data[..k] + [row];
        ColumnSnoc(data[..k], row, c);
      }
      if c < |row| {
        MaxLenSnoc(before, row[c]);
      } else {
        assert before + [] == before;
      }
    }
  }

  lemma {:induction false} WidthsDone(data: seq<seq<string>>, widths: seq<nat>)
    requires data != [] && WidthsSoFar(data, |data|, widths)
    ensures widths == Widths(data, |data[0]|)
  {
    assert data[..|data|] == data;
    forall c | 0 <= c < |widths|
      ensures widths[c] == Widths(data, |data[0]|)[c]
    {
      ColumnMembers(data, c);
      MaxLenIsMax(Column(data, c));
      assert data[0][c] in Column(data, c);
      WidthOfColumn(data, |data[0]|, c);
    }
  }

  /** The first loops of `tabulate_list`: widths from the first row, then
      widened row by row. */
  method ComputeWidths(data: seq<seq<string>>) returns (r: Result<seq<nat>>)
    requires data != []
    ensures r == ListWidths(data)
  {
    var widths: seq<nat> := [];
    var i := 0;
    while i < |data[0]|
      invariant i <= |data[0]| && |widths| == i
      invariant forall c :: 0 <= c < i ==> widths[c] == |data[0][c]|
    {
      widths := widths + [|data[0][i]|];
      i := i + 1;
    }
    assert WidthsSoFar(data, 0, widths);
    var k := 0;
    while k < |data|
      invariant k <= |data| && WidthsSoFar(data, k, widths)
      invariant forall j :: 0 <= j < k ==> |data[j]| <= |data[0]|
    {
      var wider := Widen(widths, data[k]);
      if wider.Failure? {
        return Failure(IndexError);
      }
      WidenStep(data, k, widths, wider.value);
      widths := wider.value;
      k := k + 1;
    }
    WidthsDone(data, widths);
    r := Success(widths);
  }

  /** The separator loop, shared by both table kinds. */
  method SeparatorLine(widths: seq<nat>) returns (s: string)
    ensures s == Separator(widths)
  {
    s := "+";
    var i := 0;
    while i < |widths|
      invariant i <= |widths|
      invariant s == "+" + Rule(widths[..i])
    {
      RuleSnoc(widths[..i], widths[i]);
      assert widths[..i + 1] == widths[..i] + [widths[i]];
      s := s + seq(widths[i] + 2, _ => '-') + "+";
      i := i + 1;
    }
    assert widths[..i] == widths;
  }

  /** The row line of a row that fits the widths. */
  function RowText(row: seq<string>, widths: seq<nat>): string
    requires |row| <= |widths|
  {
    "|" + Cells(row, widths[..|row|])
  }

  /** `print_row`: a value beyond the last width is an IndexError. */
  function RowLine(row: seq<string>, widths: seq<nat>): (r: Result<string>)
    ensures r.Failure? <==> |row| > |widths|
    ensures r.Failure? ==> r.error == IndexError
  {
    if |row| > |widths| then Failure(IndexError) else Success(RowText(row, widths))
  }

  lemma {:induction false} RowTextSnoc(row: seq<string>, widths: seq<nat>, i: nat)
    requires i < |row| && i < |widths|
    ensures "|" + Cells(row[..i + 1], widths[..i + 1]) == "|" + Cells(row[..i], widths[..i]) + Cell(row[i], widths[i])
  {
    CellsSnoc(row[..i], widths[..i], row[i], widths[i]);
    assert row[..i + 1] == row[..i] + [row[i]];
    assert widths[..i + 1] == widths[..i] + [widths[i]];
  }

  method PrintRow(row: seq<string>, widths: seq<nat>) returns (r: Result<string>)
    ensures r == RowLine(row, widths)
  {
    var line := "|";
    var i := 0;
    while i < |row|
      invariant i <= |row| && i <= |widths|
      invariant line == "|" + Cells(row[..i], widths[..i])
    {
      if i >= |widths| {
        return Failure(IndexError);
      }
      RowTextSnoc(row, widths, i);
      line := line + Cell(row[i], widths[i]);
      i := i + 1;
    }
    assert row[..i] == row;
    r := Success(line);
  }

  lemma {:induction false} CellsOfThree(a: string, b: string, c: string, x: nat, y: nat, z: nat)
    ensures Cells([a, b, c], [x, y, z]) == Cell(a, x) + Cell(b, y) + Cell(c, z)
  {
    assert Cells([a], [x]) == Cell(a, x) by {
      CellsSnoc([], [], a, x);
      assert [] + [a] == [a] && [] + [x] == [x];
    }
    assert Cells([a, b], [x, y]) == Cells([a], [x]) + Cell(b, y) by {
      CellsSnoc([a], [x], b, y);
      assert [a] + [b] == [a, b] && [x] + [y] == [x, y];
    }
    assert Cells([a, b, c], [x, y, z]) == Cells([a, b], [x, y]) + Cell(c, z) by {
      CellsSnoc([a, b], [x, y], c, z);
      assert [a, b] + [c] == [a, b, c] && [x, y] + [z] == [x, y, z];
    }
  }

  /** A three-column row line is its three cells after `|`. */
  lemma {:induction false} RowLineOfThree(a: string, b: string, c: string, x: nat, y: nat, z: nat)
    ensures RowLine([a, b, c], [x, y, z]) == Success("|" + Cell(a, x) + Cell(b, y) + Cell(c, z))
  {
    var cells := Cell(a, x) + Cell(b, y) + Cell(c, z);
    CellsOfThree(a, b, c, x, y, z);
    assert [x, y, z][..3] == [x, y, z];
    assert "|" + cells == "|" + Cell(a, x) + Cell(b, y) + Cell(c, z);
  }

  lemma {:induction false} ExampleCells()
    ensures Cell("Ore", 8) == "      Ore |"
    ensures Cell("TL32", 4) == " TL32 |"
    ensures Cell("249", 7) == "     249 |"
  {
    assert Pad(6) == "      " && Pad(1) == " " && Pad(5) == "     ";
  }

  /** The row of the `print_row` example: each value right-aligned under
      widths 8, 4 and 7. */
  lemma {:induction false} PrintRowExample()
    ensures RowLine(["Ore", "TL32", "249"], [8, 4, 7]) == Success("|      Ore | TL32 |     249 |")
  {
    RowLineOfThree("Ore", "TL32", "249", 8, 4, 7);
    ExampleCells();
    ExampleRowText();
  }

  lemma {:induction false} ExampleRowText()
    ensures "|" + "      Ore |" + " TL32 |" + "     249 |" == "|      Ore | TL32 |     249 |"
  {
  }

  /** A three-column separator: `+`, then width + 2 dashes and `+` per column. */
  lemma {:induction false} SeparatorOfThree(x: nat, y: nat, z: nat)
    ensures Separator([x, y, z])
         == "+" + seq(x + 2, _ => '-') + "+" + seq(y + 2, _ => '-') + "+" + seq(z + 2, _ => '-') + "+"
  {
    RuleSnoc([], x);
    assert [] + [x] == [x];
    RuleSnoc([x], y);
    assert [x] + [y] == [x, y];
    RuleSnoc([x, y], z);
    assert [x, y] + [z] == [x, y, z];
  }

  /** The separator of the `tabulate_list` example, widths 8, 4 and 7. */
  lemma {:induction false} SeparatorExample()
    ensures Separator([8, 4, 7]) == "+----------+------+---------+"
  {
    SeparatorOfThree(8, 4, 7);
    assert seq(10, _ => '-') == "----------";
    assert seq(6, _ => '-') == "------";
    assert seq(9, _ => '-') == "---------";
    assert "+" + "----------" + "+" + "------" + "+" + "---------" + "+" == "+----------+------+---------+";
  }

  /** No row has more values than there are widths. */
  predicate Fits(rows: seq<seq<string>>, widths: seq<nat>) {
    forall j :: 0 <= j < |rows| ==> |rows[j]| <= |widths|
  }

  /** The row lines of rows that all fit the widths, in order. */
  function Rows(rows: seq<seq<string>>, widths: seq<nat>): (r: seq<string>)
    requires Fits(rows, widths)
    ensures |r| == |rows|
  {
    if rows == [] then []
    else
      var front := rows[..|rows| - 1];
      Rows(front, widths) + [RowText(rows[|rows| - 1], widths)]
  }

  /** Line `j` of the rows is the line of row `j`. */
  lemma {:induction false} RowsAt(rows: seq<seq<string>>, widths: seq<nat>, j: nat)
    requires Fits(rows, widths)
    requires j < |rows|
    ensures Rows(rows, widths)[j] == RowText(rows[j], widths)
  {
    var front := rows[..|rows| - 1];
    if j < |front| {
      RowsAt(front, widths, j);
    }
  }

  lemma {:induction false} FitsTail(rows: seq<seq<string>>, widths: seq<nat>)
    requires rows != [] && Fits(rows, widths)
    ensures Fits(rows[1..], widths)
  {
    assert forall j :: 0 <= j < |rows| - 1 ==> rows[1..][j] == rows[j + 1];
  }

  /** The lines of a list table under the given widths: a separator, the
      first row and a separator when `header` is set, then the rows and a
      closing separator. */
  function ListLines(data: seq<seq<string>>, header: bool, widths: seq<nat>): seq<string>
    requires data != [] && Fits(data, widths)
  {
    var sep := Separator(widths);
    if header then
      FitsTail(data, widths);
      [sep, RowText(data[0], widths), sep] + Rows(data[1..], widths) + [sep]
    else [sep] + Rows(data, widths) + [sep]
  }

  /** `tabulate_list`: no lines for no data; otherwise the lines under the
      column widths. */
  function ListTable(data: seq<seq<string>>, header: bool): (r: Result<seq<string>>)
    ensures data == [] ==> r == Success([])
    ensures r.Failure? ==> r.error == IndexError
  {
    if data == [] then Success([])
    else
      var widths := ListWidths(data);
      if widths.Failure? then Failure(widths.error)
      else Success(ListLines(data, header, widths.value))
  }

  /** The row loop of `tabulate_list`. */
  method PrintRows(rows: seq<seq<string>>, widths: seq<nat>) returns (lines: seq<string>)
    requires Fits(rows, widths)
    ensures lines == Rows(rows, widths)
  {
    lines := [];
    var k := 0;
    while k < |rows|
      invariant k <= |rows|
      invariant lines == Rows(rows[..k], widths)
    {
      var line := PrintRow(rows[k], widths);
      assert rows[..k + 1][..k] == rows[..k];
      lines := lines + [line.value];
      k := k + 1;
    }
    assert rows[..k] == rows;
  }

  method TabulateList(data: seq<seq<string>>, header: bool) returns (r: Result<seq<string>>)
    ensures r == ListTable(data, header)
  {
    if |data| == 0 {
      return Success([]);
    }
    var widths := ComputeWidths(data);
    if widths.Failure? {
      return Failure(widths.error);
    }
    var w := widths.value;
    var separator := SeparatorLine(w);
    if header {
      var first := PrintRow(data[0], w);
      FitsTail(data, w);
      var body := PrintRows(data[1..], w);
      r := Success([separator, first.value, separator] + body + [separator]);
    } else {
      var body := PrintRows(data, w);
      r := Success([separator] + body + [separator]);
    }
  }

  /** The frame of a list table: separators first and last, and around the
      heading row when `header` is set; one line per row in between. */
  lemma {:induction false} ListLinesShape(data: seq<seq<string>>, header: bool, widths: seq<nat>)
    requires data != [] && Fits(data, widths)
    ensures var lines := ListLines(data, header, widths);
      var sep := Separator(widths);
      && |lines| == |data| + (if header then 3 else 2)
      && lines[0] == sep && lines[|lines| - 1] == sep
      && (header ==> lines[1] == RowText(data[0], widths) && lines[2] == sep)
      && (header ==> forall j :: 1 <= j < |data| ==> lines[j + 2] == RowText(data[j], widths))
      && (!header ==> forall j :: 0 <= j < |data| ==> lines[j + 1] == RowText(data[j], widths))
  {
    var sep := Separator(widths);
    var lines := ListLines(data, header, widths);
    if header {
      FitsTail(data, widths);
      var body := Rows(data[1..], widths);
      forall j | 1 <= j < |data|
        ensures lines[j + 2] == RowText(data[j], widths)
      {
        assert lines[j + 2] == body[j - 1];
        RowsAt(data[1..], widths, j - 1);
        assert data[1..][j - 1] == data[j];
      }
    } else {
      var body := Rows(data, widths);
      forall j | 0 <= j < |data|
        ensures lines[j + 1] == RowText(data[j], widths)
      {
        assert lines[j + 1] == body[j];
        RowsAt(data, widths, j);
      }
    }
  }

  lemma {:induction false} ListTableShape(data: seq<seq<string>>, header: bool)
    requires data != [] && ListTable(data, header).Success?
    ensures var lines := ListTable(data, header).value;
      var w := ListWidths(data).value;
      && |lines| == |data| + (if header then 3 else 2)
      && lines[0] == Separator(w) && lines[|lines| - 1] == Separator(w)
      && (header ==> lines[1] == RowText(data[0], w) && lines[2] == Separator(w))
      && (header ==> forall j :: 1 <= j < |data| ==> lines[j + 2] == RowText(data[j], w))
      && (!header ==> forall j :: 0 <= j < |data| ==> lines[j + 1] == RowText(data[j], w))
  {
    ListLinesShape(data, header, ListWidths(data).value);
  }

  /** Lines that are each as long as the separator stay aligned when framed
      by it. */
  lemma {:induction false} FrameAligned(top: seq<string>, body: seq<string>, sep: string)
    requires top != [] && forall k :: 0 <= k < |top| ==> |top[k]| == |sep|
    requires forall k :: 0 <= k < |body| ==> |body[k]| == |sep|
    ensures var lines := top + body + [sep];
      forall j :: 0 <= j < |lines| ==> |lines[j]| == |lines[0]|
  {
  }

  /** A row with one value per column, each no longer than its column's
      width, is as long as the separator. */
  lemma {:induction false} RowAligned(row: seq<string>, widths: seq<nat>)
    requires |row| == |widths| && forall i :: 0 <= i < |row| ==> |row[i]| <= widths[i]
    ensures |RowText(row, widths)| == |Separator(widths)|
  {
    assert widths[..|row|] == widths;
    CellsLength(row, widths);
  }

  lemma {:induction false} RowsAligned(rows: seq<seq<string>>, widths: seq<nat>)
    requires forall j :: 0 <= j < |rows| ==> |rows[j]| == |widths|
    requires forall j, i :: 0 <= j < |rows| && 0 <= i < |rows[j]| ==> |rows[j][i]| <= widths[i]
    ensures Fits(rows, widths)
    ensures forall k :: 0 <= k < |rows| ==> |Rows(rows, widths)[k]| == |Separator(widths)|
  {
    forall k | 0 <= k < |rows|
      ensures |Rows(rows, widths)[k]| == |Separator(widths)|
    {
      RowsAt(rows, widths, k);
      RowAligned(rows[k], widths);
    }
  }

  /** Rows with one value per column, each no longer than its column's
      width, give lines all as long as the separator. */
  lemma {:induction false} ListLinesAligned(data: seq<seq<string>>, header: bool, widths: seq<nat>)
    requires data != [] && forall j :: 0 <= j < |data| ==> |data[j]| == |widths|
    requires forall j, i :: 0 <= j < |data| && 0 <= i < |data[j]| ==> |data[j][i]| <= widths[i]
    ensures Fits(data, widths)
    ensures var lines := ListLines(data, header, widths);
      forall j :: 0 <= j < |lines| ==> |lines[j]| == |lines[0]|
  {
    var sep := Separator(widths);
    RowsAligned(data, widths);
    if header {
      var rows := data[1..];
      assert forall k :: 0 <= k < |rows| ==> rows[k] == data[k + 1];
      RowsAligned(rows, widths);
      RowAligned(data[0], widths);
      FrameAligned([sep, RowText(data[0], widths), sep], Rows(rows, widths), sep);
    } else {
      FrameAligned([sep], Rows(data, widths), sep);
    }
  }

  /** When every row has as many values as the first, every line of the
      table is as long as the separator. */
  lemma {:induction false} ListTableAligned(data: seq<seq<string>>, header: bool)
    requires data != [] && ListTable(data, header).Success?
    requires forall j :: 0 <= j < |data| ==> |data[j]| == |data[0]|
    ensures var lines := ListTable(data, header).value;
      forall j :: 0 <= j < |lines| ==> |lines[j]| == |lines[0]|
  {
    ListWidthsAreMaxima(data);
    ListLinesAligned(data, header, ListWidths(data).value);
  }

  // ---------------------------------------------------------------- dicts

  /** A Python dict of strings: its keys in insertion order and its
      entries. */
  datatype Dict = Dict(keys: seq<string>, at: map<string, string>)

  /** `head[key] = key` for each key in order: a later repeat of a key keeps
      its first position. */
  function HeadRow(order: seq<string>): (d: Dict)
    ensures forall k :: k in d.at <==> k in order
    ensures forall k :: k in d.at ==> d.at[k] == k
    ensures forall k :: k in d.keys <==> k in order
  {
    if order == [] then Dict([], map[])
    else
      var front := order[..|order| - 1];
      var key := order[|order| - 1];
      assert order == front + [key];
      var h := HeadRow(front);
      Dict(if key in h.at then h.keys else h.keys + [key], h.at[key := key])
  }

  /** The heading `tabulate_dict` inserts when it is not given one. */
  method MakeHead(order: seq<string>) returns (d: Dict)
    ensures d == HeadRow(order)
  {
    d := Dict([], map[]);
    var i := 0;
    while i < |order|
      invariant i <= |order|
      invariant d == HeadRow(order[..i])
    {
      var key := order[i];
      assert order[..i + 1][..i] == order[..i];
      if key !in d.at {
        d := d.(keys := d.keys + [key]);
      }
      d := d.(at := d.at[key := key]);
      i := i + 1;
    }
    assert order[..i] == order;
  }

  /** The values of column `key`, row by row. */
  function DictColumn(rows: seq<Dict>, key: string): (c: seq<string>)
    requires forall j :: 0 <= j < |rows| ==> key in rows[j].at
    ensures |c| == |rows|
  {
    seq(|rows|, j requires 0 <= j < |rows| => rows[j].at[key])
  }

  /** The column widths of `tabulate_dict`: a row without one of the keys is
      a KeyError; otherwise each key's column is as wide as its longest
      value. */
  function DictWidths(data: seq<Dict>, order: seq<string>): (r: Result<map<string, nat>>)
    ensures r.Failure? <==> exists j, key :: 0 <= j < |data| && key in order && key !in data[j].at
    ensures r.Failure? ==> r.error == KeyError
    ensures r.Success? ==> forall key :: key in r.value <==> key in order
  {
    if exists j, key :: 0 <= j < |data| && key in order && key !in data[j].at then Failure(KeyError)
    else Success(map key | key in order :: MaxLen(DictColumn(data, key)))
  }

  /** Each width is the length of some value in its column, and no value of
      the column is longer. */
  lemma {:induction false} DictWidthsAreMaxima(data: seq<Dict>, order: seq<string>)
    requires data != [] && DictWidths(data, order).Success?
    ensures var w := DictWidths(data, order).value;
      && (forall j, key :: 0 <= j < |data| && key in order ==> |data[j].at[key]| <= w[key])
      && (forall key :: key in order ==> exists j :: 0 <= j < |data| && |data[j].at[key]| == w[key])
  {
    var w := DictWidths(data, order).value;
    forall j, key | 0 <= j < |data| && key in order
      ensures |data[j].at[key]| <= w[key]
    {
      MaxLenIsMax(DictColumn(data, key));
      assert DictColumn(data, key)[j] in DictColumn(data, key);
    }
    forall key | key in order
      ensures exists j :: 0 <= j < |data| && |data[j].at[key]| == w[key]
    {
      var c := DictColumn(data, key);
      MaxLenIsMax(c);
      assert c[0] in c;
      var v :| v in c && |v| == w[key];
      var j :| 0 <= j < |c| && c[j] == v;
    }
  }

  lemma {:induction false} DictColumnSnoc(rows: seq<Dict>, row: Dict, key: string)
    requires forall j :: 0 <= j < |rows| ==> key in rows[j].at
    requires key in row.at
    ensures DictColumn(rows + [row], key) == DictColumn(rows, key) + [row.at[key]]
  {
  }

  /** The first width loop of `tabulate_dict`: each key's width starts at
      the length of the first row's value; a missing key is a KeyError. */
  method FirstDictWidths(row: Dict, order: seq<string>) returns (r: Result<map<string, nat>>)
    ensures r.Failure? <==> exists key :: key in order && key !in row.at
    ensures r.Failure? ==> r.error == KeyError
    ensures r.Success? ==> forall key :: key in r.value <==> key in order
    ensures r.Success? ==> forall key :: key in order ==> r.value[key] == |row.at[key]|
  {
    var widths: map<string, nat> := map[];
    var i := 0;
    while i < |order|
      invariant i <= |order|
      invariant forall key :: key in widths <==> key in order[..i]
      invariant forall key :: key in widths ==> key in row.at && widths[key] == |row.at[key]|
    {
      var key := order[i];
      if key !in row.at {
        assert key in order;
        return Failure(KeyError);
      }
      widths := widths[key := |row.at[key]|];
      assert order[..i + 1] == order[..i] + [key];
      i := i + 1;
    }
    assert order[..i] == order;
    r := Success(widths);
  }

  /** The inner loop of `tabulate_dict`'s width pass: the width of each
      listed key grows to the length of the row's value; a missing key is a
      KeyError. */
  method WidenDict(widths: map<string, nat>, row: Dict, order: seq<string>) returns (r: Result<map<string, nat>>)
    requires forall key :: key in order ==> key in widths
    ensures r.Failure? <==> exists key :: key in order && key !in row.at
    ensures r.Failure? ==> r.error == KeyError
    ensures r.Success? ==> forall key :: key in r.value <==> key in widths
    ensures r.Success? ==> forall key :: key in order ==> r.value[key] == Max(widths[key], |row.at[key]|)
  {
    var w: map<string, nat> := widths;
    var c := 0;
    while c < |order|
      invariant c <= |order|
      invariant forall key :: key in w <==> key in widths
      invariant forall key :: key in widths && key !in order[..c] ==> w[key] == widths[key]
      invariant forall key :: key in order[..c] ==> key in row.at && w[key] == Max(widths[key], |row.at[key]|)
    {
      var key := order[c];
      if key !in row.at {
        assert key in order;
        return Failure(KeyError);
      }
      w := w[key := Max(w[key], |row.at[key]|)];
      assert order[..c + 1] == order[..c] + [key];
      c := c + 1;
    }
    assert order[..c] == order;
    r := Success(w);
  }

  /** The width map after the first `k` rows of the width pass. */
  ghost predicate DictWidthsSoFar(data: seq<Dict>, order: seq<string>, k: nat, widths: map<string, nat>)
    requires 0 < |data| && k <= |data|
  {
    && (forall key :: key in widths <==> key in order)
    && (forall key :: key in order ==> key in data[0].at)
    && (forall j, key :: 0 <= j < k && key in order ==> key in data[j].at)
    && (forall key :: key in order ==> widths[key] == Max(|data[0].at[key]|, MaxLen(DictColumn(data[..k], key))))
  }

  lemma {:induction false} DictWidenStep(data: seq<Dict>, order: seq<string>, k: nat, widths: map<string, nat>, wider: map<string, nat>)
    requires k < |data| && DictWidthsSoFar(data, order, k, widths)
    requires forall key :: key in order ==> key in data[k].at
    requires forall key :: key in wider <==> key in widths
    requires forall key :: key in order ==> wider[key] == Max(widths[key], |data[k].at[key]|)
    ensures DictWidthsSoFar(data, order, k + 1, wider)
  {
    forall key | key in order
      ensures wider[key] == Max(|data[0].at[key]|, MaxLen(DictColumn(data[..k + 1], key)))
    {
      DictColumnWiden(data, k, key);
    }
  }

  /** One more row widens a column's running maximum by that row's value. */
  lemma {:induction false} DictColumnWiden(data: seq<Dict>, k: nat, key: string)
    requires k < |data| && forall j :: 0 <= j <= k ==> key in data[j].at
    ensures MaxLen(DictColumn(data[..k + 1], key)) == Max(MaxLen(DictColumn(data[..k], key)), |data[k].at[key]|)
  {
    assert data[..k + 1] == data[..k] + [data[k]];
    DictColumnSnoc(data[..k], data[k], key);
    MaxLenSnoc(DictColumn(data[..k], key), data[k].at[key]);
  }

  lemma {:induction false} DictWidthsDone(data: seq<Dict>, order: seq<string>, widths: map<string, nat>)
    requires data != [] && DictWidthsSoFar(data, order, |data|, widths)
    ensures DictWidths(data, order) == Success(widths)
  {
    assert data[..|data|] == data;
    forall key | key in order
      ensures widths[key] == MaxLen(DictColumn(data, key))
    {
      MaxLenIsMax(DictColumn(data, key));
      assert DictColumn(data, key)[0] in DictColumn(data, key);
    }
    var m := map key | key in order :: MaxLen(DictColumn(data, key));
    assert widths.Keys == m.Keys;
    assert widths == m;
  }

  lemma {:induction false} DictWidthsMissing(data: seq<Dict>, order: seq<string>, j: nat, key: string)
    requires j < |data| && key in order && key !in data[j].at
    ensures DictWidths(data, order) == Failure(KeyError)
  {
  }

  lemma {:induction false} DictWidthsStart(data: seq<Dict>, order: seq<string>, widths: map<string, nat>)
    requires data != []
    requires forall key :: key in widths <==> key in order
    requires forall key :: key in order ==> key in data[0].at && widths[key] == |data[0].at[key]|
    ensures DictWidthsSoFar(data, order, 0, widths)
  {
    assert forall key :: key in order ==> DictColumn(data[..0], key) == [];
  }

  /** The width loops of `tabulate_dict`. */
  method ComputeDictWidths(data: seq<Dict>, order: seq<string>) returns (r: Result<map<string, nat>>)
    requires data != []
    ensures r == DictWidths(data, order)
  {
    var first := FirstDictWidths(data[0], order);
    if first.Failure? {
      ghost var key :| key in order && key !in data[0].at;
      DictWidthsMissing(data, order, 0, key);
      return Failure(KeyError);
    }
    var widths := first.value;
    DictWidthsStart(data, order, widths);
    var k := 0;
    while k < |data|
      invariant k <= |data| && DictWidthsSoFar(data, order, k, widths)
    {
      var wider := WidenDict(widths, data[k], order);
      if wider.Failure? {
        ghost var key :| key in order && key !in data[k].at;
        DictWidthsMissing(data, order, k, key);
        return Failure(KeyError);
      }
      DictWidenStep(data, order, k, widths, wider.value);
      widths := wider.value;
      k := k + 1;
    }
    DictWidthsDone(data, order, widths);
    r := Success(widths);
  }

  /** The values of a row in the given key order. */
  function ValuesAt(row: Dict, keys: seq<string>): (vs: seq<string>)
    requires forall i :: 0 <= i < |keys| ==> keys[i] in row.at
    ensures |vs| == |keys|
  {
    seq(|keys|, i requires 0 <= i < |keys| => row.at[keys[i]])
  }

  /** The widths in the given key order. */
  function WidthsAt(widths: map<string, nat>, keys: seq<string>): (ws: seq<nat>)
    requires forall i :: 0 <= i < |keys| ==> keys[i] in widths
    ensures |ws| == |keys|
  {
    seq(|keys|, i requires 0 <= i < |keys| => widths[keys[i]])
  }

  /** Every key has a width and a value in the row. */
  predicate Covers(row: Dict, widths: map<string, nat>, keys: seq<string>) {
    forall i :: 0 <= i < |keys| ==> keys[i] in widths && keys[i] in row.at
  }

  /** Every key has a width and a value in the row no longer than that
      width. */
  predicate FitsDict(row: Dict, widths: map<string, nat>, keys: seq<string>) {
    && Covers(row, widths, keys)
    && forall i :: 0 <= i < |keys| ==> |row.at[keys[i]]| <= widths[keys[i]]
  }

  /** The cells of a dict row, key by key. */
  function DictCells(row: Dict, widths: map<string, nat>, keys: seq<string>): string
    requires Covers(row, widths, keys)
  {
    if keys == [] then ""
    else
      var key := keys[|keys| - 1];
      DictCells(row, widths, keys[..|keys| - 1]) + Cell(row.at[key], widths[key])
  }

  /** A dict row's cells are the list cells of its values under its widths. */
  lemma {:induction false} DictCellsAsCells(row: Dict, widths: map<string, nat>, keys: seq<string>)
    requires Covers(row, widths, keys)
    ensures DictCells(row, widths, keys) == Cells(ValuesAt(row, keys), WidthsAt(widths, keys))
  {
    if keys != [] {
      var front := keys[..|keys| - 1];
      var key := keys[|keys| - 1];
      DictCellsAsCells(row, widths, front);
      assert ValuesAt(row, keys) == ValuesAt(row, front) + [row.at[key]];
      assert WidthsAt(widths, keys) == WidthsAt(widths, front) + [widths[key]];
      CellsSnoc(ValuesAt(row, front), WidthsAt(widths, front), row.at[key], widths[key]);
    }
  }

  function DictRowText(row: Dict, widths: map<string, nat>, keys: seq<string>): string
    requires Covers(row, widths, keys)
  {
    "|" + DictCells(row, widths, keys)
  }

  /** `print_row_dict`: the keys default to the row's own; a key missing
      from the widths or the row is a KeyError. */
  function RowDict(row: Dict, widths: map<string, nat>, order: Option<seq<string>>): (r: Result<string>)
    ensures r.Failure? <==> !Covers(row, widths, if order.Some? then order.value else row.keys)
    ensures r.Failure? ==> r.error == KeyError
  {
    var keys := if order.Some? then order.value else row.keys;
    if Covers(row, widths, keys) then Success(DictRowText(row, widths, keys)) else Failure(KeyError)
  }

  lemma {:induction false} DictCellsSnoc(row: Dict, widths: map<string, nat>, keys: seq<string>, i: nat)
    requires i < |keys| && Covers(row, widths, keys[..i])
    requires keys[i] in widths && keys[i] in row.at
    ensures Covers(row, widths, keys[..i + 1])
    ensures DictRowText(row, widths, keys[..i + 1])
      == DictRowText(row, widths, keys[..i]) + Cell(row.at[keys[i]], widths[keys[i]])
  {
    assert forall j :: 0 <= j < i ==> keys[..i + 1][j] == keys[..i][j];
    assert keys[..i + 1][..i] == keys[..i];
  }

  method PrintRowDict(row: Dict, widths: map<string, nat>, order: Option<seq<string>>) returns (r: Result<string>)
    ensures r == RowDict(row, widths, order)
  {
    var keys := if order.Some? then order.value else row.keys;
    var line := "|";
    var i := 0;
    while i < |keys|
      invariant i <= |keys|
      invariant Covers(row, widths, keys[..i])
      invariant line == DictRowText(row, widths, keys[..i])
    {
      var key := keys[i];
      if key !in widths || key !in row.at {
        assert !Covers(row, widths, keys) by { assert 0 <= i < |keys|; }
        return Failure(KeyError);
      }
      DictCellsSnoc(row, widths, keys, i);
      line := line + Cell(row.at[key], widths[key]);
      i := i + 1;
    }
    assert keys[..i] == keys;
    r := Success(line);
  }

  function DictRows(rows: seq<Dict>, widths: map<string, nat>, keys: seq<string>): (r: seq<string>)
    requires forall j :: 0 <= j < |rows| ==> Covers(rows[j], widths, keys)
    ensures |r| == |rows|
  {
    seq(|rows|, j requires 0 <= j < |rows| => DictRowText(rows[j], widths, keys))
  }

  /** The key order of `tabulate_dict`: the given one, or the first row's
      keys. */
  function OrderOf(data: seq<Dict>, order: Option<seq<string>>): seq<string>
    requires data != []
  {
    if order.Some? then order.value else data[0].keys
  }

  /** The rows `tabulate_dict` tabulates, and leaves in the caller's list:
      without `header`, a heading of the key names comes first. */
  function WithHead(data: seq<Dict>, keys: seq<string>, header: bool): (rows: seq<Dict>)
    ensures header ==> rows == data
    ensures !header ==> |rows| == |data| + 1 && rows[0] == HeadRow(keys) && rows[1..] == data
  {
    if header then data else [HeadRow(keys)] + data
  }

  /** `tabulate_dict`: no lines for no data; otherwise a separator, the
      heading row, a separator, the other rows and a closing separator. */
  function DictTable(data: seq<Dict>, order: Option<seq<string>>, header: bool): (r: Result<seq<string>>)
    ensures data == [] ==> r == Success([])
    ensures r.Failure? ==> r.error == KeyError
  {
    if data == [] then Success([])
    else
      var keys := OrderOf(data, order);
      RowsTable(WithHead(data, keys, header), keys)
  }

  /** Every row has a width and a value for each key once the widths are
      known. */
  lemma {:induction false} DictWidthsCover(data: seq<Dict>, order: seq<string>)
    requires DictWidths(data, order).Success?
    ensures forall j :: 0 <= j < |data| ==> Covers(data[j], DictWidths(data, order).value, order)
  {
    forall j, i | 0 <= j < |data| && 0 <= i < |order|
      ensures order[i] in data[j].at
    {
      assert order[i] in order;
    }
  }

  /** The lines of a dict table under the given widths: a separator, the
      first row, a separator, the other rows and a closing separator. */
  function DictLines(rows: seq<Dict>, widths: map<string, nat>, keys: seq<string>): seq<string>
    requires rows != [] && forall j :: 0 <= j < |rows| ==> Covers(rows[j], widths, keys)
  {
    assert Covers(rows[0], widths, keys);
    var sep := Separator(WidthsAt(widths, keys));
    [sep, DictRowText(rows[0], widths, keys), sep] + DictRows(rows[1..], widths, keys) + [sep]
  }

  /** The lines `tabulate_dict` prints for the rows it ends up with. */
  function RowsTable(rows: seq<Dict>, keys: seq<string>): (r: Result<seq<string>>)
    requires rows != []
    ensures r.Failure? ==> r.error == KeyError
  {
    var widths := DictWidths(rows, keys);
    if widths.Failure? then Failure(widths.error)
    else
      DictWidthsCover(rows, keys);
      Success(DictLines(rows, widths.value, keys))
  }

  /** The row loop of `tabulate_dict`. */
  method PrintDictRows(rows: seq<Dict>, widths: map<string, nat>, keys: seq<string>) returns (lines: seq<string>)
    requires forall j :: 0 <= j < |rows| ==> Covers(rows[j], widths, keys)
    ensures lines == DictRows(rows, widths, keys)
  {
    lines := [];
    var k := 0;
    while k < |rows|
      invariant k <= |rows| && |lines| == k
      invariant forall j :: 0 <= j < k ==> lines[j] == DictRowText(rows[j], widths, keys)
    {
      var line := PrintRowDict(rows[k], widths, Some(keys));
      lines := lines + [line.value];
      k := k + 1;
    }
  }

  /** The widths and lines of `tabulate_dict` once the heading is in place. */
  method PrintDictTable(rows: seq<Dict>, keys: seq<string>) returns (r: Result<seq<string>>)
    requires rows != []
    ensures r == RowsTable(rows, keys)
  {
    var widths := ComputeDictWidths(rows, keys);
    if widths.Failure? {
      return Failure(widths.error);
    }
    var w := widths.value;
    DictWidthsCover(rows, keys);
    var separator := SeparatorLine(WidthsAt(w, keys));
    var first := PrintRowDict(rows[0], w, Some(keys));
    assert forall j :: 0 <= j < |rows| - 1 ==> rows[1..][j] == rows[j + 1];
    var body := PrintDictRows(rows[1..], w, keys);
    r := Success([separator, first.value, separator] + body + [separator]);
  }

  /** The caller's list of rows, which `tabulate_dict` may extend in place. */
  class DictList {
    var rows: seq<Dict>

    constructor(rows: seq<Dict>)
      ensures this.rows == rows
    {
      this.rows := rows;
    }

    /** `tabulate_dict`: the heading row goes into the list before the
        widths are computed, so it stays there even when a key is missing. */
    method TabulateDict(order: Option<seq<string>>, header: bool) returns (r: Result<seq<string>>)
      modifies this
      ensures r == DictTable(old(rows), order, header)
      ensures old(rows) == [] ==> rows == old(rows)
      ensures old(rows) != [] ==> rows == WithHead(old(rows), OrderOf(old(rows), order), header)
    {
      if |rows| == 0 {
        return Success([]);
      }
      var keys := if order.Some? then order.value else rows[0].keys;
      if !header {
        var head := MakeHead(keys);
        rows := [head] + rows;
      }
      r := PrintDictTable(rows, keys);
    }
  }

  /** The cells of a row whose values fit their widths are as long as the
      rule over those widths. */
  lemma {:induction false} DictCellsLength(row: Dict, widths: map<string, nat>, keys: seq<string>)
    requires FitsDict(row, widths, keys)
    ensures |DictRowText(row, widths, keys)| == |Separator(WidthsAt(widths, keys))|
  {
    DictCellsAsCells(row, widths, keys);
    CellsLength(ValuesAt(row, keys), WidthsAt(widths, keys));
  }

  /** Without `header`, the second line shows the key names themselves. */
  lemma {:induction false} DictHeadingShowsKeys(data: seq<Dict>, order: Option<seq<string>>)
    requires data != [] && DictTable(data, order, false).Success?
    ensures var keys := OrderOf(data, order);
      var w := DictWidths(WithHead(data, keys, false), keys).value;
      var lines := DictTable(data, order, false).value;
      |lines| == |data| + 4 && lines[1] == "|" + Cells(keys, WidthsAt(w, keys))
  {
    var keys := OrderOf(data, order);
    var rows := WithHead(data, keys, false);
    var w := DictWidths(rows, keys).value;
    DictWidthsCover(rows, keys);
    assert Covers(HeadRow(keys), w, keys);
    DictCellsAsCells(HeadRow(keys), w, keys);
    assert ValuesAt(HeadRow(keys), keys) == keys;
  }

  /** Rows whose values are no longer than their keys' widths give lines
      all as long as the separator. */
  lemma {:induction false} DictLinesAligned(rows: seq<Dict>, widths: map<string, nat>, keys: seq<string>)
    requires rows != [] && forall j :: 0 <= j < |rows| ==> Covers(rows[j], widths, keys)
    requires forall j :: 0 <= j < |rows| ==> FitsDict(rows[j], widths, keys)
    ensures var lines := DictLines(rows, widths, keys);
      forall j :: 0 <= j < |lines| ==> |lines[j]| == |lines[0]|
  {
    assert Covers(rows[0], widths, keys);
    var sep := Separator(WidthsAt(widths, keys));
    forall j | 0 <= j < |rows|
      ensures |DictRowText(rows[j], widths, keys)| == |sep|
    {
      DictCellsLength(rows[j], widths, keys);
    }
    var body := DictRows(rows[1..], widths, keys);
    assert forall k :: 0 <= k < |body| ==> body[k] == DictRowText(rows[k + 1], widths, keys);
    FrameAligned([sep, DictRowText(rows[0], widths, keys), sep], body, sep);
  }

  lemma {:induction false} RowsTableAligned(rows: seq<Dict>, keys: seq<string>)
    requires rows != [] && RowsTable(rows, keys).Success?
    ensures var lines := RowsTable(rows, keys).value;
      forall j :: 0 <= j < |lines| ==> |lines[j]| == |lines[0]|
  {
    var w := DictWidths(rows, keys).value;
    DictWidthsCover(rows, keys);
    DictWidthsAreMaxima(rows, keys);
    forall j | 0 <= j < |rows|
      ensures FitsDict(rows[j], w, keys)
    {
      forall i | 0 <= i < |keys|
        ensures |rows[j].at[keys[i]]| <= w[keys[i]]
      {
        assert keys[i] in keys;
      }
    }
    DictLinesAligned(rows, w, keys);
  }

  /** Every line of a dict table is as long as the separator. */
  lemma {:induction false} DictTableAligned(data: seq<Dict>, order: Option<seq<string>>, header: bool)
    requires DictTable(data, order, header).Success?
    ensures var lines := DictTable(data, order, header).value;
      forall j :: 0 <= j < |lines| ==> |lines[j]| == |lines[0]|
  {
    if data != [] {
      RowsTableAligned(WithHead(data, OrderOf(data, order), header), OrderOf(data, order));
    }
  }
}
