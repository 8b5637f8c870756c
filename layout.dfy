/**
 * Section headers and tables (print_header and print_table), as the lines
 * they print. A table that makes Python raise IndexError part-way is the
 * lines printed before the raise together with `raised`.
 */
module Layout {
  import opened Wrappers
  import opened Builtins
  import opened Terminal

  /** The box-drawing character of every rule and underline. */
  const RuleChar := '\U{2500}'

  /** `line` is a grey rule of n characters between the palette's grey and reset codes. */
  predicate IsRule(line: string, p: Palette, n: nat)
  {
    && |line| == |p.gray| + n + |p.reset|
    && line[..|p.gray|] == p.gray
    && line[|p.gray| + n..] == p.reset
    && forall k :: |p.gray| <= k < |p.gray| + n ==> line[k] == RuleChar
  }

  /**
   * print_header: a blank line, the title in bold cyan, then an underline of
   * exactly one rule character per character of the title.
   */
  function SectionHeader(p: Palette, text: string): (lines: seq<string>)
    ensures |lines| == 3 && lines[0] == ""
    ensures |lines[1]| == |p.bold| + |p.cyan| + |text| + |p.reset|
    ensures lines[1][|p.bold| + |p.cyan|..|lines[1]| - |p.reset|] == text
    ensures IsRule(lines[2], p, |text|)
  {
    var rule := p.gray + Repeat(RuleChar, |text|) + p.reset;
    assert rule[|p.gray|..|p.gray| + |text|] == Repeat(RuleChar, |text|);
    ["", p.bold + p.cyan + text + p.reset, rule]
  }

  // ---------------------------------------------------------------------
  // Table lines

  /** The cells of one line, each left-justified to its column's width. */
  function PaddedCells(cells: seq<string>, widths: seq<nat>): seq<string>
    requires |cells| <= |widths|
  {
    seq(|cells|, i requires 0 <= i < |cells| => LeftJustify(cells[i], widths[i]))
  }

  /**
   * One line of a table: the i-th cell padded to the i-th width, for every
   * cell of the line (not for every header), joined by two spaces.
   */
  function FormatLine(cells: seq<string>, widths: seq<nat>): string
    requires |cells| <= |widths|
  {
    JoinCells(PaddedCells(cells, widths))
  }

  /** The width each cell occupies in its line: its column's width, or its own length if longer. */
  function Occupied(cells: seq<string>, widths: seq<nat>): (ws: seq<nat>)
    requires |cells| <= |widths|
    ensures |ws| == |cells|
  {
    seq(|cells|, i requires 0 <= i < |cells| => if |cells[i]| < widths[i] then widths[i] else |cells[i]|)
  }

  /**
   * A line of n > 0 cells is as long as the widths its cells occupy plus
   * 2 * (n - 1) separator characters.
   */
  lemma LineLength(cells: seq<string>, widths: seq<nat>)
    requires 0 < |cells| <= |widths|
    ensures |FormatLine(cells, widths)| == Sum(Occupied(cells, widths)) + 2 * (|cells| - 1)
  {
    TotalLengthOfWidths(PaddedCells(cells, widths), Occupied(cells, widths));
  }

  /** When every cell fits its column, a line of n > 0 cells is the first n widths plus the separators. */
  lemma FittingLineLength(cells: seq<string>, widths: seq<nat>)
    requires 0 < |cells| <= |widths|
    requires forall i :: 0 <= i < |cells| ==> |cells[i]| <= widths[i]
    ensures |FormatLine(cells, widths)| == Sum(widths[..|cells|]) + 2 * (|cells| - 1)
  {
    LineLength(cells, widths);
    assert Occupied(cells, widths) == widths[..|cells|];
  }

  /** A slice of the second half of a concatenation, shifted by the length of the first. */
  lemma SliceOfConcat(x: string, y: string, lo: nat, hi: nat)
    requires lo <= hi <= |y|
    ensures (x + y)[|x| + lo..|x| + hi] == y[lo..hi]
  {
  }

  /** The parts before part i of a list, counted from its second part. */
  lemma {:induction false} TotalLengthOfPrefix(parts: seq<string>, i: nat)
    requires 0 < i <= |parts|
    ensures TotalLength(parts[..i]) == |parts[0]| + TotalLength(parts[1..][..i - 1])
  {
    assert parts[..i][1..] == parts[1..][..i - 1];
  }

  /** Past the first part and its separator, `"  ".join(parts)` is the join of the remaining parts. */
  lemma JoinCellsShift(parts: seq<string>, lo: nat, hi: nat)
    requires 1 < |parts|
    requires lo <= hi <= |JoinCells(parts[1..])|
    ensures |parts[0]| + 2 + hi <= |JoinCells(parts)|
    ensures JoinCells(parts)[|parts[0]| + 2 + lo..|parts[0]| + 2 + hi] == JoinCells(parts[1..])[lo..hi]
  {
    var head := parts[0] + Gap;
    assert JoinCells(parts) == head + JoinCells(parts[1..]);
    SliceOfConcat(head, JoinCells(parts[1..]), lo, hi);
  }

  /** In `"  ".join(parts)` the i-th part starts after the earlier parts and their separators. */
  lemma {:induction false} JoinCellsAt(parts: seq<string>, i: nat)
    requires i < |parts|
    ensures var o := TotalLength(parts[..i]) + 2 * i;
      o + |parts[i]| <= |JoinCells(parts)| && JoinCells(parts)[o..o + |parts[i]|] == parts[i]
  {
    if i == 0 {
      assert parts[..0] == [];
      if 1 < |parts| {
        assert JoinCells(parts) == parts[0] + (Gap + JoinCells(parts[1..]));
      }
    } else {
      var rest := parts[1..];
      assert rest[i - 1] == parts[i];
      var o' := TotalLength(rest[..i - 1]) + 2 * (i - 1);
      JoinCellsAt(rest, i - 1);
      TotalLengthOfPrefix(parts, i);
      assert TotalLength(parts[..i]) + 2 * i == |parts[0]| + 2 + o';
      JoinCellsShift(parts, o', o' + |parts[i]|);
    }
  }

  /** In `"  ".join(parts)` every part but the last is followed by the two-space separator. */
  lemma {:induction false} JoinCellsGapAt(parts: seq<string>, i: nat)
    requires i + 1 < |parts|
    ensures var o := TotalLength(parts[..i]) + 2 * i + |parts[i]|;
      o + 2 <= |JoinCells(parts)| && JoinCells(parts)[o..o + 2] == Gap
  {
    if i == 0 {
      assert parts[..0] == [];
      var r := JoinCells(parts);
      assert r == parts[0] + Gap + JoinCells(parts[1..]);
      assert r[|parts[0]|..|parts[0]| + 2] == Gap;
    } else {
      var rest := parts[1..];
      assert rest[i - 1] == parts[i];
      var o' := TotalLength(rest[..i - 1]) + 2 * (i - 1) + |parts[i]|;
      JoinCellsGapAt(rest, i - 1);
      TotalLengthOfPrefix(parts, i);
      assert TotalLength(parts[..i]) + 2 * i + |parts[i]| == |parts[0]| + 2 + o';
      JoinCellsShift(parts, o', o' + 2);
    }
  }

  /**
   * When every cell fits its column, cell i of a line sits at column
   * Sum(widths[..i]) + 2 * i, left-justified in exactly widths[i]
   * characters, and two spaces follow it unless it is the last cell.
   */
  lemma CellPosition(cells: seq<string>, widths: seq<nat>, i: nat)
    requires i < |cells| <= |widths|
    requires forall j :: 0 <= j < |cells| ==> |cells[j]| <= widths[j]
    ensures var line, o := FormatLine(cells, widths), Sum(widths[..i]) + 2 * i;
      && o + widths[i] <= |line|
      && line[o..o + |cells[i]|] == cells[i]
      && (forall k :: o + |cells[i]| <= k < o + widths[i] ==> line[k] == ' ')
      && (i + 1 < |cells| ==> o + widths[i] + 2 <= |line| && line[o + widths[i]..o + widths[i] + 2] == Gap)
  {
    var parts := PaddedCells(cells, widths);
    var line, o := FormatLine(cells, widths), Sum(widths[..i]) + 2 * i;
    var cell := LeftJustify(cells[i], widths[i]);
    PaddedPrefix(cells, widths, i);
    JoinCellsAt(parts, i);
    SliceInside(line, o, cell, |cells[i]|);
    if i + 1 < |parts| {
      JoinCellsGapAt(parts, i);
    }
  }

  /** Within a slice of a line that equals a cell, the line agrees with the cell position by position. */
  lemma SliceInside(line: string, o: nat, cell: string, m: nat)
    requires o + |cell| <= |line| && line[o..o + |cell|] == cell && m <= |cell|
    ensures line[o..o + m] == cell[..m]
    ensures forall k :: o + m <= k < o + |cell| ==> line[k] == cell[k - o]
  {
    forall k | o + m <= k < o + |cell|
      ensures line[k] == cell[k - o]
    {
      assert line[o..o + |cell|][k - o] == line[k];
    }
  }

  /** Where every cell fits, the padded cells before cell i take exactly their columns' widths. */
  lemma PaddedPrefix(cells: seq<string>, widths: seq<nat>, i: nat)
    requires i < |cells| <= |widths|
    requires forall j :: 0 <= j < |cells| ==> |cells[j]| <= widths[j]
    ensures var parts := PaddedCells(cells, widths);
      && |parts| == |cells|
      && parts[i] == LeftJustify(cells[i], widths[i])
      && |parts[i]| == widths[i]
      && TotalLength(parts[..i]) == Sum(widths[..i])
  {
    var parts := PaddedCells(cells, widths);
    forall j | 0 <= j < i
      ensures |parts[..i][j]| == widths[..i][j]
    {
      assert parts[j] == LeftJustify(cells[j], widths[j]);
    }
    TotalLengthOfWidths(parts[..i], widths[..i]);
  }

  // ---------------------------------------------------------------------
  // Column widths

  /** The longest cell in column i of a non-empty table whose rows all have that column. */
  function LongestCell(table: seq<seq<string>>, i: nat): (m: nat)
    requires table != []
    requires forall r :: r in table ==> i < |r|
    ensures forall r :: r in table ==> |r[i]| <= m
    ensures exists r :: r in table && |r[i]| == m
  {
    if |table| == 1 then |table[0][i]|
    else
      var m := LongestCell(table[1..], i);
      assert forall r :: r in table[1..] ==> r in table;
      if |table[0][i]| < m then m else |table[0][i]|
  }

  /** w is two more than the longest cell in column i of table. */
  predicate IsAutoWidth(w: int, table: seq<seq<string>>, i: nat)
  {
    && (forall r :: r in table ==> i < |r| && |r[i]| + 2 <= w)
    && (exists r :: r in table && i < |r| && |r[i]| + 2 == w)
  }

  /** Two more than the longest cell is a single number: the characterisation fixes the width. */
  lemma AutoWidthUnique(w1: int, w2: int, table: seq<seq<string>>, i: nat)
    requires IsAutoWidth(w1, table, i) && IsAutoWidth(w2, table, i)
    ensures w1 == w2
  {
    var r1 :| r1 in table && i < |r1| && |r1[i]| + 2 == w1;
    var r2 :| r2 in table && i < |r2| && |r2[i]| + 2 == w2;
    assert |r2[i]| + 2 <= w1 && |r1[i]| + 2 <= w2;
  }

  /**
   * The widths print_table computes when none are given: for each header,
   * two more than the longest cell of its column among the header and the
   * rows. None where Python raises IndexError, that is when some row has
   * fewer cells than there are headers.
   */
  function AutoWidths(headers: seq<string>, rows: seq<seq<string>>): (ws: Option<seq<nat>>)
    ensures ws.None? <==> exists r :: r in rows && |r| < |headers|
    ensures ws.Some? ==> |ws.value| == |headers|
    ensures ws.Some? ==> forall i :: 0 <= i < |headers| ==> IsAutoWidth(ws.value[i], [headers] + rows, i)
  {
    if exists r :: r in rows && |r| < |headers| then None
    else
      var table := [headers] + rows;
      assert forall r :: r in table ==> r == headers || r in rows;
      Some(seq(|headers|, i requires 0 <= i < |headers| => LongestCell(table, i) + 2))
  }

  /** `if not col_widths`: no widths or an empty list selects the computed widths. */
  function ChosenWidths(headers: seq<string>, rows: seq<seq<string>>, given: Option<seq<nat>>): Option<seq<nat>>
  {
    if given.None? || given.value == [] then AutoWidths(headers, rows) else given
  }

  /** The index of the first row with more than n cells, or |rows| when there is none. */
  function FirstOverlong(rows: seq<seq<string>>, n: nat): (k: nat)
    ensures k <= |rows|
    ensures forall j :: 0 <= j < k ==> |rows[j]| <= n
    ensures k < |rows| ==> |rows[k]| > n
  {
    if rows == [] then 0
    else if |rows[0]| > n then 0
    else 1 + FirstOverlong(rows[1..], n)
  }

  /** The length print_table gives the rule: the sum of ALL widths plus two per gap between headers. */
  function RuleLength(headers: seq<string>, widths: seq<nat>): int
  {
    Sum(widths) + 2 * (|headers| - 1)
  }

  /** The lines of the first n rows, each formatted to the widths. */
  function RowLines(rows: seq<seq<string>>, widths: seq<nat>, n: nat): (lines: seq<string>)
    requires n <= |rows|
    requires forall j :: 0 <= j < n ==> |rows[j]| <= |widths|
    ensures |lines| == n
    ensures forall j :: 0 <= j < n ==> lines[j] == FormatLine(rows[j], widths)
  {
    if n == 0 then [] else RowLines(rows, widths, n - 1) + [FormatLine(rows[n - 1], widths)]
  }

  /** What printing produced: the lines, and whether an IndexError ended it. */
  datatype Printed = Printed(lines: seq<string>, raised: bool)

  /** The blank line, the bold header line and the grey rule that open every table. */
  function TableTop(p: Palette, headers: seq<string>, widths: seq<nat>): seq<string>
    requires |headers| <= |widths|
  {
    ["", p.bold + FormatLine(headers, widths) + p.reset,
     p.gray + Repeat(RuleChar, RuleLength(headers, widths)) + p.reset]
  }

  /**
   * The output of `print_table(headers, rows, given)`. Nothing is printed
   * when the widths cannot be computed or are fewer than the headers; a
   * row with more cells than widths raises after the rows before it.
   */
  function Table(p: Palette, headers: seq<string>, rows: seq<seq<string>>, given: Option<seq<nat>>): Printed
  {
    match ChosenWidths(headers, rows, given)
    case None => Printed([], true)
    case Some(ws) =>
      if |ws| < |headers| then Printed([], true)
      else
        var k := FirstOverlong(rows, |ws|);
        Printed(TableTop(p, headers, ws) + RowLines(rows, ws, k), k < |rows|)
  }

  /**
   * The loop over the rows of print_table: one line per row after `top`,
   * stopping with `raised` at the first row with more cells than widths.
   */
  method PrintRows(top: seq<string>, rows: seq<seq<string>>, widths: seq<nat>)
    returns (lines: seq<string>, raised: bool)
    ensures var k := FirstOverlong(rows, |widths|);
      lines == top + RowLines(rows, widths, k) && raised == (k < |rows|)
  {
    ghost var k := FirstOverlong(rows, |widths|);
    lines := top;
    var j := 0;
    while j < |rows|
      invariant 0 <= j <= k
      invariant lines == top + RowLines(rows, widths, j)
    {
      if |rows[j]| > |widths| {
        assert j == k;
        return lines, true;
      }
      assert j < k;
      lines := lines + [FormatLine(rows[j], widths)];
      assert RowLines(rows, widths, j + 1) == RowLines(rows, widths, j) + [FormatLine(rows[j], widths)];
      assert lines == top + (RowLines(rows, widths, j) + [FormatLine(rows[j], widths)]);
      j := j + 1;
    }
    assert j == k;
    raised := false;
  }

  /** print_table: the widths, the header line and the rule, then the rows. */
  method PrintTable(p: Palette, headers: seq<string>, rows: seq<seq<string>>, given: Option<seq<nat>>)
    returns (lines: seq<string>, raised: bool)
    ensures Printed(lines, raised) == Table(p, headers, rows, given)
  {
    var chosen := ChosenWidths(headers, rows, given);
    if chosen.None? || |chosen.value| < |headers| {
      return [], true;
    }
    lines, raised := PrintRows(TableTop(p, headers, chosen.value), rows, chosen.value);
  }

  // ---------------------------------------------------------------------
  // Properties of the printed table

  /**
   * print_table raises exactly when the widths cannot be computed, are
   * fewer than the headers, or some row has more cells than widths; when it
   * does not, it prints three lines and then one line per row, in order.
   */
  lemma TableShape(p: Palette, headers: seq<string>, rows: seq<seq<string>>, given: Option<seq<nat>>)
    ensures var out, ws := Table(p, headers, rows, given), ChosenWidths(headers, rows, given);
      out.raised <==> ws.None? || |ws.value| < |headers| || exists j :: 0 <= j < |rows| && |rows[j]| > |ws.value|
    ensures var out, ws := Table(p, headers, rows, given), ChosenWidths(headers, rows, given);
      !out.raised ==> |out.lines| == 3 + |rows| && forall j :: 0 <= j < |rows| ==> out.lines[3 + j] == FormatLine(rows[j], ws.value)
    ensures var out, ws := Table(p, headers, rows, given), ChosenWidths(headers, rows, given);
      ws.Some? && |ws.value| >= |headers| ==> |out.lines| >= 3 && out.lines[..3] == TableTop(p, headers, ws.value)
  {
    var out := Table(p, headers, rows, given);
    var ws := ChosenWidths(headers, rows, given);
    if ws.Some? && |ws.value| >= |headers| {
      var k := FirstOverlong(rows, |ws.value|);
      var top := TableTop(p, headers, ws.value);
      assert out == Printed(top + RowLines(rows, ws.value, k), k < |rows|);
      assert |top| == 3 && out.lines[..3] == top;
      if k < |rows| {
        assert |rows[k]| > |ws.value|;
      } else {
        assert !exists j :: 0 <= j < |rows| && |rows[j]| > |ws.value|;
        forall j | 0 <= j < |rows|
          ensures out.lines[3 + j] == FormatLine(rows[j], ws.value)
        {
          assert out.lines[3 + j] == RowLines(rows, ws.value, k)[j];
        }
      }
    }
  }

  /** When every header fits its width and there are as many widths as headers, the rule is as long as the header line. */
  lemma RuleMatchesHeader(headers: seq<string>, widths: seq<nat>)
    requires 0 < |headers| == |widths|
    requires forall i :: 0 <= i < |headers| ==> |headers[i]| <= widths[i]
    ensures RuleLength(headers, widths) == |FormatLine(headers, widths)|
    ensures |Repeat(RuleChar, RuleLength(headers, widths))| == |FormatLine(headers, widths)|
  {
    FittingLineLength(headers, widths);
    assert widths[..|headers|] == widths;
  }

  /**
   * With computed widths, every cell of the header and the rows is at least
   * two characters shorter than its column, so a row with as many cells as
   * there are headers is exactly as long as the header line and the rule.
   */
  lemma AutoTableAligned(headers: seq<string>, rows: seq<seq<string>>, j: nat)
    requires headers != []
    requires forall r :: r in rows ==> |r| >= |headers|
    requires j < |rows| && |rows[j]| == |headers|
    ensures var ws := AutoWidths(headers, rows).value;
      && (forall i :: 0 <= i < |headers| ==> |headers[i]| + 2 <= ws[i] && |rows[j][i]| + 2 <= ws[i])
      && |FormatLine(rows[j], ws)| == |FormatLine(headers, ws)| == RuleLength(headers, ws)
  {
    var table := [headers] + rows;
    var ws := AutoWidths(headers, rows).value;
    assert headers in table && rows[j] in table;
    forall i | 0 <= i < |headers|
      ensures |headers[i]| + 2 <= ws[i] && |rows[j][i]| + 2 <= ws[i]
    {
      assert IsAutoWidth(ws[i], table, i);
    }
    RuleMatchesHeader(headers, ws);
    FittingLineLength(rows[j], ws);
    assert ws[..|rows[j]|] == ws;
  }

  /**
   * With no headers and no widths given, the computed width list is empty,
   * so the rule length is negative and the rule printed is empty: only the
   * grey and reset codes remain on its line.
   */
  lemma NoHeadersEmptyRule(p: Palette, rows: seq<seq<string>>)
    ensures var out := Table(p, [], rows, None);
      |out.lines| >= 3 && out.lines[2] == p.gray + p.reset
  {
    assert AutoWidths([], rows) == Some([]);
  }

  /**
   * With no headers but a non-empty list of widths given, the given list is
   * kept, and the rule printed is Sum(widths) - 2 rule characters long, none
   * when that is negative.
   */
  lemma NoHeadersGivenWidths(p: Palette, rows: seq<seq<string>>, widths: seq<nat>)
    requires widths != []
    ensures var out := Table(p, [], rows, Some(widths));
      |out.lines| >= 3 && out.lines[2] == p.gray + Repeat(RuleChar, Sum(widths) - 2) + p.reset
  {
    var out := Table(p, [], rows, Some(widths));
    var k := FirstOverlong(rows, |widths|);
    assert ChosenWidths([], rows, Some(widths)) == Some(widths);
    assert out.lines == TableTop(p, [], widths) + RowLines(rows, widths, k);
  }
}
