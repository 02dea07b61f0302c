/** The worksheet helpers: `zeroPad`, `clamp_range`, `delete_rows` (the
    sparse-sheet branch: moving cells up, clearing the tail, updating
    formulae, the range, the merges and the row properties) and
    `formate_Coloumns`. A worksheet is a sparse map from (row, column) to
    cells; its `!ref` range is kept decoded. */
module HelperFns {
  import opened Wrappers

  // ---------------------------------------------------------------------------
  // zeroPad
  // ---------------------------------------------------------------------------

  /** The digit character for `d`. */
  function DigitChar(d: nat): char
    requires d < 10
  {
    "0123456789"[d]
  }

  /** The value of a digit character. */
  function DigitValue(c: char): nat
  {
    if '0' <= c <= '9' then c as int - '0' as int else 0
  }

  /** `${n}` for a non-negative integer: its decimal digits, no leading zero. */
  function Decimal(n: nat): (s: string)
    ensures |s| >= 1
    ensures forall k | 0 <= k < |s| :: '0' <= s[k] <= '9'
  {
    if n < 10 then [DigitChar(n)] else Decimal(n / 10) + [DigitChar(n % 10)]
  }

  /** The number a string of decimal digits denotes. */
  function DecimalValue(s: string): nat
  {
    if s == [] then 0 else 10 * DecimalValue(s[..|s| - 1]) + DigitValue(s[|s| - 1])
  }

  /** `zeroPad(num)`: a leading "0" below ten. */
  function ZeroPad(n: nat): string
  {
    if n < 10 then "0" + Decimal(n) else Decimal(n)
  }

  /** Reading the decimal form back gives the number. */
  lemma {:induction false} DecimalRoundTrip(n: nat)
    ensures DecimalValue(Decimal(n)) == n
  {
    var s := Decimal(n);
    if n >= 10 {
      DecimalRoundTrip(n / 10);
      assert s[..|s| - 1] == Decimal(n / 10);
      assert DigitValue(s[|s| - 1]) == n % 10;
      assert DecimalValue(s) == 10 * (n / 10) + n % 10;
    } else {
      assert DigitValue(s[0]) == n;
    }
  }

  /** A zero-padded number reads back as the number, and the date and time
      fields (below 100) always take exactly two characters. */
  lemma ZeroPadRoundTrip(n: nat)
    ensures DecimalValue(ZeroPad(n)) == n
    ensures n < 100 ==> |ZeroPad(n)| == 2
    ensures |ZeroPad(n)| >= 2
  {
    DecimalRoundTrip(n);
    if n < 10 {
      var s := ZeroPad(n);
      assert s[..1] == "0";
    } else if n < 100 {
      assert Decimal(n) == Decimal(n / 10) + [DigitChar(n % 10)];
    } else {
      assert |Decimal(n)| == |Decimal(n / 10)| + 1;
    }
  }

  // ---------------------------------------------------------------------------
  // Worksheet data
  // ---------------------------------------------------------------------------

  /** A 0-indexed cell address. */
  datatype Addr = Addr(r: nat, c: nat)

  /** A range: start and end corners, both inclusive. */
  datatype Range = Range(s: Addr, e: Addr)

  /** A formula, already split into the cell references the reference pattern
      finds and the text between them. A reference carries `lead`, the one
      character the pattern matches before it (empty at the start of the
      formula), and its `$` marks `colAbs`/`rowAbs`. */
  datatype Token = Text(text: string) | Ref(lead: string, colAbs: bool, col: nat, rowAbs: bool, row: nat) | RefError

  /** A cell: its value, its formula (empty when it has none) and its number format. */
  datatype Cell = Cell(v: string, f: seq<Token>, z: Option<string>)

  /** One entry of `!rows`. */
  datatype RowProps = RowProps(hidden: bool, hpx: Option<nat>)

  /** What `XLSX.utils.decode_range` throws on a sheet without `!ref`: it reads
      a property of `undefined`. */
  const TypeError: string := "TypeError"

  /** A sparse worksheet, updated in place. */
  class Worksheet {
    var cells: map<Addr, Cell>
    /** `!ref`, decoded; absent on a sheet that has none, such as an empty one. */
    var ref: Option<Range>
    /** `!merges`, when present. */
    var merges: Option<seq<Range>>
    /** `!rows`, when present. */
    var rows: Option<seq<RowProps>>

    constructor (cells: map<Addr, Cell>, ref: Option<Range>, merges: Option<seq<Range>>, rows: Option<seq<RowProps>>)
      ensures this.cells == cells && this.ref == ref && this.merges == merges && this.rows == rows
    {
      this.cells := cells;
      this.ref := ref;
      this.merges := merges;
      this.rows := rows;
    }
  }

  /** `ws[addr]`, absent or present. */
  function Lookup(cells: map<Addr, Cell>, a: Addr): Option<Cell>
  {
    if a in cells then Some(cells[a]) else None
  }

  // ---------------------------------------------------------------------------
  // clamp_range
  // ---------------------------------------------------------------------------

  /** The last row and column a sheet can have: (1 << 20) - 1 and (1 << 14) - 1. */
  const MaxRow: nat := 0x10_0000 - 1
  const MaxCol: nat := 0x4000 - 1

  /** `clamp_range`: caps the end row and column; the start is untouched. */
  function ClampRange(range: Range): (c: Range)
    ensures c.s == range.s
    ensures c.e.r <= MaxRow && c.e.c <= MaxCol
    ensures range.e.r <= MaxRow ==> c.e.r == range.e.r
    ensures range.e.c <= MaxCol ==> c.e.c == range.e.c
    ensures range.e.r > MaxRow ==> c.e.r == MaxRow
    ensures range.e.c > MaxCol ==> c.e.c == MaxCol
  {
    var er := if range.e.r >= MaxRow + 1 then MaxRow else range.e.r;
    var ec := if range.e.c >= MaxCol + 1 then MaxCol else range.e.c;
    Range(range.s, Addr(er, ec))
  }

  /** Clamping twice is clamping once, and a clamped range lies within the sheet. */
  lemma ClampIdempotent(range: Range)
    ensures ClampRange(ClampRange(range)) == ClampRange(range)
    ensures ClampRange(range).e.r <= MaxRow && ClampRange(range).e.c <= MaxCol
  {
  }

  // ---------------------------------------------------------------------------
  // Formula references
  // ---------------------------------------------------------------------------

  /** `formula_cb`: a reference at or below `start` moves up by `n`; one that
      then lands above `start` pointed into the deleted rows and becomes
      `#REF!`, which replaces the whole match, its lead character included.
      An absolute row keeps its text; the column is unchanged. */
  function ShiftRef(t: Token, start: nat, n: nat): Token
  {
    match t
    case Ref(lead, colAbs, col, rowAbs, row) =>
      if row >= start && row - n < start then RefError
      else Ref(lead, colAbs, col, rowAbs, if !rowAbs && row >= start then row - n else row)
    case _ => t
  }

  /** `f.replace(crefregex, formula_cb)`: the text between references is kept;
      a reference above `start` is kept, one into the deleted rows becomes
      `#REF!`, and one below them moves up by `n` unless its row is absolute. */
  function ShiftFormula(f: seq<Token>, start: nat, n: nat): (g: seq<Token>)
    ensures |g| == |f|
    ensures forall k | 0 <= k < |f| && !f[k].Ref? :: g[k] == f[k]
    ensures forall k | 0 <= k < |f| && f[k].Ref? && f[k].row < start :: g[k] == f[k]
    ensures forall k | 0 <= k < |f| && f[k].Ref? && start <= f[k].row < start + n :: g[k] == RefError
    ensures forall k | 0 <= k < |f| && f[k].Ref? && f[k].row >= start + n ::
              g[k] == f[k].(row := if f[k].rowAbs then f[k].row else f[k].row - n)
  {
    seq(|f|, k requires 0 <= k < |f| => ShiftRef(f[k], start, n))
  }

  /** A cell after the formula update: only a truthy formula is rewritten. */
  function ShiftCell(cell: Option<Cell>, start: nat, n: nat): Option<Cell>
  {
    match cell
    case None => None
    case Some(c) => Some(if c.f != [] then c.(f := ShiftFormula(c.f, start, n)) else c)
  }

  /** A reference's fate: above `start` it is kept; into the deleted rows it is
      `#REF!` and its lead character is gone with it; below them a relative
      row moves up by `n` and an absolute one keeps its text, the lead kept. */
  lemma RefFates(lead: string, colAbs: bool, col: nat, rowAbs: bool, row: nat, start: nat, n: nat)
    ensures row < start ==> ShiftRef(Ref(lead, colAbs, col, rowAbs, row), start, n) == Ref(lead, colAbs, col, rowAbs, row)
    ensures start <= row < start + n ==> ShiftRef(Ref(lead, colAbs, col, rowAbs, row), start, n) == RefError
    ensures row >= start + n && !rowAbs ==>
              ShiftRef(Ref(lead, colAbs, col, rowAbs, row), start, n) == Ref(lead, colAbs, col, false, row - n)
    ensures row >= start + n && rowAbs ==>
              ShiftRef(Ref(lead, colAbs, col, rowAbs, row), start, n) == Ref(lead, colAbs, col, true, row)
  {
  }

  /** The `#REF!` replacement swallows the lead character: with row 3 (index 2)
      deleted, `SUM(B3)` becomes `SUM#REF!)` and `A1+B3` becomes `A1#REF!`. */
  lemma RefErrorDropsLead()
    ensures ShiftFormula([Text("SUM"), Ref("(", false, 1, false, 2), Text(")")], 2, 1)
         == [Text("SUM"), RefError, Text(")")]
    ensures ShiftFormula([Ref("", false, 0, false, 0), Ref("+", false, 1, false, 2)], 2, 1)
         == [Ref("", false, 0, false, 0), RefError]
  {
  }

  // ---------------------------------------------------------------------------
  // delete_rows: the cells
  // ---------------------------------------------------------------------------

  /** The cell at `a` after the sparse branch of `delete_rows`, for a range with
      columns `sc..ec` and last row `er`, when the tail loop clears the rows
      after `tailFrom` up to `er`:
      rows `start..er-n` receive the cell `n` rows below (formula updated);
      the cleared tail is empty; rows above `start` keep their cell (formula
      updated); everything else, and every other column, is untouched. */
  function DeletedAt(cells: map<Addr, Cell>, start: nat, n: nat, sc: nat, ec: nat, er: nat,
                     tailFrom: int, a: Addr): Option<Cell>
  {
    if a.c < sc || a.c > ec then Lookup(cells, a)
    else if tailFrom < a.r <= er then None
    else if start <= a.r && a.r + n <= er then ShiftCell(Lookup(cells, Addr(a.r + n, a.c)), start, n)
    else if a.r < start then ShiftCell(Lookup(cells, a), start, n)
    else Lookup(cells, a)
  }

  /** The cells after the first loop has moved the rows `start+n..upTo-1`. */
  ghost function MovedAt(cells: map<Addr, Cell>, start: nat, n: nat, sc: nat, ec: nat, upTo: nat, a: Addr): Option<Cell>
  {
    if sc <= a.c <= ec && start <= a.r && a.r + n < upTo then ShiftCell(Lookup(cells, Addr(a.r + n, a.c)), start, n)
    else Lookup(cells, a)
  }

  /** One row of the first loop: each cell of row `row` moves to row `row - n`
      with its formula updated; an absent cell clears its target. */
  method MoveRow(cells: map<Addr, Cell>, row: nat, start: nat, n: nat, sc: nat, ec: nat)
    returns (out: map<Addr, Cell>)
    requires row >= n
    ensures forall a :: Lookup(out, a) ==
              if a.r == row - n && sc <= a.c <= ec then ShiftCell(Lookup(cells, Addr(row, a.c)), start, n)
              else Lookup(cells, a)
  {
    out := cells;
    var col := sc;
    while col <= ec
      invariant sc <= col <= ec + 1 || col == sc
      invariant forall a :: Lookup(out, a) ==
                  if a.r == row - n && sc <= a.c < col then ShiftCell(Lookup(cells, Addr(row, a.c)), start, n)
                  else Lookup(cells, a)
    {
      var addr := Addr(row, col);
      var naddr := Addr(row - n, col);
      if addr !in out {
        out := out - {naddr};
      } else {
        var cell := out[addr];
        if cell.f != [] {
          cell := cell.(f := ShiftFormula(cell.f, start, n));
        }
        out := out[naddr := cell];
      }
      col := col + 1;
    }
  }

  /** One row of the tail loop: the row's cells within the range's columns are deleted. */
  method ClearRow(cells: map<Addr, Cell>, row: nat, sc: nat, ec: nat) returns (out: map<Addr, Cell>)
    ensures forall a :: Lookup(out, a) == if a.r == row && sc <= a.c <= ec then None else Lookup(cells, a)
  {
    out := cells;
    var col := sc;
    while col <= ec
      invariant sc <= col <= ec + 1 || col == sc
      invariant forall a :: Lookup(out, a) == if a.r == row && sc <= a.c < col then None else Lookup(cells, a)
    {
      out := out - {Addr(row, col)};
      col := col + 1;
    }
  }

  /** One row of the last loop: the formulae of the row's cells are updated in place. */
  method ShiftRowFormulas(cells: map<Addr, Cell>, row: nat, start: nat, n: nat, sc: nat, ec: nat)
    returns (out: map<Addr, Cell>)
    ensures forall a :: Lookup(out, a) ==
              if a.r == row && sc <= a.c <= ec then ShiftCell(Lookup(cells, a), start, n) else Lookup(cells, a)
  {
    out := cells;
    var col := sc;
    while col <= ec
      invariant sc <= col <= ec + 1 || col == sc
      invariant forall a :: Lookup(out, a) ==
                  if a.r == row && sc <= a.c < col then ShiftCell(Lookup(cells, a), start, n) else Lookup(cells, a)
    {
      var addr := Addr(row, col);
      if addr in out && out[addr].f != [] {
        out := out[addr := out[addr].(f := ShiftFormula(out[addr].f, start, n))];
      }
      col := col + 1;
    }
  }

  /** The first loop: rows `start+n..er` move up by `n`. */
  method MoveRows(cells: map<Addr, Cell>, start: nat, n: nat, sc: nat, ec: nat, er: nat)
    returns (out: map<Addr, Cell>)
    ensures forall a {:trigger Lookup(out, a)} :: Lookup(out, a) ==
              if sc <= a.c <= ec && start <= a.r && a.r + n <= er
              then ShiftCell(Lookup(cells, Addr(a.r + n, a.c)), start, n)
              else Lookup(cells, a)
  {
    out := cells;
    var row := start + n;
    while row <= er
      invariant start + n <= row
      invariant row <= er + 1 || row == start + n
      invariant forall a :: Lookup(out, a) == MovedAt(cells, start, n, sc, ec, row, a)
    {
      ghost var prev := out;
      out := MoveRow(out, row, start, n, sc, ec);
      forall a ensures Lookup(out, a) == MovedAt(cells, start, n, sc, ec, row + 1, a) {
        MoveStep(cells, start, n, sc, ec, row, a, Lookup(prev, a), Lookup(prev, Addr(row, a.c)), Lookup(out, a));
      }
      row := row + 1;
    }
  }

  /** At one address, moving row `row` extends the rows already moved by one. */
  lemma MoveStep(cells: map<Addr, Cell>, start: nat, n: nat, sc: nat, ec: nat, row: nat, a: Addr,
                 p: Option<Cell>, q: Option<Cell>, o: Option<Cell>)
    requires start + n <= row
    requires p == MovedAt(cells, start, n, sc, ec, row, a)
    requires q == MovedAt(cells, start, n, sc, ec, row, Addr(row, a.c))
    requires o == if a.r == row - n && sc <= a.c <= ec then ShiftCell(q, start, n) else p
    ensures o == MovedAt(cells, start, n, sc, ec, row + 1, a)
  {
  }

  /** The second loop: rows `er` down to `tailFrom + 1` are emptied. */
  method ClearTail(cells: map<Addr, Cell>, sc: nat, ec: nat, er: nat, tailFrom: int)
    returns (out: map<Addr, Cell>)
    ensures forall a {:trigger Lookup(out, a)} :: Lookup(out, a) ==
              if sc <= a.c <= ec && tailFrom < a.r <= er then None else Lookup(cells, a)
  {
    out := cells;
    var r: int := er;
    while r > tailFrom
      invariant r <= er
      invariant r >= tailFrom || r == er
      invariant forall a :: Lookup(out, a) ==
                  if sc <= a.c <= ec && r < a.r <= er then None else Lookup(cells, a)
    {
      if r >= 0 {
        out := ClearRow(out, r, sc, ec);
      }
      r := r - 1;
    }
  }

  /** The third loop: the formulae of rows `0..start-1` are updated. */
  method ShiftRowsAbove(cells: map<Addr, Cell>, start: nat, n: nat, sc: nat, ec: nat)
    returns (out: map<Addr, Cell>)
    ensures forall a {:trigger Lookup(out, a)} :: Lookup(out, a) ==
              if sc <= a.c <= ec && a.r < start then ShiftCell(Lookup(cells, a), start, n) else Lookup(cells, a)
  {
    out := cells;
    var row := 0;
    while row < start
      invariant row <= start
      invariant forall a :: Lookup(out, a) ==
                  if sc <= a.c <= ec && a.r < row then ShiftCell(Lookup(cells, a), start, n) else Lookup(cells, a)
    {
      out := ShiftRowFormulas(out, row, start, n, sc, ec);
      row := row + 1;
    }
  }

  /** The three loops of the sparse branch over the cells. */
  method DeleteCells(cells: map<Addr, Cell>, start: nat, n: nat, range: Range) returns (out: map<Addr, Cell>)
    ensures forall a :: Lookup(out, a) ==
              DeletedAt(cells, start, n, range.s.c, range.e.c, range.e.r, range.e.r - n, a)
  {
    var sc, ec, er := range.s.c, range.e.c, range.e.r;
    var moved := MoveRows(cells, start, n, sc, ec, er);
    var cleared := ClearTail(moved, sc, ec, er, er - n);
    out := ShiftRowsAbove(cleared, start, n, sc, ec);
    forall a ensures Lookup(out, a) == DeletedAt(cells, start, n, sc, ec, er, er - n, a) {
      ComposePhases(cells, start, n, sc, ec, er, a, Lookup(moved, a), Lookup(cleared, a), Lookup(out, a));
    }
  }

  /** At one address, the three loops in sequence give the cell `DeletedAt` names. */
  lemma ComposePhases(cells: map<Addr, Cell>, start: nat, n: nat, sc: nat, ec: nat, er: nat, a: Addr,
                      m: Option<Cell>, c: Option<Cell>, o: Option<Cell>)
    requires m == if sc <= a.c <= ec && start <= a.r && a.r + n <= er
                  then ShiftCell(Lookup(cells, Addr(a.r + n, a.c)), start, n)
                  else Lookup(cells, a)
    requires c == if sc <= a.c <= ec && er - n < a.r <= er then None else m
    requires o == if sc <= a.c <= ec && a.r < start then ShiftCell(c, start, n) else c
    ensures o == DeletedAt(cells, start, n, sc, ec, er, er - n, a)
  {
  }

  // ---------------------------------------------------------------------------
  // delete_rows: range, merges and row properties
  // ---------------------------------------------------------------------------

  /** The new `!ref`: the end row moves up by `n`, but not above the start row,
      then the range is clamped. */
  function RangeAfterDelete(range: Range, n: nat): Range
  {
    var er := if range.e.r - n < range.s.r then range.s.r else range.e.r - n;
    ClampRange(Range(range.s, Addr(er, range.e.c)))
  }

  /** One merge after the deletion, or `None` when it is deleted: a merge
      starting at or after `start` has its start moved up (not above `start`)
      and is deleted when it ends inside the deleted rows; a merge straddling
      `start` has its end moved up (not above `start`); the result is clamped. */
  function MergeAfterDelete(m: Range, start: nat, n: nat): Option<Range>
  {
    if m.s.r >= start then
      var sr := if m.s.r - n > start then m.s.r - n else start;
      if m.e.r < start + n then None else Some(ClampRange(Range(Addr(sr, m.s.c), m.e)))
    else if m.e.r >= start then
      var er := if m.e.r - n > start then m.e.r - n else start;
      Some(ClampRange(Range(m.s, Addr(er, m.e.c))))
    else Some(ClampRange(m))
  }

  /** The `forEach` over `!merges` followed by the `filter` of deleted entries. */
  function MergesAfterDelete(ms: seq<Range>, start: nat, n: nat): seq<Range>
  {
    if ms == [] then []
    else
      MergesAfterDelete(ms[..|ms| - 1], start, n)
      + (match MergeAfterDelete(ms[|ms| - 1], start, n) case None => [] case Some(m) => [m])
  }

  /** The merge loop: each merge is updated, deleted ones are dropped. */
  method UpdateMerges(ms: seq<Range>, start: nat, n: nat) returns (out: seq<Range>)
    ensures out == MergesAfterDelete(ms, start, n)
  {
    out := [];
    var idx := 0;
    while idx < |ms|
      invariant 0 <= idx <= |ms|
      invariant out == MergesAfterDelete(ms[..idx], start, n)
    {
      assert ms[..idx + 1][..idx] == ms[..idx];
      var updated := MergeAfterDelete(ms[idx], start, n);
      if updated.Some? {
        out := out + [updated.value];
      }
      idx := idx + 1;
    }
    assert ms[..idx] == ms;
  }

  /** `rows.splice(start, n)`: the entries `start..start+n-1` that exist are removed. */
  function Splice<T>(xs: seq<T>, start: nat, n: nat): (ys: seq<T>)
    ensures |ys| == |xs| - (if start >= |xs| then 0 else if start + n > |xs| then |xs| - start else n)
    ensures forall k | 0 <= k < |ys| && k < start :: ys[k] == xs[k]
    ensures forall k | start <= k < |ys| :: ys[k] == xs[k + n]
  {
    var a := if start > |xs| then |xs| else start;
    var b := if start + n > |xs| then |xs| else start + n;
    xs[..a] + xs[b..]
  }

  /** `delete_rows(ws, start_row, nrows)`: no worksheet is an error; a falsy
      `nrows` means 1 and a falsy `start_row` means 0. */
  method DeleteRows(ws: Worksheet?, startRow: Option<nat>, nrows: Option<nat>) returns (error: Option<string>)
    modifies ws
    ensures ws == null ==> error == Some("operation expects a worksheet")
    ensures ws != null && old(ws.ref).None? ==>
              error == Some(TypeError)
              && ws.cells == old(ws.cells) && ws.ref == old(ws.ref)
              && ws.merges == old(ws.merges) && ws.rows == old(ws.rows)
    ensures ws != null && old(ws.ref).Some? ==>
              var n := if nrows.None? || nrows.value == 0 then 1 else nrows.value;
              var start := if startRow.None? then 0 else startRow.value;
              var range := old(ws.ref).value;
              && error.None?
              && (forall a :: Lookup(ws.cells, a) ==
                    DeletedAt(old(ws.cells), start, n, range.s.c, range.e.c, range.e.r, range.e.r - n, a))
              && ws.ref == Some(RangeAfterDelete(range, n))
              && ws.merges == (if old(ws.merges).Some? then Some(MergesAfterDelete(old(ws.merges).value, start, n)) else None)
              && ws.rows == (if old(ws.rows).Some? then Some(Splice(old(ws.rows).value, start, n)) else None)
  {
    if ws == null {
      return Some("operation expects a worksheet");
    }
    var n := if nrows.None? || nrows.value == 0 then 1 else nrows.value;
    var start := if startRow.None? then 0 else startRow.value;
    if ws.ref.None? {
      return Some(TypeError);
    }
    var range := ws.ref.value;
    ws.cells := DeleteCells(ws.cells, start, n, range);
    ws.ref := Some(RangeAfterDelete(range, n));
    if ws.merges.Some? {
      var ms := UpdateMerges(ws.merges.value, start, n);
      ws.merges := Some(ms);
    }
    if ws.rows.Some? {
      ws.rows := Some(Splice(ws.rows.value, start, n));
    }
    error := None;
  }

  // ---------------------------------------------------------------------------
  // delete_rows: properties
  // ---------------------------------------------------------------------------

  /** A cell below the deleted rows, inside the range, moves up by `n` rows
      with its formula updated. */
  lemma CellsBelowMoveUp(cells: map<Addr, Cell>, start: nat, n: nat, range: Range, a: Addr)
    requires n >= 1
    requires start + n <= a.r <= range.e.r && range.s.c <= a.c <= range.e.c
    ensures DeletedAt(cells, start, n, range.s.c, range.e.c, range.e.r, range.e.r - n, Addr(a.r - n, a.c))
         == ShiftCell(Lookup(cells, a), start, n)
  {
  }

  /** The last `n` rows of the range end up empty. */
  lemma TailCleared(cells: map<Addr, Cell>, start: nat, n: nat, range: Range, a: Addr)
    requires range.e.r - n < a.r <= range.e.r && range.s.c <= a.c <= range.e.c
    ensures DeletedAt(cells, start, n, range.s.c, range.e.c, range.e.r, range.e.r - n, a) == None
  {
  }

  /** Columns outside the range, and rows below both the range and `start_row`,
      are never touched. */
  lemma OutsideRangeUntouched(cells: map<Addr, Cell>, start: nat, n: nat, range: Range, a: Addr)
    requires a.c < range.s.c || a.c > range.e.c || (a.r > range.e.r && a.r >= start)
    ensures DeletedAt(cells, start, n, range.s.c, range.e.c, range.e.r, range.e.r - n, a) == Lookup(cells, a)
  {
  }

  /** References follow their cells: a relative reference to a cell below the
      deleted rows now names the row that cell moved to, and holds the same value. */
  lemma ReferencesFollowCells(cells: map<Addr, Cell>, start: nat, n: nat, range: Range,
                              lead: string, colAbs: bool, col: nat, row: nat)
    requires n >= 1
    requires start + n <= row <= range.e.r && range.s.c <= col <= range.e.c
    ensures ShiftRef(Ref(lead, colAbs, col, false, row), start, n) == Ref(lead, colAbs, col, false, row - n)
    ensures var moved := DeletedAt(cells, start, n, range.s.c, range.e.c, range.e.r, range.e.r - n, Addr(row - n, col));
            moved.Some? <==> Addr(row, col) in cells
    ensures Addr(row, col) in cells ==>
              DeletedAt(cells, start, n, range.s.c, range.e.c, range.e.r, range.e.r - n, Addr(row - n, col)).value.v
              == cells[Addr(row, col)].v
  {
  }

  /** As written, deleting rows that reach past the end of the range also
      empties rows above `start_row`: with the range ending at row 5, deleting
      three rows from row 5 clears rows 3 and 4. */
  lemma TailClearsRowsAboveStart(cell: Cell)
    ensures var cells := map[Addr(3, 0) := cell];
            Lookup(cells, Addr(3, 0)) == Some(cell)
            && DeletedAt(cells, 5, 3, 0, 0, 5, 5 - 3, Addr(3, 0)) == None
  {
  }

  /** The tail loop stopping at `start_row`: it clears rows `er-n+1..er` but
      none above `start`. */
  function TailFrom(start: nat, n: nat, er: nat): int
  {
    if er - n < start - 1 then start - 1 else er - n
  }

  /** With the tail loop bounded by `start_row`, every cell above `start_row`
      stays where it is, only its formula updated; the rows at or below it are
      as before. */
  lemma BoundedTailKeepsRowsAboveStart(cells: map<Addr, Cell>, start: nat, n: nat, range: Range, a: Addr)
    requires a.r < start
    ensures DeletedAt(cells, start, n, range.s.c, range.e.c, range.e.r, TailFrom(start, n, range.e.r), a)
         == if range.s.c <= a.c <= range.e.c then ShiftCell(Lookup(cells, a), start, n) else Lookup(cells, a)
  {
  }

  /** The bounded tail loop changes nothing at or below `start_row`. */
  lemma BoundedTailAgreesBelowStart(cells: map<Addr, Cell>, start: nat, n: nat, range: Range, a: Addr)
    requires a.r >= start
    ensures DeletedAt(cells, start, n, range.s.c, range.e.c, range.e.r, TailFrom(start, n, range.e.r), a)
         == DeletedAt(cells, start, n, range.s.c, range.e.c, range.e.r, range.e.r - n, a)
  {
  }

  /** A merge wholly inside the deleted rows is dropped; one wholly above them
      is only clamped. */
  lemma MergeFates(m: Range, start: nat, n: nat)
    ensures start <= m.s.r && m.e.r < start + n ==> MergeAfterDelete(m, start, n) == None
    ensures m.s.r <= m.e.r < start ==> MergeAfterDelete(m, start, n) == Some(ClampRange(m))
    ensures m.s.r < start <= m.e.r ==> MergeAfterDelete(m, start, n).Some?
  {
  }

  /** As written, a merge below the deleted rows keeps its end row, so it grows:
      rows 10..12, after deleting rows 2 and 3, become rows 8..12. */
  lemma MergeBelowGrows()
    ensures MergeAfterDelete(Range(Addr(10, 0), Addr(12, 0)), 2, 2) == Some(Range(Addr(8, 0), Addr(12, 0)))
  {
  }

  /** A merge after the deletion with both of its rows moved up when it lies
      below the deleted rows. */
  function MergeAfterDeleteMovingEnd(m: Range, start: nat, n: nat): Option<Range>
  {
    if m.s.r >= start then
      var sr := if m.s.r - n > start then m.s.r - n else start;
      if m.e.r < start + n then None else Some(ClampRange(Range(Addr(sr, m.s.c), Addr(m.e.r - n, m.e.c))))
    else MergeAfterDelete(m, start, n)
  }

  /** With both rows moved, a merge below the deleted rows keeps its height
      and its columns: it names the same cells after they moved. */
  lemma MovingEndKeepsHeight(m: Range, start: nat, n: nat)
    requires start + n <= m.s.r <= m.e.r <= MaxRow && m.e.c <= MaxCol
    ensures MergeAfterDeleteMovingEnd(m, start, n) == Some(Range(Addr(m.s.r - n, m.s.c), Addr(m.e.r - n, m.e.c)))
  {
  }

  /** The merges that survive are the updated originals, in their order; none
      is added. */
  lemma {:induction false} MergesShrink(ms: seq<Range>, start: nat, n: nat)
    ensures |MergesAfterDelete(ms, start, n)| <= |ms|
    ensures (forall k | 0 <= k < |ms| :: MergeAfterDelete(ms[k], start, n).Some?)
            ==> |MergesAfterDelete(ms, start, n)| == |ms|
    decreases |ms|
  {
    if ms != [] {
      var init := ms[..|ms| - 1];
      MergesShrink(init, start, n);
      assert forall k | 0 <= k < |init| :: init[k] == ms[k];
    }
  }

  // ---------------------------------------------------------------------------
  // formate_Coloumns
  // ---------------------------------------------------------------------------

  /** The cell at `a` after `formate_Coloumns(ws, col, fmt)`: an existing cell of
      column `col` below the header row, up to the range's last row, gets
      number format `fmt`. */
  function FormattedAt(cells: map<Addr, Cell>, col: nat, range: Range, fmt: string, a: Addr): Option<Cell>
  {
    if a.c == col && range.s.r < a.r <= range.e.r && a in cells then Some(cells[a].(z := Some(fmt)))
    else Lookup(cells, a)
  }

  /** `formate_Coloumns`, with the column name already decoded to its number. */
  method FormateColoumns(ws: Worksheet, col: nat, fmt: string) returns (error: Option<string>)
    modifies ws
    ensures old(ws.ref).None? ==> error == Some(TypeError) && ws.cells == old(ws.cells)
    ensures old(ws.ref).Some? ==>
              error.None? && forall a :: Lookup(ws.cells, a) == FormattedAt(old(ws.cells), col, old(ws.ref).value, fmt, a)
    ensures ws.ref == old(ws.ref) && ws.merges == old(ws.merges) && ws.rows == old(ws.rows)
  {
    if ws.ref.None? {
      return Some(TypeError);
    }
    var range := ws.ref.value;
    var cells0 := ws.cells;
    var cells := cells0;
    var i := range.s.r + 1;
    while i <= range.e.r
      invariant range.s.r + 1 <= i
      invariant forall a :: Lookup(cells, a) ==
                  if a.r < i then FormattedAt(cells0, col, range, fmt, a) else Lookup(cells0, a)
    {
      var ref := Addr(i, col);
      if ref in cells {
        cells := cells[ref := cells[ref].(z := Some(fmt))];
      }
      i := i + 1;
    }
    ws.cells := cells;
    error := None;
  }

  /** Formatting changes no cell's value or formula and adds or removes no cell. */
  lemma FormattingKeepsCells(cells: map<Addr, Cell>, col: nat, range: Range, fmt: string, a: Addr)
    ensures FormattedAt(cells, col, range, fmt, a).Some? <==> a in cells
    ensures a in cells ==> (FormattedAt(cells, col, range, fmt, a).value.v == cells[a].v
                            && FormattedAt(cells, col, range, fmt, a).value.f == cells[a].f)
    ensures a.r <= range.s.r || a.c != col ==> FormattedAt(cells, col, range, fmt, a) == Lookup(cells, a)
  {
  }

  /** Formatting a formatted sheet again with the same format changes nothing. */
  lemma FormattingIdempotent(cells: map<Addr, Cell>, formatted: map<Addr, Cell>, col: nat, range: Range,
                             fmt: string, a: Addr)
    requires Lookup(formatted, a) == FormattedAt(cells, col, range, fmt, a)
    ensures FormattedAt(formatted, col, range, fmt, a) == Lookup(formatted, a)
  {
  }
}
