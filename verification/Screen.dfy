/** The terminal the renderer writes to. */
module Screen {
  // A screen of rows and a cursor that only understands relative moves, line feeds, erasures and text
  // (ECMA-48 sections 8.3.19, 8.3.22, 8.3.41, 8.3.74).

  /** A finished line together with the visible width measured for it. */
  datatype Line = Line(text: string, width: nat)

  /** What one screen row shows. Text that was not printed at the first column of a blank row,
      or that is wider than the screen, leaves the row Garbled. */
  datatype Row = Blank | Shows(line: Line) | Garbled

  datatype Column = At(col: nat) | AfterText

  datatype Op =
    | CursorUp(n: nat)
    | CursorDown(n: nat)
    | CursorColumn(n: nat)
    | CarriageReturn
    | Newline
    | EraseLine
    | ClearAll
    | Text(line: Line)

  /** `clamped` records whether some vertical cursor move ever ran into the edge of the screen. */
  datatype Terminal = Terminal(columns: nat, rows: seq<Row>, row: nat, col: Column, clamped: bool) {
    predicate Ok() { row < |rows| }
  }

  /** A parameter of 0 means the default, 1 (ECMA-48 sections 8.3.19, 8.3.22). */
  function Amount(n: nat): nat { if n == 0 then 1 else n }

  /** A line feed on the bottom row moves every row up and leaves the bottom one blank. */
  function Scrolled(rows: seq<Row>): (r: seq<Row>)
    ensures |r| == |rows|
    ensures forall i :: 0 <= i < |rows| ==> r[i] == if i + 1 < |rows| then rows[i + 1] else Blank
  {
    seq(|rows|, i requires 0 <= i < |rows| => if i + 1 < |rows| then rows[i + 1] else Blank)
  }

  /** Newline is the pair CR LF, the only way the renderer sends a line feed. */
  function Exec1(t: Terminal, op: Op): (t': Terminal)
    requires t.Ok()
    ensures t'.Ok() && |t'.rows| == |t.rows| && t'.columns == t.columns
    ensures t.clamped ==> t'.clamped
  {
    var bottom := |t.rows| - 1;
    match op
    case CursorUp(n) =>
      if Amount(n) <= t.row then t.(row := t.row - Amount(n)) else t.(row := 0, clamped := true)
    case CursorDown(n) =>
      if t.row + Amount(n) <= bottom then t.(row := t.row + Amount(n)) else t.(row := bottom, clamped := true)
    case CursorColumn(n) => t.(col := At(Amount(n) - 1))
    case CarriageReturn => t.(col := At(0))
    case Newline =>
      if t.row == bottom then t.(rows := Scrolled(t.rows), col := At(0)) else t.(row := t.row + 1, col := At(0))
    case EraseLine => t.(rows := t.rows[t.row := Blank])
    case ClearAll => t.(rows := seq(|t.rows|, i => Blank), row := 0, col := At(0))
    case Text(line) =>
      var clean := t.col == At(0) && t.rows[t.row] == Blank && line.width <= t.columns;
      t.(rows := t.rows[t.row := if clean then Shows(line) else Garbled], col := AfterText)
  }

  /** The terminal after the first k operations of a buffer. */
  function ExecFirst(t: Terminal, ops: seq<Op>, k: nat): (t': Terminal)
    requires t.Ok() && k <= |ops|
    ensures t'.Ok() && |t'.rows| == |t.rows| && t'.columns == t.columns
    ensures t.clamped ==> t'.clamped
  {
    if k == 0 then t else Exec1(ExecFirst(t, ops, k - 1), ops[k - 1])
  }

  function Exec(t: Terminal, ops: seq<Op>): (t': Terminal)
    requires t.Ok()
    ensures t'.Ok() && |t'.rows| == |t.rows| && t'.columns == t.columns
    ensures t.clamped ==> t'.clamped
  {
    ExecFirst(t, ops, |ops|)
  }

  lemma {:induction false} ExecPrefix(t: Terminal, a: seq<Op>, b: seq<Op>, k: nat)
    requires t.Ok() && k <= |a|
    ensures ExecFirst(t, a + b, k) == ExecFirst(t, a, k)
  {
    if k > 0 { ExecPrefix(t, a, b, k - 1); }
  }

  lemma {:induction false} ExecSuffix(t: Terminal, a: seq<Op>, b: seq<Op>, k: nat)
    requires t.Ok() && k <= |b|
    ensures ExecFirst(t, a + b, |a| + k) == ExecFirst(Exec(t, a), b, k)
  {
    if k == 0 { ExecPrefix(t, a, b, |a|); } else { ExecSuffix(t, a, b, k - 1); }
  }

  lemma {:induction false} ExecConcat(t: Terminal, a: seq<Op>, b: seq<Op>)
    requires t.Ok()
    ensures Exec(t, a + b) == Exec(Exec(t, a), b)
  {
    ExecSuffix(t, a, b, |b|);
  }

  /** Row k of a document of rows; past its end everything is blank. */
  function RowAt(doc: seq<Row>, k: nat): Row { if k < |doc| then doc[k] else Blank }

  function Doc(lines: seq<Line>): (doc: seq<Row>)
    ensures |doc| == |lines|
  {
    seq(|lines|, i requires 0 <= i < |lines| => Shows(lines[i]))
  }

  /** The screen shows the part of the document that starts at row `top`. */
  ghost predicate Displays(t: Terminal, top: nat, doc: seq<Row>) {
    forall s {:trigger t.rows[s]} :: 0 <= s < |t.rows| ==> t.rows[s] == RowAt(doc, top + s)
  }

  predicate Fits(lines: seq<Line>, columns: nat) {
    forall i :: 0 <= i < |lines| ==> lines[i].width <= columns
  }
}
