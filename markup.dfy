/** The board markup built by draw() and newButton(): one <ul> per row of
    sBoard, holding one <li> button per cell. */
module Markup {
  import opened Wire

  type Board = seq<seq<string>>

  // ---------------------------------------------------------------------
  // Decimal numerals: what JavaScript writes when a column number is
  // concatenated into the onclick attribute, and how it reads back.

  predicate IsDigit(c: char) { '0' <= c <= '9' }

  predicate AllDigits(s: string) { forall i :: 0 <= i < |s| ==> IsDigit(s[i]) }

  function Digit(d: nat): (c: char)
    requires d < 10
    ensures IsDigit(c)
  {
    ('0' as int + d) as char
  }

  function DigitValue(c: char): nat
    requires IsDigit(c)
  {
    c as int - '0' as int
  }

  /** The decimal numeral of n: never empty, only digits, and no leading zero. */
  function Decimal(n: nat): (s: string)
    ensures |s| > 0 && AllDigits(s)
    ensures s[0] == '0' <==> n == 0
    decreases n
  {
    if n < 10 then [Digit(n)] else Decimal(n / 10) + [Digit(n % 10)]
  }

  function ParseDecimal(s: string): nat
    requires AllDigits(s)
    decreases |s|
  {
    if s == [] then 0 else ParseDecimal(s[..|s| - 1]) * 10 + DigitValue(s[|s| - 1])
  }

  lemma {:induction false} ParseDecimalRoundTrip(n: nat)
    ensures ParseDecimal(Decimal(n)) == n
  {
    var s := Decimal(n);
    if n < 10 {
      assert s[..|s| - 1] == [];
    } else {
      assert s[..|s| - 1] == Decimal(n / 10);
      ParseDecimalRoundTrip(n / 10);
    }
  }

  /** The longest run of digits at the end of s. */
  function TrailingDigits(s: string): (d: string)
    ensures AllDigits(d) && |d| <= |s|
    decreases |s|
  {
    if s == [] || !IsDigit(s[|s| - 1]) then [] else TrailingDigits(s[..|s| - 1]) + [s[|s| - 1]]
  }

  lemma {:induction false} TrailingDigitsAfter(p: string, d: string)
    requires AllDigits(d)
    requires p == [] || !IsDigit(p[|p| - 1])
    ensures TrailingDigits(p + d) == d
    decreases |d|
  {
    if d == [] {
      assert p + d == p;
    } else {
      var s := p + d;
      var front := d[..|d| - 1];
      var last := d[|d| - 1];
      assert s[|s| - 1] == last;
      assert IsDigit(last);
      assert s[..|s| - 1] == p + front;
      TrailingDigitsAfter(p, front);
      assert TrailingDigits(s) == front + [last];
      assert front + [last] == d;
    }
  }

  // ---------------------------------------------------------------------
  // One button (static-files/game.js newButton)

  const ButtonOpen := "<li class=\"button "
  const ButtonMid := "\" onclick=\"clickedCol( "
  const ButtonClose := ")\"></li>"

  /** The <li> of the cell holding `cell` in column x: its class is
      "button " followed by the cell code, its onclick calls clickedCol(x). */
  function ButtonMarkup(cell: string, x: nat): string
  {
    ButtonOpen + cell + ButtonMid + Decimal(x) + ButtonClose
  }

  /** newButton(x, y): the markup opens with class "button " followed by
      the cell code board[y][x], and the numeral that closes its onclick
      reads back as x. */
  function NewButton(board: Board, x: nat, y: nat): (li: string)
    requires y < |board| && x < |board[y]|
    ensures |li| >= |ButtonOpen| + |board[y][x]|
    ensures li[..|ButtonOpen| + |board[y][x]|] == ButtonOpen + board[y][x]
    ensures OnclickColumn(li) == Some(x)
  {
    OnclickColumnOfButton(board[y][x], x);
    var li := ButtonMarkup(board[y][x], x);
    assert li == (ButtonOpen + board[y][x]) + (ButtonMid + Decimal(x) + ButtonClose);
    li
  }

  /** The column a button's onclick handler passes to clickedCol, read back
      from the end of its markup. */
  function OnclickColumn(li: string): Option<nat>
  {
    if |li| >= |ButtonClose| && li[|li| - |ButtonClose|..] == ButtonClose then
      var digits := TrailingDigits(li[..|li| - |ButtonClose|]);
      if digits == [] then None else Some(ParseDecimal(digits))
    else
      None
  }

  /** Whatever the cell code, the button in column x calls clickedCol(x). */
  lemma OnclickColumnOfButton(cell: string, x: nat)
    ensures OnclickColumn(ButtonMarkup(cell, x)) == Some(x)
  {
    var p := ButtonOpen + cell + ButtonMid;
    var li := ButtonMarkup(cell, x);
    assert li == p + Decimal(x) + ButtonClose;
    assert li[|li| - |ButtonClose|..] == ButtonClose;
    assert li[..|li| - |ButtonClose|] == p + Decimal(x);
    assert p[|p| - 1] == ' ';
    TrailingDigitsAfter(p, Decimal(x));
    ParseDecimalRoundTrip(x);
  }

  // ---------------------------------------------------------------------
  // The whole board (static-files/game.js draw), as a sequence of fragments

  datatype Fragment = RowOpen | Button(cell: string, col: nat) | RowClose

  function FragmentMarkup(f: Fragment): string
  {
    match f
    case RowOpen => "<ul>"
    case Button(cell, x) => ButtonMarkup(cell, x)
    case RowClose => "</ul>"
  }

  /** The concatenation of a sequence of strings, left to right. */
  function Join(ps: seq<string>): string
    decreases |ps|
  {
    if ps == [] then "" else Join(ps[..|ps| - 1]) + ps[|ps| - 1]
  }

  lemma {:induction false} JoinAppend(a: seq<string>, b: seq<string>)
    ensures Join(a + b) == Join(a) + Join(b)
    decreases |b|
  {
    if b == [] {
      assert a + b == a;
    } else {
      var ab := a + b;
      assert ab[..|ab| - 1] == a + b[..|b| - 1];
      JoinAppend(a, b[..|b| - 1]);
    }
  }

  function Pieces(fs: seq<Fragment>): seq<string>
  {
    seq(|fs|, i requires 0 <= i < |fs| => FragmentMarkup(fs[i]))
  }

  function Render(fs: seq<Fragment>): string
  {
    Join(Pieces(fs))
  }

  lemma RenderAppend(a: seq<Fragment>, b: seq<Fragment>)
    ensures Render(a + b) == Render(a) + Render(b)
  {
    assert Pieces(a + b) == Pieces(a) + Pieces(b);
    JoinAppend(Pieces(a), Pieces(b));
  }

  lemma RenderOne(f: Fragment)
    ensures Render([f]) == FragmentMarkup(f)
  {
    var ps := Pieces([f]);
    assert ps == [FragmentMarkup(f)];
    assert ps[..0] == [];
    assert Join(ps) == Join([]) + FragmentMarkup(f);
    assert Join([]) + FragmentMarkup(f) == FragmentMarkup(f);
  }

  /** Appending the button of column x to the buttons before it. */
  lemma RenderButtonsStep(row: seq<string>, x: nat)
    requires x < |row|
    ensures Render(RowButtons(row)[..x + 1]) == Render(RowButtons(row)[..x]) + ButtonMarkup(row[x], x)
  {
    assert RowButtons(row)[..x + 1] == RowButtons(row)[..x] + [Button(row[x], x)];
    RenderAppend(RowButtons(row)[..x], [Button(row[x], x)]);
    RenderOne(Button(row[x], x));
  }

  /** The buttons of one row, left to right, each carrying its own column. */
  function RowButtons(row: seq<string>): (fs: seq<Fragment>)
  {
    seq(|row|, x requires 0 <= x < |row| => Button(row[x], x))
  }

  function RowLayout(row: seq<string>): seq<Fragment>
  {
    [RowOpen] + RowButtons(row) + [RowClose]
  }

  /** The fragments of the board, row by row in order. */
  function Layout(board: Board): seq<Fragment>
    decreases |board|
  {
    if board == [] then [] else Layout(board[..|board| - 1]) + RowLayout(board[|board| - 1])
  }

  /** The markup draw() puts into the .board element. */
  function Canvas(board: Board): string
  {
    Render(Layout(board))
  }

  /** Where row y starts in Layout(board): every earlier row takes its cells plus <ul> and </ul>. */
  function RowStart(board: Board, y: nat): nat
    requires y <= |board|
  {
    if y == 0 then 0 else RowStart(board, y - 1) + |board[y - 1]| + 2
  }

  lemma {:induction false} RowStartPrefix(board: Board, k: nat, y: nat)
    requires y <= k <= |board|
    ensures RowStart(board[..k], y) == RowStart(board, y)
  {
    if y > 0 {
      RowStartPrefix(board, k, y - 1);
    }
  }

  /** Row y of the board occupies the fragments from RowStart(board, y) to
      RowStart(board, y + 1): a <ul>, one button per cell with column x and
      class taken from board[y][x], then a </ul>; nothing else is emitted. */
  lemma {:induction false} LayoutAt(board: Board, y: nat)
    requires y < |board|
    ensures |Layout(board)| == RowStart(board, |board|)
    ensures RowStart(board, y + 1) <= RowStart(board, |board|)
    ensures Layout(board)[RowStart(board, y)..RowStart(board, y + 1)] == RowLayout(board[y])
    decreases |board|
  {
    var n := |board|;
    var front := board[..n - 1];
    RowStartPrefix(board, n - 1, n - 1);
    if y == n - 1 {
      if n - 1 > 0 {
        LayoutAt(front, 0);
      }
    } else {
      LayoutAt(front, y);
      RowStartPrefix(board, n - 1, y);
      RowStartPrefix(board, n - 1, y + 1);
      assert front[y] == board[y];
    }
  }

  lemma CanvasExtend(board: Board, y: nat)
    requires y < |board|
    ensures Canvas(board[..y + 1]) == Canvas(board[..y]) + "<ul>" + Render(RowButtons(board[y])) + "</ul>"
  {
    var pre := board[..y + 1];
    assert pre[..|pre| - 1] == board[..y];
    RenderAppend(Layout(board[..y]), RowLayout(board[y]));
    RenderAppend([RowOpen] + RowButtons(board[y]), [RowClose]);
    RenderAppend([RowOpen], RowButtons(board[y]));
    RenderOne(RowOpen);
    RenderOne(RowClose);
  }

  /** draw()'s nested loops: the canvas string built cell by cell. */
  method BuildCanvas(board: Board) returns (canvas: string)
    ensures canvas == Canvas(board)
  {
    canvas := "";
    var y := 0;
    while y < |board|
      invariant 0 <= y <= |board|
      invariant canvas == Canvas(board[..y])
    {
      canvas := canvas + "<ul>";
      ghost var rowStart := canvas;
      var row := board[y];
      var x := 0;
      assert RowButtons(row)[..0] == [];
      assert Pieces([]) == [];
      while x < |row|
        invariant 0 <= x <= |row|
        invariant canvas == rowStart + Render(RowButtons(row)[..x])
      {
        RenderButtonsStep(row, x);
        canvas := canvas + NewButton(board, x, y);
        x := x + 1;
      }
      assert RowButtons(row)[..x] == RowButtons(row);
      canvas := canvas + "</ul>";
      CanvasExtend(board, y);
      y := y + 1;
    }
    assert board[..y] == board;
  }
}
