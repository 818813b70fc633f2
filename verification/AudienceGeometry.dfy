/** Geometry of the audience: a staggered grid of discs, in exact reals. */
module AudienceGeometry {
  import opened RealArithmetic
  import opened Wrappers

  const COMPACTION := 0.3
  const PADDING := 0.25
  const MAX_SIZE := 128.0
  const SELECTED_BORDER := 4.0
  const SELECTED_SCALE := 1.1

  function Ceil(x: real): int { -((-x).Floor) }

  function Min(a: real, b: real): real { if a <= b then a else b }

  /** Everything calcPositions computes before it places the peers; `actualHeight` is its local. */
  datatype Layout = Layout(n: nat, rows: int, columns: int, chess: bool, cellSize: real, renderSize: real,
                           shift: real, padding: real, offsetY: real, actualHeight: real)

  /** First round: staggered if the peers do not fit in one row of approximate cells. */
  datatype Grid = Grid(chess: bool, columns: int, rows: int)

  function GridOf(n: nat, width: real, c0: real): (g: Grid)
    requires n > 0 && width > 0.0 && c0 > 0.0
    ensures g.columns >= 1 && g.rows >= 1 && n <= g.rows * g.columns && (g.rows - 1) * g.columns < n
    ensures if g.chess then g.columns < n else g.columns == n && g.rows == 1
  {
    CeilPositive(width, c0);
    var chess := Ceil(width / c0) < n;
    var columns := if chess then Ceil(width / c0) else n;
    RowsCover(n, columns);
    OneRow(n);
    Grid(chess, columns, Ceil(n as real / columns as real))
  }

  /** Second round: no bigger than the canvas, and leaving half a cell free for the stagger. */
  function FittedCell(c0: real, width: real, height: real, columns: int): (c2: real)
    requires c0 > 0.0 && width > 0.0 && height > 0.0 && columns >= 1
    ensures c2 > 0.0 && c2 * columns as real + c2 / 2.0 <= width
  {
    var c1 := Min(Min(c0, width), height / COMPACTION);
    var share := (width - c1 / 2.0) / columns as real;
    ShareFits(width - c1 / 2.0, columns as real, Min(c1, share));
    Min(c1, share)
  }

  /** Height of the compacted stack of rows. */
  function StackHeight(c: real, rows: int): real { c * StackFactor(rows) }

  function StackFactor(rows: int): (k: real)
    ensures rows >= 1 ==> k >= 1.0
  { 1.0 + (rows - 1) as real * COMPACTION }

  /** `root` stands for the square root the first round computes; nothing below needs more of it than
      that it is positive. */
  function LayoutOf(n: nat, width: real, height: real, root: real): Layout
    requires n > 0 && width > 0.0 && height > 0.0 && root > 0.0
  {
    var c0 := Min(root, MAX_SIZE);
    var g := GridOf(n, width, c0);
    Scaled(n, g, FittedCell(c0, width, height, g.columns), width, height)
  }

  /** Last scaling: compensates for the height actually taken. */
  function Scaled(n: nat, g: Grid, c2: real, width: real, height: real): Layout
    requires c2 > 0.0 && g.rows >= 1 && height > 0.0
  {
    ScaledHeight(c2, g.rows, height);
    var actualHeight := StackHeight(c2, g.rows);
    Assemble(n, g, Min(c2, c2 * height / actualHeight), actualHeight, width, height)
  }

  function Assemble(n: nat, g: Grid, c: real, actualHeight: real, width: real, height: real): Layout {
    Layout(n, g.rows, g.columns, g.chess, c,
           if g.chess then c * (1.0 - PADDING) else c * 0.95,
           if g.chess then c * 0.25 else 0.0,
           (width - c * (if g.columns <= n then g.columns else n) as real) / 2.0,
           Min((c / 2.0) * (SELECTED_SCALE - 1.0) + c * PADDING / 2.0 + SELECTED_BORDER, (height - actualHeight) / 2.0),
           actualHeight)
  }

  lemma CeilPositive(w: real, c: real)
    requires w > 0.0 && c > 0.0
    ensures Ceil(w / c) >= 1
  {
  }

  /** The cells that cover a width: enough, and not one too many. */
  lemma CeilCovers(w: real, c: real)
    requires w > 0.0 && c > 0.0
    ensures (Ceil(w / c) - 1) as real * c < w <= Ceil(w / c) as real * c
  {
    DivLess(w, c, Ceil(w / c) as real);
    DivLess(w, c, (Ceil(w / c) - 1) as real);
  }

  lemma CeilIsLeast(w: real, c: real, n: int)
    requires w > 0.0 && c > 0.0
    ensures Ceil(w / c) < n <==> w <= (n - 1) as real * c
  {
    DivLess(w, c, (n - 1) as real);
  }

  /** What the grid lookups and the hit test rely on. */
  predicate WellFormed(l: Layout) {
    && l.n > 0 && l.columns >= 1 && l.rows >= 1 && l.cellSize > 0.0
    && l.n <= l.rows * l.columns && (l.rows - 1) * l.columns < l.n
    && (if l.chess then l.columns < l.n && l.renderSize == l.cellSize * 0.75 && l.shift == l.cellSize * 0.25
        else l.columns == l.n && l.rows == 1 && l.renderSize == l.cellSize * 0.95 && l.shift == 0.0)
  }

  /* ---------- arithmetic ---------- */

  lemma SquareGrows(d: real, r: real)
    requires r > 0.0
    ensures d >= r || d <= -r ==> d * d >= r * r
  {
  }

  lemma RowsEnough(n: nat, columns: int, rows: int)
    requires columns >= 1
    ensures n as real / columns as real <= rows as real <==> n <= rows * columns
  {
  }

  lemma RowsCover(n: nat, columns: int)
    requires n > 0 && columns >= 1
    ensures var rows := Ceil(n as real / columns as real);
            rows >= 1 && n <= rows * columns && (rows - 1) * columns < n
  {
    var q := n as real / columns as real;
    assert q > 0.0 by { ShareFits(n as real, columns as real, 0.0); }
    var rows := Ceil(q);
    assert (rows - 1) as real < q <= rows as real;
    RowsEnough(n, columns, rows);
    RowsEnough(n, columns, rows - 1);
  }

  lemma OneRow(n: nat)
    requires n > 0
    ensures Ceil(n as real / n as real) == 1
  {
  }

  lemma ScaledHeight(c2: real, rows: int, height: real)
    requires c2 > 0.0 && rows >= 1 && height > 0.0
    ensures var a := StackHeight(c2, rows);
            a >= c2 > 0.0 &&
            var c := Min(c2, c2 * height / a);
            && 0.0 < c <= c2
            && StackHeight(c, rows) <= height && StackHeight(c, rows) <= a
            && (a <= height ==> c == c2)
  {
  }

  /** The layout uses the canvas as intended: the stagger fits beside the columns, the stack of rows is not
      too tall, and the vertical offset comes from the height before the last scaling. */
  predicate Fits(l: Layout, width: real, height: real) {
    && l.cellSize * l.columns as real + l.cellSize / 2.0 <= width
    && l.padding == (width - l.cellSize * l.columns as real) / 2.0
    && StackHeight(l.cellSize, l.rows) <= height && StackHeight(l.cellSize, l.rows) <= l.actualHeight
    && (l.actualHeight <= height ==> l.actualHeight == StackHeight(l.cellSize, l.rows))
    && (l.offsetY < 0.0 <==> l.actualHeight > height) && l.offsetY <= (height - l.actualHeight) / 2.0
  }

  predicate SoundGrid(n: nat, g: Grid) {
    && n > 0 && g.columns >= 1 && g.rows >= 1 && n <= g.rows * g.columns && (g.rows - 1) * g.columns < n
    && if g.chess then g.columns < n else g.columns == n && g.rows == 1
  }

  lemma AssembleIsWellFormed(n: nat, g: Grid, c: real, actualHeight: real, width: real, height: real)
    requires SoundGrid(n, g) && c > 0.0
    requires c * g.columns as real + c / 2.0 <= width
    requires StackHeight(c, g.rows) <= height && StackHeight(c, g.rows) <= actualHeight
    requires actualHeight <= height ==> actualHeight == StackHeight(c, g.rows)
    ensures var l := Assemble(n, g, c, actualHeight, width, height);
            WellFormed(l) && Fits(l, width, height)
  {
  }

  lemma ScaledIsWellFormed(n: nat, g: Grid, c2: real, width: real, height: real)
    requires SoundGrid(n, g) && c2 > 0.0 && height > 0.0
    requires c2 * g.columns as real + c2 / 2.0 <= width
    ensures var l := Scaled(n, g, c2, width, height);
            WellFormed(l) && Fits(l, width, height)
  {
    var a := StackHeight(c2, g.rows);
    ScaledHeight(c2, g.rows, height);
    var c := Min(c2, c2 * height / a);
    assert c * g.columns as real + c / 2.0 <= width by { MulMono(c, c2, g.columns as real); }
    AssembleIsWellFormed(n, g, c, a, width, height);
  }

  lemma ScaledKeepsCount(n: nat, g: Grid, c2: real, width: real, height: real)
    requires c2 > 0.0 && g.rows >= 1 && height > 0.0
    ensures Scaled(n, g, c2, width, height).n == n
  {
  }

  /** The second round keeps its promises. */
  lemma LayoutIsWellFormed(n: nat, width: real, height: real, root: real)
    requires n > 0 && width > 0.0 && height > 0.0 && root > 0.0
    ensures LayoutOf(n, width, height, root).n == n
    ensures WellFormed(LayoutOf(n, width, height, root)) && Fits(LayoutOf(n, width, height, root), width, height)
  {
    hide GridOf, FittedCell, Scaled, WellFormed, Fits, StackHeight;
    var c0 := Min(root, MAX_SIZE);
    var g := GridOf(n, width, c0);
    ScaledIsWellFormed(n, g, FittedCell(c0, width, height, g.columns), width, height);
    ScaledKeepsCount(n, g, FittedCell(c0, width, height, g.columns), width, height);
  }

  /** The layout from the values the two rounds leave behind. */
  lemma LayoutFromRounds(n: nat, width: real, height: real, root: real, g: Grid, c2: real, size: real)
    requires n > 0 && width > 0.0 && height > 0.0 && root > 0.0
    requires g == GridOf(n, width, Min(root, MAX_SIZE))
    requires c2 == FittedCell(Min(root, MAX_SIZE), width, height, g.columns)
    requires StackHeight(c2, g.rows) > 0.0 && size == Min(c2, c2 * height / StackHeight(c2, g.rows))
    ensures LayoutOf(n, width, height, root) == Assemble(n, g, size, StackHeight(c2, g.rows), width, height)
  {
    hide GridOf, FittedCell, StackHeight;
  }

  predicate IsLeast(m: real, bounds: set<real>) { m in bounds && forall b :: b in bounds ==> m <= b }

  /** Staggered exactly if n - 1 cells cover the width, and then in the least number of columns that does. */
  predicate CoversWidth(l: Layout, width: real, c0: real) {
    && (l.chess <==> width <= (l.n - 1) as real * c0)
    && (l.chess ==> (l.columns - 1) as real * c0 < width <= l.columns as real * c0)
  }

  /** The largest cell up to c1 that leaves half a c1 beside the columns. */
  predicate FillsWidth(c2: real, columns: int, width: real, c1: real) {
    c2 <= c1 && c2 * columns as real <= width - c1 / 2.0 && (c2 == c1 || c2 * columns as real == width - c1 / 2.0)
  }

  /** The cell is scaled down exactly as far as the stack of rows needs to fit the height. */
  predicate FillsHeight(l: Layout, height: real, c2: real) {
    && l.actualHeight == c2 + (l.rows - 1) as real * c2 * 0.3
    && (l.actualHeight <= height ==> l.cellSize == c2)
    && (l.actualHeight > height ==> l.cellSize + (l.rows - 1) as real * l.cellSize * 0.3 == height)
    && l.cellSize <= c2
  }

  /** What the two rounds and the last scaling come to.  The cell is as large as its bounds allow: the first
      estimate c0 by the root and 128, then c1 by the canvas, then c2 by the width, and last by the height. */
  lemma LayoutIsTight(n: nat, width: real, height: real, root: real, c0: real, c1: real, c2: real)
    requires n > 0 && width > 0.0 && height > 0.0 && root > 0.0
    requires IsLeast(c0, {root, 128.0}) && IsLeast(c1, {c0, width, height / 0.3})
    requires FillsWidth(c2, LayoutOf(n, width, height, root).columns, width, c1)
    ensures var l := LayoutOf(n, width, height, root);
            && CoversWidth(l, width, c0) && FillsHeight(l, height, c2) && l.cellSize <= 128.0
            && IsLeast(l.offsetY, {0.175 * l.cellSize + 4.0, (height - l.actualHeight) / 2.0})
  {
    hide *;
    Estimates(width, height, root, c0, c1);
    var g := GridOf(n, width, c0);
    LayoutFields(n, width, height, root, c0, g);
    GridCovers(LayoutOf(n, width, height, root), n, width, c0);
    FittedIsLargest(c0, width, height, g.columns, c1, c2);
    TightHeight(LayoutOf(n, width, height, root), c2, height);
    assert c2 <= c1 by { FilledIsSmaller(c2, g.columns, width, c1); }
  }

  lemma FilledIsSmaller(c2: real, columns: int, width: real, c1: real)
    requires FillsWidth(c2, columns, width, c1)
    ensures c2 <= c1
  {
  }

  lemma GridCovers(l: Layout, n: nat, width: real, c0: real)
    requires n > 0 && width > 0.0 && c0 > 0.0 && l.n == n
    requires l.columns == GridOf(n, width, c0).columns && l.chess == GridOf(n, width, c0).chess
    ensures CoversWidth(l, width, c0)
  {
    CeilCovers(width, c0);
    CeilIsLeast(width, c0, n);
    hide Ceil;
  }

  /** The last scaling. */
  function Shrunk(c: real, height: real, a: real): real
    requires a > 0.0
  { Min(c, c * height / a) }

  lemma TightHeight(l: Layout, c2: real, height: real)
    requires c2 > 0.0 && l.rows >= 1 && height > 0.0 && l.actualHeight == StackHeight(c2, l.rows) > 0.0
    requires l.cellSize == Shrunk(c2, height, l.actualHeight)
    ensures FillsHeight(l, height, c2) && l.cellSize <= c2
  {
    hide StackHeight;
    StackIsSum(c2, l.rows);
    StackIsSum(l.cellSize, l.rows);
    ScaledToHeight(c2, l.rows, height);
    MinIsLess(c2, c2 * height / l.actualHeight);
    hide Min;
  }

  lemma MinIsLess(a: real, b: real)
    ensures Min(a, b) <= a
  {
  }

  lemma Estimates(width: real, height: real, root: real, c0: real, c1: real)
    requires root > 0.0 && IsLeast(c0, {root, 128.0}) && IsLeast(c1, {c0, width, height / 0.3})
    ensures c0 == Min(root, MAX_SIZE) && c1 == Min(Min(c0, width), height / COMPACTION)
    ensures 0.0 < c0 <= 128.0 && c1 <= c0
  {
    assert root in {root, 128.0} && 128.0 in {root, 128.0};
    assert c0 in {c0, width, height / 0.3} && width in {c0, width, height / 0.3};
  }

  lemma LayoutFields(n: nat, width: real, height: real, root: real, c0: real, g: Grid)
    requires n > 0 && width > 0.0 && height > 0.0 && root > 0.0 && c0 > 0.0 && c0 == Min(root, MAX_SIZE)
    requires g == GridOf(n, width, c0)
    ensures var l := LayoutOf(n, width, height, root);
            var f := FittedCell(c0, width, height, g.columns);
            && l.n == n && l.columns == g.columns && l.rows == g.rows && l.chess == g.chess
            && l.actualHeight == StackHeight(f, g.rows) > 0.0
            && l.cellSize == Shrunk(f, height, l.actualHeight)
            && IsLeast(l.offsetY, {0.175 * l.cellSize + 4.0, (height - l.actualHeight) / 2.0})
  {
    hide *;
    var f := FittedCell(c0, width, height, g.columns);
    var a := StackHeight(f, g.rows);
    StackPositive(f, g.rows);
    assert Shrunk(f, height, a) == Min(f, f * height / a) by { ShrunkIs(f, height, a); }
    LayoutFromRounds(n, width, height, root, g, f, Shrunk(f, height, a));
    AssembledFields(n, g, Shrunk(f, height, a), a, width, height);
  }

  lemma ShrunkIs(c: real, height: real, a: real)
    requires a > 0.0
    ensures Shrunk(c, height, a) == Min(c, c * height / a)
  {
  }

  lemma AssembledFields(n: nat, g: Grid, c: real, a: real, width: real, height: real)
    ensures var l := Assemble(n, g, c, a, width, height);
            && l.n == n && l.columns == g.columns && l.rows == g.rows && l.chess == g.chess
            && l.actualHeight == a && l.cellSize == c
            && IsLeast(l.offsetY, {0.175 * c + 4.0, (height - a) / 2.0})
  {
  }

  lemma FittedIsLargest(c0: real, width: real, height: real, columns: int, c1: real, c2: real)
    requires c0 > 0.0 && width > 0.0 && height > 0.0 && columns >= 1
    requires c1 == Min(Min(c0, width), height / COMPACTION) && FillsWidth(c2, columns, width, c1)
    ensures FittedCell(c0, width, height, columns) == c2
  {
    var k := columns as real;
    var share := (width - c1 / 2.0) / k;
    assert share * k == width - c1 / 2.0;
    if c2 < share {
      assert c2 * k < share * k by { MulPositive(share - c2, k); }
    } else if c2 > share {
      assert c2 * k > share * k by { MulPositive(c2 - share, k); }
    }
  }

  /** The last scaling hits the height, or is not needed. */
  lemma ScaledToHeight(c2: real, rows: int, height: real)
    requires c2 > 0.0 && rows >= 1 && height > 0.0
    ensures var a := StackHeight(c2, rows);
            && a > 0.0
            && (a <= height ==> Min(c2, c2 * height / a) == c2)
            && (a > height ==> StackHeight(Min(c2, c2 * height / a), rows) == height)
  {
    ScaledHeight(c2, rows, height);
    var k := StackFactor(rows);
    var a := c2 * k;
    var c := c2 * height / a;
    assert a * c == c2 * height;
    if a > height {
      assert c <= c2;
      assert c2 * (c * k) == c2 * height;
    }
  }

  /* ---------- the grid ---------- */

  function Row(l: Layout, i: nat): int
    requires l.columns >= 1
  { i / l.columns }

  function Col(l: Layout, i: nat): int
    requires l.columns >= 1
  { i % l.columns }

  function RowShift(l: Layout, row: int): real { if row % 2 == 0 then l.shift else -l.shift }

  function X(l: Layout, row: int, col: int): real {
    col as real * l.cellSize + l.cellSize / 2.0 + l.padding + RowShift(l, row)
  }

  function Y(l: Layout, row: int): real {
    row as real * l.cellSize * COMPACTION + l.cellSize / 2.0 + l.offsetY
  }

  lemma RowShiftAlternates(l: Layout, row: int)
    ensures RowShift(l, row - 1) == -RowShift(l, row) && RowShift(l, row - 2) == RowShift(l, row)
  {
  }

  /** The index of the peer in a cell. */
  function At(l: Layout, row: int, col: int): Option<nat> {
    if row < 0 || row >= l.rows || col < 0 || col >= l.columns then None
    else
      var i := row * l.columns + col;
      if i < 0 || i >= l.n then None else Some(i)
  }

  lemma MultipleOf(d: int, k: int)
    requires k >= 1
    ensures (d >= 1 ==> d * k >= k) && (d <= -1 ==> d * k <= -k)
  {
  }

  lemma DivModUnique(i: int, k: int, q: int, r: int)
    requires k >= 1 && 0 <= r < k && i == q * k + r
    ensures i / k == q && i % k == r
  {
    assert i == (i / k) * k + i % k;
    var d := i / k - q;
    assert d * k == r - i % k;
    MultipleOf(d, k);
  }

  lemma DivBelow(i: int, k: int, q: int)
    requires k >= 1 && 0 <= i < q * k
    ensures 0 <= i / k < q
  {
  }

  lemma RowInRange(l: Layout, i: nat)
    requires WellFormed(l) && i < l.n
    ensures 0 <= Row(l, i) < l.rows
  {
    DivBelow(i, l.columns, l.rows);
  }

  /** `At` is the inverse of the placement, and hits nothing else. */
  lemma AtInvertsPlacement(l: Layout, row: int, col: int, i: nat)
    requires WellFormed(l)
    ensures At(l, row, col) == Some(i) <==> i < l.n && row == Row(l, i) && col == Col(l, i)
  {
    if At(l, row, col) == Some(i) {
      DivModUnique(i, l.columns, row, col);
    }
    if i < l.n && row == Row(l, i) && col == Col(l, i) {
      assert i == row * l.columns + col;
      RowInRange(l, i);
    }
  }

  /* ---------- the cells fit ---------- */

  /** Steps of a cell inside a run of k cells. */
  lemma ColumnSpan(col: int, k: int, c: real, start: real, run: real)
    requires 0 <= col < k && c > 0.0 && start == col as real * c && run == c * k as real
    ensures 0.0 <= start && start + c <= run
  {
    assert (k - col - 1) as real * c >= 0.0;
  }

  lemma SpanFits(start: real, c: real, run: real, shift: real, width: real)
    requires 0.0 <= start && start + c <= run && run + c / 2.0 <= width && -(c * 0.25) <= shift <= c * 0.25
    ensures var x := start + c / 2.0 + (width - run) / 2.0 + shift;
            0.0 <= x - c / 2.0 && x + c / 2.0 <= width
  {
  }

  lemma CellFitsWidth(l: Layout, i: nat, width: real, height: real)
    requires WellFormed(l) && Fits(l, width, height)
    ensures var x := X(l, Row(l, i), Col(l, i));
            0.0 <= x - l.cellSize / 2.0 && x + l.cellSize / 2.0 <= width
  {
    var start, run := Col(l, i) as real * l.cellSize, l.cellSize * l.columns as real;
    ColumnSpan(Col(l, i), l.columns, l.cellSize, start, run);
    SpanFits(start, l.cellSize, run, RowShift(l, Row(l, i)), width);
  }

  predicate CellFitsHeight(l: Layout, i: nat, height: real)
    requires l.columns >= 1
  {
    var y := Y(l, Row(l, i));
    0.0 <= y - l.cellSize / 2.0 && y + l.cellSize / 2.0 <= height
  }

  lemma StackPositive(c: real, rows: int)
    requires c > 0.0 && rows >= 1
    ensures StackHeight(c, rows) > 0.0
  {
  }

  /** The height as calcPositions adds it up. */
  lemma StackIsSum(c: real, rows: int)
    ensures StackHeight(c, rows) == c + (rows - 1) as real * c * COMPACTION
  {
  }

  lemma CellsFitHeightWhenUnscaled(l: Layout, i: nat, width: real, height: real)
    requires WellFormed(l) && Fits(l, width, height) && l.actualHeight <= height && i < l.n
    ensures CellFitsHeight(l, i, height)
  {
    RowInRange(l, i);
    StackedBelow(l.cellSize, Row(l, i), l.rows);
  }

  /** The last row ends where the stack ends. */
  lemma StackedBelow(c: real, row: int, rows: int)
    requires c > 0.0 && 0 <= row < rows
    ensures 0.0 <= row as real * c * COMPACTION && row as real * c * COMPACTION + c <= StackHeight(c, rows)
  {
    StackIsSum(c, rows);
    MulMono(0.0, row as real, c);
    MulMono(row as real, (rows - 1) as real, c);
  }

  predicate CellFitsAcross(l: Layout, i: nat, width: real)
    requires l.columns >= 1
  {
    var x := X(l, Row(l, i), Col(l, i));
    0.0 <= x - l.cellSize / 2.0 && x + l.cellSize / 2.0 <= width
  }

  /** Horizontally every cell lies inside the canvas, stagger included, and the stack of rows is never taller
      than the canvas.  It is placed inside the canvas exactly when it needed no scaling, because the offset
      is computed from the height before the last scaling. */
  ghost predicate CanvasHoldsLayout(l: Layout, width: real, height: real)
    requires l.columns >= 1
  {
    && (forall i: nat :: i < l.n ==> CellFitsAcross(l, i, width))
    && l.cellSize * (1.0 + COMPACTION * (l.rows - 1) as real) <= height
    && ((forall i: nat :: i < l.n ==> CellFitsHeight(l, i, height)) <==> l.actualHeight <= height)
  }

  lemma CellsFit(n: nat, width: real, height: real, root: real)
    requires n > 0 && width > 0.0 && height > 0.0 && root > 0.0
    ensures LayoutOf(n, width, height, root).n == n
    ensures WellFormed(LayoutOf(n, width, height, root))
    ensures CanvasHoldsLayout(LayoutOf(n, width, height, root), width, height)
  {
    LayoutIsWellFormed(n, width, height, root);
    LayoutCellsFit(LayoutOf(n, width, height, root), width, height);
  }

  lemma LayoutCellsFit(l: Layout, width: real, height: real)
    requires WellFormed(l) && Fits(l, width, height)
    ensures CanvasHoldsLayout(l, width, height)
  {
    forall i: nat | i < l.n ensures CellFitsAcross(l, i, width) {
      CellFitsWidth(l, i, width, height);
    }
    if l.actualHeight <= height {
      forall i: nat | i < l.n ensures CellFitsHeight(l, i, height) {
        CellsFitHeightWhenUnscaled(l, i, width, height);
      }
    } else {
      assert Row(l, 0) == 0 && Y(l, 0) - l.cellSize / 2.0 == l.offsetY;
      assert !CellFitsHeight(l, 0, height);
    }
  }

  /* ---------- discs ---------- */

  function DistSq(ax: real, ay: real, bx: real, by_: real): real {
    (bx - ax) * (bx - ax) + (by_ - ay) * (by_ - ay)
  }

  /** Distance of the point to peer i, squared. */
  function PeerDistSq(l: Layout, i: nat, x: real, y: real): real
    requires l.columns >= 1
  {
    DistSq(X(l, Row(l, i), Col(l, i)), Y(l, Row(l, i)), x, y)
  }

  function RadiusSq(renderSize: real): real { (renderSize / 2.0) * (renderSize / 2.0) }

  /** dist < renderSize / 2, with both sides squared. */
  predicate InDisc(l: Layout, i: nat, x: real, y: real)
    requires l.columns >= 1
  {
    PeerDistSq(l, i, x, y) < RadiusSq(l.renderSize)
  }

  lemma DiscBox(dx: real, dy: real, r: real)
    requires r > 0.0 && dx * dx + dy * dy < r * r
    ensures -r < dx < r && -r < dy < r
  {
  }

  /** A point within r cells of the middle of the cell that starts k cells away. */
  lemma NearCell(d: real, c: real, k: real, r: real)
    requires c > 0.0 && -(r * c) < d - k * c - c / 2.0 < r * c
    ensures k + 0.5 - r < d / c < k + 0.5 + r
  {
    assert (k + 0.5 - r) * c == k * c + c / 2.0 - r * c;
    assert (k + 0.5 + r) * c == k * c + c / 2.0 + r * c;
    DivLess(d, c, k + 0.5 - r);
    DivLess(d, c, k + 0.5 + r);
  }

  /** Radius of a disc, in cells. */
  function Radius(l: Layout): real { if l.chess then 0.375 else 0.475 }

  /** The lowest row the hit test looks at. */
  function Bottom(l: Layout, y: real): int
    requires l.cellSize > 0.0
  { ((y - l.offsetY) / l.cellSize / COMPACTION).Floor }

  /** The column the hit test looks at in a row of the given shift. */
  function ColumnAt(l: Layout, x: real, shift: real): int
    requires l.cellSize > 0.0
  { ((x - l.padding - shift) / l.cellSize).Floor }

  lemma OffsetsInDisc(l: Layout, i: nat, x: real, y: real)
    requires WellFormed(l) && InDisc(l, i, x, y)
    ensures l.cellSize > 0.0 && Radius(l) == (if l.chess then 0.375 else 0.475)
    ensures var c := l.cellSize;
            && -(Radius(l) * c) < x - l.padding - RowShift(l, Row(l, i)) - Col(l, i) as real * c - c / 2.0 < Radius(l) * c
            && -(Radius(l) * c) < y - l.offsetY - Row(l, i) as real * c * COMPACTION - c / 2.0 < Radius(l) * c
  {
    assert l.renderSize / 2.0 == Radius(l) * l.cellSize;
    DiscBox(x - X(l, Row(l, i), Col(l, i)), y - Y(l, Row(l, i)), l.renderSize / 2.0);
  }

  lemma WellFormedGrid(l: Layout)
    requires WellFormed(l)
    ensures l.columns >= 1 && l.cellSize > 0.0 && (!l.chess ==> l.rows == 1)
  {
  }

  lemma ColumnAtIs(l: Layout, x: real, shift: real)
    requires l.cellSize > 0.0
    ensures ColumnAt(l, x, shift) == ((x - l.padding - shift) / l.cellSize).Floor
  {
  }

  lemma BottomIs(l: Layout, y: real)
    requires l.cellSize > 0.0
    ensures Bottom(l, y) == ((y - l.offsetY) / l.cellSize / COMPACTION).Floor
  {
  }

  lemma ColumnOfDisc(l: Layout, i: nat, x: real, y: real)
    requires WellFormed(l) && InDisc(l, i, x, y)
    ensures ColumnAt(l, x, RowShift(l, Row(l, i))) == Col(l, i)
  {
    hide *;
    WellFormedGrid(l);
    OffsetsInDisc(l, i, x, y);
    ColumnAtIs(l, x, RowShift(l, Row(l, i)));
    ColumnWindow(Radius(l), Col(l, i), l.cellSize, x - l.padding - RowShift(l, Row(l, i)));
  }

  lemma ColumnWindow(r: real, col: int, c: real, d: real)
    requires c > 0.0 && 0.0 < r < 0.5
    requires -(r * c) < d - col as real * c - c / 2.0 < r * c
    ensures (d / c).Floor == col
  {
    NearCell(d, c, col as real, r);
  }

  /** In staggered mode the three rows ending at `Bottom` see every disc that contains the point; a single
      row's disc is taller than that window, and is missed from 0.9 of a cell downwards. */
  lemma RowOfDisc(l: Layout, i: nat, x: real, y: real)
    requires WellFormed(l) && i < l.n && InDisc(l, i, x, y)
    ensures var b := Bottom(l, y);
            b - 2 <= Row(l, i) <= b <==> l.chess || y - l.offsetY < 0.9 * l.cellSize
  {
    hide *;
    WellFormedGrid(l);
    var row := Row(l, i);
    RowInRange(l, i);
    OffsetsInDisc(l, i, x, y);
    BottomIs(l, y);
    RowWindow(l.chess, Radius(l), row, l.cellSize, y - l.offsetY);
  }

  lemma RowWindow(chess: bool, r: real, row: int, c: real, d: real)
    requires c > 0.0 && 0 <= row && (if chess then r == 0.375 else r == 0.475 && row == 0)
    requires -(r * c) < d - row as real * c * COMPACTION - c / 2.0 < r * c
    ensures var b := (d / c / COMPACTION).Floor;
            b - 2 <= row <= b <==> chess || d < 0.9 * c
  {
    var k := row as real * COMPACTION;
    var v := d / c;
    assert k + 0.5 - r < v < k + 0.5 + r by {
      RowTop(row, c);
      NearCell(d, c, k, r);
    }
    assert v < 0.9 <==> d < 0.9 * c by { DivLess(d, c, 0.9); }
    var q := v / COMPACTION;
    assert q * COMPACTION == v;
  }

  lemma RowTop(row: int, c: real)
    ensures row as real * COMPACTION * c == row as real * c * COMPACTION
  {
  }

  /** The cells the hit test looks at: in three rows, the column the point falls in. */
  function Candidates(l: Layout, x: real, y: real): seq<Option<nat>>
    requires l.cellSize > 0.0
  {
    var b := Bottom(l, y);
    var s := RowShift(l, b);
    [At(l, b - 2, ColumnAt(l, x, s)), At(l, b - 1, ColumnAt(l, x, -s)), At(l, b, ColumnAt(l, x, s))]
  }

  /** A peer whose disc contains the point is among the candidates, except low in a single row. */
  lemma CandidatesSeeDisc(l: Layout, i: nat, x: real, y: real)
    requires WellFormed(l) && i < l.n && InDisc(l, i, x, y)
    ensures Some(i) in Candidates(l, x, y) <==> l.chess || y - l.offsetY < 0.9 * l.cellSize
  {
    var row := Row(l, i);
    ColumnOfDisc(l, i, x, y);
    RowOfDisc(l, i, x, y);
    hide InDisc, Row, Col, RowShift, ColumnAt, Bottom, At, WellFormed;
    var b := Bottom(l, y);
    var s := RowShift(l, b);
    RowShiftAlternates(l, b);
    assert At(l, b - 2, ColumnAt(l, x, s)) == Some(i) <==> row == b - 2 by { AtInvertsPlacement(l, b - 2, ColumnAt(l, x, s), i); }
    assert At(l, b - 1, ColumnAt(l, x, -s)) == Some(i) <==> row == b - 1 by { AtInvertsPlacement(l, b - 1, ColumnAt(l, x, -s), i); }
    assert At(l, b, ColumnAt(l, x, s)) == Some(i) <==> row == b by { AtInvertsPlacement(l, b, ColumnAt(l, x, s), i); }
  }

  /** One peer on a canvas of 100 by 30: the cell is scaled from 50 down to 30, and placed from -10. */
  const LOW := Layout(1, 1, 1, false, 30.0, 28.5, 0.0, 35.0, -10.0, 50.0)

  lemma LowGrid()
    ensures GridOf(1, 100.0, 100.0) == Grid(false, 1, 1)
  {
    assert 100.0 / 100.0 == 1.0 && 1 as real / 1 as real == 1.0;
  }

  lemma LowCell()
    ensures FittedCell(100.0, 100.0, 30.0, 1) == 50.0
  {
    assert 30.0 / COMPACTION == 100.0;
    assert (100.0 - 100.0 / 2.0) / 1 as real == 50.0;
  }

  /** The first estimate is the square root the code takes. */
  lemma LowIsALayout()
    ensures 100.0 * 100.0 == (30.0 / COMPACTION) * 100.0 / 1.0
    ensures LayoutOf(1, 100.0, 30.0, 100.0) == LOW
  {
    hide GridOf, FittedCell, LayoutOf;
    LowGrid();
    LowCell();
    assert StackHeight(50.0, 1) == 50.0 && 50.0 * 30.0 / 50.0 == 30.0;
    LayoutFromRounds(1, 100.0, 30.0, 100.0, Grid(false, 1, 1), 50.0, 30.0);
    assert 30.0 * 1 as real == 30.0;
    assert Assemble(1, Grid(false, 1, 1), 30.0, 50.0, 100.0, 30.0) == LOW;
  }

  /** There a point of the canvas lies in the peer's disc and below the window, and is missed; and the cell
      starts above the canvas. */
  lemma HoverMissesLowPoint()
    ensures var l := LayoutOf(1, 100.0, 30.0, 100.0);
            && WellFormed(l) && l.actualHeight > 30.0 && !CellFitsHeight(l, 0, 30.0)
            && InDisc(l, 0, 50.0, 18.0) && Some(0) !in Candidates(l, 50.0, 18.0)
  {
    LowIsALayout();
    assert X(LOW, 0, 0) == 50.0 && Y(LOW, 0) == 5.0;
    assert InDisc(LOW, 0, 50.0, 18.0);
    CandidatesSeeDisc(LOW, 0, 50.0, 18.0);
  }

  /* ---------- overlapping neighbours ---------- */

  function BottomLeft(l: Layout, row: int, col: int): Option<nat> { At(l, row + 1, col - row % 2) }
  function BottomMiddle(l: Layout, row: int, col: int): Option<nat> { At(l, row + 2, col) }
  function BottomRight(l: Layout, row: int, col: int): Option<nat> { At(l, row + 1, col + 1 - row % 2) }

  function Overlapping(l: Layout, row: int, col: int): seq<Option<nat>> {
    [BottomLeft(l, row, col), BottomMiddle(l, row, col), BottomRight(l, row, col)]
  }

  predicate DiscsIntersect(l: Layout, i: nat, j: nat)
    requires l.columns >= 1
  {
    DistSq(X(l, Row(l, i), Col(l, i)), Y(l, Row(l, i)), X(l, Row(l, j), Col(l, j)), Y(l, Row(l, j)))
      < l.renderSize * l.renderSize
  }

  /** Distance of two centres in units of a cell, squared. */
  lemma NormalizedDistance(c: real, dx: real, dy: real, u: real, v: real, k: real)
    requires c > 0.0 && dx == u * c && dy == v * c
    ensures dx * dx + dy * dy < (c * k) * (c * k) <==> u * u + v * v < k * k
  {
    var q := PositiveProduct(c, c);
    SquareScale(u, c, dx, q);
    SquareScale(v, c, dy, q);
    SquareScale(k, c, c * k, q);
    ScaleLess(u * u + v * v, k * k, q);
  }

  lemma PositiveProduct(a: real, b: real) returns (q: real)
    requires a > 0.0 && b > 0.0
    ensures q == a * b && q > 0.0
  {
    MulPositive(a, b);
    q := a * b;
  }

  lemma SquareScale(u: real, c: real, d: real, q: real)
    requires d == u * c && q == c * c
    ensures d * d == u * u * q
  {
  }

  lemma ScaleLess(s: real, k: real, q: real)
    requires q > 0.0
    ensures s * q < k * q <==> s < k
  {
  }

  /** Distance, in cells and squared, of centres n columns and d rows apart, for a row of either parity. */
  function UnitDistSq(n: int, d: int, even: bool): real {
    var u := n as real + (if d % 2 == 0 then 0.0 else if even then -0.5 else 0.5);
    var v := d as real * COMPACTION;
    u * u + v * v
  }

  /** The same question with centres n columns and d rows apart, for a row of either parity. */
  lemma UnitsIntersect(n: int, d: int, even: bool)
    requires d >= 1
    ensures UnitDistSq(n, d, even) < 0.75 * 0.75 <==>
             (d == 1 && (n == 0 || n == if even then 1 else -1)) || (d == 2 && n == 0)
  {
    var u := n as real + (if d % 2 == 0 then 0.0 else if even then -0.5 else 0.5);
    var v := d as real * COMPACTION;
    if d >= 3 {
      SquareGrows(v, 0.9);
      assert u * u >= 0.0;
    } else {
      SquareGrows(u, 1.0);
      assert d == 1 ==> v * v == 0.09;
      assert d == 2 ==> v * v == 0.36;
      assert u == 0.5 || u == -0.5 ==> u * u == 0.25;
    }
  }

  lemma CellsIntersect(l: Layout, row: int, col: int, row': int, col': int)
    requires WellFormed(l) && l.chess && row < row'
    ensures DistSq(X(l, row, col), Y(l, row), X(l, row', col'), Y(l, row')) < l.renderSize * l.renderSize
       <==> || (row' == row + 1 && (col' == col - (row % 2) || col' == col + 1 - (row % 2)))
            || (row' == row + 2 && col' == col)
  {
    hide X, Y;
    var n, d := col' - col, row' - row;
    var u := n as real + (if d % 2 == 0 then 0.0 else if row % 2 == 0 then -0.5 else 0.5);
    var v := d as real * COMPACTION;
    CentreOffsets(l, row, col, row', col', u, v);
    NormalizedDistance(l.cellSize, X(l, row', col') - X(l, row, col), Y(l, row') - Y(l, row), u, v, 0.75);
    UnitsIntersect(n, d, row % 2 == 0);
  }

  lemma CentreOffsets(l: Layout, row: int, col: int, row': int, col': int, u: real, v: real)
    requires WellFormed(l) && l.chess
    requires u == (col' - col) as real + (if (row' - row) % 2 == 0 then 0.0 else if row % 2 == 0 then -0.5 else 0.5)
    requires v == (row' - row) as real * COMPACTION
    ensures X(l, row', col') - X(l, row, col) == u * l.cellSize
    ensures Y(l, row') - Y(l, row) == v * l.cellSize
  {
  }

  /** The three lookups used for clipping return exactly the peers in lower rows whose discs overlap the
      peer's disc, for either parity of its row. */
  lemma NeighboursAreTheOverlaps(l: Layout, i: nat, j: nat)
    requires WellFormed(l) && l.chess && i < l.n
    ensures Some(j) in Overlapping(l, Row(l, i), Col(l, i)) <==>
              j < l.n && Row(l, i) < Row(l, j) && DiscsIntersect(l, i, j)
  {
    hide X, Y, DistSq, Overlapping;
    var row, col := Row(l, i), Col(l, i);
    OverlappingCells(l, row, col, j);
    if row < Row(l, j) { CellsIntersect(l, row, col, Row(l, j), Col(l, j)); }
  }

  lemma OverlappingCells(l: Layout, row: int, col: int, j: nat)
    requires WellFormed(l)
    ensures Some(j) in Overlapping(l, row, col) <==>
              j < l.n && (|| (Row(l, j) == row + 1 && (Col(l, j) == col - row % 2 || Col(l, j) == col + 1 - row % 2))
                          || (Row(l, j) == row + 2 && Col(l, j) == col))
  {
    AtInvertsPlacement(l, row + 1, col - row % 2, j);
    AtInvertsPlacement(l, row + 2, col, j);
    AtInvertsPlacement(l, row + 1, col + 1 - row % 2, j);
  }

  /** A single row has no lower rows, and the lookups find nobody. */
  lemma SingleRowHasNoNeighbours(l: Layout, row: int, col: int)
    requires WellFormed(l) && !l.chess && row >= 0
    ensures forall p :: p in Overlapping(l, row, col) ==> p == None
  {
  }
}
