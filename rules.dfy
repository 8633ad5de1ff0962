/**
 * The rules a game room applies to one player's 8x8 board and ship roster:
 * parsing a placement, painting ships, resolving a shot, detecting a sunk
 * ship and detecting that no ship square is left. The rules are stated on
 * board values (`Grid`); the methods at the end do the same work in place on
 * an `array2<int>`, as the room does, and are proved against those values.
 *
 * Board codes: 0 water, 1 ship, 2 hit, 3 miss, 4 sunk. A board is indexed
 * `[row][column]`; a ship's startX is a column and its startY a row.
 */
module Rules {
  import opened Lang
  import opened Ships

  const SIZE: int := 8
  const SHIP_COUNT: int := 5
  /** Ship lengths by roster index. */
  const SHIP_SIZES: seq<int> := [2, 2, 3, 3, 4]

  const WATER: int := 0
  const SHIP: int := 1
  const HIT: int := 2
  const MISS: int := 3
  const SUNK: int := 4

  const MSG_WRONG_COUNT := "ERROR:Debes colocar exactamente 5 barcos"
  const MSG_BAD_FORMAT := "ERROR:Formato inválido de barcos"
  const MSG_BAD_COORDS := "ERROR:Coordenadas inválidas: "
  const MSG_OFF_BOARD := "ERROR:Coordenadas fuera del tablero"
  const MSG_OFF_RIGHT := "ERROR:Barco sale del tablero por la derecha"
  const MSG_OFF_BOTTOM := "ERROR:Barco sale del tablero por abajo"

  // ---------------------------------------------------------------------
  // Boards as values
  // ---------------------------------------------------------------------

  type Grid = seq<seq<int>>

  predicate OnBoard(row: int, col: int) {
    0 <= row < SIZE && 0 <= col < SIZE
  }

  predicate IsBoard(g: Grid) {
    |g| == SIZE && forall r :: 0 <= r < SIZE ==> |g[r]| == SIZE
  }

  /** The cell value, and 0 off the board. */
  function Get(g: Grid, row: int, col: int): int {
    if IsBoard(g) && OnBoard(row, col) then g[row][col] else 0
  }

  /** The board whose every cell is `f(row, col)`. */
  function Tabulate(f: (int, int) -> int): (g: Grid)
    ensures IsBoard(g)
    ensures forall r, c :: OnBoard(r, c) ==> g[r][c] == f(r, c)
  {
    seq(SIZE, r => seq(SIZE, c => f(r, c)))
  }

  /** Boards are equal when they agree cell by cell. */
  lemma GridExt(g: Grid, h: Grid)
    requires IsBoard(g) && IsBoard(h)
    requires forall r, c :: OnBoard(r, c) ==> g[r][c] == h[r][c]
    ensures g == h
  {
    forall r | 0 <= r < SIZE ensures g[r] == h[r] {
      assert forall c :: 0 <= c < SIZE ==> g[r][c] == h[r][c];
    }
  }

  function Empty(): (g: Grid)
    ensures IsBoard(g) && forall r, c :: OnBoard(r, c) ==> g[r][c] == WATER
  {
    Tabulate((r, c) => WATER)
  }

  function Set(g: Grid, row: int, col: int, v: int): (h: Grid)
    requires IsBoard(g) && OnBoard(row, col)
    ensures IsBoard(h)
    ensures forall r, c :: OnBoard(r, c) ==> h[r][c] == if (r, c) == (row, col) then v else g[r][c]
  {
    Tabulate((r, c) => if (r, c) == (row, col) then v else Get(g, r, c))
  }

  /** Writes `v` on every square of `s` that is on the board. */
  function Mark(g: Grid, s: Shape, v: int): (h: Grid)
    requires IsBoard(g)
    ensures IsBoard(h)
    ensures forall r, c :: OnBoard(r, c) ==> h[r][c] == if Covers(s, r, c) then v else g[r][c]
  {
    Tabulate((r, c) => if Covers(s, r, c) then v else Get(g, r, c))
  }

  /** Some cell still holds an unhit ship square. */
  ghost predicate ShipsLeft(g: Grid)
    requires IsBoard(g)
  {
    exists r, c :: OnBoard(r, c) && g[r][c] == SHIP
  }

  // ---------------------------------------------------------------------
  // Where a ship may lie
  // ---------------------------------------------------------------------

  /** Every square of the ship is on the board. */
  predicate WithinBoard(s: Shape) {
    forall i :: 0 <= i < s.length ==> OnBoard(Cell(s, i).0, Cell(s, i).1)
  }

  /** The three checks the server makes before it writes a ship. */
  predicate Anchored(s: Shape) {
    && OnBoard(s.startY, s.startX)
    && !(s.orientation == 0 && s.startX + s.length > SIZE)
    && !(s.orientation == 1 && s.startY + s.length > SIZE)
  }

  /** For a ship of positive length, lying on the board is a condition on its two ends. */
  lemma WithinBoardClosedForm(s: Shape)
    requires s.length >= 1
    ensures WithinBoard(s) <==>
      OnBoard(s.startY, s.startX)
      && (s.orientation == 0 ==> s.startX + s.length <= SIZE)
      && (s.orientation != 0 ==> s.startY + s.length <= SIZE)
  {
    if WithinBoard(s) {
      assert OnBoard(Cell(s, 0).0, Cell(s, 0).1);
      assert OnBoard(Cell(s, s.length - 1).0, Cell(s, s.length - 1).1);
    }
  }

  /**
   * The checks let through exactly the ships on the board, except those whose
   * orientation is neither 0 nor 1: the server then draws them downwards
   * with no length check.
   */
  lemma AnchoredWithinBoard(s: Shape)
    requires s.length >= 1
    requires s.orientation == 0 || s.orientation == 1
    ensures Anchored(s) <==> WithinBoard(s)
  {
    WithinBoardClosedForm(s);
  }

  // ---------------------------------------------------------------------
  // Parsing one `x,y,o` entry of a placement
  // ---------------------------------------------------------------------

  /** The three numbers of an entry, if it has exactly three fields that all parse. */
  function Triple(text: string): Option<(int, int, int)> {
    var c := Split(text, ',');
    if |c| != 3 then None
    else
      match (ParseInt(c[0]), ParseInt(c[1]), ParseInt(c[2]))
      case (Some(x), Some(y), Some(o)) => Some((x, y, o))
      case _ => None
  }

  /** The ship entry `index` describes, before any range check. */
  function Candidate(index: nat, text: string): Option<Shape>
    requires index < |SHIP_SIZES|
  {
    match Triple(text)
    case None => None
    case Some((x, y, o)) => Some(Shape(SHIP_SIZES[index], x, y, o))
  }

  /** What the server makes of one entry. */
  datatype Entry =
    | BadFormat        // not exactly three comma-separated fields
    | BadNumber        // a field that is not an int
    | OffBoard         // origin off the board
    | OffRight         // horizontal and too long for its row
    | OffBottom        // vertical and too long for its column
    | Fits(shape: Shape)
    | Overflows(shape: Shape)  // another orientation, running past the last row

  /**
   * One entry, checked in the server's order: field count, numbers, origin,
   * then the right and bottom edges for orientations 0 and 1.
   */
  function ParseEntry(index: nat, text: string): (e: Entry)
    requires index < |SHIP_SIZES|
    ensures (e.Fits? || e.Overflows?) ==> e.shape.length == SHIP_SIZES[index] && Anchored(e.shape)
    ensures e.Fits? ==> WithinBoard(e.shape)
    ensures e.Overflows? ==> !WithinBoard(e.shape) && e.shape.orientation != 0 && e.shape.orientation != 1
  {
    var coords := Split(text, ',');
    if |coords| != 3 then BadFormat
    else
      match Triple(text)
      case None => BadNumber
      case Some((x, y, o)) =>
        var s := Shape(SHIP_SIZES[index], x, y, o);
        WithinBoardClosedForm(s);
        if x < 0 || x >= SIZE || y < 0 || y >= SIZE then OffBoard
        else if o == 0 && x + s.length > SIZE then OffRight
        else if o == 1 && y + s.length > SIZE then OffBottom
        else if o != 0 && y + s.length > SIZE then Overflows(s)
        else Fits(s)
  }

  /** Which entries the server accepts, and why it rejects the others. */
  lemma ParseEntryMeaning(index: nat, text: string)
    requires index < |SHIP_SIZES|
    ensures var e := ParseEntry(index, text);
      var cand := Candidate(index, text);
      && (e == BadFormat <==> |Split(text, ',')| != 3)
      && (e == BadNumber <==> |Split(text, ',')| == 3 && Triple(text).None?)
      && (e.Fits? <==> cand.Some? && WithinBoard(cand.value))
      && (e.Overflows? <==> cand.Some? && Anchored(cand.value) && !WithinBoard(cand.value))
      && ((e.Fits? || e.Overflows?) ==> Some(e.shape) == cand)
      && (e == OffBoard <==> cand.Some? && !OnBoard(cand.value.startY, cand.value.startX))
      && (e == OffRight <==>
            cand.Some? && OnBoard(cand.value.startY, cand.value.startX)
            && cand.value.orientation == 0 && !WithinBoard(cand.value))
      && (e == OffBottom <==>
            cand.Some? && OnBoard(cand.value.startY, cand.value.startX)
            && cand.value.orientation == 1 && !WithinBoard(cand.value))
  {
    var cand := Candidate(index, text);
    if cand.Some? {
      WithinBoardClosedForm(cand.value);
    }
  }

  /** The server reads back the `x,y,o` text of any ship that lies on the board. */
  lemma ParseEntryOfProtocolText(index: nat, s: Shape)
    requires index < |SHIP_SIZES| && s.length == SHIP_SIZES[index]
    requires WithinBoard(s) && IsInt32(s.orientation)
    ensures ParseEntry(index, ProtocolText(s)) == Fits(s)
  {
    WithinBoardClosedForm(s);
    ProtocolTextRoundTrip(s);
  }

  /** The reply for an entry that stops the placement. */
  function RejectionLine(e: Entry, text: string): string
    requires !e.Fits?
  {
    match e
    case BadFormat => MSG_BAD_FORMAT
    case BadNumber => MSG_BAD_COORDS + text
    case OffBoard => MSG_OFF_BOARD
    case OffRight => MSG_OFF_RIGHT
    case OffBottom => MSG_OFF_BOTTOM
    case Overflows(_) => MSG_BAD_COORDS + text
  }

  // ---------------------------------------------------------------------
  // A whole placement
  // ---------------------------------------------------------------------

  /** Ship `t` of the roster covers (row, col). */
  predicate Painted(ships: seq<Shape>, row: int, col: int) {
    exists t :: 0 <= t < |ships| && Covers(ships[t], row, col)
  }

  lemma PaintedAppend(ships: seq<Shape>, s: Shape, row: int, col: int)
    ensures Painted(ships + [s], row, col) <==> Painted(ships, row, col) || Covers(s, row, col)
  {
    var all := ships + [s];
    if Painted(all, row, col) {
      var t :| 0 <= t < |all| && Covers(all[t], row, col);
      if t < |ships| {
        assert all[t] == ships[t];
      }
    }
    if Painted(ships, row, col) {
      var t :| 0 <= t < |ships| && Covers(ships[t], row, col);
      assert all[t] == ships[t];
    }
    if Covers(s, row, col) {
      assert all[|ships|] == s;
    }
  }

  /** The verdict on every entry, in order. */
  function Classify(entries: seq<string>): (es: seq<Entry>)
    requires |entries| <= |SHIP_SIZES|
    ensures |es| == |entries|
    ensures forall j :: 0 <= j < |es| ==> es[j] == ParseEntry(j, entries[j])
  {
    seq(|entries|, j requires 0 <= j < |entries| => ParseEntry(j, entries[j]))
  }

  /** The first of the first `n` verdicts that is not an acceptance, or `n` if there is none. */
  function FirstRejected(es: seq<Entry>, n: nat): (k: nat)
    requires n <= |es|
    ensures k <= n
    ensures forall j :: 0 <= j < k ==> es[j].Fits?
    ensures k < n ==> !es[k].Fits?
  {
    if n == 0 then 0
    else
      var k := FirstRejected(es, n - 1);
      if k < n - 1 then k
      else if es[n - 1].Fits? then n
      else n - 1
  }

  /** What the room holds after processing entries one by one. */
  datatype Build = Build(ships: seq<Shape>, grid: Grid, error: Option<string>)

  /**
   * The roster, board and reply after the first `n` entries (`texts`, with
   * their verdicts `es`), starting from a cleared board. Processing stops at
   * the first rejected entry; the ships before it stay on the board, and an
   * overflowing ship is kept in the roster with the squares it had drawn
   * before running off the board.
   */
  function Run(es: seq<Entry>, texts: seq<string>, n: nat): (b: Build)
    requires n <= |es| == |texts|
    ensures IsBoard(b.grid)
  {
    if n == 0 then Build([], Empty(), None)
    else
      var prev := Run(es, texts, n - 1);
      if prev.error.Some? then prev
      else
        var e := es[n - 1];
        match e
        case Fits(s) => Build(prev.ships + [s], Mark(prev.grid, s, SHIP), None)
        case Overflows(s) => Build(prev.ships + [s], Mark(prev.grid, s, SHIP), Some(RejectionLine(e, texts[n - 1])))
        case _ => Build(prev.ships, prev.grid, Some(RejectionLine(e, texts[n - 1])))
  }

  /**
   * What the entry loop leaves: the board shows exactly the kept ships, each
   * kept ship is the shape of its own entry, and the first rejected entry
   * decides the reply and whether its ship is kept.
   */
  lemma RunMeaning(es: seq<Entry>, texts: seq<string>, n: nat)
    requires n <= |es| == |texts|
    ensures var b := Run(es, texts, n);
      && |b.ships| <= n
      && (forall r, c :: OnBoard(r, c) ==> b.grid[r][c] == if Painted(b.ships, r, c) then SHIP else WATER)
      && (forall j :: 0 <= j < |b.ships| ==> (es[j].Fits? || es[j].Overflows?) && b.ships[j] == es[j].shape)
      && var k := FirstRejected(es, n);
      && (b.error.None? <==> k == n)
      && (k == n ==> |b.ships| == n)
      && (k < n ==> |b.ships| == if es[k].Overflows? then k + 1 else k)
      && (k < n ==> b.error == Some(RejectionLine(es[k], texts[k])))
  {
    RunShapes(es, texts, n);
    RunGrid(es, texts, n);
    RunVerdict(es, texts, n);
  }

  /** The board after the entry loop shows a ship square exactly where a kept ship lies. */
  lemma {:induction false} RunGrid(es: seq<Entry>, texts: seq<string>, n: nat)
    requires n <= |es| == |texts|
    ensures var b := Run(es, texts, n);
      forall r, c :: OnBoard(r, c) ==> b.grid[r][c] == if Painted(b.ships, r, c) then SHIP else WATER
  {
    if n > 0 {
      RunGrid(es, texts, n - 1);
      var prev := Run(es, texts, n - 1);
      if prev.error.None? {
        var e := es[n - 1];
        if e.Fits? || e.Overflows? {
          var b := Run(es, texts, n);
          assert b.ships == prev.ships + [e.shape] && b.grid == Mark(prev.grid, e.shape, SHIP);
          forall r, c | OnBoard(r, c) ensures b.grid[r][c] == if Painted(b.ships, r, c) then SHIP else WATER {
            PaintedAppend(prev.ships, e.shape, r, c);
          }
        }
      }
    }
  }

  /** The first rejected entry decides the reply and how many ships are kept. */
  lemma {:induction false} RunVerdict(es: seq<Entry>, texts: seq<string>, n: nat)
    requires n <= |es| == |texts|
    ensures var b := Run(es, texts, n);
      var k := FirstRejected(es, n);
      && (b.error.None? <==> k == n)
      && (k == n ==> |b.ships| == n)
      && (k < n ==> |b.ships| == if es[k].Overflows? then k + 1 else k)
      && (k < n ==> b.error == Some(RejectionLine(es[k], texts[k])))
  {
    if n > 0 {
      RunVerdict(es, texts, n - 1);
    }
  }

  /** Every ship the entry loop keeps is the shape of the accepted or overflowing entry at its own position. */
  lemma {:induction false} RunShapes(es: seq<Entry>, texts: seq<string>, n: nat)
    requires n <= |es| == |texts|
    ensures var b := Run(es, texts, n);
      && |b.ships| <= n
      && (b.error.None? ==> |b.ships| == n)
      && forall j :: 0 <= j < |b.ships| ==> (es[j].Fits? || es[j].Overflows?) && b.ships[j] == es[j].shape
  {
    if n > 0 {
      RunShapes(es, texts, n - 1);
    }
  }

  /** One more entry after an unrejected prefix, as the loop body of placeShips sees it. */
  lemma RunStep(es: seq<Entry>, texts: seq<string>, n: nat)
    requires n < |es| == |texts|
    requires Run(es, texts, n).error.None?
    ensures var prev := Run(es, texts, n);
      var e := es[n];
      Run(es, texts, n + 1) ==
        if e.Fits? then Build(prev.ships + [e.shape], Mark(prev.grid, e.shape, SHIP), None)
        else if e.Overflows? then
          Build(prev.ships + [e.shape], Mark(prev.grid, e.shape, SHIP), Some(RejectionLine(e, texts[n])))
        else Build(prev.ships, prev.grid, Some(RejectionLine(e, texts[n])))
  {
  }

  /** Once an entry is rejected, later entries change nothing. */
  lemma {:induction false} RunRejected(es: seq<Entry>, texts: seq<string>, m: nat, n: nat)
    requires m <= n <= |es| == |texts|
    requires Run(es, texts, m).error.Some?
    ensures Run(es, texts, n) == Run(es, texts, m)
    decreases n - m
  {
    if m < n {
      RunRejected(es, texts, m, n - 1);
    }
  }

  /** The outcome of the entry loop of placeShips over five entries. */
  function Placement(entries: seq<string>): Build
    requires |entries| == SHIP_COUNT
  {
    Run(Classify(entries), entries, |entries|)
  }

  /**
   * A placement that is accepted in full: five ships of the prescribed
   * lengths, all on the board, and the board shows exactly their squares.
   */
  lemma AcceptedPlacement(entries: seq<string>)
    requires |entries| == SHIP_COUNT
    requires Placement(entries).error.None?
    ensures var b := Placement(entries);
      && |b.ships| == SHIP_COUNT
      && (forall j :: 0 <= j < SHIP_COUNT ==>
            ParseEntry(j, entries[j]) == Fits(b.ships[j])
            && b.ships[j].length == SHIP_SIZES[j] && WithinBoard(b.ships[j]))
      && (forall r, c :: OnBoard(r, c) ==> (b.grid[r][c] == SHIP <==> Painted(b.ships, r, c)))
      && (forall r, c :: OnBoard(r, c) ==> b.grid[r][c] == SHIP || b.grid[r][c] == WATER)
  {
    var es := Classify(entries);
    RunMeaning(es, entries, SHIP_COUNT);
    assert FirstRejected(es, SHIP_COUNT) == SHIP_COUNT;
  }

  /**
   * A placement rejected at entry `k` keeps the ships of entries 0..k-1 (and
   * an overflowing ship `k`), each where its entry put it, and the board shows
   * exactly the squares of the kept ships.
   */
  lemma RejectedPlacementKeepsPrefix(entries: seq<string>)
    requires |entries| == SHIP_COUNT
    requires Placement(entries).error.Some?
    ensures var k := FirstRejected(Classify(entries), SHIP_COUNT);
      var b := Placement(entries);
      && k < SHIP_COUNT
      && !ParseEntry(k, entries[k]).Fits?
      && b.error == Some(RejectionLine(ParseEntry(k, entries[k]), entries[k]))
      && k <= |b.ships|
      && b.ships[..k] == seq(k, j requires 0 <= j < k => ParseEntry(j, entries[j]).shape)
      && (|b.ships| == k + 1 <==> ParseEntry(k, entries[k]).Overflows?)
      && (forall r, c :: OnBoard(r, c) ==> (b.grid[r][c] == SHIP <==> Painted(b.ships, r, c)))
  {
    var es := Classify(entries);
    RunMeaning(es, entries, SHIP_COUNT);
    var k := FirstRejected(es, SHIP_COUNT);
    var b := Placement(entries);
    assert b.ships[..k] == seq(k, j requires 0 <= j < k => ParseEntry(j, entries[j]).shape);
  }

  /** Every ship of the roster has its origin on the board and a positive length. */
  predicate RosterOk(ships: seq<Shape>) {
    forall j :: 0 <= j < |ships| ==> Anchored(ships[j]) && ships[j].length >= 1
  }

  /** Whatever the entries, every ship a placement keeps is anchored on the board and has a positive length. */
  lemma PlacementAnchored(entries: seq<string>)
    requires |entries| == SHIP_COUNT
    ensures RosterOk(Placement(entries).ships)
  {
    var es := Classify(entries);
    RunShapes(es, entries, SHIP_COUNT);
    var ships := Placement(entries).ships;
    forall j | 0 <= j < |ships| ensures Anchored(ships[j]) && ships[j].length >= 1 {
      EntryAnchored(j, entries[j]);
      assert ships[j] == es[j].shape && es[j] == ParseEntry(j, entries[j]);
    }
  }

  lemma EntryAnchored(index: nat, text: string)
    requires index < |SHIP_SIZES|
    ensures var e := ParseEntry(index, text);
      (e.Fits? || e.Overflows?) ==> Anchored(e.shape) && e.shape.length >= 1
  {
    var e := ParseEntry(index, text);
    assert SHIP_SIZES[index] >= 2;
  }

  // ---------------------------------------------------------------------
  // Shots, sunk ships
  // ---------------------------------------------------------------------

  /** The first roster ship lying on (row, col). */
  function FirstCovering(ships: seq<Shape>, row: int, col: int): (k: Option<nat>)
    ensures k.Some? ==> k.value < |ships| && Covers(ships[k.value], row, col)
    ensures k.Some? ==> forall j :: 0 <= j < k.value ==> !Covers(ships[j], row, col)
    ensures k.None? ==> forall j :: 0 <= j < |ships| ==> !Covers(ships[j], row, col)
  {
    if |ships| == 0 then None
    else if Covers(ships[0], row, col) then Some(0)
    else
      match FirstCovering(ships[1..], row, col)
      case None => None
      case Some(k) => Some(k + 1)
  }

  /** The result of walking a ship's squares looking for one that is not hit. */
  datatype Scan = AllHit | NotAllHit | OutOfRange

  /** Squares `i`, `i+1`, ... in order: the first off-board square or unhit square decides. */
  function ScanFrom(g: Grid, s: Shape, i: int): Scan
    requires IsBoard(g)
    decreases s.length - i
  {
    if i >= s.length then AllHit
    else
      var rc := Cell(s, i);
      if !OnBoard(rc.0, rc.1) then OutOfRange
      else if g[rc.0][rc.1] != HIT then NotAllHit
      else ScanFrom(g, s, i + 1)
  }

  /** Every square of the ship lies on the board and is hit. */
  predicate WhollyHit(g: Grid, s: Shape)
    requires IsBoard(g)
  {
    forall i :: 0 <= i < s.length ==>
      OnBoard(Cell(s, i).0, Cell(s, i).1) && g[Cell(s, i).0][Cell(s, i).1] == HIT
  }

  lemma {:induction false} ScanFromAllHit(g: Grid, s: Shape, i: int)
    requires IsBoard(g) && 0 <= i
    ensures ScanFrom(g, s, i) == AllHit <==>
      forall k :: i <= k < s.length ==>
        OnBoard(Cell(s, k).0, Cell(s, k).1) && g[Cell(s, k).0][Cell(s, k).1] == HIT
    decreases s.length - i
  {
    if i < s.length {
      ScanFromAllHit(g, s, i + 1);
    }
  }

  lemma {:induction false} ScanFromInBoard(g: Grid, s: Shape, i: int)
    requires IsBoard(g) && 0 <= i && WithinBoard(s)
    ensures ScanFrom(g, s, i) != OutOfRange
    decreases s.length - i
  {
    if i < s.length {
      ScanFromInBoard(g, s, i + 1);
    }
  }

  /** What checking for a sunk ship does to the board, and what it reports. */
  datatype Sinking = Sinking(grid: Grid, sunk: Option<Shape>, fault: bool)

  /**
   * The first ship on the hit square sinks when all its squares are hit: they
   * are marked sunk. A square off the board met before an unhit one is an
   * indexing fault.
   */
  function Sink(g: Grid, ships: seq<Shape>, row: int, col: int): (r: Sinking)
    requires IsBoard(g)
    ensures IsBoard(r.grid)
    ensures !(r.sunk.Some? && r.fault)
  {
    match FirstCovering(ships, row, col)
    case None => Sinking(g, None, false)
    case Some(k) =>
      match ScanFrom(g, ships[k], 0)
      case AllHit => Sinking(Mark(g, ships[k], SUNK), Some(ships[k]), false)
      case NotAllHit => Sinking(g, None, false)
      case OutOfRange => Sinking(g, None, true)
  }

  /**
   * A ship is reported sunk exactly when it is the first ship on the hit
   * square and all its squares are hit; then, and only then, the board
   * changes, and only on that ship's squares.
   */
  lemma SinkMeaning(g: Grid, ships: seq<Shape>, row: int, col: int)
    requires IsBoard(g)
    ensures var r := Sink(g, ships, row, col);
      var k := FirstCovering(ships, row, col);
      && (r.sunk.Some? <==> k.Some? && WhollyHit(g, ships[k.value]))
      && (r.sunk.Some? ==> r.sunk.value == ships[k.value])
      && (r.sunk.Some? ==> forall rr, cc :: OnBoard(rr, cc) ==>
            r.grid[rr][cc] == if Covers(ships[k.value], rr, cc) then SUNK else g[rr][cc])
      && (r.sunk.None? ==> r.grid == g)
  {
    var k := FirstCovering(ships, row, col);
    if k.Some? {
      ScanFromAllHit(g, ships[k.value], 0);
    }
  }

  /** A fault needs a roster ship that the placement checks let run off the board. */
  lemma SinkFaultNeedsOddOrientation(g: Grid, ships: seq<Shape>, row: int, col: int)
    requires IsBoard(g)
    requires RosterOk(ships)
    requires Sink(g, ships, row, col).fault
    ensures var k := FirstCovering(ships, row, col);
      k.Some? && ships[k.value].orientation != 0 && ships[k.value].orientation != 1
  {
    var k := FirstCovering(ships, row, col);
    var s := ships[k.value];
    if s.orientation == 0 || s.orientation == 1 {
      AnchoredWithinBoard(s);
      ScanFromInBoard(g, s, 0);
    }
  }

  /** The board-level effect of an accepted shot. */
  datatype Strike = Strike(grid: Grid, hit: bool, sunk: Option<Shape>, fault: bool)

  /**
   * A shot at a square that holds no hit, miss or sunk mark: a ship square
   * becomes hit and is checked for a sunk ship, anything else becomes a miss.
   */
  function Fire(g: Grid, ships: seq<Shape>, row: int, col: int): (r: Strike)
    requires IsBoard(g) && OnBoard(row, col) && g[row][col] < HIT
    ensures IsBoard(r.grid)
    ensures r.hit <==> g[row][col] == SHIP
    ensures !r.hit ==> r.grid == Set(g, row, col, MISS) && r.sunk.None? && !r.fault
  {
    if g[row][col] == SHIP then
      var s := Sink(Set(g, row, col, HIT), ships, row, col);
      Strike(s.grid, true, s.sunk, s.fault)
    else
      Strike(Set(g, row, col, MISS), false, None, false)
  }

  /**
   * A shot changes only its own square and, when it sinks a ship, that ship's
   * squares. The shot square ends hit, miss or sunk.
   */
  lemma FireFrame(g: Grid, ships: seq<Shape>, row: int, col: int)
    requires IsBoard(g) && OnBoard(row, col) && g[row][col] < HIT
    ensures var r := Fire(g, ships, row, col);
      && (forall rr, cc ::
            (OnBoard(rr, cc) && (rr, cc) != (row, col) && !(r.sunk.Some? && Covers(r.sunk.value, rr, cc)))
            ==> r.grid[rr][cc] == g[rr][cc])
      && r.grid[row][col] == (if !r.hit then MISS else if r.sunk.Some? then SUNK else HIT)
  {
    var r := Fire(g, ships, row, col);
    if r.hit {
      var h := Set(g, row, col, HIT);
      SinkMeaning(h, ships, row, col);
    }
  }

  /**
   * A sunk ship lies on the shot square, and each of its other squares had
   * already been hit before the shot.
   */
  lemma FireSinksOnlyWholeShips(g: Grid, ships: seq<Shape>, row: int, col: int)
    requires IsBoard(g) && OnBoard(row, col) && g[row][col] < HIT
    requires Fire(g, ships, row, col).sunk.Some?
    ensures var s := Fire(g, ships, row, col).sunk.value;
      && s == ships[FirstCovering(ships, row, col).value]
      && Covers(s, row, col)
      && g[row][col] == SHIP
      && forall i :: 0 <= i < s.length ==>
           OnBoard(Cell(s, i).0, Cell(s, i).1)
           && (Cell(s, i) == (row, col) || g[Cell(s, i).0][Cell(s, i).1] == HIT)
  {
    var h := Set(g, row, col, HIT);
    SinkMeaning(h, ships, row, col);
  }

  /** A miss leaves every ship square standing, so it never ends the game. */
  lemma MissKeepsShipsLeft(g: Grid, ships: seq<Shape>, row: int, col: int)
    requires IsBoard(g) && OnBoard(row, col) && g[row][col] < HIT
    requires !Fire(g, ships, row, col).hit
    ensures ShipsLeft(Fire(g, ships, row, col).grid) <==> ShipsLeft(g)
  {
    var h := Fire(g, ships, row, col).grid;
    if ShipsLeft(g) {
      var r, c :| OnBoard(r, c) && g[r][c] == SHIP;
      assert h[r][c] == SHIP;
    }
    if ShipsLeft(h) {
      var r, c :| OnBoard(r, c) && h[r][c] == SHIP;
      assert g[r][c] == SHIP;
    }
  }

  // ---------------------------------------------------------------------
  // The same work in place on an array
  // ---------------------------------------------------------------------

  predicate IsBoardArray(b: array2<int>) {
    b.Length0 == SIZE && b.Length1 == SIZE
  }

  /** The value an 8x8 array holds. */
  function GridOf(b: array2<int>): (g: Grid)
    reads b
    requires IsBoardArray(b)
    ensures IsBoard(g)
    ensures forall r, c {:trigger g[r][c]} :: OnBoard(r, c) ==> g[r][c] == b[r, c]
  {
    seq(SIZE, r reads b requires 0 <= r < SIZE => seq(SIZE, c reads b requires 0 <= c < SIZE => b[r, c]))
  }

  /** Part of placeShips: every cell back to water. */
  method ClearBoard(b: array2<int>)
    requires IsBoardArray(b)
    modifies b
    ensures GridOf(b) == Empty()
  {
    for i := 0 to SIZE
      invariant forall r, c :: OnBoard(r, c) ==> b[r, c] == if r < i then WATER else old(b[r, c])
    {
      for j := 0 to SIZE
        invariant forall r, c :: OnBoard(r, c) ==>
          b[r, c] == if r < i || (r == i && c < j) then WATER else old(b[r, c])
      {
        b[i, j] := WATER;
      }
    }
    GridExt(GridOf(b), Empty());
  }

  /**
   * Part of placeShips: draws the ship square by square; a square off the
   * board ends the drawing with the squares before it drawn.
   */
  method PaintShip(b: array2<int>, s: Shape) returns (overflow: bool)
    requires IsBoardArray(b) && Anchored(s)
    modifies b
    ensures overflow <==> !WithinBoard(s)
    ensures GridOf(b) == Mark(old(GridOf(b)), s, SHIP)
  {
    overflow := false;
    var i := 0;
    while i < s.length
      invariant 0 <= i && (i <= s.length || i == 0)
      invariant forall k :: 0 <= k < i ==> OnBoard(Cell(s, k).0, Cell(s, k).1)
      invariant forall r, c :: OnBoard(r, c) ==>
        b[r, c] == if Covers(s.(length := i), r, c) then SHIP else old(b[r, c])
    {
      var rc := Cell(s, i);
      if !OnBoard(rc.0, rc.1) {
        overflow := true;
        break;
      }
      b[rc.0, rc.1] := SHIP;
      i := i + 1;
    }
    if overflow {
      if i > 0 {
        assert OnBoard(Cell(s, i - 1).0, Cell(s, i - 1).1);
      }
      assert s.orientation != 0;
      assert s.startY + i == SIZE;
    } else {
      assert forall k :: 0 <= k < s.length ==> OnBoard(Cell(s, k).0, Cell(s, k).1);
    }
    assert forall r, c :: OnBoard(r, c) ==> (Covers(s.(length := i), r, c) <==> Covers(s, r, c));
    GridExt(GridOf(b), Mark(old(GridOf(b)), s, SHIP));
  }

  /** The search loop of checkShipSunk: the first ship one of whose squares is (hitRow, hitCol). */
  method FindHitShip(ships: seq<Shape>, hitRow: int, hitCol: int) returns (found: Option<nat>)
    ensures found == FirstCovering(ships, hitRow, hitCol)
  {
    found := None;
    var t := 0;
    while t < |ships|
      invariant 0 <= t <= |ships|
      invariant forall j :: 0 <= j < t ==> !Covers(ships[j], hitRow, hitCol)
    {
      var s := ships[t];
      var onThis := false;
      var i := 0;
      while i < s.length
        invariant 0 <= i && (i <= s.length || i == 0)
        invariant !onThis ==> forall k :: 0 <= k < i ==> Cell(s, k) != (hitRow, hitCol)
        invariant onThis ==> exists k :: 0 <= k < s.length && Cell(s, k) == (hitRow, hitCol)
      {
        if Cell(s, i) == (hitRow, hitCol) {
          onThis := true;
          break;
        }
        i := i + 1;
      }
      CoversIsSomeCell(s, hitRow, hitCol);
      if onThis {
        found := Some(t);
        return;
      }
      t := t + 1;
    }
  }

  /** The second loop of checkShipSunk: are all the ship's squares hit? */
  method ScanShip(b: array2<int>, s: Shape) returns (scan: Scan)
    requires IsBoardArray(b)
    ensures scan == ScanFrom(GridOf(b), s, 0)
  {
    var i := 0;
    while i < s.length
      invariant 0 <= i && (i <= s.length || i == 0)
      invariant ScanFrom(GridOf(b), s, 0) == ScanFrom(GridOf(b), s, i)
    {
      var rc := Cell(s, i);
      if !OnBoard(rc.0, rc.1) {
        return OutOfRange;
      }
      if b[rc.0, rc.1] != HIT {
        return NotAllHit;
      }
      i := i + 1;
    }
    return AllHit;
  }

  /** The third loop of checkShipSunk: every square of a wholly hit ship becomes sunk. */
  method MarkSunk(b: array2<int>, s: Shape)
    requires IsBoardArray(b) && WhollyHit(GridOf(b), s)
    modifies b
    ensures GridOf(b) == Mark(old(GridOf(b)), s, SUNK)
  {
    ghost var g := GridOf(b);
    var i := 0;
    while i < s.length
      invariant 0 <= i && (i <= s.length || i == 0)
      invariant forall r, c :: OnBoard(r, c) ==>
        b[r, c] == if Covers(s.(length := i), r, c) then SUNK else g[r][c]
    {
      var rc := Cell(s, i);
      b[rc.0, rc.1] := SUNK;
      i := i + 1;
    }
    GridExt(GridOf(b), Mark(g, s, SUNK));
  }

  /**
   * checkShipSunk: finds the first roster ship on the hit square, walks its
   * squares, and marks them sunk when all are hit. `fault` is the
   * out-of-range array access that the walk can make.
   */
  method CheckShipSunk(b: array2<int>, ships: seq<Shape>, hitRow: int, hitCol: int)
      returns (sunk: Option<Shape>, fault: bool)
    requires IsBoardArray(b)
    modifies b
    ensures var r := Sink(old(GridOf(b)), ships, hitRow, hitCol);
      GridOf(b) == r.grid && sunk == r.sunk && fault == r.fault
  {
    var found := FindHitShip(ships, hitRow, hitCol);
    if found.None? {
      return None, false;
    }
    var s := ships[found.value];
    var scan := ScanShip(b, s);
    if scan == OutOfRange {
      return None, true;
    } else if scan == NotAllHit {
      return None, false;
    }
    ScanFromAllHit(GridOf(b), s, 0);
    MarkSunk(b, s);
    return Some(s), false;
  }

  /**
   * The board work of an accepted shot in processShot: a ship square
   * becomes hit and is checked for a sunk ship; any other square becomes a
   * miss.
   */
  method FireAt(b: array2<int>, ships: seq<Shape>, row: int, col: int)
      returns (hit: bool, sunk: Option<Shape>, fault: bool)
    requires IsBoardArray(b) && OnBoard(row, col) && b[row, col] < HIT
    modifies b
    ensures var st := Fire(old(GridOf(b)), ships, row, col);
      GridOf(b) == st.grid && hit == st.hit && sunk == st.sunk && fault == st.fault
  {
    ghost var g := GridOf(b);
    hit := b[row, col] == SHIP;
    if hit {
      b[row, col] := HIT;
      GridExt(GridOf(b), Set(g, row, col, HIT));
      sunk, fault := CheckShipSunk(b, ships, row, col);
    } else {
      b[row, col] := MISS;
      GridExt(GridOf(b), Set(g, row, col, MISS));
      sunk, fault := None, false;
    }
  }

  /**
   * The board work of placeShips once the entry count is right: clear the
   * board, then check and paint the entries in order until one is rejected.
   * Returns the roster and the rejection reply, if any.
   */
  method PlaceFleet(b: array2<int>, entries: seq<string>) returns (ships: seq<Shape>, error: Option<string>)
    requires IsBoardArray(b) && |entries| == SHIP_COUNT
    modifies b
    ensures var p := Placement(entries);
      ships == p.ships && GridOf(b) == p.grid && error == p.error
  {
    ghost var es := Classify(entries);
    ClearBoard(b);
    ships := [];
    error := None;
    var i := 0;
    while i < SHIP_COUNT
      invariant 0 <= i <= SHIP_COUNT
      invariant Run(es, entries, i) == Build(ships, GridOf(b), None)
    {
      var e := ParseEntry(i, entries[i]);
      assert e == es[i];
      RunStep(es, entries, i);
      if e.Fits? || e.Overflows? {
        ships := ships + [e.shape];
        var overflow := PaintShip(b, e.shape);
        if overflow {
          error := Some(RejectionLine(e, entries[i]));
          RunRejected(es, entries, i + 1, SHIP_COUNT);
          return;
        }
      } else {
        error := Some(RejectionLine(e, entries[i]));
        RunRejected(es, entries, i + 1, SHIP_COUNT);
        return;
      }
      i := i + 1;
    }
  }

  /** ShipsLeft, read off the array. */
  ghost predicate BoardShipsLeft(b: array2<int>)
    reads b
    requires IsBoardArray(b)
  {
    exists r, c :: OnBoard(r, c) && b[r, c] == SHIP
  }

  lemma BoardShipsLeftIsShipsLeft(b: array2<int>)
    requires IsBoardArray(b)
    ensures BoardShipsLeft(b) <==> ShipsLeft(GridOf(b))
  {
    var g := GridOf(b);
    if ShipsLeft(g) {
      var r, c :| OnBoard(r, c) && g[r][c] == SHIP;
      assert b[r, c] == SHIP;
    }
  }

  /** The scan in checkWinCondition: is any ship square left unhit? */
  method HasShipsLeft(b: array2<int>) returns (left: bool)
    requires IsBoardArray(b)
    ensures left <==> BoardShipsLeft(b)
  {
    left := false;
    for i := 0 to SIZE
      invariant left <==> exists r, c :: 0 <= r < i && 0 <= c < SIZE && b[r, c] == SHIP
    {
      for j := 0 to SIZE
        invariant left <==> exists r, c :: ((0 <= r < i && 0 <= c < SIZE) || (r == i && 0 <= c < j)) && b[r, c] == SHIP
      {
        if b[i, j] == SHIP {
          left := true;
          break;
        }
      }
    }
  }
}
