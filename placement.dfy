/**
 * Placement: the logic of the client's ship-placement screen. The player
 * picks a ship of the roster, rotates it, clicks a board cell to put it
 * there (or clicks a placed ship to take it back), and when all five are on
 * the board sends them to the server as one PLACE_SHIPS line. Only the
 * checks, the roster, the counter and the payload are modelled; widgets,
 * colours and dialogs are not.
 */
module Placement {
  import opened Lang
  import opened Ships
  import Rules
  import Server

  /** The roster's lengths, as the client lists them. */
  const SHIP_SIZES: seq<int> := [2, 2, 3, 3, 4]

  /** The side of the board the client draws. */
  const SIZE: int := 8

  /** A ship is on the board exactly when both origin coordinates are non-negative (Ship.isPlaced). */
  predicate Placed(s: Shape) {
    s.startX >= 0 && s.startY >= 0
  }

  /** The ship's stored shape moved to origin (x, y). */
  function At(s: Shape, x: int, y: int): (m: Shape)
    ensures m.length == s.length && m.orientation == s.orientation
    ensures m.startX == x && m.startY == y
  {
    s.(startX := x, startY := y)
  }

  // ---------------------------------------------------------------------
  // shipsOverlap
  // ---------------------------------------------------------------------

  /**
   * shipsOverlap(ship1, x1, y1, ship2) as written: ship1 is the candidate,
   * to go at (x1, y1), and ship2 a ship on the board. The same-orientation
   * branches compare the candidate's new origin, but the crossing branch
   * reads both origins from the ships themselves, so for the candidate it
   * uses the origin it is stored with, not (x1, y1).
   */
  predicate ShipsOverlapAsWritten(ship1: Shape, x1: int, y1: int, ship2: Shape) {
    var x2 := ship2.startX;
    var y2 := ship2.startY;
    var len1 := ship1.length;
    var len2 := ship2.length;
    var h1 := ship1.orientation == 0;
    var h2 := ship2.orientation == 0;
    if h1 && h2 then
      y1 == y2 && ((x1 <= x2 && x2 < x1 + len1) || (x2 <= x1 && x1 < x2 + len2))
    else if !h1 && !h2 then
      x1 == x2 && ((y1 <= y2 && y2 < y1 + len1) || (y2 <= y1 && y1 < y2 + len2))
    else
      var horizontal := if h1 then ship1 else ship2;
      var vertical := if h1 then ship2 else ship1;
      var hx, hy, hlen := horizontal.startX, horizontal.startY, horizontal.length;
      var vx, vy, vlen := vertical.startX, vertical.startY, vertical.length;
      vx >= hx && vx < hx + hlen && hy >= vy && hy < vy + vlen
  }

  /**
   * A candidate that is not on the board yet has origin (-1, -1), so the
   * crossing branch never reports a ship on the board: a crossing is let through.
   */
  lemma AsWrittenMissesCrossings(ship1: Shape, x1: int, y1: int, ship2: Shape)
    requires ship1.startX < 0 && ship1.startY < 0 && Placed(ship2)
    requires (ship1.orientation == 0) != (ship2.orientation == 0)
    ensures !ShipsOverlapAsWritten(ship1, x1, y1, ship2)
  {
  }

  /**
   * A vertical ship two long, not yet placed, asked to go at column 0, row 0,
   * while a horizontal ship two long lies at column 0, row 0: both would lie
   * on cell (0, 0), and shipsOverlap as written says they do not overlap.
   */
  lemma CrossingCounterexample()
    ensures var candidate := Shape(2, -1, -1, 1);
      var onBoard := Shape(2, 0, 0, 0);
      && Covers(At(candidate, 0, 0), 0, 0) && Covers(onBoard, 0, 0)
      && !ShipsOverlapAsWritten(candidate, 0, 0, onBoard)
      && ShipsOverlap(candidate, 0, 0, onBoard)
  {
  }

  /** Whether two ships, each at its own origin, lie on a common cell, in closed form. */
  predicate Overlap(a: Shape, b: Shape) {
    var ha := a.orientation == 0;
    var hb := b.orientation == 0;
    if ha && hb then
      a.startY == b.startY
      && ((a.startX <= b.startX && b.startX < a.startX + a.length)
          || (b.startX <= a.startX && a.startX < b.startX + b.length))
    else if !ha && !hb then
      a.startX == b.startX
      && ((a.startY <= b.startY && b.startY < a.startY + a.length)
          || (b.startY <= a.startY && a.startY < b.startY + b.length))
    else
      var h := if ha then a else b;
      var v := if ha then b else a;
      v.startX >= h.startX && v.startX < h.startX + h.length && h.startY >= v.startY && h.startY < v.startY + v.length
  }

  /** shipsOverlap as intended: the candidate at (x1, y1) in every branch. */
  predicate ShipsOverlap(ship1: Shape, x1: int, y1: int, ship2: Shape) {
    Overlap(At(ship1, x1, y1), ship2)
  }

  /** The two agree except on a crossing: the correction changes only that branch. */
  lemma OverlapAgreesUnlessCrossing(ship1: Shape, x1: int, y1: int, ship2: Shape)
    requires (ship1.orientation == 0) == (ship2.orientation == 0)
    ensures ShipsOverlap(ship1, x1, y1, ship2) == ShipsOverlapAsWritten(ship1, x1, y1, ship2)
  {
  }

  /** For ships of positive length, the closed form holds exactly when they share a cell. */
  lemma OverlapIsSharedCell(a: Shape, b: Shape)
    requires a.length >= 1 && b.length >= 1
    ensures Overlap(a, b) <==> exists r, c :: Covers(a, r, c) && Covers(b, r, c)
  {
    var ha := a.orientation == 0;
    var hb := b.orientation == 0;
    if Overlap(a, b) {
      if ha && hb {
        var c := if a.startX <= b.startX then b.startX else a.startX;
        assert Covers(a, a.startY, c) && Covers(b, a.startY, c);
      } else if !ha && !hb {
        var r := if a.startY <= b.startY then b.startY else a.startY;
        assert Covers(a, r, a.startX) && Covers(b, r, a.startX);
      } else {
        var h := if ha then a else b;
        var v := if ha then b else a;
        assert Covers(h, h.startY, v.startX) && Covers(v, h.startY, v.startX);
      }
    }
  }

  lemma OverlapSymmetric(a: Shape, b: Shape)
    ensures Overlap(a, b) == Overlap(b, a)
  {
  }

  // ---------------------------------------------------------------------
  // The roster as values
  // ---------------------------------------------------------------------

  /** How many ships of the roster are on the board. */
  function PlacedCount(fleet: seq<Shape>): (n: nat)
    ensures n <= |fleet|
  {
    if |fleet| == 0 then 0
    else PlacedCount(fleet[..|fleet| - 1]) + if Placed(fleet[|fleet| - 1]) then 1 else 0
  }

  /** Replacing one ship changes the count by the change in that ship's placement. */
  lemma {:induction false} PlacedCountUpdate(fleet: seq<Shape>, k: nat, s: Shape)
    requires k < |fleet|
    ensures PlacedCount(fleet[k := s]) ==
      PlacedCount(fleet) - (if Placed(fleet[k]) then 1 else 0) + (if Placed(s) then 1 else 0)
  {
    var n := |fleet| - 1;
    var g := fleet[k := s];
    assert g[..n] == if k < n then fleet[..n][k := s] else fleet[..n];
    if k < n {
      PlacedCountUpdate(fleet[..n], k, s);
    }
  }

  /** All ships are counted exactly when all are on the board. */
  lemma {:induction false} PlacedCountFull(fleet: seq<Shape>)
    ensures PlacedCount(fleet) == |fleet| <==> forall j :: 0 <= j < |fleet| ==> Placed(fleet[j])
  {
    if |fleet| > 0 {
      var n := |fleet| - 1;
      PlacedCountFull(fleet[..n]);
      assert forall j :: 0 <= j < n ==> fleet[..n][j] == fleet[j];
    }
  }

  /** No ship is counted when none is on the board. */
  lemma {:induction false} PlacedCountNone(fleet: seq<Shape>)
    requires forall j :: 0 <= j < |fleet| ==> !Placed(fleet[j])
    ensures PlacedCount(fleet) == 0
  {
    if |fleet| > 0 {
      PlacedCountNone(fleet[..|fleet| - 1]);
    }
  }

  /** Every ship of the roster that is on the board lies on it whole, and no two of them share a cell. */
  predicate Laid(fleet: seq<Shape>) {
    && (forall j :: 0 <= j < |fleet| && Placed(fleet[j]) ==> Rules.WithinBoard(fleet[j]))
    && (forall i, j :: 0 <= i < |fleet| && 0 <= j < |fleet| && i != j && Placed(fleet[i]) && Placed(fleet[j]) ==>
          !Overlap(fleet[i], fleet[j]))
  }

  /**
   * isValidPlacement on the roster: ship `k` may go at (col, row) when it
   * does not run past the right edge (horizontal) or the bottom edge
   * (otherwise), and it overlaps no other ship on the board.
   */
  predicate ValidPlacement(fleet: seq<Shape>, k: nat, row: int, col: int)
    requires k < |fleet|
  {
    var s := fleet[k];
    && (if s.orientation == 0 then col + s.length <= SIZE else row + s.length <= SIZE)
    && forall j :: 0 <= j < |fleet| && j != k && Placed(fleet[j]) ==> !ShipsOverlap(s, col, row, fleet[j])
  }

  /** A valid placement on a clicked cell keeps the board whole and without shared cells. */
  lemma ValidPlacementKeepsLaid(fleet: seq<Shape>, k: nat, row: int, col: int)
    requires k < |fleet| && Laid(fleet)
    requires fleet[k].length >= 1 && (fleet[k].orientation == 0 || fleet[k].orientation == 1)
    requires 0 <= row < SIZE && 0 <= col < SIZE
    requires ValidPlacement(fleet, k, row, col)
    ensures Laid(fleet[k := At(fleet[k], col, row)])
  {
    var s := At(fleet[k], col, row);
    var g := fleet[k := s];
    Rules.WithinBoardClosedForm(s);
    forall i, j | 0 <= i < |g| && 0 <= j < |g| && i != j && Placed(g[i]) && Placed(g[j])
      ensures !Overlap(g[i], g[j])
    {
      if j == k {
        OverlapSymmetric(g[i], s);
      }
    }
  }

  /** Taking a ship off the board keeps the rest as they were. */
  lemma RemovalKeepsLaid(fleet: seq<Shape>, k: nat, s: Shape)
    requires k < |fleet| && Laid(fleet) && !Placed(s)
    ensures Laid(fleet[k := s])
  {
  }

  /** The first ship in roster order that is on the board and lies on (row, col), from position `from` on. */
  function FirstPlacedCovering(fleet: seq<Shape>, row: int, col: int, from: nat): (k: Option<nat>)
    ensures k.Some? ==> from <= k.value < |fleet| && Placed(fleet[k.value]) && Covers(fleet[k.value], row, col)
    ensures k.Some? ==> forall j :: from <= j < k.value ==> !(Placed(fleet[j]) && Covers(fleet[j], row, col))
    ensures k.None? ==> forall j :: from <= j < |fleet| ==> !(Placed(fleet[j]) && Covers(fleet[j], row, col))
    decreases |fleet| - from
  {
    if from >= |fleet| then None
    else if Placed(fleet[from]) && Covers(fleet[from], row, col) then Some(from)
    else FirstPlacedCovering(fleet, row, col, from + 1)
  }

  // ---------------------------------------------------------------------
  // The PLACE_SHIPS payload
  // ---------------------------------------------------------------------

  /** Ship.toProtocolString on the value: empty for a ship not on the board. */
  function EntryText(s: Shape): string {
    if Placed(s) then ProtocolText(s) else ""
  }

  /**
   * The StringBuilder of handleReadyButton after the given ships: each ship
   * on the board adds its entry, preceded by `;` when something was added before.
   */
  function ReadyData(fleet: seq<Shape>): string {
    if |fleet| == 0 then ""
    else
      var sb := ReadyData(fleet[..|fleet| - 1]);
      var s := fleet[|fleet| - 1];
      if !Placed(s) then sb
      else (if |sb| > 0 then sb + ";" else sb) + EntryText(s)
  }

  /** The entries of the given ships, in roster order. */
  function EntryTexts(fleet: seq<Shape>): (texts: seq<string>)
    ensures |texts| == |fleet|
    ensures forall j :: 0 <= j < |fleet| ==> texts[j] == ProtocolText(fleet[j])
  {
    if |fleet| == 0 then [] else EntryTexts(fleet[..|fleet| - 1]) + [ProtocolText(fleet[|fleet| - 1])]
  }

  /** With every ship on the board, the payload is the ships' entries joined by `;`, in roster order. */
  lemma {:induction false} ReadyDataIsJoin(fleet: seq<Shape>)
    requires forall j :: 0 <= j < |fleet| ==> Placed(fleet[j])
    ensures ReadyData(fleet) == Join(EntryTexts(fleet), ';')
  {
    if |fleet| > 1 {
      var n := |fleet| - 1;
      var prefix := fleet[..n];
      ReadyDataIsJoin(prefix);
      ProtocolTextHasNoSemicolon(prefix[0]);
      JoinOfNonEmpty(EntryTexts(prefix), ';');
      JoinSnoc(EntryTexts(prefix), ProtocolText(fleet[n]), ';');
    }
  }

  lemma JoinOfNonEmpty(ps: seq<string>, d: char)
    requires |ps| >= 1 && ps[0] != ""
    ensures |Join(ps, d)| > 0
  {
  }

  /**
   * The line the client sends for a full roster reaches the server's
   * PLACE_SHIPS handler with the payload as its argument, the payload splits
   * into five entries, and the server's placement accepts them all and keeps
   * the client's ships, in order.
   */
  lemma ReadyMessageAccepted(fleet: seq<Shape>)
    requires |fleet| == |SHIP_SIZES| && Laid(fleet)
    requires forall j :: 0 <= j < |fleet| ==>
      Placed(fleet[j]) && fleet[j].length == SHIP_SIZES[j] && (fleet[j].orientation == 0 || fleet[j].orientation == 1)
    ensures var data := ReadyData(fleet);
      var message := "PLACE_SHIPS:" + data;
      && Server.RouteOf(message) == Server.Run(Server.PLACE_SHIPS)
      && Split(message, ':') == ["PLACE_SHIPS", data]
      && |Split(data, ';')| == Rules.SHIP_COUNT
      && Rules.Placement(Split(data, ';')).error.None?
      && Rules.Placement(Split(data, ';')).ships == fleet
  {
    PayloadSplits(fleet);
    PayloadRoutes(ReadyData(fleet));
    EntriesAccepted(fleet);
  }

  /** The payload of a full roster splits on `;` into the ships' entries, and holds no `:`. */
  lemma PayloadSplits(fleet: seq<Shape>)
    requires |fleet| >= 1 && forall j :: 0 <= j < |fleet| ==> Placed(fleet[j])
    ensures Split(ReadyData(fleet), ';') == EntryTexts(fleet)
    ensures ':' !in ReadyData(fleet) && ReadyData(fleet) != ""
  {
    var texts := EntryTexts(fleet);
    ReadyDataIsJoin(fleet);
    forall j | 0 <= j < |texts| ensures ';' !in texts[j] && ':' !in texts[j] && texts[j] != "" {
      ProtocolTextHasNoSemicolon(fleet[j]);
    }
    SplitOfJoin(texts, ';');
    NoColonInJoin(texts, ';');
  }

  /** A PLACE_SHIPS line whose payload holds no `:` runs PLACE_SHIPS with the payload as its one argument. */
  lemma PayloadRoutes(data: string)
    requires ':' !in data && data != ""
    ensures Server.RouteOf("PLACE_SHIPS:" + data) == Server.Run(Server.PLACE_SHIPS)
    ensures Split("PLACE_SHIPS:" + data, ':') == ["PLACE_SHIPS", data]
  {
    var ps := [Server.Keyword(Server.PLACE_SHIPS)] + [data];
    assert Join(ps, ':') == "PLACE_SHIPS:" + data;
    Server.CommandLineRoutes(Server.PLACE_SHIPS, [data]);
    SplitOfJoin(ps, ':');
  }

  /** The server's placement accepts every entry of a roster of the prescribed lengths lying on the board. */
  lemma EntriesAccepted(fleet: seq<Shape>)
    requires |fleet| == |SHIP_SIZES| && Laid(fleet)
    requires forall j :: 0 <= j < |fleet| ==>
      Placed(fleet[j]) && fleet[j].length == SHIP_SIZES[j] && (fleet[j].orientation == 0 || fleet[j].orientation == 1)
    ensures Rules.Placement(EntryTexts(fleet)).error.None? && Rules.Placement(EntryTexts(fleet)).ships == fleet
  {
    var texts := EntryTexts(fleet);
    EntriesFit(fleet);
    RunOfFits(Rules.Classify(texts), texts, fleet, |texts|);
    assert fleet[..|texts|] == fleet;
  }

  /** An entry loop that accepts each of the first `n` entries keeps exactly their ships, in order. */
  lemma {:induction false} RunOfFits(es: seq<Rules.Entry>, texts: seq<string>, fleet: seq<Shape>, n: nat)
    requires n <= |es| == |texts| == |fleet|
    requires forall j :: 0 <= j < n ==> es[j] == Rules.Fits(fleet[j])
    ensures Rules.Run(es, texts, n).error.None? && Rules.Run(es, texts, n).ships == fleet[..n]
  {
    if n > 0 {
      RunOfFits(es, texts, fleet, n - 1);
      assert fleet[..n] == fleet[..n - 1] + [fleet[n - 1]];
    }
  }

  /** Each entry of such a roster is accepted as the ship it was written from. */
  lemma EntriesFit(fleet: seq<Shape>)
    requires |fleet| == |SHIP_SIZES| && Laid(fleet)
    requires forall j :: 0 <= j < |fleet| ==>
      Placed(fleet[j]) && fleet[j].length == SHIP_SIZES[j] && (fleet[j].orientation == 0 || fleet[j].orientation == 1)
    ensures forall j :: 0 <= j < |fleet| ==> Rules.Classify(EntryTexts(fleet))[j] == Rules.Fits(fleet[j])
  {
    var texts := EntryTexts(fleet);
    assert SHIP_SIZES == Rules.SHIP_SIZES;
    forall j | 0 <= j < |fleet| ensures Rules.ParseEntry(j, texts[j]) == Rules.Fits(fleet[j]) {
      Rules.ParseEntryOfProtocolText(j, fleet[j]);
    }
  }

  lemma {:induction false} NoColonInJoin(ps: seq<string>, d: char)
    requires d != ':'
    requires forall j :: 0 <= j < |ps| ==> ':' !in ps[j] && ps[j] != ""
    ensures ':' !in Join(ps, d) && (|ps| >= 1 ==> Join(ps, d) != "")
  {
    if |ps| >= 2 {
      NoColonInJoin(ps[1..], d);
    }
  }

  // ---------------------------------------------------------------------
  // The screen
  // ---------------------------------------------------------------------

  /** The ships' current shapes, in roster order. */
  function ShapesOf(rs: seq<Ship>): (fleet: seq<Shape>)
    reads rs
    ensures |fleet| == |rs|
    ensures forall j :: 0 <= j < |rs| ==> fleet[j] == rs[j].AsShape()
  {
    if |rs| == 0 then [] else ShapesOf(rs[..|rs| - 1]) + [rs[|rs| - 1].AsShape()]
  }

  class ShipPlacement {
    /** The roster; the array is filled once and never replaced, only its ships change. */
    const ships: seq<Ship>
    var selectedShip: Ship?
    var placedShipsCount: int

    function Fleet(): seq<Shape>
      reads this, ships
    {
      ShapesOf(ships)
    }

    /**
     * The roster has the five ships of the prescribed lengths, each facing 0
     * or 1 and at (-1, -1) when not on the board; the counter counts the
     * ships on the board; and those lie on it whole without sharing a cell.
     */
    ghost predicate Valid()
      reads this, ships
    {
      && |ships| == |SHIP_SIZES|
      && Distinct(ships)
      && (forall i :: 0 <= i < |ships| ==>
            ships[i].length == SHIP_SIZES[i]
            && (ships[i].orientation == 0 || ships[i].orientation == 1)
            && (!ships[i].IsPlaced() ==> ships[i].startX == -1 && ships[i].startY == -1))
      && (selectedShip != null ==> selectedShip in ships)
      && placedShipsCount == PlacedCount(Fleet())
      && Laid(Fleet())
    }

    /** initShips: five ships of the roster's lengths, none on the board, none selected. */
    constructor ()
      ensures Valid() && selectedShip == null && placedShipsCount == 0
      ensures forall i :: 0 <= i < |ships| ==> ships[i].shipId == i && ships[i].AsShape() == Shape(SHIP_SIZES[i], -1, -1, 0)
    {
      var made: seq<Ship> := [];
      var i := 0;
      while i < |SHIP_SIZES|
        invariant 0 <= i <= |SHIP_SIZES| && |made| == i && Distinct(made)
        invariant forall j :: 0 <= j < i ==> made[j].shipId == j && made[j].AsShape() == Shape(SHIP_SIZES[j], -1, -1, 0)
      {
        var s := new Ship(i, SHIP_SIZES[i]);
        made := made + [s];
        i := i + 1;
      }
      ships := made;
      selectedShip := null;
      placedShipsCount := 0;
      new;
      PlacedCountNone(Fleet());
    }

    /** isValidPlacement(ship, row, col), walking the roster; `ship` is one of the roster's. */
    method IsValidPlacement(ship: Ship, row: int, col: int) returns (ok: bool)
      requires Valid() && ship in ships
      ensures ok == ValidPlacement(Fleet(), IndexOf(ships, ship), row, col)
    {
      var k := IndexOf(ships, ship);
      var fleet := Fleet();
      var length := ship.length;
      var horizontal := ship.IsHorizontal();
      if horizontal {
        if col + length > SIZE {
          return false;
        }
      } else {
        if row + length > SIZE {
          return false;
        }
      }
      var i := 0;
      while i < |ships|
        invariant 0 <= i <= |ships|
        invariant forall j :: 0 <= j < i && j != k && Placed(fleet[j]) ==> !ShipsOverlap(fleet[k], col, row, fleet[j])
      {
        var other := ships[i];
        if other.IsPlaced() && other != ship {
          if ShipsOverlap(ship.AsShape(), col, row, other.AsShape()) {
            return false;
          }
        }
        i := i + 1;
      }
      return true;
    }

    /** placeShip: a valid spot puts the ship there and counts it; any other spot changes nothing. */
    method PlaceShip(ship: Ship, row: int, col: int)
      requires Valid() && ship in ships && !ship.IsPlaced()
      requires 0 <= row < SIZE && 0 <= col < SIZE
      modifies this, ship
      ensures Valid() && selectedShip == old(selectedShip)
      ensures var k := IndexOf(ships, ship);
        old(ValidPlacement(Fleet(), k, row, col)) ==>
          Fleet() == old(Fleet())[k := At(old(Fleet())[k], col, row)] && placedShipsCount == old(placedShipsCount) + 1
      ensures var k := IndexOf(ships, ship);
        !old(ValidPlacement(Fleet(), k, row, col)) ==>
          Fleet() == old(Fleet()) && placedShipsCount == old(placedShipsCount)
    {
      var ok := IsValidPlacement(ship, row, col);
      if ok {
        PutShip(ship, row, col);
      }
    }

    /** The valid branch of placeShip: `ship.placeAt(col, row)` and one more ship counted. */
    method PutShip(ship: Ship, row: int, col: int)
      requires Valid() && ship in ships && !ship.IsPlaced()
      requires 0 <= row < SIZE && 0 <= col < SIZE
      requires ValidPlacement(Fleet(), IndexOf(ships, ship), row, col)
      modifies this, ship
      ensures Valid() && selectedShip == old(selectedShip)
      ensures var k := IndexOf(ships, ship);
        Fleet() == old(Fleet())[k := At(old(Fleet())[k], col, row)] && placedShipsCount == old(placedShipsCount) + 1
    {
      var k := IndexOf(ships, ship);
      ghost var fleet := Fleet();
      ship.PlaceAt(col, row);
      placedShipsCount := placedShipsCount + 1;
      assert Fleet() == fleet[k := At(fleet[k], col, row)];
      PlacedCountUpdate(fleet, k, At(fleet[k], col, row));
      ValidPlacementKeepsLaid(fleet, k, row, col);
    }

    /** removeShipFromBoard: the ship goes back to (-1, -1), horizontal, and stops being counted. */
    method RemoveShipFromBoard(ship: Ship)
      requires Valid() && ship in ships && ship.IsPlaced()
      modifies this, ship
      ensures Valid() && selectedShip == old(selectedShip)
      ensures var k := IndexOf(ships, ship);
        && Fleet() == old(Fleet())[k := Shape(ship.length, -1, -1, 0)]
        && placedShipsCount == old(placedShipsCount) - 1
    {
      var k := IndexOf(ships, ship);
      ghost var fleet := Fleet();
      ship.Remove();
      placedShipsCount := placedShipsCount - 1;
      assert Fleet() == fleet[k := Shape(ship.length, -1, -1, 0)];
      PlacedCountUpdate(fleet, k, Shape(ship.length, -1, -1, 0));
      RemovalKeepsLaid(fleet, k, Shape(ship.length, -1, -1, 0));
    }

    /** The search loop of handleBoardCellClick: the first ship on the board that lies on (row, col). */
    method FindCoveringShip(row: int, col: int) returns (hit: Option<nat>)
      requires Valid()
      ensures hit == FirstPlacedCovering(Fleet(), row, col, 0)
    {
      var i := 0;
      while i < |ships|
        invariant 0 <= i <= |ships|
        invariant FirstPlacedCovering(Fleet(), row, col, 0) == FirstPlacedCovering(Fleet(), row, col, i)
      {
        var ship := ships[i];
        if ship.IsPlaced() {
          if ship.IsHorizontal() {
            var startX := ship.startX;
            var endX := startX + ship.length - 1;
            var startY := ship.startY;
            if startY == row && col >= startX && col <= endX {
              return Some(i);
            }
          } else {
            var startY := ship.startY;
            var endY := startY + ship.length - 1;
            var startX := ship.startX;
            if startX == col && row >= startY && row <= endY {
              return Some(i);
            }
          }
        }
        i := i + 1;
      }
      return None;
    }

    /**
     * handleBoardCellClick: a click on a ship takes the first such ship off
     * the board; otherwise a selected ship that is not on the board is
     * placed at the clicked cell when the spot is valid.
     */
    method HandleBoardCellClick(row: int, col: int)
      requires Valid() && 0 <= row < SIZE && 0 <= col < SIZE
      modifies this, ships
      ensures Valid() && selectedShip == old(selectedShip)
      ensures var hit := old(FirstPlacedCovering(Fleet(), row, col, 0));
        hit.Some? ==>
          && Fleet() == old(Fleet())[hit.value := Shape(SHIP_SIZES[hit.value], -1, -1, 0)]
          && placedShipsCount == old(placedShipsCount) - 1
      ensures var hit := old(FirstPlacedCovering(Fleet(), row, col, 0));
        var sel := selectedShip;
        hit.None? && sel != null && old(!sel.IsPlaced()) && old(ValidPlacement(Fleet(), IndexOf(ships, sel), row, col)) ==>
          var k := IndexOf(ships, sel);
          && Fleet() == old(Fleet())[k := At(old(Fleet())[k], col, row)]
          && placedShipsCount == old(placedShipsCount) + 1
      ensures var hit := old(FirstPlacedCovering(Fleet(), row, col, 0));
        var sel := selectedShip;
        hit.None? && !(sel != null && old(!sel.IsPlaced()) && old(ValidPlacement(Fleet(), IndexOf(ships, sel), row, col))) ==>
          Fleet() == old(Fleet()) && placedShipsCount == old(placedShipsCount)
    {
      var hit := FindCoveringShip(row, col);
      if hit.Some? {
        RemoveShipFromBoard(ships[hit.value]);
        return;
      }
      if selectedShip != null && !selectedShip.IsPlaced() {
        PlaceShip(selectedShip, row, col);
      }
    }

    /** A click on a ship of the list: a ship on the board is taken off it, any other becomes the selected one. */
    method HandleShipPanelClick(ship: Ship)
      requires Valid() && ship in ships
      modifies this, ship
      ensures Valid()
      ensures old(ship.IsPlaced()) ==>
        selectedShip == old(selectedShip)
        && Fleet() == old(Fleet())[IndexOf(ships, ship) := Shape(ship.length, -1, -1, 0)]
        && placedShipsCount == old(placedShipsCount) - 1
      ensures !old(ship.IsPlaced()) ==>
        selectedShip == ship && Fleet() == old(Fleet()) && placedShipsCount == old(placedShipsCount)
    {
      if ship.IsPlaced() {
        RemoveShipFromBoard(ship);
      } else {
        selectedShip := ship;
      }
    }

    /** The R key: a selected ship that is not on the board turns; nothing else changes. */
    method RotateSelected()
      requires Valid()
      modifies selectedShip
      ensures Valid()
      ensures old(selectedShip != null && !selectedShip.IsPlaced()) ==>
        var k := IndexOf(ships, selectedShip);
        Fleet() == old(Fleet())[k := old(Fleet())[k].(orientation := Rotated(old(Fleet())[k].orientation))]
      ensures !old(selectedShip != null && !selectedShip.IsPlaced()) ==> Fleet() == old(Fleet())
    {
      if selectedShip != null && !selectedShip.IsPlaced() {
        var k := IndexOf(ships, selectedShip);
        ghost var fleet := Fleet();
        selectedShip.Rotate();
        assert Fleet() == fleet[k := fleet[k].(orientation := Rotated(fleet[k].orientation))];
        PlacedCountUpdate(fleet, k, Fleet()[k]);
      }
    }

    /**
     * handleReadyButton: nothing is sent unless the counter is five; then
     * the PLACE_SHIPS line with the ships on the board, in roster order.
     */
    method HandleReadyButton() returns (message: Option<string>)
      requires Valid()
      ensures placedShipsCount != 5 ==> message.None?
      ensures placedShipsCount == 5 ==> message == Some("PLACE_SHIPS:" + ReadyData(Fleet()))
    {
      if placedShipsCount != 5 {
        return None;
      }
      var sb: string := "";
      var i := 0;
      while i < |ships|
        invariant 0 <= i <= |ships|
        invariant sb == ReadyData(Fleet()[..i])
      {
        var ship := ships[i];
        assert Fleet()[..i + 1][..i] == Fleet()[..i];
        if ship.IsPlaced() {
          if |sb| > 0 {
            sb := sb + ";";
          }
          sb := sb + ship.ToProtocolString();
        }
        i := i + 1;
      }
      assert Fleet()[..i] == Fleet();
      return Some("PLACE_SHIPS:" + sb);
    }
  }

  /** A screen whose counter reaches five sends a line the server accepts in full, with the screen's ships. */
  lemma ReadyScreenAccepted(g: ShipPlacement)
    requires g.Valid() && g.placedShipsCount == 5
    ensures var data := ReadyData(g.Fleet());
      && Server.RouteOf("PLACE_SHIPS:" + data) == Server.Run(Server.PLACE_SHIPS)
      && |Split(data, ';')| == Rules.SHIP_COUNT
      && Rules.Placement(Split(data, ';')).error.None?
      && Rules.Placement(Split(data, ';')).ships == g.Fleet()
  {
    PlacedCountFull(g.Fleet());
    ReadyMessageAccepted(g.Fleet());
  }
}
