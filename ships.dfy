/**
 * Ship: a mutable record of one ship's length, origin and orientation, and
 * the `x,y,o` text it is sent as. `startX` is the column and `startY` the row
 * of the ship's first cell; orientation 0 is horizontal, 1 vertical, and any
 * other value is stored as given.
 */
module Ships {
  import opened Lang

  /** The value a ship's fields describe. */
  datatype Shape = Shape(length: int, startX: int, startY: int, orientation: int)

  /**
   * The board cell (row, column) of the ship's `i`-th square, computed as the
   * server and the client both compute it: to the right when the orientation
   * is 0, downwards for every other value.
   */
  function Cell(s: Shape, i: int): (rc: (int, int))
    ensures s.orientation == 0 ==> rc == (s.startY, s.startX + i)
    ensures s.orientation != 0 ==> rc == (s.startY + i, s.startX)
  {
    if s.orientation == 0 then (s.startY, s.startX + i) else (s.startY + i, s.startX)
  }

  /** Whether the ship lies on cell (row, col), in closed form. */
  predicate Covers(s: Shape, row: int, col: int) {
    if s.orientation == 0 then row == s.startY && s.startX <= col < s.startX + s.length
    else col == s.startX && s.startY <= row < s.startY + s.length
  }

  /** The closed form agrees with walking the ship's squares one by one. */
  lemma CoversIsSomeCell(s: Shape, row: int, col: int)
    ensures Covers(s, row, col) <==> exists i :: 0 <= i < s.length && Cell(s, i) == (row, col)
  {
    if Covers(s, row, col) {
      var i := if s.orientation == 0 then col - s.startX else row - s.startY;
      assert Cell(s, i) == (row, col);
    }
  }

  /** `rotate()`: 0 becomes 1, every other value becomes 0. */
  function Rotated(orientation: int): (r: int)
    ensures r == 0 || r == 1
    ensures orientation == 0 || orientation == 1 ==> r == 1 - orientation
    ensures orientation != 0 ==> r == 0
  {
    if orientation == 0 then 1 else 0
  }

  /** Rotating twice gives back a 0 or 1 orientation, and turns any other into 1. */
  lemma RotatedTwice(orientation: int)
    ensures Rotated(Rotated(orientation)) == if orientation == 0 then 0 else 1
  {
  }

  /** The three numbers of an `x,y,o` entry, as their decimal texts. */
  function Fields(s: Shape): (fs: seq<string>)
    ensures |fs| == 3
  {
    [IntToString(s.startX), IntToString(s.startY), IntToString(s.orientation)]
  }

  /** `x + "," + y + "," + o` */
  function ProtocolText(s: Shape): string {
    Join(Fields(s), ',')
  }

  /**
   * Splitting an `x,y,o` text on commas and parsing each piece gives back the
   * three numbers, whatever 32-bit values they are.
   */
  lemma ProtocolTextRoundTrip(s: Shape)
    requires IsInt32(s.startX) && IsInt32(s.startY) && IsInt32(s.orientation)
    ensures Split(ProtocolText(s), ',') == Fields(s)
    ensures ParseInt(Fields(s)[0]) == Some(s.startX)
    ensures ParseInt(Fields(s)[1]) == Some(s.startY)
    ensures ParseInt(Fields(s)[2]) == Some(s.orientation)
  {
    var fs := Fields(s);
    forall i | 0 <= i < 3 ensures ',' !in fs[i] {
      assert forall j :: 0 <= j < |fs[i]| ==> IsDigit(fs[i][j]) || fs[i][j] == '-';
    }
    SplitOfJoin(fs, ',');
    ParseIntOfIntToString(s.startX);
    ParseIntOfIntToString(s.startY);
    ParseIntOfIntToString(s.orientation);
  }

  /** An `x,y,o` text never contains the `;` that separates ships. */
  lemma ProtocolTextHasNoSemicolon(s: Shape)
    ensures ';' !in ProtocolText(s) && ':' !in ProtocolText(s)
    ensures ProtocolText(s) != ""
  {
    var fs := Fields(s);
    var t := Join(fs, ',');
    assert fs[1..][1..] == [fs[2]];
    assert Join(fs[1..], ',') == fs[1] + [','] + fs[2];
    assert t == fs[0] + [','] + (fs[1] + [','] + fs[2]);
    forall j | 0 <= j < |t| ensures t[j] != ';' && t[j] != ':' {
      if j < |fs[0]| {
        assert t[j] == fs[0][j];
      } else if j > |fs[0]| {
        var rest := fs[1] + [','] + fs[2];
        assert t[j] == rest[j - |fs[0]| - 1];
        var k := j - |fs[0]| - 1;
        if k < |fs[1]| {
          assert rest[k] == fs[1][k];
        } else if k > |fs[1]| {
          assert rest[k] == fs[2][k - |fs[1]| - 1];
        }
      }
    }
  }

  class Ship {
    const shipId: int
    const length: int
    var startX: int
    var startY: int
    var orientation: int

    /** `new Ship(id, length)`: not yet on the board, horizontal. */
    constructor (shipId: int, length: int)
      ensures this.shipId == shipId && this.length == length
      ensures startX == -1 && startY == -1 && orientation == 0
      ensures !IsPlaced() && IsHorizontal()
    {
      this.shipId := shipId;
      this.length := length;
      startX := -1;
      startY := -1;
      orientation := 0;
    }

    /** `new Ship(id, length, x, y, orientation)` */
    constructor Placed(shipId: int, length: int, startX: int, startY: int, orientation: int)
      ensures this.shipId == shipId && AsShape() == Shape(length, startX, startY, orientation)
    {
      this.shipId := shipId;
      this.length := length;
      this.startX := startX;
      this.startY := startY;
      this.orientation := orientation;
    }

    function AsShape(): (s: Shape)
      reads this
      ensures s.length == length && s.orientation == orientation
      ensures s.startX == startX && s.startY == startY
    {
      Shape(length, startX, startY, orientation)
    }

    /** On the board exactly when both origin coordinates are non-negative. */
    predicate IsPlaced()
      reads this
    {
      startX >= 0 && startY >= 0
    }

    predicate IsHorizontal()
      reads this
    {
      orientation == 0
    }

    predicate IsVertical()
      reads this
    {
      orientation == 1
    }

    method Rotate()
      modifies this
      ensures orientation == Rotated(old(orientation))
      ensures startX == old(startX) && startY == old(startY)
    {
      orientation := if orientation == 0 then 1 else 0;
    }

    /** Moves the origin; the orientation is kept. */
    method PlaceAt(x: int, y: int)
      modifies this
      ensures startX == x && startY == y && orientation == old(orientation)
      ensures x >= 0 && y >= 0 ==> IsPlaced()
    {
      startX := x;
      startY := y;
    }

    /** Takes the ship off the board and makes it horizontal again. */
    method Remove()
      modifies this
      ensures startX == -1 && startY == -1 && orientation == 0
      ensures !IsPlaced() && IsHorizontal()
    {
      startX := -1;
      startY := -1;
      orientation := 0;
    }

    /**
     * `""` for a ship not on the board; otherwise the comma-separated origin
     * and orientation, which the server's parser reads back field by field.
     */
    function ToProtocolString(): (s: string)
      reads this
      ensures !IsPlaced() <==> s == ""
      ensures IsPlaced() && IsInt32(startX) && IsInt32(startY) && IsInt32(orientation) ==>
        var parts := Split(s, ',');
        |parts| == 3 && ParseInt(parts[0]) == Some(startX) && ParseInt(parts[1]) == Some(startY)
        && ParseInt(parts[2]) == Some(orientation)
    {
      if !IsPlaced() then ""
      else
        var t := ProtocolText(AsShape());
        ProtocolTextHasNoSemicolon(AsShape());
        if IsInt32(startX) && IsInt32(startY) && IsInt32(orientation) then
          ProtocolTextRoundTrip(AsShape());
          t
        else t
    }
  }
}
