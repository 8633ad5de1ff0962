/**
 * GameRoom and RoomManager: one match between two connections, and the
 * registry of at most four matches with the administrators watching them.
 * They live in one module because finishing or abandoning a match calls
 * back into the registry to close the room. The registry is passed
 * explicitly; each public operation is one atomic step.
 */
module Rooms {
  import opened Lang
  import opened Ships
  import opened Rules
  import opened Wire

  const MAX_ROOMS: int := 4

  const MSG_NOT_YOUR_TURN := "ERROR:No es tu turno"
  const MSG_BAD_TARGET := "ERROR:Coordenada inválida"

  datatype State = WAITING | PLACING_SHIPS | PLAYING | FINISHED

  /** `State.name()` */
  function StateName(s: State): string {
    match s
    case WAITING => "WAITING"
    case PLACING_SHIPS => "PLACING_SHIPS"
    case PLAYING => "PLAYING"
    case FINISHED => "FINISHED"
  }

  /** The statistics a room keeps for one player. */
  datatype Tally = Tally(shots: int, hits: int, sunk: int)

  /** The fields of a room that its operations update. */
  datatype RoomCore = RoomCore(
    player2: Connection?, state: State,
    ships1: seq<Shape>, ships2: seq<Shape>,
    player1Turn: bool, ready1: bool, ready2: bool,
    tally1: Tally, tally2: Tally)

  /** `len:x:y:H` or `len:x:y:V`, the tail of the two sunk-ship lines. */
  function SunkText(s: Shape): string {
    IntToString(s.length) + ":" + IntToString(s.startX) + ":" + IntToString(s.startY) + ":"
      + (if s.orientation == 0 then "H" else "V")
  }

  /** `HIT:row:col` or `MISS:row:col`, the tail of the two shot-result lines. */
  function ShotText(hit: bool, row: int, col: int): string {
    (if hit then "HIT" else "MISS") + ":" + IntToString(row) + ":" + IntToString(col)
  }

  /** A player's name in the registry's texts: `---` when the seat is empty. */
  function SeatText(p: Connection?): string
    reads p
  {
    if p == null then "---" else NameText(p.playerName)
  }

  /** The two lines about a sunk ship: one to the shooter, one to its owner. */
  function SunkLines(shooter: Connection, opponent: Connection, sunk: Option<Shape>): seq<(Connection, string)> {
    if sunk.None? then []
    else [(shooter, "SHIP_SUNK:" + SunkText(sunk.value)), (opponent, "YOUR_SHIP_SUNK:" + SunkText(sunk.value))]
  }

  /** The shot's result, to the shooter and to the opponent. */
  function ResultLines(shooter: Connection, opponent: Connection, hit: bool, row: int, col: int): seq<(Connection, string)> {
    [(shooter, "SHOT_RESULT:" + ShotText(hit, row, col)), (opponent, "OPPONENT_SHOT:" + ShotText(hit, row, col))]
  }

  /** `GAME_OVER:WIN` to the winner, then `GAME_OVER:LOSE` to the loser if there is one. */
  function EndLines(winner: Connection, loser: Connection?): seq<(Connection, string)> {
    [(winner, "GAME_OVER:WIN")] + (if loser != null then [(loser as Connection, "GAME_OVER:LOSE")] else [])
  }

  /** The win, and the loss if there is a loser, for the names the players have now. */
  function EndResults(winner: Connection, loser: Connection?): seq<(Option<string>, bool)>
    reads winner, loser
  {
    [(winner.playerName, true)] + (if loser != null then [(loser.playerName, false)] else [])
  }

  /** A player's statistics after one more accepted shot; a win credits all five ships. */
  function Scored(a: Tally, hit: bool, sunk: bool, won: bool): (b: Tally)
    ensures b.shots == a.shots + 1
    ensures b.hits == if hit then a.hits + 1 else a.hits
    ensures b.sunk == if won then SHIP_COUNT else if sunk then a.sunk + 1 else a.sunk
  {
    Tally(a.shots + 1, a.hits + (if hit then 1 else 0), if won then SHIP_COUNT else a.sunk + (if sunk then 1 else 0))
  }

  /** One more shot for seat 1 (`mine`) or seat 2, and one more hit on a hit; a miss passes the turn. */
  function Counted(c: RoomCore, mine: bool, hit: bool): RoomCore {
    var turn := if hit then c.player1Turn else !c.player1Turn;
    var a := if mine then c.tally1 else c.tally2;
    var b := a.(shots := a.shots + 1, hits := a.hits + (if hit then 1 else 0));
    if mine then c.(player1Turn := turn, tally1 := b) else c.(player1Turn := turn, tally2 := b)
  }

  /** One more ship sunk by seat 1 (`mine`) or seat 2. */
  function SunkOne(c: RoomCore, mine: bool): RoomCore {
    if mine then c.(tally1 := c.tally1.(sunk := c.tally1.sunk + 1))
    else c.(tally2 := c.tally2.(sunk := c.tally2.sunk + 1))
  }

  /** Seat 1 (`mine`) or seat 2 has won: the match is over and the winner is credited with all five ships. */
  function Won(c: RoomCore, mine: bool): RoomCore {
    if mine then c.(state := FINISHED, tally1 := c.tally1.(sunk := SHIP_COUNT))
    else c.(state := FINISHED, tally2 := c.tally2.(sunk := SHIP_COUNT))
  }

  /**
   * The room's fields after an accepted shot from seat 1 (`mine`) or seat 2:
   * the shot is counted; a hit whose sunk-ship check did not fail (`fault`)
   * may sink a ship and, when no ship square is left (`cleared`), wins the
   * match. The shooter's statistics are scored, the defender's stay, the
   * turn passes exactly on a miss, and nothing else changes.
   */
  function AfterShot(c: RoomCore, mine: bool, hit: bool, sunk: bool, fault: bool, cleared: bool): (d: RoomCore)
    ensures var won := hit && !fault && cleared;
      var scored := Scored(if mine then c.tally1 else c.tally2, hit, hit && !fault && sunk, won);
      && d.tally1 == (if mine then scored else c.tally1)
      && d.tally2 == (if mine then c.tally2 else scored)
      && d.player1Turn == (if hit then c.player1Turn else !c.player1Turn)
      && d.state == (if won then FINISHED else c.state)
      && d.(state := c.state, player1Turn := c.player1Turn, tally1 := c.tally1, tally2 := c.tally2) == c
  {
    var counted := Counted(c, mine, hit);
    if !hit || fault then counted
    else
      var afterSunk := if sunk then SunkOne(counted, mine) else counted;
      if cleared then Won(afterSunk, mine) else afterSunk
  }

  /**
   * What a room keeps true of its updated fields, for a room created by
   * `p1`: a second player is seated exactly when the room has left WAITING,
   * nobody is ready before that, the statistics are consistent and both
   * rosters are anchored on the board.
   */
  ghost predicate CoreSound(c: RoomCore, p1: Connection?) {
    && (c.state == WAITING <==> c.player2 == null)
    && (c.state != WAITING ==> p1 != null)
    && (c.state == WAITING ==> !c.ready1 && !c.ready2)
    && 0 <= c.tally1.hits <= c.tally1.shots && 0 <= c.tally2.hits <= c.tally2.shots
    && 0 <= c.tally1.sunk && 0 <= c.tally2.sunk
    && RosterOk(c.ships1) && RosterOk(c.ships2)
  }

  /** The battle has begun exactly when both fleets are in place. */
  ghost predicate CoreLive(c: RoomCore) {
    c.ready1 && c.ready2 <==> c.state == PLAYING || c.state == FINISHED
  }

  /** Counting a shot keeps the room invariant. */
  lemma CountedKeeps(c: RoomCore, p1: Connection?, mine: bool, hit: bool)
    requires CoreSound(c, p1) && CoreLive(c)
    ensures CoreSound(Counted(c, mine, hit), p1) && CoreLive(Counted(c, mine, hit))
  {
  }

  class GameRoom {
    const roomId: string
    const player1: Connection?
    var player2: Connection?
    var currentState: State
    const board1: array2<int>
    const board2: array2<int>
    var player1Ships: seq<Shape>
    var player2Ships: seq<Shape>
    var isPlayer1Turn: bool
    var p1ShipsReady: bool
    var p2ShipsReady: bool
    var p1TotalShots: int
    var p2TotalShots: int
    var p1Hits: int
    var p2Hits: int
    var p1ShipsSunk: int
    var p2ShipsSunk: int

    function Core(): RoomCore
      reads this
    {
      RoomCore(player2, currentState, player1Ships, player2Ships, isPlayer1Turn, p1ShipsReady, p2ShipsReady,
        Tally(p1TotalShots, p1Hits, p1ShipsSunk), Tally(p2TotalShots, p2Hits, p2ShipsSunk))
    }

    /** Everything the room keeps true, except the link between the ready flags and the state. */
    ghost predicate Sound()
      reads this
    {
      IsBoardArray(board1) && IsBoardArray(board2) && board1 != board2 && CoreSound(Core(), player1)
    }

    /** The room invariant: the battle has begun exactly when both fleets are in place. */
    ghost predicate Valid()
      reads this
    {
      Sound() && CoreLive(Core())
    }

    /** The state `new GameRoom(roomId, p1)` sets up; NewGameRoom adds the line it sends. */
    constructor (roomId: string, p1: Connection?)
      ensures this.roomId == roomId && player1 == p1
      ensures Core() == RoomCore(null, WAITING, [], [], true, false, false, Tally(0, 0, 0), Tally(0, 0, 0))
      ensures fresh(board1) && fresh(board2) && IsBoardArray(board1) && IsBoardArray(board2)
      ensures GridOf(board1) == Empty() && GridOf(board2) == Empty()
      ensures Valid()
    {
      this.roomId := roomId;
      player1 := p1;
      player2 := null;
      currentState := WAITING;
      board1 := new int[SIZE, SIZE]((r, c) => WATER);
      board2 := new int[SIZE, SIZE]((r, c) => WATER);
      player1Ships := [];
      player2Ships := [];
      isPlayer1Turn := true;
      p1ShipsReady := false;
      p2ShipsReady := false;
      p1TotalShots := 0;
      p2TotalShots := 0;
      p1Hits := 0;
      p2Hits := 0;
      p1ShipsSunk := 0;
      p2ShipsSunk := 0;
      new;
      GridExt(GridOf(board1), Empty());
      GridExt(GridOf(board2), Empty());
    }

    /** `isFull()`: in a room with a creator, full exactly when the match has left WAITING. */
    function IsFull(): (full: bool)
      reads this
      ensures full <==> player1 != null && player2 != null
      ensures Valid() && player1 != null ==> (full <==> currentState != WAITING)
    {
      player1 != null && player2 != null
    }

    /** `getTurnInfo()`: the name of the player to move while PLAYING, `-` otherwise. */
    function TurnInfo(): (t: string)
      reads this, player1, player2
      requires Valid()
      ensures currentState != PLAYING ==> t == "-"
      ensures currentState == PLAYING && isPlayer1Turn ==> t == SeatText(player1)
      ensures currentState == PLAYING && !isPlayer1Turn ==> t == SeatText(player2)
    {
      if currentState != PLAYING then "-"
      else if isPlayer1Turn then NameText(player1.playerName)
      else NameText(player2.playerName)
    }

    // -------------------------------------------------------------------
    // Which side a connection plays
    // -------------------------------------------------------------------

    /** The board shot at by `shooter`: anyone but player1 shoots at player1's board. */
    function TargetBoard(shooter: Connection): array2<int> {
      if shooter == player1 then board2 else board1
    }

    function HomeBoard(shooter: Connection): array2<int> {
      if shooter == player1 then board1 else board2
    }

    function TargetShips(shooter: Connection): seq<Shape>
      reads this
    {
      if shooter == player1 then player2Ships else player1Ships
    }

    function Opponent(shooter: Connection): Connection?
      reads this
    {
      if shooter == player1 then player2 else player1
    }

    /** The turn check: player1 out of turn, or player2 in player1's turn. */
    predicate OutOfTurn(shooter: Connection)
      reads this
    {
      (shooter == player1 && !isPlayer1Turn) || (shooter == player2 && isPlayer1Turn)
    }

    // -------------------------------------------------------------------
    // Joining and placing ships
    // -------------------------------------------------------------------

    /** The second player takes the empty seat; both are asked to place their ships. */
    method AddPlayer2(p2: Connection, t: Trace) returns (t': Trace)
      requires Valid() && player1 != null && player2 == null
      modifies this
      ensures Valid()
      ensures Core() == old(Core()).(player2 := p2, state := PLACING_SHIPS)
      ensures t' == t.(sent := t.sent + [(player1 as Connection, "Start_Placing_Ships"), (p2, "Start_Placing_Ships")])
    {
      player2 := p2;
      currentState := PLACING_SHIPS;
      t' := Send(t, player1, "Start_Placing_Ships");
      t' := Send(t', player2, "Start_Placing_Ships");
    }

    /** The lines that tell each player whose turn it is. */
    function TurnLines(): seq<(Connection, string)>
      reads this
      requires player1 != null && player2 != null
    {
      var p1: Connection := player1;
      var p2: Connection := player2;
      if isPlayer1Turn then [(p1, "YOUR_TURN"), (p2, "OPPONENT_TURN")]
      else [(p2, "YOUR_TURN"), (p1, "OPPONENT_TURN")]
    }

    /** `notifyTurn()`: only while PLAYING, the player to move first. */
    function NotifyTurn(t: Trace): (t': Trace)
      reads this
      requires Valid()
      ensures currentState != PLAYING ==> t' == t
      ensures currentState == PLAYING ==> t' == t.(sent := t.sent + TurnLines())
      ensures currentState == PLAYING ==> (t'.sent[|t.sent|].0 == player1 <==> isPlayer1Turn || player1 == player2)
    {
      if currentState != PLAYING then t
      else
        var p1: Connection := player1;
        var p2: Connection := player2;
        if isPlayer1Turn then Send(Send(t, p1, "YOUR_TURN"), p2, "OPPONENT_TURN")
        else Send(Send(t, p2, "YOUR_TURN"), p1, "OPPONENT_TURN")
    }

    /** The lines that open the battle: each player learns the other's name. */
    function StartLines(): seq<(Connection, string)>
      reads this, player1, player2
      requires player1 != null && player2 != null
    {
      var p1: Connection := player1;
      var p2: Connection := player2;
      [(p1, "GAME_START:" + NameText(p2.playerName)), (p2, "GAME_START:" + NameText(p1.playerName))]
    }

    /** `startGame()`: both fleets are in place and the battle begins. */
    method StartGame(mgr: RoomManager, t: Trace) returns (t': Trace)
      requires Sound() && currentState == PLACING_SHIPS && p1ShipsReady && p2ShipsReady
      requires mgr.ValidBesides(this)
      modifies this
      ensures Valid() && mgr.Valid()
      ensures Core() == old(Core()).(state := PLAYING)
      ensures t' == t.(sent := t.sent + StartLines() + TurnLines() + mgr.Snapshot())
    {
      currentState := PLAYING;
      mgr.ValidWith(this);
      t' := Send(t, player1, "GAME_START:" + NameText(player2.playerName));
      t' := Send(t', player2, "GAME_START:" + NameText(player1.playerName));
      assert t' == t.(sent := t.sent + StartLines());
      t' := NotifyTurn(t');
      t' := mgr.NotifyMonitors(t');
    }

    function Roster(player: Connection): seq<Shape>
      reads this
    {
      if player == player1 then player1Ships else player2Ships
    }

    function Ready(player: Connection): bool
      reads this
    {
      if player == player1 then p1ShipsReady else p2ShipsReady
    }

    /**
     * `placeShips(player, shipData)`: only in PLACING_SHIPS. A text that is
     * not five `;`-separated entries is refused with the board untouched;
     * otherwise the player's board and roster are rebuilt entry by entry (see
     * Rules.Placement). The player is ready if they already were, or if every
     * entry is accepted; a rejected placement never clears the flag. The
     * battle starts once both players are ready.
     */
    method PlaceShips(player: Connection, shipData: string, mgr: RoomManager, t: Trace) returns (t': Trace)
      requires Valid() && mgr.Valid()
      modifies this, board1, board2
      ensures Valid() && mgr.Valid()
      ensures old(currentState) != PLACING_SHIPS ==> unchanged(this, board1, board2) && t' == t
      ensures old(currentState) == PLACING_SHIPS && |Split(shipData, ';')| != SHIP_COUNT ==>
        unchanged(this, board1, board2) && t' == Send(t, player, MSG_WRONG_COUNT)
      ensures old(currentState) == PLACING_SHIPS && |Split(shipData, ';')| == SHIP_COUNT ==>
        var p := Placement(Split(shipData, ';'));
        var mine := player == player1;
        var bothReady := p.error.None? && (mine || old(p1ShipsReady)) && (!mine || old(p2ShipsReady));
        && GridOf(HomeBoard(player)) == p.grid
        && unchanged(TargetBoard(player))
        && Core() == old(Core()).(
             ships1 := if mine then p.ships else old(player1Ships),
             ships2 := if mine then old(player2Ships) else p.ships,
             ready1 := old(p1ShipsReady) || (mine && p.error.None?),
             ready2 := old(p2ShipsReady) || (!mine && p.error.None?),
             state := if bothReady then PLAYING else PLACING_SHIPS)
        && (p.error.Some? ==> t' == Send(t, player, p.error.value))
        && (p.error.None? && !bothReady ==> t' == Send(t, player, "SHIPS_PLACED_OK"))
        && (bothReady ==>
              t' == t.(sent := t.sent + [(player, "SHIPS_PLACED_OK")] + StartLines() + TurnLines() + mgr.Snapshot()))
    {
      if currentState != PLACING_SHIPS {
        return t;
      }
      var shipStrings := Split(shipData, ';');
      if |shipStrings| != SHIP_COUNT {
        return Send(t, player, MSG_WRONG_COUNT);
      }
      t' := Deploy(player, shipStrings, mgr, t);
    }

    /** placeShips once the text has split into five entries: rebuild, then reply. */
    method Deploy(player: Connection, entries: seq<string>, mgr: RoomManager, t: Trace) returns (t': Trace)
      requires Valid() && mgr.Valid() && currentState == PLACING_SHIPS && |entries| == SHIP_COUNT
      modifies this, HomeBoard(player)
      ensures Valid() && mgr.Valid()
      ensures var p := Placement(entries);
        var mine := player == player1;
        var bothReady := p.error.None? && (mine || old(p1ShipsReady)) && (!mine || old(p2ShipsReady));
        && GridOf(HomeBoard(player)) == p.grid
        && unchanged(TargetBoard(player))
        && Core() == old(Core()).(
             ships1 := if mine then p.ships else old(player1Ships),
             ships2 := if mine then old(player2Ships) else p.ships,
             ready1 := old(p1ShipsReady) || (mine && p.error.None?),
             ready2 := old(p2ShipsReady) || (!mine && p.error.None?),
             state := if bothReady then PLAYING else PLACING_SHIPS)
        && (p.error.Some? ==> t' == Send(t, player, p.error.value))
        && (p.error.None? && !bothReady ==> t' == Send(t, player, "SHIPS_PLACED_OK"))
        && (bothReady ==>
              t' == t.(sent := t.sent + [(player, "SHIPS_PLACED_OK")] + StartLines() + TurnLines() + mgr.Snapshot()))
    {
      var error := LayOut(player, entries, mgr);
      t' := Acknowledge(player, error, mgr, t);
    }

    /**
     * The reply to a placement: the first rejection's message, or
     * `SHIPS_PLACED_OK` followed by the start of the battle once both fleets
     * are in place.
     */
    method Acknowledge(player: Connection, error: Option<string>, mgr: RoomManager, t: Trace) returns (t': Trace)
      requires Sound() && mgr.ValidBesides(this) && currentState == PLACING_SHIPS
      requires error.Some? || !(p1ShipsReady && p2ShipsReady) ==> Valid() && mgr.Valid()
      requires error.Some? ==> !(p1ShipsReady && p2ShipsReady)
      modifies this
      ensures Valid() && mgr.Valid()
      ensures error.Some? ==> Core() == old(Core()) && t' == Send(t, player, error.value)
      ensures error.None? && !(old(p1ShipsReady) && old(p2ShipsReady)) ==>
        Core() == old(Core()) && t' == Send(t, player, "SHIPS_PLACED_OK")
      ensures error.None? && old(p1ShipsReady) && old(p2ShipsReady) ==>
        && Core() == old(Core()).(state := PLAYING)
        && t' == t.(sent := t.sent + [(player, "SHIPS_PLACED_OK")] + StartLines() + TurnLines() + mgr.Snapshot())
    {
      if error.Some? {
        return Send(t, player, error.value);
      }
      t' := Send(t, player, "SHIPS_PLACED_OK");
      assert t'.sent == t.sent + [(player, "SHIPS_PLACED_OK")];
      if p1ShipsReady && p2ShipsReady {
        t' := StartGame(mgr, t');
      }
    }

    /**
     * The entry loop of placeShips and the ready flag it then sets: the
     * player's roster and board become the placement's, and the player is
     * ready if they already were, or if every entry is accepted.
     */
    method LayOut(player: Connection, entries: seq<string>, ghost mgr: RoomManager) returns (error: Option<string>)
      requires Valid() && mgr.Valid() && currentState == PLACING_SHIPS && |entries| == SHIP_COUNT
      modifies this, HomeBoard(player)
      ensures Sound() && mgr.ValidBesides(this)
      ensures !(p1ShipsReady && p2ShipsReady) ==> Valid() && mgr.Valid()
      ensures var p := Placement(entries);
        var mine := player == player1;
        && error == p.error
        && GridOf(HomeBoard(player)) == p.grid
        && unchanged(TargetBoard(player))
        && Core() == old(Core()).(
             ships1 := if mine then p.ships else old(player1Ships),
             ships2 := if mine then old(player2Ships) else p.ships,
             ready1 := old(p1ShipsReady) || (mine && p.error.None?),
             ready2 := old(p2ShipsReady) || (!mine && p.error.None?))
    {
      var home := if player == player1 then board1 else board2;
      var ships;
      ships, error := PlaceFleet(home, entries);
      PlacementAnchored(entries);
      Commit(player, ships, error.None?, mgr);
    }

    /** Stores the player's new roster and, for a fully accepted placement, sets the player's ready flag; it never clears it. */
    method Commit(player: Connection, ships: seq<Shape>, accepted: bool, ghost mgr: RoomManager)
      requires Valid() && mgr.Valid() && currentState == PLACING_SHIPS && RosterOk(ships)
      modifies this
      ensures Sound() && mgr.ValidBesides(this)
      ensures !(p1ShipsReady && p2ShipsReady) ==> Valid() && mgr.Valid()
      ensures var mine := player == player1;
        Core() == old(Core()).(
          ships1 := if mine then ships else old(player1Ships),
          ships2 := if mine then old(player2Ships) else ships,
          ready1 := old(p1ShipsReady) || (mine && accepted),
          ready2 := old(p2ShipsReady) || (!mine && accepted))
    {
      mgr.ValidApart(this);
      if player == player1 {
        player1Ships, p1ShipsReady := ships, p1ShipsReady || accepted;
      } else {
        player2Ships, p2ShipsReady := ships, p2ShipsReady || accepted;
      }
      if !(p1ShipsReady && p2ShipsReady) {
        mgr.ValidWith(this);
      }
    }

    // -------------------------------------------------------------------
    // Shots
    // -------------------------------------------------------------------

    /** The shot passes the state, turn, range and repeat checks. */
    predicate Accepts(shooter: Connection, row: int, col: int)
      reads this, board1, board2
    {
      && currentState == PLAYING && !OutOfTurn(shooter)
      && IsBoardArray(TargetBoard(shooter)) && OnBoard(row, col) && TargetBoard(shooter)[row, col] < HIT
    }

    /** The reply to a shot that is not accepted: none outside PLAYING. */
    function Refusal(shooter: Connection): seq<(Connection, string)>
      reads this
    {
      if currentState != PLAYING then []
      else if OutOfTurn(shooter) then [(shooter, MSG_NOT_YOUR_TURN)]
      else [(shooter, MSG_BAD_TARGET)]
    }

    /** What an accepted shot does to the target board. */
    function StrikeOf(shooter: Connection, row: int, col: int): (st: Strike)
      reads this, board1, board2
      requires Valid() && Accepts(shooter, row, col)
      ensures IsBoard(st.grid)
    {
      Fire(GridOf(TargetBoard(shooter)), TargetShips(shooter), row, col)
    }

    /**
     * `processShot(shooter, row, col)`. Outside PLAYING nothing happens; a
     * shot out of turn, off the board or at a square already shot is refused
     * with one error line. An accepted shot marks the target square (see
     * Rules.Fire) and changes the room as AfterShot says; unless the
     * sunk-ship check failed, both players get the sunk ship, the end of the
     * match or the result and the turn, and the monitors a snapshot. `fault`
     * is the indexing error of the sunk-ship check, which leaves the shot
     * half done: counted and marked hit, and nothing sent.
     */
    method ProcessShot(shooter: Connection, row: int, col: int, mgr: RoomManager, t: Trace)
        returns (t': Trace, fault: bool)
      requires Valid() && mgr.Valid()
      modifies this, board1, board2, mgr
      ensures Valid() && mgr.Valid() && mgr.monitors == old(mgr.monitors)
      ensures !old(Accepts(shooter, row, col)) ==>
        && unchanged(this, board1, board2, mgr) && !fault
        && t' == t.(sent := t.sent + old(Refusal(shooter)))
      ensures old(Accepts(shooter, row, col)) ==>
        var st := old(StrikeOf(shooter, row, col));
        var opponent: Connection := old(Opponent(shooter));
        var cleared := !ShipsLeft(st.grid);
        var won := st.hit && !st.fault && cleared;
        && fault == st.fault
        && GridOf(TargetBoard(shooter)) == st.grid
        && unchanged(HomeBoard(shooter))
        && Core() == AfterShot(old(Core()), shooter == player1, st.hit, st.sunk.Some?, st.fault, cleared)
        && mgr.rooms == (if won then RemoveFirst(old(mgr.rooms), this) else old(mgr.rooms))
        && (fault ==> t' == t)
        && (won ==>
              t' == Trace(t.sent + SunkLines(shooter, opponent, st.sunk) + EndLines(shooter, opponent) + mgr.Snapshot()
                            + ResultLines(shooter, opponent, true, row, col) + mgr.Snapshot(),
                          t.results + EndResults(shooter, opponent)))
        && (!fault && !won ==>
              t' == t.(sent := t.sent + SunkLines(shooter, opponent, st.sunk) + ResultLines(shooter, opponent, st.hit, row, col)
                               + TurnLines() + mgr.Snapshot()))
    {
      if currentState != PLAYING {
        return t, false;
      }
      if OutOfTurn(shooter) {
        return Send(t, shooter, MSG_NOT_YOUR_TURN), false;
      }
      var target := if shooter == player1 then board2 else board1;
      if row < 0 || row > 7 || col < 0 || col > 7 || target[row, col] >= HIT {
        return Send(t, shooter, MSG_BAD_TARGET), false;
      }
      t', fault := Shoot(shooter, row, col, mgr, t);
    }

    /** An accepted shot: the target square is marked (see Rules.Fire), then ScoreShot. */
    method Shoot(shooter: Connection, row: int, col: int, mgr: RoomManager, t: Trace)
        returns (t': Trace, fault: bool)
      requires Valid() && mgr.Valid() && Accepts(shooter, row, col)
      modifies this, TargetBoard(shooter), mgr
      ensures Valid() && mgr.Valid() && mgr.monitors == old(mgr.monitors)
      ensures var st := old(StrikeOf(shooter, row, col));
        var opponent: Connection := old(Opponent(shooter));
        var cleared := !ShipsLeft(st.grid);
        var won := st.hit && !st.fault && cleared;
        && fault == st.fault
        && GridOf(TargetBoard(shooter)) == st.grid
        && Core() == AfterShot(old(Core()), shooter == player1, st.hit, st.sunk.Some?, st.fault, cleared)
        && mgr.rooms == (if won then RemoveFirst(old(mgr.rooms), this) else old(mgr.rooms))
        && (fault ==> t' == t)
        && (won ==>
              t' == Trace(t.sent + SunkLines(shooter, opponent, st.sunk) + EndLines(shooter, opponent) + mgr.Snapshot()
                            + ResultLines(shooter, opponent, true, row, col) + mgr.Snapshot(),
                          t.results + EndResults(shooter, opponent)))
        && (!fault && !won ==>
              t' == t.(sent := t.sent + SunkLines(shooter, opponent, st.sunk) + ResultLines(shooter, opponent, st.hit, row, col)
                               + TurnLines() + mgr.Snapshot()))
    {
      var mine := shooter == player1;
      var opponent: Connection := if mine then player2 else player1;
      ghost var st := StrikeOf(shooter, row, col);
      var hit, sunk;
      hit, sunk, fault := MarkTarget(shooter, row, col, mgr);
      t' := ScoreShot(shooter, opponent, row, col, hit, sunk, fault, !ShipsLeft(st.grid), mgr, t);
    }

    /** The board half of a shot: the target square is marked as Rules.Fire says. */
    method MarkTarget(shooter: Connection, row: int, col: int, ghost mgr: RoomManager) returns (hit: bool, sunk: Option<Shape>, fault: bool)
      requires Valid() && mgr.Valid() && Accepts(shooter, row, col)
      modifies TargetBoard(shooter)
      ensures Valid() && mgr.Valid()
      ensures var st := old(StrikeOf(shooter, row, col));
        && GridOf(TargetBoard(shooter)) == st.grid && hit == st.hit && sunk == st.sunk && fault == st.fault
        && (BoardShipsLeft(TargetBoard(shooter)) <==> ShipsLeft(st.grid))
    {
      var target := if shooter == player1 then board2 else board1;
      hit, sunk, fault := FireAt(target, TargetShips(shooter), row, col);
      BoardShipsLeftIsShipsLeft(target);
    }

    /**
     * The part of processShot that follows the board update `st`: the room
     * changes as AfterShot says; then, unless the sunk-ship check failed,
     * both players get the sunk ship and the end of the match if any, the
     * result, the turn while the match goes on, and the monitors get a
     * snapshot.
     */
    method ScoreShot(shooter: Connection, opponent: Connection, row: int, col: int,
                     hit: bool, sunk: Option<Shape>, fault: bool, ghost cleared: bool, mgr: RoomManager, t: Trace)
        returns (t': Trace)
      requires Valid() && mgr.Valid() && currentState == PLAYING && opponent == Opponent(shooter)
      requires (fault ==> hit) && (fault || !hit ==> sunk.None?)
      requires cleared == !BoardShipsLeft(TargetBoard(shooter))
      modifies this, mgr
      ensures Valid() && mgr.Valid() && mgr.monitors == old(mgr.monitors)
      ensures GridOf(TargetBoard(shooter)) == old(GridOf(TargetBoard(shooter)))
      ensures Core() == AfterShot(old(Core()), shooter == player1, hit, sunk.Some?, fault, cleared)
      ensures mgr.rooms == (if hit && !fault && cleared then RemoveFirst(old(mgr.rooms), this) else old(mgr.rooms))
      ensures fault ==> t' == t
      ensures hit && !fault && cleared ==>
        t' == Trace(t.sent + SunkLines(shooter, opponent, sunk) + EndLines(shooter, opponent) + mgr.Snapshot()
                      + ResultLines(shooter, opponent, true, row, col) + mgr.Snapshot(),
                    t.results + EndResults(shooter, opponent))
      ensures !fault && (!hit || !cleared) ==>
        t' == t.(sent := t.sent + SunkLines(shooter, opponent, sunk) + ResultLines(shooter, opponent, hit, row, col)
                         + TurnLines() + mgr.Snapshot())
    {
      CountShot(shooter, hit, mgr);
      if fault {
        return t;
      }
      t' := Respond(shooter, opponent, row, col, hit, sunk, cleared, mgr, t);
    }

    /** The counted shot's consequences: a hit may sink a ship and win; both players are told the result. */
    method Respond(shooter: Connection, opponent: Connection, row: int, col: int,
                   hit: bool, sunk: Option<Shape>, ghost cleared: bool, mgr: RoomManager, t: Trace)
        returns (t': Trace)
      requires Valid() && mgr.Valid() && currentState == PLAYING && opponent == Opponent(shooter)
      requires !hit ==> sunk.None?
      requires cleared == !BoardShipsLeft(TargetBoard(shooter))
      modifies this, mgr
      ensures Valid() && mgr.Valid() && mgr.monitors == old(mgr.monitors)
      ensures GridOf(TargetBoard(shooter)) == old(GridOf(TargetBoard(shooter)))
      ensures var mine := shooter == player1;
        var c := if sunk.Some? then SunkOne(old(Core()), mine) else old(Core());
        Core() == (if !hit then old(Core()) else if cleared then Won(c, mine) else c)
      ensures mgr.rooms == (if hit && cleared then RemoveFirst(old(mgr.rooms), this) else old(mgr.rooms))
      ensures hit && cleared ==>
        t' == Trace(t.sent + SunkLines(shooter, opponent, sunk) + EndLines(shooter, opponent) + mgr.Snapshot()
                      + ResultLines(shooter, opponent, true, row, col) + mgr.Snapshot(),
                    t.results + EndResults(shooter, opponent))
      ensures !hit || !cleared ==>
        t' == t.(sent := t.sent + SunkLines(shooter, opponent, sunk) + ResultLines(shooter, opponent, hit, row, col)
                         + TurnLines() + mgr.Snapshot())
    {
      if hit {
        t' := ScoreHit(shooter, opponent, row, col, sunk, cleared, mgr, t);
      } else {
        assert SunkLines(shooter, opponent, sunk) == [];
        assert t.sent + SunkLines(shooter, opponent, sunk) == t.sent;
        t' := Announce(shooter, opponent, false, row, col, mgr, t);
      }
    }

    /**
     * A counted hit whose sunk-ship check did not fail: the sunk-ship report
     * and the win check, then the result, the turn and the snapshot. `won`
     * says whether the target board has no ship square left.
     */
    method ScoreHit(shooter: Connection, opponent: Connection, row: int, col: int, sunk: Option<Shape>, ghost won: bool,
                    mgr: RoomManager, t: Trace)
        returns (t': Trace)
      requires Valid() && mgr.Valid() && currentState == PLAYING
      requires opponent == Opponent(shooter)
      requires won == !BoardShipsLeft(TargetBoard(shooter))
      modifies this, mgr
      ensures Valid() && mgr.Valid() && mgr.monitors == old(mgr.monitors)
      ensures var mine := shooter == player1;
        var c := if sunk.Some? then SunkOne(old(Core()), mine) else old(Core());
        && Core() == (if won then Won(c, mine) else c)
        && mgr.rooms == (if won then RemoveFirst(old(mgr.rooms), this) else old(mgr.rooms))
      ensures won ==>
        t' == Trace(t.sent + SunkLines(shooter, opponent, sunk) + EndLines(shooter, opponent) + mgr.Snapshot()
                      + ResultLines(shooter, opponent, true, row, col) + mgr.Snapshot(),
                    t.results + EndResults(shooter, opponent))
      ensures !won ==>
        t' == t.(sent := t.sent + SunkLines(shooter, opponent, sunk) + ResultLines(shooter, opponent, true, row, col)
                         + TurnLines() + mgr.Snapshot())
    {
      t' := AfterHit(shooter, opponent, sunk, won, mgr, t);
      t' := Announce(shooter, opponent, true, row, col, mgr, t');
    }

    /** The counters of a shot, as Counted says. */
    method CountShot(shooter: Connection, hit: bool, ghost mgr: RoomManager)
      requires Valid() && mgr.Valid() && currentState == PLAYING
      modifies this
      ensures Valid() && mgr.Valid()
      ensures Core() == Counted(old(Core()), shooter == player1, hit)
    {
      ghost var c := Core();
      mgr.ValidApart(this);
      if shooter == player1 {
        p1TotalShots := p1TotalShots + 1;
      } else {
        p2TotalShots := p2TotalShots + 1;
      }
      if hit {
        if shooter == player1 {
          p1Hits := p1Hits + 1;
        } else {
          p2Hits := p2Hits + 1;
        }
      } else {
        isPlayer1Turn := !isPlayer1Turn;
      }
      assert Core() == Counted(c, shooter == player1, hit);
      CountedKeeps(c, player1, shooter == player1, hit);
      mgr.ValidWith(this);
    }

    /** The tail of processShot: the result to both players, the turn while the match goes on, the monitors' snapshot. */
    method Announce(shooter: Connection, opponent: Connection, hit: bool, row: int, col: int, mgr: RoomManager, t: Trace)
        returns (t': Trace)
      requires Valid() && mgr.Valid()
      ensures currentState == PLAYING ==>
        t' == t.(sent := t.sent + ResultLines(shooter, opponent, hit, row, col) + TurnLines() + mgr.Snapshot())
      ensures currentState != PLAYING ==>
        t' == t.(sent := t.sent + ResultLines(shooter, opponent, hit, row, col) + mgr.Snapshot())
      ensures mgr.Snapshot() == old(mgr.Snapshot())
    {
      t' := Send(t, shooter, "SHOT_RESULT:" + ShotText(hit, row, col));
      t' := Send(t', opponent, "OPPONENT_SHOT:" + ShotText(hit, row, col));
      assert t' == t.(sent := t.sent + ResultLines(shooter, opponent, hit, row, col));
      if currentState == PLAYING {
        t' := NotifyTurn(t');
      }
      t' := mgr.NotifyMonitors(t');
    }

    /** One more ship sunk by `shooter`, as SunkOne says. */
    method CountSunk(shooter: Connection, ghost mgr: RoomManager)
      requires Valid() && mgr.Valid()
      modifies this
      ensures Valid() && mgr.Valid()
      ensures Core() == SunkOne(old(Core()), shooter == player1)
    {
      mgr.ValidApart(this);
      if shooter == player1 {
        p1ShipsSunk := p1ShipsSunk + 1;
      } else {
        p2ShipsSunk := p2ShipsSunk + 1;
      }
      mgr.ValidWith(this);
    }

    /**
     * The rest of processShot's hit branch once the square is marked and the
     * hit counted: the sunk-ship report, then the win check. `won` says
     * whether the target board has no ship square left.
     */
    method AfterHit(shooter: Connection, opponent: Connection, sunk: Option<Shape>, ghost won: bool, mgr: RoomManager, t: Trace)
        returns (t': Trace)
      requires Valid() && mgr.Valid() && currentState == PLAYING
      requires opponent == Opponent(shooter)
      requires won == !BoardShipsLeft(TargetBoard(shooter))
      modifies this, mgr
      ensures Valid() && mgr.Valid() && mgr.monitors == old(mgr.monitors)
      ensures var mine := shooter == player1;
        var c := if sunk.Some? then SunkOne(old(Core()), mine) else old(Core());
        && Core() == (if won then Won(c, mine) else c)
        && mgr.rooms == (if won then RemoveFirst(old(mgr.rooms), this) else old(mgr.rooms))
      ensures won ==>
        t' == Trace(t.sent + SunkLines(shooter, opponent, sunk) + EndLines(shooter, opponent) + mgr.Snapshot(),
                    t.results + EndResults(shooter, opponent))
      ensures !won ==> t' == t.(sent := t.sent + SunkLines(shooter, opponent, sunk))
    {
      t' := ReportSunk(shooter, opponent, sunk, mgr, t);
      t' := CheckWinCondition(shooter, won, mgr, t');
    }

    /** A sunk ship, if any, is announced to both players and counted for the shooter. */
    method ReportSunk(shooter: Connection, opponent: Connection, sunk: Option<Shape>, ghost mgr: RoomManager, t: Trace)
        returns (t': Trace)
      requires Valid() && mgr.Valid()
      modifies this
      ensures Valid() && mgr.Valid()
      ensures Core() == if sunk.Some? then SunkOne(old(Core()), shooter == player1) else old(Core())
      ensures t' == t.(sent := t.sent + SunkLines(shooter, opponent, sunk))
    {
      if sunk.Some? {
        t' := Send(t, shooter, "SHIP_SUNK:" + SunkText(sunk.value));
        t' := Send(t', opponent, "YOUR_SHIP_SUNK:" + SunkText(sunk.value));
        CountSunk(shooter, mgr);
      } else {
        t' := t;
      }
    }

    /**
     * `finishGame(winner, loser, reason)`: the match is over, both players
     * are told and their results recorded, and the room leaves the registry.
     */
    method FinishGame(winner: Connection, loser: Connection?, mgr: RoomManager, t: Trace) returns (t': Trace)
      requires Sound() && currentState == PLAYING && p1ShipsReady && p2ShipsReady
      requires mgr.ValidBesides(this)
      modifies this, mgr
      ensures Valid() && mgr.Valid()
      ensures Core() == old(Core()).(state := FINISHED)
      ensures mgr.rooms == RemoveFirst(old(mgr.rooms), this) && this !in mgr.rooms
      ensures mgr.monitors == old(mgr.monitors)
      ensures t' == Trace(t.sent + EndLines(winner, loser) + mgr.Snapshot(), t.results + EndResults(winner, loser))
    {
      currentState := FINISHED;
      mgr.ValidWith(this);
      t' := Send(t, winner, "GAME_OVER:WIN");
      if loser != null {
        t' := Send(t', loser, "GAME_OVER:LOSE");
      }
      t' := Record(t', winner, true);
      if loser != null {
        t' := Record(t', loser, false);
      }
      assert t' == Trace(t.sent + EndLines(winner, loser), t.results + EndResults(winner, loser));
      t' := mgr.CloseRoom(this, t');
    }

    /**
     * `checkWinCondition(shooter)`: when no ship square of the target board
     * is left (`won`), the shooter is credited with all five ships and wins.
     */
    method CheckWinCondition(shooter: Connection, ghost won: bool, mgr: RoomManager, t: Trace) returns (t': Trace)
      requires Valid() && mgr.Valid() && currentState == PLAYING
      requires won == !BoardShipsLeft(TargetBoard(shooter))
      modifies this, mgr
      ensures Valid() && mgr.Valid() && mgr.monitors == old(mgr.monitors)
      ensures
        && Core() == (if won then Won(old(Core()), shooter == player1) else old(Core()))
        && mgr.rooms == (if won then RemoveFirst(old(mgr.rooms), this) else old(mgr.rooms))
        && t' == (if won then Trace(t.sent + EndLines(shooter, Opponent(shooter)) + mgr.Snapshot(),
                                    t.results + EndResults(shooter, Opponent(shooter)))
                  else t)
    {
      var left := HasShipsLeft(TargetBoard(shooter));
      if !left {
        mgr.ValidApart(this);
        if shooter == player1 {
          p1ShipsSunk := SHIP_COUNT;
        } else {
          p2ShipsSunk := SHIP_COUNT;
        }
        t' := FinishGame(shooter, Opponent(shooter), mgr, t);
      } else {
        t' := t;
      }
    }

    /**
     * `handlePlayerDisconnect(p)`: nothing once FINISHED. In PLACING_SHIPS or
     * PLAYING the other seat wins by abandonment: one line and one recorded
     * win. In every unfinished state the room leaves the registry; the
     * room's own state is left as it was.
     */
    method HandlePlayerDisconnect(disconnected: Connection, mgr: RoomManager, t: Trace) returns (t': Trace)
      requires Valid() && mgr.Valid()
      modifies mgr
      ensures mgr.Valid() && mgr.monitors == old(mgr.monitors)
      ensures currentState == FINISHED ==> mgr.rooms == old(mgr.rooms) && t' == t
      ensures currentState != FINISHED ==>
        var winner := if disconnected == player1 then player2 else player1;
        var awarded := currentState != WAITING && winner != null;
        && mgr.rooms == RemoveFirst(old(mgr.rooms), this) && this !in mgr.rooms
        && t' == Trace(t.sent + (if awarded then [(winner as Connection, "GAME_OVER:WIN_BY_DISCONNECT")] else []) + mgr.Snapshot(),
                       t.results + (if awarded then [(winner.playerName, true)] else []))
    {
      if currentState == FINISHED {
        return t;
      }
      t' := t;
      if currentState == PLAYING || currentState == PLACING_SHIPS {
        var winner := if disconnected == player1 then player2 else player1;
        if winner != null {
          t' := Send(t', winner, "GAME_OVER:WIN_BY_DISCONNECT");
          t' := Record(t', winner, true);
        }
      }
      t' := mgr.CloseRoom(this, t');
    }
  }

  /** The name the turn information shows is the name of the player who receives YOUR_TURN. */
  lemma TurnInfoNamesMover(r: GameRoom, t: Trace)
    requires r.Valid() && r.currentState == PLAYING
    ensures r.TurnInfo() == NameText(r.NotifyTurn(t).sent[|t.sent|].0.playerName)
    ensures r.NotifyTurn(t).sent[|t.sent|].1 == "YOUR_TURN"
  {
  }

  /** `new GameRoom(roomId, p1)`: a WAITING room; its creator, when there is one, is told it joined. */
  method NewGameRoom(roomId: string, p1: Connection?, t: Trace) returns (room: GameRoom, t': Trace)
    ensures fresh(room) && fresh(room.board1) && fresh(room.board2)
    ensures room.roomId == roomId && room.player1 == p1 && room.Valid()
    ensures room.Core() == RoomCore(null, WAITING, [], [], true, false, false, Tally(0, 0, 0), Tally(0, 0, 0))
    ensures GridOf(room.board1) == Empty() && GridOf(room.board2) == Empty()
    ensures t' == (if p1 != null then Send(t, p1, "AUTO_JOINED:" + roomId) else t)
  {
    room := new GameRoom(roomId, p1);
    t' := t;
    if p1 != null {
      t' := Send(t, p1, "AUTO_JOINED:" + roomId);
    }
  }

  // ---------------------------------------------------------------------
  // The registry
  // ---------------------------------------------------------------------

  /** Every player of the rooms, empty seats included. */
  function PlayersOf(rs: seq<GameRoom>): set<Connection?>
    reads rs
  {
    (set i | 0 <= i < |rs| :: rs[i].player1) + (set i | 0 <= i < |rs| :: rs[i].player2)
  }

  /** The number of occupied seats. */
  function PlayerCount(r: GameRoom): int
    reads r
  {
    (if r.player1 != null then 1 else 0) + (if r.player2 != null then 1 else 0)
  }

  /** The five fields of a room in the room list. */
  function RoomFields(r: GameRoom): seq<string>
    reads r, r.player1, r.player2
  {
    [r.roomId, SeatText(r.player1), SeatText(r.player2), StateName(r.currentState),
     IntToString(PlayerCount(r)) + "/2"]
  }

  function RoomEntry(r: GameRoom): string
    reads r, r.player1, r.player2
  {
    Join(RoomFields(r), ',')
  }

  function RoomEntries(rs: seq<GameRoom>): (es: seq<string>)
    reads rs, (set i | 0 <= i < |rs| :: rs[i].player1), (set i | 0 <= i < |rs| :: rs[i].player2)
    ensures |es| == |rs|
  {
    if |rs| == 0 then [] else RoomEntries(rs[..|rs| - 1]) + [RoomEntry(rs[|rs| - 1])]
  }

  /** The eleven fields of a room in a monitor snapshot. */
  function MonitorFields(r: GameRoom): seq<string>
    reads r, r.player1, r.player2
    requires r.Valid()
  {
    [r.roomId, SeatText(r.player1), SeatText(r.player2), StateName(r.currentState),
     if r.player1 != null then r.TurnInfo() else "---",
     IntToString(r.p1TotalShots), IntToString(r.p1Hits), IntToString(r.p1ShipsSunk),
     IntToString(r.p2TotalShots), IntToString(r.p2Hits), IntToString(r.p2ShipsSunk)]
  }

  function MonitorRecord(r: GameRoom): string
    reads r, r.player1, r.player2
    requires r.Valid()
  {
    Join(MonitorFields(r), '|')
  }

  function MonitorRecords(rs: seq<GameRoom>): (ms: seq<string>)
    reads rs, (set i | 0 <= i < |rs| :: rs[i].player1), (set i | 0 <= i < |rs| :: rs[i].player2)
    requires forall i :: 0 <= i < |rs| ==> rs[i].Valid()
    ensures |ms| == |rs|
  {
    if |rs| == 0 then [] else MonitorRecords(rs[..|rs| - 1]) + [MonitorRecord(rs[|rs| - 1])]
  }

  /** The position of the first room called `id`, or `|rs|`. */
  function FirstWithId(rs: seq<GameRoom>, id: string): (k: nat)
    ensures k <= |rs|
    ensures k < |rs| ==> rs[k].roomId == id
    ensures forall j :: 0 <= j < k ==> rs[j].roomId != id
  {
    if |rs| == 0 then 0
    else if rs[0].roomId == id then 0
    else 1 + FirstWithId(rs[1..], id)
  }

  class RoomManager {
    var rooms: seq<GameRoom>
    var monitors: seq<Connection>

    constructor ()
      ensures rooms == [] && monitors == []
    {
      rooms := [];
      monitors := [];
    }

    /** The registry's shape: at most four distinct rooms, each with a creator. */
    ghost predicate Shaped()
      reads this
    {
      |rooms| <= MAX_ROOMS && Distinct(rooms) && forall r :: r in rooms ==> r.player1 != null
    }

    ghost predicate Valid()
      reads this, rooms
    {
      Shaped() && forall r :: r in rooms ==> r.Valid()
    }

    /** Valid, except that `room` may be in the middle of an update. */
    ghost predicate ValidBesides(room: GameRoom)
      reads this, rooms
    {
      Shaped() && forall r :: r in rooms && r != room ==> r.Valid()
    }

    lemma ValidApart(room: GameRoom)
      requires Valid()
      ensures ValidBesides(room)
    {
    }

    lemma ValidWith(room: GameRoom)
      requires ValidBesides(room) && room.Valid()
      ensures Valid()
    {
    }

    /** The guard of joinRoom: a room with that id exists and has no second player. */
    predicate Joinable(id: string)
      reads this, rooms
    {
      GetRoomById(id) != null && !GetRoomById(id).IsFull()
    }

    /** `getRoomById(id)`: the first room in list order with that id, or null. */
    function GetRoomById(id: string): (r: GameRoom?)
      reads this
      ensures r != null ==> r in rooms && r.roomId == id
      ensures r != null ==> forall j :: 0 <= j < |rooms| && rooms[j].roomId == id ==> rooms[IndexOf(rooms, r)] == r && IndexOf(rooms, r) <= j
      ensures r == null <==> forall j :: 0 <= j < |rooms| ==> rooms[j].roomId != id
    {
      var k := FirstWithId(rooms, id);
      if k < |rooms| then
        assert rooms[k] !in rooms[..k] by {
          forall j | 0 <= j < k ensures rooms[..k][j] != rooms[k] {
            assert rooms[..k][j].roomId != id;
          }
        }
        assert IndexOf(rooms, rooms[k]) == k;
        rooms[k]
      else null
    }

    /** `"ROOM_LIST"`'s text: one `id,p1,p2,STATE,n/2` entry per room, separated by `|`. */
    function RoomList(): (s: string)
      reads this, rooms, PlayersOf(rooms)
      ensures s == "" <==> |rooms| == 0
    {
      var es := RoomEntries(rooms);
      if |es| > 0 then
        RoomEntriesNonEmpty(rooms, 0);
        JoinNonEmpty(es, '|');
        Join(es, '|')
      else Join(es, '|')
    }

    /** The monitor snapshot: per room, eleven `|`-separated fields and a `;`. */
    function MonitorData(): string
      reads this, rooms, PlayersOf(rooms)
      requires Valid()
    {
      Terminated(MonitorRecords(rooms), ';')
    }

    /** The lines notifyMonitors writes: the current snapshot to every monitor. */
    function Snapshot(): seq<(Connection, string)>
      reads this, rooms, PlayersOf(rooms)
      requires Valid()
    {
      Broadcast(monitors, "MONITOR_DATA:" + MonitorData())
    }

    /** `getRoomListString()`: entries each followed by `|`, then the last `|` cut off. */
    method GetRoomListString() returns (result: string)
      ensures result == RoomList()
    {
      var sb := "";
      for k := 0 to |rooms|
        invariant sb == Terminated(RoomEntries(rooms[..k]), '|')
      {
        assert rooms[..k + 1][..k] == rooms[..k];
        sb := sb + RoomEntry(rooms[k]) + "|";
      }
      assert rooms[..|rooms|] == rooms;
      result := sb;
      if |result| > 0 && result[|result| - 1] == '|' {
        result := result[..|result| - 1];
      }
      if |rooms| > 0 {
        TerminatedIsJoin(RoomEntries(rooms), '|');
      }
    }

    /** `getMonitorData()` */
    method GetMonitorData() returns (data: string)
      requires Valid()
      ensures data == MonitorData()
    {
      data := "";
      for k := 0 to |rooms|
        invariant data == Terminated(MonitorRecords(rooms[..k]), ';')
      {
        assert rooms[..k + 1][..k] == rooms[..k];
        data := data + MonitorRecord(rooms[k]) + ";";
      }
      assert rooms[..|rooms|] == rooms;
    }

    /** `notifyMonitors()`: one snapshot, sent to every monitor in turn. */
    method NotifyMonitors(t: Trace) returns (t': Trace)
      requires Valid()
      ensures t' == t.(sent := t.sent + Snapshot())
      ensures Snapshot() == old(Snapshot())
    {
      var data := GetMonitorData();
      var line := "MONITOR_DATA:" + data;
      t' := t;
      for k := 0 to |monitors|
        invariant t' == t.(sent := t.sent + Broadcast(monitors[..k], line))
      {
        assert monitors[..k + 1][..k] == monitors[..k];
        t' := Send(t', monitors[k], line);
      }
      assert monitors[..|monitors|] == monitors;
    }

    /**
     * `createRoom(player)`: refused (null) when four rooms exist; otherwise a
     * new WAITING room `Sala-<n+1>` with the player as creator joins the end
     * of the list.
     */
    method CreateRoom(player: Connection, t: Trace) returns (room: GameRoom?, t': Trace)
      requires Valid()
      modifies this
      ensures Valid() && monitors == old(monitors)
      ensures old(|rooms|) >= MAX_ROOMS ==> room == null && rooms == old(rooms) && t' == t
      ensures old(|rooms|) < MAX_ROOMS ==>
        && room != null && fresh(room) && rooms == old(rooms) + [room]
        && room.roomId == "Sala-" + IntToString(old(|rooms|) + 1) && room.player1 == player
        && room.Core() == RoomCore(null, WAITING, [], [], true, false, false, Tally(0, 0, 0), Tally(0, 0, 0))
        && room.Valid() && GridOf(room.board1) == Empty() && GridOf(room.board2) == Empty()
        && t' == t.(sent := t.sent + [(player, "AUTO_JOINED:" + room.roomId)] + Snapshot())
    {
      if |rooms| >= MAX_ROOMS {
        return null, t;
      }
      var id := "Sala-" + IntToString(|rooms| + 1);
      var r;
      r, t' := NewGameRoom(id, player, t);
      Enlist(r);
      t' := NotifyMonitors(t');
      room := r;
    }

    /** `rooms.add(room)`: a new room with a creator joins the end of the list. */
    method Enlist(room: GameRoom)
      requires Valid() && |rooms| < MAX_ROOMS && room !in rooms
      requires room.Valid() && room.player1 != null
      modifies this
      ensures Valid() && monitors == old(monitors) && rooms == old(rooms) + [room]
    {
      rooms := rooms + [room];
    }

    /**
     * `joinRoom(roomId, player)`: succeeds exactly when a room has that id
     * and a free seat; the creator hears of the newcomer, the newcomer gets
     * the room's id and creator, and the placement phase begins.
     */
    method JoinRoom(roomId: string, player: Connection, t: Trace) returns (joined: bool, t': Trace)
      requires Valid()
      modifies rooms
      ensures Valid() && rooms == old(rooms) && monitors == old(monitors)
      ensures var room := old(GetRoomById(roomId));
        joined <==> room != null && !old(room.IsFull())
      ensures var room := old(GetRoomById(roomId));
        forall i :: 0 <= i < |rooms| && rooms[i] != room ==> unchanged(rooms[i])
      ensures !joined ==> unchanged(rooms) && t' == t
      ensures joined ==>
        var room := old(GetRoomById(roomId));
        var p1: Connection := room.player1;
        && room.Core() == old(room.Core()).(player2 := player, state := PLACING_SHIPS)
        && t' == t.(sent := t.sent
             + [(p1, "PLAYER_JOINED:" + NameText(player.playerName)),
                (player, "ROOM_INFO:" + roomId + ":" + NameText(p1.playerName))]
             + [(p1, "Start_Placing_Ships"), (player, "Start_Placing_Ships")]
             + Snapshot())
    {
      var room := GetRoomById(roomId);
      if room != null && !room.IsFull() {
        t' := Seat(room, player, t);
        t' := NotifyMonitors(t');
        return true, t';
      }
      return false, t;
    }

    /** The successful part of joinRoom, before the monitors' snapshot: both players are told, and the seat is taken. */
    method Seat(room: GameRoom, player: Connection, t: Trace) returns (t': Trace)
      requires Valid() && room in rooms && !room.IsFull()
      modifies room
      ensures Valid()
      ensures room.player1 != null
      ensures room.Core() == old(room.Core()).(player2 := player, state := PLACING_SHIPS)
      ensures var p1: Connection := room.player1;
        t' == t.(sent := t.sent
             + [(p1, "PLAYER_JOINED:" + NameText(player.playerName)),
                (player, "ROOM_INFO:" + room.roomId + ":" + NameText(p1.playerName))]
             + [(p1, "Start_Placing_Ships"), (player, "Start_Placing_Ships")])
    {
      var p1 := room.player1;
      // every registered room has a creator, so joinRoom's null test on it always passes
      assert p1 != null;
      t' := Send(t, p1, "PLAYER_JOINED:" + NameText(player.playerName));
      t' := Send(t', player, "ROOM_INFO:" + room.roomId + ":" + NameText(p1.playerName));
      assert t' == t.(sent := t.sent
           + [(p1, "PLAYER_JOINED:" + NameText(player.playerName)),
              (player, "ROOM_INFO:" + room.roomId + ":" + NameText(p1.playerName))]);
      ValidApart(room);
      t' := room.AddPlayer2(player, t');
      ValidWith(room);
    }

    /** `closeRoom(room)`: the room leaves the list, if it is there, and the monitors get a snapshot. */
    method CloseRoom(room: GameRoom, t: Trace) returns (t': Trace)
      requires ValidBesides(room)
      modifies this
      ensures Valid() && monitors == old(monitors)
      ensures rooms == RemoveFirst(old(rooms), room) && room !in rooms
      ensures room in old(rooms) ==> rooms == old(rooms[..IndexOf(rooms, room)] + rooms[IndexOf(rooms, room) + 1..])
      ensures t' == t.(sent := t.sent + Snapshot())
    {
      Unlist(room);
      t' := NotifyMonitors(t);
    }

    /** `rooms.remove(room)`: its first occurrence, if any, is dropped and the others keep their order. */
    method Unlist(room: GameRoom)
      requires ValidBesides(room)
      modifies this
      ensures Valid() && monitors == old(monitors)
      ensures rooms == RemoveFirst(old(rooms), room) && room !in rooms
      ensures room in old(rooms) ==> rooms == old(rooms[..IndexOf(rooms, room)] + rooms[IndexOf(rooms, room) + 1..])
    {
      RemoveFirstFromDistinct(rooms, room);
      if room in rooms {
        RemoveFirstCuts(rooms, room);
      }
      rooms := RemoveFirst(rooms, room);
    }

    /** `addMonitor(monitor)`: registered, and sent the current snapshot at once. */
    method AddMonitor(monitor: Connection, t: Trace) returns (t': Trace)
      requires Valid()
      modifies this
      ensures Valid() && rooms == old(rooms)
      ensures monitors == old(monitors) + [monitor]
      ensures t' == Send(t, monitor, "MONITOR_DATA:" + MonitorData())
    {
      monitors := monitors + [monitor];
      var data := GetMonitorData();
      t' := Send(t, monitor, "MONITOR_DATA:" + data);
    }

    /** `removeMonitor(monitor)`: its first registration, if any, is dropped. */
    method RemoveMonitor(monitor: Connection)
      requires Valid()
      modifies this
      ensures Valid() && rooms == old(rooms)
      ensures monitors == RemoveFirst(old(monitors), monitor)
    {
      monitors := RemoveFirst(monitors, monitor);
    }
  }

  lemma {:induction false} RoomEntriesNonEmpty(rs: seq<GameRoom>, i: int)
    requires 0 <= i < |rs|
    ensures RoomEntries(rs)[i] != ""
  {
    if i < |rs| - 1 {
      RoomEntriesNonEmpty(rs[..|rs| - 1], i);
    }
  }

  lemma JoinNonEmpty(ps: seq<string>, d: char)
    requires |ps| >= 1 && ps[0] != ""
    ensures Join(ps, d) != ""
  {
  }
}
