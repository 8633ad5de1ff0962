# Battleship server and placement screen, modelled in Dafny

The system is a two-player Battleship game played over a line-based text
protocol. Clients send lines such as `LOGIN:user:pass`, `CREATE_ROOM`,
`JOIN_ROOM:Sala-1`, `PLACE_SHIPS:x,y,o;...` and `SHOOT:row:col`. The server
splits each line at `:`, routes it on the first piece, and answers with
lines such as `LOGIN_OK:wins:losses`, `SHOT_RESULT:HIT:3:5` and
`GAME_OVER:WIN`.

A registry holds at most four rooms, named `Sala-1` to `Sala-4`. Each room
holds two 8x8 boards. Each player places a roster of five ships, of lengths
2, 2, 3, 3 and 4. The players then shoot in turns until one board has no
ship square left. Administrators ("monitors") get a snapshot of every room
whenever something changes. On the client, a placement screen lets the
player lay out the roster and sends it as one `PLACE_SHIPS` line.

The project has eight modules, one per file:

| file | module | models |
|---|---|---|
| `lang.dfy` | `Lang` | The parts of the Java library the core relies on: `String.split` with one delimiter character, `Integer.parseInt`, the decimal text of an `int`, `List.remove`. |
| `validation.dfy` | `Validation` | `InputValidator`: the username, password and name checks and their messages. |
| `ships.dfy` | `Ships` | `Ship`, as a class with its fields, plus `Shape`, the value those fields describe. |
| `rules.dfy` | `Rules` | The board rules of a room, stated on board values: parsing `x,y,o` entries, painting ships, shots, sunk ships, the win scan. It also has the same work done in place on `array2<int>` boards, proved against those values. |
| `wire.dfy` | `Wire` | A connection (the player name the rooms see), and the trace of lines sent and game results recorded. |
| `rooms.dfy` | `Rooms` | `GameRoom` and `RoomManager`, as classes whose methods update their fields and append to the trace. |
| `server.dfy` | `Server` | `ClientHandler.processMessage` and its handlers. |
| `placement.dfy` | `Placement` | The logic of `ShipPlacementGUI`: the roster, the validity check, clicks, rotation and the ready message. |

Sending a line is appending `(connection, line)` to one global trace. One
trace keeps the order between players and monitors, and it is safe even
when one connection holds two roles. The player database is a parameter
whose answers are fixed for one command. The registry singleton is passed
explicitly.

Strings are sequences of Unicode characters. Where the source measures a
string with `String.length()`, the model counts UTF-16 units, so a
character above U+FFFF counts twice; the regular expressions count whole
characters, as Java's do.

Three behaviours of the source that a reader may not expect:
- `handlePlayerDisconnect` removes the room but does not set it FINISHED.
  The player who stays still holds the room, which is still PLACING_SHIPS
  or PLAYING, so when that player disconnects in turn, the player who left
  first is sent GAME_OVER:WIN_BY_DISCONNECT and recorded a win.
- A rejected placement keeps the ships of the entries before the rejected
  one on the board, rather than leaving the board empty.
- A rejected placement does not clear a ready flag set by an earlier
  accepted one.

## Model

| member | source | states |
|---|---|---|
| Lang.Split | java/src/main/java/com/battleship/server/ClientHandler.java:63 | `split` at one literal character: no piece holds the delimiter, and a string without it splits to itself; trailing empty pieces are dropped |
| Lang.DropTrailingEmpty | java/src/main/java/com/battleship/server/ClientHandler.java:63 | the result is a prefix of the pieces, does not end in an empty piece, and everything dropped is empty |
| Lang.Pieces | java/src/main/java/com/battleship/server/ClientHandler.java:63 | there is at least one piece, and no piece contains the delimiter |
| Lang.PiecesOfJoin | java/src/main/java/com/battleship/server/ClientHandler.java:63 | cutting a join of delimiter-free pieces gives back exactly those pieces |
| Lang.SplitOfJoin | java/src/main/java/com/battleship/server/ClientHandler.java:63 | `split` undoes joining delimiter-free pieces whose last piece is not empty |
| Lang.JoinOfPieces | java/src/main/java/com/battleship/server/ClientHandler.java:63 | the pieces partition the string: joining them gives it back |
| Lang.SplitIsEmptyIff | java/src/main/java/com/battleship/server/ClientHandler.java:63-64 | `split` returns no pieces exactly when the string is one or more delimiters and nothing else, the case where `parts[0]` throws |
| Lang.TerminatedIsJoin | java/src/main/java/com/battleship/game/RoomManager.java:70-89 | appending a terminator after each entry is joining the entries plus one final terminator, so cutting the last `\|` leaves the join |
| Lang.ParseInt | java/src/main/java/com/battleship/server/ClientHandler.java:124-125 | `Integer.parseInt` on ASCII digits: a parsed value fits in 32 bits and comes from a non-empty string |
| Lang.ParseIntMeaning | java/src/main/java/com/battleship/server/ClientHandler.java:124-125 | what `Integer.parseInt` accepts: a sign or digit first and only digits after it; a digit string within range parses to its decimal value, so does one after a `+`, and a `-` followed by one to that value negated; a numeral outside the 32-bit range, plain or signed, is refused |
| Lang.NatToString | java/src/main/java/com/battleship/server/ClientHandler.java:175 | the decimal text of a natural number is a non-empty string of digits |
| Lang.IntToString | java/src/main/java/com/battleship/server/ClientHandler.java:175 | the text of an `int` concatenated into a string is non-empty and uses only digits and `-` |
| Lang.DigitsOfNat | java/src/main/java/com/battleship/server/ClientHandler.java:175 | the digits printed for `n` have value `n` |
| Lang.ParseIntOfIntToString | java/src/main/java/com/battleship/model/Ship.java:49 | parsing the printed form of any 32-bit `int` gives that `int` back |
| Lang.RemoveFirst | java/src/main/java/com/battleship/game/RoomManager.java:98 | `List.remove(o)`: an absent element leaves the list as it is; a present one shortens it by one; nothing is added, and no other element is lost |
| Lang.RemoveFirstFromDistinct | java/src/main/java/com/battleship/game/RoomManager.java:98 | in a list without repeats, removal leaves no copy of the element and no repeats |
| Lang.RemoveFirstCuts | java/src/main/java/com/battleship/game/RoomManager.java:98 | removal cuts out the first occurrence and keeps the others in their order |
| Validation.JavaLength | java/src/main/java/com/battleship/validation/InputValidator.java:22-25 | `String.length()`: between the number of characters and twice it, and equal to it exactly when no character lies above U+FFFF |
| Validation.ValidateUsername | java/src/main/java/com/battleship/validation/InputValidator.java:16-32 | valid exactly when the name matches `^[a-zA-Z0-9_]{3,20}$`; a blank or null name gets the "required" message; other failures get the too-short, too-long or bad-character message, in that order, with the lengths counted in UTF-16 units as `String.length()` counts them; an error message is present exactly when the name is invalid |
| Validation.ValidatePassword | java/src/main/java/com/battleship/validation/InputValidator.java:39-52 | valid exactly when the password has a letter and a digit among at least six characters, none a line terminator; null or "" is "required", and is not trimmed; a failing password shorter than six UTF-16 units is "too short", any other the letter-and-digit message |
| Validation.ValidateName | java/src/main/java/com/battleship/validation/InputValidator.java:59-69 | invalid exactly when the name is present, not blank, and longer than 50 UTF-16 units, with the "cannot exceed 50" message |
| Validation.ValidUsernameIsDelimiterFree | java/src/main/java/com/battleship/validation/InputValidator.java:7 | a valid username is non-empty and holds none of the protocol's separators `:`, `;`, `,` and `\|` |
| Ships.CoversIsSomeCell | java/src/main/java/com/battleship/game/GameRoom.java:283-305 | the closed-form "ship lies on (row, col)" agrees with walking the ship's squares one by one |
| Ships.Rotated | java/src/main/java/com/battleship/model/Ship.java:30-32 | `rotate()` gives 0 or 1: on 0 and 1 it swaps them, and any other value becomes 0 |
| Ships.RotatedTwice | java/src/main/java/com/battleship/model/Ship.java:30-32 | rotating twice restores 0, and turns every other orientation into 1 |
| Ships.ProtocolTextRoundTrip | java/src/main/java/com/battleship/model/Ship.java:49 | the `x,y,o` text of a ship with 32-bit fields splits at `,` into three fields, which parse back to x, y and o |
| Ships.ProtocolTextHasNoSemicolon | java/src/main/java/com/battleship/model/Ship.java:49 | an `x,y,o` text is non-empty and contains neither `;` nor `:` |
| Ships.Ship.constructor | java/src/main/java/com/battleship/model/Ship.java:10-16 | a new ship has the given id and length, sits at (-1, -1) facing 0, and is not placed |
| Ships.Ship.Placed | java/src/main/java/com/battleship/model/Ship.java:18-24 | the five-argument constructor stores the given id, length, origin and orientation |
| Ships.Ship.IsPlaced | java/src/main/java/com/battleship/model/Ship.java:26-28 | a ship is on the board exactly when both origin coordinates are non-negative |
| Ships.Ship.IsHorizontal | java/src/main/java/com/battleship/model/Ship.java:72-74 | horizontal exactly when the orientation is 0 |
| Ships.Ship.IsVertical | java/src/main/java/com/battleship/model/Ship.java:76-78 | vertical exactly when the orientation is 1; any other orientation is neither |
| Ships.Ship.Rotate | java/src/main/java/com/battleship/model/Ship.java:30-32 | the orientation becomes `Rotated` of the old one, and the origin is kept |
| Ships.Ship.PlaceAt | java/src/main/java/com/battleship/model/Ship.java:34-37 | the origin becomes (x, y) and the orientation is kept; a non-negative origin makes the ship placed |
| Ships.Ship.Remove | java/src/main/java/com/battleship/model/Ship.java:39-43 | the ship goes back to (-1, -1), facing 0, and is not placed |
| Ships.Ship.ToProtocolString | java/src/main/java/com/battleship/model/Ship.java:45-50 | empty exactly when the ship is not placed; a placed ship with 32-bit fields gives a text that reads back as its three numbers |
| Wire.Send | java/src/main/java/com/battleship/server/ClientHandler.java:279-283 | the line goes to the end of the outgoing transcript, addressed to the connection; the game results are kept |
| Wire.Record | java/src/main/java/com/battleship/server/ClientHandler.java:298-305 | a win or a loss is appended for the connection's current name, which may be absent; the outgoing lines are kept |
| Wire.Broadcast | java/src/main/java/com/battleship/game/RoomManager.java:140-145 | one line per listed connection, in list order, each carrying the same text |
| Rules.AnchoredWithinBoard | java/src/main/java/com/battleship/game/GameRoom.java:110-123 | for orientations 0 and 1, the server's origin and edge checks pass exactly when every square of the ship is on the board |
| Rules.WithinBoardClosedForm | java/src/main/java/com/battleship/game/GameRoom.java:110-123 | a ship of positive length is on the board exactly when both its ends are |
| Rules.ParseEntry | java/src/main/java/com/battleship/game/GameRoom.java:98-123 | an accepted entry has its roster length, passes the checks and lies on the board; an entry that runs off the board has an orientation other than 0 and 1 |
| Rules.ParseEntryMeaning | java/src/main/java/com/battleship/game/GameRoom.java:98-123 | each verdict on an entry comes with its reason: wrong field count, a non-number, an origin off the board, off the right or bottom edge, or accepted |
| Rules.ParseEntryOfProtocolText | java/src/main/java/com/battleship/game/GameRoom.java:98-107 | the server accepts the `x,y,o` text of any roster-length ship that lies on the board, as exactly that ship |
| Rules.PaintedAppend | java/src/main/java/com/battleship/game/GameRoom.java:126-136 | adding a ship to the roster adds exactly its squares to the painted ones |
| Rules.Classify | java/src/main/java/com/battleship/game/GameRoom.java:94-107 | entry `j` is judged as the entry for roster position `j` |
| Rules.FirstRejected | java/src/main/java/com/battleship/game/GameRoom.java:94-141 | every entry before the result is accepted, and the entry at the result, if any, is not |
| Rules.Run | java/src/main/java/com/battleship/game/GameRoom.java:94-141 | the entry loop always leaves an 8x8 board |
| Rules.RunMeaning | java/src/main/java/com/battleship/game/GameRoom.java:94-141 | the board shows exactly the kept ships; each kept ship is its own entry's shape; the first rejected entry decides the reply and whether its ship is kept |
| Rules.RunGrid | java/src/main/java/com/battleship/game/GameRoom.java:126-136 | after the loop, a cell holds a ship square exactly when a kept ship lies on it |
| Rules.RunVerdict | java/src/main/java/com/battleship/game/GameRoom.java:137-140 | the reply is the first rejected entry's message, and the roster stops at that entry; an overflowing entry's ship is kept |
| Rules.RunShapes | java/src/main/java/com/battleship/game/GameRoom.java:126-128 | each kept ship is the shape its own entry describes |
| Rules.RunStep | java/src/main/java/com/battleship/game/GameRoom.java:94-141 | one more entry after an unrejected prefix either adds its ship and paints it, or stops with its message |
| Rules.RunRejected | java/src/main/java/com/battleship/game/GameRoom.java:137-140 | once an entry is rejected, later entries change nothing |
| Rules.AcceptedPlacement | java/src/main/java/com/battleship/game/GameRoom.java:94-144 | an accepted placement keeps five ships of lengths 2, 2, 3, 3, 4, all on the board, and the board shows exactly their squares |
| Rules.RejectedPlacementKeepsPrefix | java/src/main/java/com/battleship/game/GameRoom.java:83-141 | a placement rejected at entry k keeps the ships of entries before k (and an overflowing ship k) where their entries put them, and the board shows exactly their squares |
| Rules.PlacementAnchored | java/src/main/java/com/battleship/game/GameRoom.java:110-123 | whatever the entries, every kept ship has its origin on the board and a positive length |
| Rules.FirstCovering | java/src/main/java/com/battleship/game/GameRoom.java:283-305 | the first roster ship lying on the square, or none when no ship lies on it |
| Rules.ScanFromAllHit | java/src/main/java/com/battleship/game/GameRoom.java:318-327 | the scan reports "all hit" exactly when every remaining square of the ship is on the board and hit |
| Rules.ScanFromInBoard | java/src/main/java/com/battleship/game/GameRoom.java:318-327 | the scan of a ship lying on the board never goes out of range |
| Rules.Sink | java/src/main/java/com/battleship/game/GameRoom.java:280-341 | the sunk-ship check leaves an 8x8 board, and never both reports a ship and faults |
| Rules.SinkMeaning | java/src/main/java/com/battleship/game/GameRoom.java:280-341 | a ship is reported sunk exactly when it is the first ship on the hit square and all its squares are hit; only then does the board change, and only on that ship's squares, which become sunk |
| Rules.SinkFaultNeedsOddOrientation | java/src/main/java/com/battleship/game/GameRoom.java:318-327 | an indexing fault needs a first ship on the square whose orientation is neither 0 nor 1 and which runs off the board |
| Rules.Fire | java/src/main/java/com/battleship/game/GameRoom.java:193-234 | a shot at an unshot square hits exactly when the square holds a ship; a miss marks only that square and sinks nothing |
| Rules.FireFrame | java/src/main/java/com/battleship/game/GameRoom.java:193-234 | a shot changes only its own square and, on a sinking, that ship's squares; the shot square ends hit, miss or sunk |
| Rules.FireSinksOnlyWholeShips | java/src/main/java/com/battleship/game/GameRoom.java:193-231 | a sunk ship lies on the shot square, and all its other squares were already hit |
| Rules.MissKeepsShipsLeft | java/src/main/java/com/battleship/game/GameRoom.java:233-234 | a miss never changes whether a ship square is left |
| Rules.ClearBoard | java/src/main/java/com/battleship/game/GameRoom.java:83-88 | every cell of the array becomes water |
| Rules.PaintShip | java/src/main/java/com/battleship/game/GameRoom.java:126-136 | the ship's on-board squares become ship squares; the drawing overflows exactly when the ship does not lie on the board |
| Rules.FindHitShip | java/src/main/java/com/battleship/game/GameRoom.java:283-305 | the search loop finds the first roster ship on the hit square, as `FirstCovering` |
| Rules.ScanShip | java/src/main/java/com/battleship/game/GameRoom.java:318-327 | the all-hit loop gives the scan's verdict on the array's board |
| Rules.MarkSunk | java/src/main/java/com/battleship/game/GameRoom.java:330-337 | every square of a wholly hit ship becomes sunk, and nothing else changes |
| Rules.CheckShipSunk | java/src/main/java/com/battleship/game/GameRoom.java:280-341 | in place, the array ends as `Sink` says, with the same sunk ship and fault |
| Rules.FireAt | java/src/main/java/com/battleship/game/GameRoom.java:193-234 | in place, the array ends as `Fire` says, with the same hit, sunk ship and fault |
| Rules.PlaceFleet | java/src/main/java/com/battleship/game/GameRoom.java:83-141 | clearing and then the entry loop leave the array, roster and reply that `Placement` gives |
| Rules.BoardShipsLeftIsShipsLeft | java/src/main/java/com/battleship/game/GameRoom.java:249-257 | a ship square left on the array is a ship square left on its board value |
| Rules.HasShipsLeft | java/src/main/java/com/battleship/game/GameRoom.java:249-257 | the win scan reports a ship square left exactly when one is |
| Rooms.Scored | java/src/main/java/com/battleship/game/GameRoom.java:185-231 | one more shot, one more hit on a hit, and a sunk count of five on a win or one more on a sinking |
| Rooms.AfterShot | java/src/main/java/com/battleship/game/GameRoom.java:185-241 | after an accepted shot, the shooter's statistics are scored and the defender's kept; the turn passes exactly on a miss; a hit on a cleared board without a fault ends the match; nothing else changes |
| Rooms.CountedKeeps | java/src/main/java/com/battleship/game/GameRoom.java:185-189 | counting a shot keeps the room invariant |
| Rooms.GameRoom.constructor | java/src/main/java/com/battleship/game/GameRoom.java:38-52 | a WAITING room with the creator in seat 1 and no second player; player 1 to move; nobody ready; zero statistics; two fresh empty boards |
| Rooms.GameRoom.IsFull | java/src/main/java/com/battleship/game/GameRoom.java:384 | full exactly when both seats are taken, which in a valid room with a creator is exactly when it has left WAITING |
| Rooms.GameRoom.TurnInfo | java/src/main/java/com/battleship/game/GameRoom.java:389-392 | `-` unless PLAYING; then the name of the player to move (see TurnInfoNamesMover) |
| Rooms.GameRoom.AddPlayer2 | java/src/main/java/com/battleship/game/GameRoom.java:54-61 | the second seat is taken, the room enters PLACING_SHIPS, both players are told to place ships, and nothing else changes |
| Rooms.TurnInfoNamesMover | java/src/main/java/com/battleship/game/GameRoom.java:373-392 | while PLAYING, the name the turn information shows is the name of the player who receives YOUR_TURN |
| Rooms.GameRoom.NotifyTurn | java/src/main/java/com/battleship/game/GameRoom.java:373-382 | nothing unless PLAYING; then two lines, the first going to the player whose turn it is |
| Rooms.GameRoom.StartGame | java/src/main/java/com/battleship/game/GameRoom.java:154-160 | with both fleets ready, the room enters PLAYING; each player gets the other's name, then the turn lines, then the monitors a snapshot |
| Rooms.GameRoom.PlaceShips | java/src/main/java/com/battleship/game/GameRoom.java:68-152 | nothing outside PLACING_SHIPS; a text that does not split into five entries is refused and the boards are untouched; otherwise the player's board and roster become `Placement`'s, and the player is ready if they already were, or if every entry is accepted; the battle starts once both players are ready |
| Rooms.GameRoom.Deploy | java/src/main/java/com/battleship/game/GameRoom.java:83-151 | five entries: the rebuilt board and roster are `Placement`'s, followed by the reply |
| Rooms.GameRoom.Acknowledge | java/src/main/java/com/battleship/game/GameRoom.java:137-151 | a rejection sends its message only; otherwise `SHIPS_PLACED_OK`, followed by the battle's start when both fleets are ready |
| Rooms.GameRoom.LayOut | java/src/main/java/com/battleship/game/GameRoom.java:83-144 | the player's roster and board become the placement's, and the player is ready if they already were, or if every entry is accepted |
| Rooms.GameRoom.Commit | java/src/main/java/com/battleship/game/GameRoom.java:126-144 | the player's roster is stored, and the player's ready flag is set for a fully accepted placement and otherwise keeps its value |
| Rooms.GameRoom.ProcessShot | java/src/main/java/com/battleship/game/GameRoom.java:164-243 | nothing outside PLAYING; a shot out of turn, off the board or at a square already shot gets one error line; an accepted shot marks the target as `Fire` says and changes the room as `AfterShot` says; without a fault, the players get the sunk ship, the match's end or the result and the turn, and the monitors get a snapshot |
| Rooms.GameRoom.Shoot | java/src/main/java/com/battleship/game/GameRoom.java:185-242 | an accepted shot: the target board as `Fire` says, then scoring and replies as `ScoreShot` says |
| Rooms.GameRoom.MarkTarget | java/src/main/java/com/battleship/game/GameRoom.java:193-234 | the target board ends as `Fire` says, and the hit, sunk ship and fault are reported |
| Rooms.GameRoom.ScoreShot | java/src/main/java/com/battleship/game/GameRoom.java:185-242 | the room changes as `AfterShot` says; a win removes the room from the registry and sends the end lines; without a win, the result, the turn and the snapshot; a fault sends nothing |
| Rooms.GameRoom.Respond | java/src/main/java/com/battleship/game/GameRoom.java:193-242 | the counted shot's consequences: the sinking, the win and removal from the registry, or the result, the turn and the snapshot |
| Rooms.GameRoom.ScoreHit | java/src/main/java/com/battleship/game/GameRoom.java:193-242 | a counted hit: the sunk-ship report, then either the end of the match or the result, the turn and the snapshot |
| Rooms.GameRoom.CountShot | java/src/main/java/com/battleship/game/GameRoom.java:185-189 | the shooter's shot and hit counters as `Counted` says; a miss passes the turn |
| Rooms.GameRoom.Announce | java/src/main/java/com/battleship/game/GameRoom.java:238-242 | the result to both players, the turn while PLAYING, the monitors' snapshot |
| Rooms.GameRoom.CountSunk | java/src/main/java/com/battleship/game/GameRoom.java:206-229 | one more ship sunk for the shooter |
| Rooms.GameRoom.AfterHit | java/src/main/java/com/battleship/game/GameRoom.java:193-231 | the sunk-ship lines, then, when no ship square is left, the win |
| Rooms.GameRoom.ReportSunk | java/src/main/java/com/battleship/game/GameRoom.java:206-229 | a sunk ship is announced to both players (`len:x:y:H/V`) and counted for the shooter; otherwise nothing |
| Rooms.GameRoom.FinishGame | java/src/main/java/com/battleship/game/GameRoom.java:343-353 | FINISHED; `GAME_OVER:WIN` and `GAME_OVER:LOSE`; a win and a loss recorded; the room's first occurrence leaves the registry; the monitors get a snapshot |
| Rooms.GameRoom.CheckWinCondition | java/src/main/java/com/battleship/game/GameRoom.java:245-268 | when the target board has no ship square left, the shooter's sunk count becomes five and the match finishes with the shooter winning; otherwise nothing happens |
| Rooms.GameRoom.HandlePlayerDisconnect | java/src/main/java/com/battleship/game/GameRoom.java:357-369 | nothing once FINISHED; in PLACING_SHIPS or PLAYING the other seat is sent a win by abandonment and has it recorded; every unfinished room leaves the registry; the room's own state is not changed |
| Rooms.NewGameRoom | java/src/main/java/com/battleship/game/GameRoom.java:38-52 | a fresh, valid, empty WAITING room; its creator, if any, is sent `AUTO_JOINED:<id>` |
| Rooms.RoomEntries | java/src/main/java/com/battleship/game/RoomManager.java:70-83 | one `id,p1,p2,STATE,n/2` entry per room |
| Rooms.MonitorRecords | java/src/main/java/com/battleship/game/RoomManager.java:118-135 | one eleven-field record per room |
| Rooms.FirstWithId | java/src/main/java/com/battleship/game/RoomManager.java:59-64 | the position of the first room with that id, or the list's length when there is none |
| Rooms.RoomManager.constructor | java/src/main/java/com/battleship/game/RoomManager.java:16-19 | no rooms and no monitors |
| Rooms.RoomManager.GetRoomById | java/src/main/java/com/battleship/game/RoomManager.java:59-64 | the first registered room with that id; null exactly when none has it |
| Rooms.RoomManager.RoomList | java/src/main/java/com/battleship/game/RoomManager.java:68-95 | the room list text is empty exactly when there are no rooms |
| Rooms.RoomManager.GetRoomListString | java/src/main/java/com/battleship/game/RoomManager.java:68-95 | the StringBuilder loop with the trailing `\|` cut off gives the entries joined by `\|` |
| Rooms.RoomManager.GetMonitorData | java/src/main/java/com/battleship/game/RoomManager.java:116-137 | the loop gives one record per room, each followed by `;` |
| Rooms.RoomManager.NotifyMonitors | java/src/main/java/com/battleship/game/RoomManager.java:140-145 | the current snapshot is sent to every monitor in list order |
| Rooms.RoomManager.CreateRoom | java/src/main/java/com/battleship/game/RoomManager.java:28-36 | with four rooms: null, and nothing changes or is sent; otherwise a new WAITING room `Sala-<n+1>` with the player as creator joins the end of the list, the creator gets `AUTO_JOINED`, and the monitors get a snapshot |
| Rooms.RoomManager.Enlist | java/src/main/java/com/battleship/game/RoomManager.java:33 | the room joins the end of the list, and the registry stays valid |
| Rooms.RoomManager.JoinRoom | java/src/main/java/com/battleship/game/RoomManager.java:38-57 | succeeds exactly when a room has that id and a free seat; then the creator gets `PLAYER_JOINED`, the newcomer gets `ROOM_INFO`, the room seats the newcomer and enters PLACING_SHIPS, and the monitors get a snapshot; a failure sends nothing |
| Rooms.RoomManager.Seat | java/src/main/java/com/battleship/game/RoomManager.java:42-52 | both players are told, and the seat is taken |
| Rooms.RoomManager.CloseRoom | java/src/main/java/com/battleship/game/RoomManager.java:97-100 | the room's first occurrence leaves the list, the others keep their order, and the monitors get a snapshot |
| Rooms.RoomManager.Unlist | java/src/main/java/com/battleship/game/RoomManager.java:98 | the room's first occurrence, if any, leaves the list, which then no longer holds it; the others keep their order |
| Rooms.RoomManager.AddMonitor | java/src/main/java/com/battleship/game/RoomManager.java:104-108 | the monitor is added at the end and sent the current snapshot |
| Rooms.RoomManager.RemoveMonitor | java/src/main/java/com/battleship/game/RoomManager.java:110-112 | the monitor's first registration is removed |
| Server.RouteOf | java/src/main/java/com/battleship/server/ClientHandler.java:63-136 | a crash exactly when the split is empty; otherwise the command whose keyword is the first piece, or unknown when no keyword matches |
| Server.CrashesExactlyOnColons | java/src/main/java/com/battleship/server/ClientHandler.java:63-64 | the handler crashes exactly on a line made only of one or more colons |
| Server.CommandLineRoutes | java/src/main/java/com/battleship/server/ClientHandler.java:66-136 | a command's keyword joined with colon-free arguments, the last one non-empty, reaches that command's handler |
| Server.KeywordRoutes | java/src/main/java/com/battleship/server/ClientHandler.java:66-136 | a line whose first piece is a keyword runs that command |
| Server.LoginOf | java/src/main/java/com/battleship/server/ClientHandler.java:142-185 | admitted exactly with three pieces and either the built-in admin pair or a database match; a monitor gets `LOGIN_OK:0:0:ADMIN`; a player gets their counters; a refusal is "missing data", "wrong password" or "no such user" |
| Server.BackdoorIgnoresDirectory | java/src/main/java/com/battleship/server/ClientHandler.java:153-160 | `ADMIN` in any case with `admin123` is admitted as a monitor named ADMIN, whatever the database holds |
| Server.DotlessAdmin | java/src/main/java/com/battleship/server/ClientHandler.java:153 | `equalsIgnoreCase("ADMIN")` accepts mixed case and the dotless ı, and rejects a lower-case L |
| Server.LoginReplyReadsBack | java/src/main/java/com/battleship/server/ClientHandler.java:175 | a player's `LOGIN_OK` line splits into three pieces, whose counters parse back as the database's wins and losses |
| Server.CountersReadBack | java/src/main/java/com/battleship/server/ClientHandler.java:175 | `LOGIN_OK:w:l` with 32-bit counters splits into the keyword and the two numerals, which parse back to w and l |
| Server.NumeralHasNoColon | java/src/main/java/com/battleship/server/ClientHandler.java:175 | the text of an `int` is non-empty and holds no colon |
| Server.RegisterReply | java/src/main/java/com/battleship/server/ClientHandler.java:191-236 | `REGISTER_OK` exactly when there are six pieces, all four checks pass and the database creates the account; otherwise the first failing check's message, or "user exists"; every other reply is an `ERROR:` line |
| Server.ClientHandler.constructor | java/src/main/java/com/battleship/server/ClientHandler.java:30-33 | a fresh connection, not logged in, not a monitor, with no room |
| Server.ClientHandler.CheckAuth | java/src/main/java/com/battleship/server/ClientHandler.java:286-292 | true exactly when logged in; otherwise the client is told to log in first |
| Server.ClientHandler.HandleLogin | java/src/main/java/com/battleship/server/ClientHandler.java:142-185 | a refusal sends one error line and changes nothing; an admission sets the session's name and monitor role and sends the reply; a monitor is also registered and sent a snapshot |
| Server.ClientHandler.HandleRegister | java/src/main/java/com/battleship/server/ClientHandler.java:191-236 | exactly one line, `RegisterReply`, and the session is unchanged |
| Server.ClientHandler.HandleLogout | java/src/main/java/com/battleship/server/ClientHandler.java:241-254 | name and monitor role cleared, room kept, `LOGOUT_OK` sent |
| Server.ClientHandler.Host | java/src/main/java/com/battleship/server/ClientHandler.java:81-91 | a logged-in CREATE_ROOM: at four rooms, the limit error and a null session room; otherwise the new room becomes the session's room, after the registry's lines and `ROOM_CREATED:<id>` |
| Server.ClientHandler.Open | java/src/main/java/com/battleship/server/ClientHandler.java:81-90 | at four rooms, no room and the limit error; otherwise the new `Sala-<n+1>` room at the end of the list with this session as creator, the registry's lines, then `ROOM_CREATED:<id>` |
| Server.ClientHandler.Seat | java/src/main/java/com/battleship/server/ClientHandler.java:96-103 | a logged-in JOIN_ROOM with an id: a joinable id seats this session in that room, sends the registry's lines and `JOINED_OK`, and makes it the session's room; any other id leaves every room and the session's room as they were and sends only the join-failed error |
| Server.ClientHandler.Enter | java/src/main/java/com/battleship/server/ClientHandler.java:96-103 | joined exactly when the room exists and is not full; then this session is its second player, the room is PLACING_SHIPS, and the registry's lines are followed by `JOINED_OK`; otherwise the join-failed error and no room changes |
| Server.ClientHandler.HandleListRooms | java/src/main/java/com/battleship/server/ClientHandler.java:107-112 | the login reminder, or `ROOM_LIST:` with the registry's list |
| Server.ClientHandler.HandlePlaceShips | java/src/main/java/com/battleship/server/ClientHandler.java:114-119 | no room or no payload: nothing; otherwise the room's placement rules, with no login check |
| Server.ClientHandler.HandleShoot | java/src/main/java/com/battleship/server/ClientHandler.java:121-131 | no room or fewer than three pieces: nothing; a non-integer coordinate: the error line; otherwise the room's shot rules, whose indexing fault escapes as a crash |
| Server.ClientHandler.HandleDisconnect | java/src/main/java/com/battleship/server/ClientHandler.java:260-277 | a monitor leaves the monitor list; a player in a room abandons it as `HandlePlayerDisconnect` says; otherwise nothing |
| Server.ClientHandler.ProcessMessage | java/src/main/java/com/battleship/server/ClientHandler.java:59-137 | only an empty split or a shot crashes; an empty split changes nothing; an unknown word gets the unknown-command error; only LOGIN and LOGOUT change the session's name and role; only CREATE_ROOM and JOIN_ROOM change its room; CREATE_ROOM, JOIN_ROOM and GET_ROOMS need a login |
| Server.ClientHandler.Account | java/src/main/java/com/battleship/server/ClientHandler.java:67-77 | LOGIN, REGISTER and LOGOUT as their handlers say: a refused LOGIN changes nothing but the reply, an admitted one sets the name and role and registers a monitor; none changes the session's room |
| Server.ClientHandler.Lobby | java/src/main/java/com/battleship/server/ClientHandler.java:79-112 | the three lobby commands: without a login, only the reminder; listing keeps the room |
| Server.ClientHandler.HandleCreateRoom | java/src/main/java/com/battleship/server/ClientHandler.java:79-92 | without a login, only the login reminder, with the session's room and the registry unchanged; at four rooms, the limit error and a null session room; otherwise the session's room is the new `Sala-<n+1>` room at the end of the list, created by this session and WAITING, and the registry's lines are followed by `ROOM_CREATED:<id>` |
| Server.ClientHandler.HandleJoinRoom | java/src/main/java/com/battleship/server/ClientHandler.java:94-105 | the login check comes before the id check: without a login, only the reminder; logged in without an id, nothing is sent and nothing changes; a joinable id seats this session as the second player, moves the room to PLACING_SHIPS, sends the registry's lines and then `JOINED_OK`, and makes that room the session's room; any other id sends only the join-failed error and keeps the session's room |
| Server.ClientHandler.Adopt | java/src/main/java/com/battleship/server/ClientHandler.java:100 | the session's room becomes the joined room when there is one |
| Server.ClientHandler.Keep | java/src/main/java/com/battleship/server/ClientHandler.java:81 | the session's room becomes the registry's answer, null included, and stays valid |
| Server.ClientHandler.Play | java/src/main/java/com/battleship/server/ClientHandler.java:114-131 | PLACE_SHIPS and SHOOT; without a room, nothing; only SHOOT can crash |
| Placement.ShipsOverlapAsWritten | java/src/main/java/com/battleship/ui/game/ShipPlacementGUI.java:387-417 | the client's overlap test as written; its crossing branch reads the candidate's stored origin, not (x1, y1) |
| Placement.AsWrittenMissesCrossings | java/src/main/java/com/battleship/ui/game/ShipPlacementGUI.java:402-416 | for a candidate still at (-1, -1), the as-written test never reports a crossing with a placed ship |
| Placement.CrossingCounterexample | java/src/main/java/com/battleship/ui/game/ShipPlacementGUI.java:402-416 | a vertical 2-ship sent to (0, 0) and a horizontal 2-ship at (0, 0) share cell (0, 0); the as-written test says they do not overlap, and the corrected one says they do |
| Placement.OverlapAgreesUnlessCrossing | java/src/main/java/com/battleship/ui/game/ShipPlacementGUI.java:396-401 | for two ships of the same orientation the corrected test equals the as-written one |
| Placement.OverlapIsSharedCell | java/src/main/java/com/battleship/ui/game/ShipPlacementGUI.java:387-417 | for ships of positive length, the corrected test holds exactly when the ships share a cell |
| Placement.OverlapSymmetric | java/src/main/java/com/battleship/ui/game/ShipPlacementGUI.java:387-417 | the corrected test does not depend on which ship is the candidate |
| Placement.PlacedCount | java/src/main/java/com/battleship/ui/game/ShipPlacementGUI.java:23 | the counter of placed ships is at most the roster's size |
| Placement.PlacedCountUpdate | java/src/main/java/com/battleship/ui/game/ShipPlacementGUI.java:313-332 | replacing one ship moves the count by that ship's change of placement, as the ++ and -- do |
| Placement.PlacedCountFull | java/src/main/java/com/battleship/ui/game/ShipPlacementGUI.java:510-513 | the count equals the roster's size exactly when every ship is on the board |
| Placement.PlacedCountNone | java/src/main/java/com/battleship/ui/game/ShipPlacementGUI.java:53-58 | a roster with no ship on the board counts zero |
| Placement.ValidPlacementKeepsLaid | java/src/main/java/com/battleship/ui/game/ShipPlacementGUI.java:364-385 | a spot the (corrected) check accepts keeps every placed ship whole on the board, with no shared cells |
| Placement.RemovalKeepsLaid | java/src/main/java/com/battleship/ui/game/ShipPlacementGUI.java:326-332 | taking a ship off keeps the other ships as they were |
| Placement.FirstPlacedCovering | java/src/main/java/com/battleship/ui/game/ShipPlacementGUI.java:336-356 | the first placed ship, in roster order, that lies on the clicked cell, or none |
| Placement.ReadyDataIsJoin | java/src/main/java/com/battleship/ui/game/ShipPlacementGUI.java:516-522 | with every ship placed, the StringBuilder payload is the ships' `x,y,o` texts joined by `;`, in roster order |
| Placement.PayloadSplits | java/src/main/java/com/battleship/ui/game/ShipPlacementGUI.java:516-525 | the payload splits on `;` into the ships' texts, is non-empty and has no `:` |
| Placement.PayloadRoutes | java/src/main/java/com/battleship/ui/game/ShipPlacementGUI.java:525 | `PLACE_SHIPS:` with such a payload runs PLACE_SHIPS on the server with the payload as its one argument |
| Placement.EntriesAccepted | java/src/main/java/com/battleship/ui/game/ShipPlacementGUI.java:516-522 | the server's placement accepts all five texts of a laid-out roster and keeps its ships, in order |
| Placement.RunOfFits | java/src/main/java/com/battleship/game/GameRoom.java:94-141 | an entry loop that accepts each of its first n entries keeps exactly their ships, in order |
| Placement.ReadyMessageAccepted | java/src/main/java/com/battleship/ui/game/ShipPlacementGUI.java:508-530 | for a laid-out roster of the five lengths, the client's line reaches PLACE_SHIPS, splits into five entries, and the server accepts all of them as the client's ships |
| Placement.ShipPlacement.constructor | java/src/main/java/com/battleship/ui/game/ShipPlacementGUI.java:53-58 | five ships with ids 0-4 and lengths 2, 2, 3, 3, 4, at (-1, -1) facing 0; none selected; count 0 |
| Placement.ShipPlacement.IsValidPlacement | java/src/main/java/com/battleship/ui/game/ShipPlacementGUI.java:364-385 | the edge check for the ship's orientation and no overlap with another placed ship, as `ValidPlacement` says |
| Placement.ShipPlacement.PlaceShip | java/src/main/java/com/battleship/ui/game/ShipPlacementGUI.java:313-324 | a valid spot moves the ship there and adds one to the count; any other spot changes nothing |
| Placement.ShipPlacement.PutShip | java/src/main/java/com/battleship/ui/game/ShipPlacementGUI.java:318-322 | the ship moves to (col, row), keeping its orientation, and the count goes up by one |
| Placement.ShipPlacement.RemoveShipFromBoard | java/src/main/java/com/battleship/ui/game/ShipPlacementGUI.java:326-332 | the ship returns to (-1, -1) facing 0, and the count goes down by one |
| Placement.ShipPlacement.FindCoveringShip | java/src/main/java/com/battleship/ui/game/ShipPlacementGUI.java:336-356 | the loop finds `FirstPlacedCovering` |
| Placement.ShipPlacement.HandleBoardCellClick | java/src/main/java/com/battleship/ui/game/ShipPlacementGUI.java:334-362 | a click on a placed ship removes the first such ship; otherwise a selected, unplaced ship is placed when the spot is valid; otherwise nothing changes |
| Placement.ShipPlacement.HandleShipPanelClick | java/src/main/java/com/battleship/ui/game/ShipPlacementGUI.java:162-172 | a placed ship is taken off the board; an unplaced one becomes the selected ship |
| Placement.ShipPlacement.RotateSelected | java/src/main/java/com/battleship/ui/game/ShipPlacementGUI.java:302-306 | a selected ship that is not on the board turns as `Rotated` says; otherwise nothing changes |
| Placement.ShipPlacement.HandleReadyButton | java/src/main/java/com/battleship/ui/game/ShipPlacementGUI.java:508-530 | nothing unless the count is five; then `PLACE_SHIPS:` followed by the placed ships' entries in roster order |
| Placement.ReadyScreenAccepted | java/src/main/java/com/battleship/ui/game/ShipPlacementGUI.java:508-530 | any reachable screen state whose count is five sends a line the server accepts in full, keeping the screen's ships |

## Findings

| source | as written | input that shows it | evidently intended | confidence | as-written member | corrected member |
|---|---|---|---|---|---|---|
| java/src/main/java/com/battleship/ui/game/ShipPlacementGUI.java:402-416 | The crossing branch of `shipsOverlap` compares `ship1.getStartX()` and `ship1.getStartY()`. For the candidate being placed, those are still (-1, -1), not the target (x1, y1). | A vertical ship of length 2, not yet placed, clicked at column 0, row 0, while a horizontal ship of length 2 lies at column 0, row 0. Both would cover cell (0, 0), yet the test reports no overlap. | Use (x1, y1) for the candidate in every branch, so that the check rejects exactly the spots that share a cell with a placed ship. | high; not executed | Placement.ShipsOverlapAsWritten, Placement.CrossingCounterexample | Placement.ShipsOverlap, Placement.OverlapIsSharedCell |

The rest of the placement model uses the corrected test. Under that test,
`Placement.ValidPlacementKeepsLaid` and `Placement.ReadyScreenAccepted`
prove that every roster the screen can reach lies on the board without
shared cells, and that the server accepts it.

## Left out

- The player database (PlayerDAO, PostgreSQL) and password hashing are not part of this model. Their answers are a `Directory` parameter, fixed for the duration of one command, and the recorded game results are appended to the trace instead of updating stored counters.
- Sockets, reader and writer threads, the `run()` loop and socket closing are left out. A line arrives as an argument, and `sendMessage` appends to the trace. The `out == null` guard in `sendMessage` is not modelled: every connection is treated as open.
- Console output (`System.out.println`, `printStackTrace`) is left out, because it has no effect on the protocol.
- `synchronized` and the thread-safe lists are left out. Each public operation is one atomic step, with no interleaving between clients.
- `RoomManager.getInstance()`: the singleton is passed explicitly as a parameter.
- Rooms.RoomManager.JoinRoom: its `player1 != null` test is modelled as always passing. Every registered room has a creator, and the registry invariant states this.
- Rooms.GameRoom.Shoot: the shot and hit counters are updated after the board work, where the source updates them around it. Each operation is one atomic step, so the two orders have the same outcome.
- Rooms.GameRoom.ProcessShot: the sunk-ship check's out-of-range fault is modelled as a `fault` flag, which leaves the shot half done. `ClientHandler` reports it as `crashed`, rather than modelling the exception unwinding the connection thread.
- Rooms.GameRoom.NotifyTurn: modelled as a function of the room that yields the two turn lines, not as a method.
- Rooms.GameRoom.ProcessShot: the source's local `shooterSunkCount`, which is computed and never read, is not modelled.
- Server.ClientHandler.HandlePlaceShips: it states the guard and the room's placement for PLACING_SHIPS. For other states it states that nothing changes. Its contract does not repeat the full reply of `Rooms.GameRoom.PlaceShips`, which states that reply itself.
- Server.ClientHandler.HandleShoot: it states the guards and the parse error. For an accepted shot, it states that the room's rules run, but not the full effect, which `Rooms.GameRoom.ProcessShot` states.
- Server.ClientHandler.ProcessMessage: it states the routing and what each route may change. The effect of each command is stated by the handler it calls, not repeated here.
- Server.ClientHandler.HandleLogout: as in the source, it does not remove a monitor from the registry's monitor list.
- Server.ClientHandler.HandleCreateRoom: as in the source, a refusal at the room limit sets the session's room to null, forgetting any room it had.
- Server.IsAdminName: it models `equalsIgnoreCase` only for the characters that can match the letters of `ADMIN`. This includes the dotless ı and the dotted İ; it is not a general case-folding model.
- PLACE_SHIPS and SHOOT need no login, only a current room, as in the source.
- Placement: Swing widgets, colours, dialogs and cell hover previews are user-interface code with no effect on the roster or the sent line, so they are left out. This covers `showShipPreview`, `highlightShip`, `refreshBoard`, `updateStatus`, the enabling of the ready button and the `onShipsPlacedOK` and other controller callbacks.
- Placement.ShipPlacement: the GUI's `ships` array is modelled as a constant sequence of `Ship` objects, because the array is filled once and only its ships change. `controller.sendMessage` is modelled as the returned message of `HandleReadyButton`.
- Placement.ShipPlacement.IsValidPlacement: it uses the corrected overlap test (see Findings). The as-written client can therefore reach crossings that the model's screen cannot.
- Lang.ParseInt: only the ASCII digits `0`-`9` are digits. `Integer.parseInt` also accepts every other Unicode decimal digit (Arabic-Indic `٣`, say), so a SHOOT or ship entry written with such digits is a parse error in the model but a coordinate in the source.
- Java's 32-bit `int` arithmetic: counters and coordinates are unbounded integers. Overflow needs more than 2^31 shots or coordinates outside the parse range, which `Integer.parseInt` already rejects.
