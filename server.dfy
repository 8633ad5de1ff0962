/**
 * ClientHandler: one client's session. Each text line is split at `:` and
 * routed on its first piece. The session keeps the logged-in name (on the
 * connection that the rooms and the registry see), whether it is an
 * administrator watching the rooms, and the room it last created or joined.
 * The player database is a parameter whose answers are fixed for the
 * duration of one command.
 */
module Server {
  import opened Lang
  import opened Wire
  import opened Validation
  import opened Rules
  import opened Rooms

  const MSG_NEED_LOGIN := "ERROR:Debes hacer LOGIN primero"
  const MSG_UNKNOWN := "ERROR:Comando desconocido"
  const MSG_ROOM_LIMIT := "ERROR:Límite de salas alcanzado"
  const MSG_JOIN_FAILED := "ERROR:Sala llena o no existe"
  const MSG_NOT_NUMBERS := "ERROR:Coordenadas inválidas"
  const MSG_LOGIN_MISSING := "ERROR:Faltan datos de login"
  const MSG_WRONG_PASSWORD := "ERROR:Contraseña incorrecta"
  const MSG_NO_SUCH_USER := "ERROR:Usuario no existe"
  const MSG_REGISTER_MISSING := "ERROR:Faltan datos de registro"
  const MSG_USER_TAKEN := "ERROR:Usuario ya existe"
  const ADMIN_LOGIN_OK := "LOGIN_OK:0:0:ADMIN"
  const BACKDOOR_PASSWORD := "admin123"

  // ---------------------------------------------------------------------
  // Commands
  // ---------------------------------------------------------------------

  datatype Command = LOGIN | REGISTER | LOGOUT | CREATE_ROOM | JOIN_ROOM | GET_ROOMS | PLACE_SHIPS | SHOOT

  /** The word that names each command on the wire. */
  function Keyword(c: Command): string {
    match c
    case LOGIN => "LOGIN"
    case REGISTER => "REGISTER"
    case LOGOUT => "LOGOUT"
    case CREATE_ROOM => "CREATE_ROOM"
    case JOIN_ROOM => "JOIN_ROOM"
    case GET_ROOMS => "GET_ROOMS"
    case PLACE_SHIPS => "PLACE_SHIPS"
    case SHOOT => "SHOOT"
  }

  /**
   * What processMessage does with a line: `Crash` when the split leaves no
   * pieces (reading `parts[0]` throws), `Unknown` when the first piece is no
   * command word, and otherwise the command it names.
   */
  datatype Route = Crash | Unknown | Run(command: Command)

  /** The `switch (command)`: exact, case-sensitive comparison with each word. */
  function RouteOf(message: string): (r: Route)
    ensures r.Crash? <==> |Split(message, ':')| == 0
    ensures r.Run? ==> Split(message, ':')[0] == Keyword(r.command)
    ensures r.Unknown? ==> forall k: Command :: Keyword(k) != Split(message, ':')[0]
  {
    var parts := Split(message, ':');
    if |parts| == 0 then Crash
    else
      var word := parts[0];
      if word == "LOGIN" then Run(LOGIN)
      else if word == "REGISTER" then Run(REGISTER)
      else if word == "LOGOUT" then Run(LOGOUT)
      else if word == "CREATE_ROOM" then Run(CREATE_ROOM)
      else if word == "JOIN_ROOM" then Run(JOIN_ROOM)
      else if word == "GET_ROOMS" then Run(GET_ROOMS)
      else if word == "PLACE_SHIPS" then Run(PLACE_SHIPS)
      else if word == "SHOOT" then Run(SHOOT)
      else Unknown
  }

  /** A line crashes the handler exactly when it is one or more colons and nothing else. */
  lemma CrashesExactlyOnColons(message: string)
    ensures RouteOf(message).Crash? <==> message != "" && forall i :: 0 <= i < |message| ==> message[i] == ':'
  {
    SplitIsEmptyIff(message, ':');
  }

  /** Every command written with its arguments reaches its own handler. */
  lemma {:induction false} CommandLineRoutes(c: Command, args: seq<string>)
    requires forall i :: 0 <= i < |args| ==> ':' !in args[i]
    requires |args| == 0 || args[|args| - 1] != ""
    ensures RouteOf(Join([Keyword(c)] + args, ':')) == Run(c)
  {
    var ps := [Keyword(c)] + args;
    forall i | 0 <= i < |ps| ensures ':' !in ps[i] {
      if i > 0 {
        assert ps[i] == args[i - 1];
      }
    }
    SplitOfJoin(ps, ':');
    KeywordRoutes(c, Join(ps, ':'));
  }

  /** A line whose first piece is a command's keyword runs that command. */
  lemma KeywordRoutes(c: Command, message: string)
    requires |Split(message, ':')| > 0 && Split(message, ':')[0] == Keyword(c)
    ensures RouteOf(message) == Run(c)
  {
  }

  // ---------------------------------------------------------------------
  // The player database, as seen by one command
  // ---------------------------------------------------------------------

  datatype Profile = Profile(username: string, victorias: int, derrotas: int, admin: bool)

  /**
   * The answers of the player database: `login` is null unless the pair
   * matches an account, `usernameExists`, and `register`, which is false
   * when the account could not be created.
   */
  datatype Directory = Directory(
    login: (string, string) -> Option<Profile>,
    usernameExists: string -> bool,
    register: (string, string, string, string, string) -> bool)

  /**
   * `c.equalsIgnoreCase` for one character of `ADMIN`: equal, equal after
   * upper-casing, or equal after upper- then lower-casing. Besides the two
   * ASCII cases, the I also matches the dotless ı (U+0131), whose upper case
   * is I, and the dotted İ (U+0130), whose lower case is i.
   */
  predicate LetterIgnoringCase(c: char, upper: char)
    requires upper in "ADMN" || upper == 'I'
  {
    c == upper || c == (upper as int + 32) as char
    || (upper == 'I' && (c == '\U{0131}' || c == '\U{0130}'))
  }

  /** `user.equalsIgnoreCase("ADMIN")` */
  predicate IsAdminName(user: string) {
    && |user| == 5
    && LetterIgnoringCase(user[0], 'A') && LetterIgnoringCase(user[1], 'D') && LetterIgnoringCase(user[2], 'M')
    && LetterIgnoringCase(user[3], 'I') && LetterIgnoringCase(user[4], 'N')
  }

  /** The built-in administrator account, checked before the database. */
  predicate Backdoor(user: string, pass: string) {
    IsAdminName(user) && pass == BACKDOOR_PASSWORD
  }

  /** What a LOGIN line earns: a single error line, or a session name, whether it watches the rooms, and the reply. */
  datatype LoginOutcome = Refused(line: string) | Admitted(name: string, monitor: bool, line: string)

  /** The decision of handleLogin on `LOGIN:user:pass`. */
  function LoginOf(parts: seq<string>, dao: Directory): (v: LoginOutcome)
    ensures v.Admitted? <==> |parts| >= 3 && (Backdoor(parts[1], parts[2]) || dao.login(parts[1], parts[2]).Some?)
    ensures v.Admitted? && v.monitor ==> v.line == ADMIN_LOGIN_OK
    ensures v.Admitted? && !Backdoor(parts[1], parts[2]) ==>
      var p := dao.login(parts[1], parts[2]).value;
      v.name == p.username && v.monitor == p.admin
    ensures v.Refused? ==> v.line in {MSG_LOGIN_MISSING, MSG_WRONG_PASSWORD, MSG_NO_SUCH_USER}
  {
    if |parts| < 3 then Refused(MSG_LOGIN_MISSING)
    else if Backdoor(parts[1], parts[2]) then Admitted("ADMIN", true, ADMIN_LOGIN_OK)
    else
      match dao.login(parts[1], parts[2])
      case Some(p) =>
        Admitted(p.username, p.admin,
          if p.admin then ADMIN_LOGIN_OK else "LOGIN_OK:" + IntToString(p.victorias) + ":" + IntToString(p.derrotas))
      case None => Refused(if dao.usernameExists(parts[1]) then MSG_WRONG_PASSWORD else MSG_NO_SUCH_USER)
  }

  /** The built-in account gets in whatever the database says, as a monitor named ADMIN. */
  lemma BackdoorIgnoresDirectory(user: string, pass: string, rest: seq<string>, dao: Directory)
    requires Backdoor(user, pass)
    ensures LoginOf(["LOGIN", user, pass] + rest, dao) == Admitted("ADMIN", true, ADMIN_LOGIN_OK)
  {
    var parts := ["LOGIN", user, pass] + rest;
    assert parts[1] == user && parts[2] == pass;
  }

  /** Any mix of cases spells ADMIN, and so does one with a dotless ı; a lower-case L does not. */
  lemma DotlessAdmin()
    ensures IsAdminName("adm\U{0131}n") && IsAdminName("ADMIN") && IsAdminName("aDmIn")
    ensures !IsAdminName("ADMlN")
  {
  }

  /**
   * A player's LOGIN_OK line splits back into its three fields, and the two
   * counters read back as the numbers the database gave.
   */
  lemma LoginReplyReadsBack(parts: seq<string>, dao: Directory)
    requires LoginOf(parts, dao).Admitted? && !LoginOf(parts, dao).monitor
    requires var p := dao.login(parts[1], parts[2]).value; IsInt32(p.victorias) && IsInt32(p.derrotas)
    ensures !Backdoor(parts[1], parts[2])
    ensures var p := dao.login(parts[1], parts[2]).value;
      var fields := Split(LoginOf(parts, dao).line, ':');
      && fields == ["LOGIN_OK", IntToString(p.victorias), IntToString(p.derrotas)]
      && ParseInt(fields[1]) == Some(p.victorias) && ParseInt(fields[2]) == Some(p.derrotas)
  {
    var p := dao.login(parts[1], parts[2]).value;
    CountersReadBack(p.victorias, p.derrotas);
  }

  lemma CountersReadBack(wins: int, losses: int)
    requires IsInt32(wins) && IsInt32(losses)
    ensures Split("LOGIN_OK:" + IntToString(wins) + ":" + IntToString(losses), ':')
      == ["LOGIN_OK", IntToString(wins), IntToString(losses)]
    ensures ParseInt(IntToString(wins)) == Some(wins) && ParseInt(IntToString(losses)) == Some(losses)
  {
    var ps := ["LOGIN_OK", IntToString(wins), IntToString(losses)];
    NumeralHasNoColon(wins);
    NumeralHasNoColon(losses);
    calc {
      Join(ps, ':');
      "LOGIN_OK" + [':'] + Join(ps[1..], ':');
      { assert ps[1..][1..] == [IntToString(losses)]; }
      "LOGIN_OK" + [':'] + (IntToString(wins) + [':'] + IntToString(losses));
      "LOGIN_OK:" + IntToString(wins) + ":" + IntToString(losses);
    }
    SplitOfJoin(ps, ':');
    ParseIntOfIntToString(wins);
    ParseIntOfIntToString(losses);
  }

  lemma NumeralHasNoColon(n: int)
    ensures ':' !in IntToString(n) && IntToString(n) != ""
  {
    var s := IntToString(n);
    forall i | 0 <= i < |s| ensures s[i] != ':' {
      assert IsDigit(s[i]) || s[i] == '-';
    }
  }

  /**
   * The one line handleRegister sends for `REGISTER:user:pass:name:surname:avatar`:
   * the first failing check in the order username, password, first name,
   * last name, and only then the database's answer.
   */
  function RegisterReply(parts: seq<string>, dao: Directory): (line: string)
    ensures line == "REGISTER_OK" <==>
      && |parts| >= 6
      && MatchesUsernamePattern(parts[1]) && MatchesPasswordPattern(parts[2])
      && ValidateName(Some(parts[3])).valid && ValidateName(Some(parts[4])).valid
      && dao.register(parts[1], parts[2], parts[3], parts[4], parts[5])
    ensures |parts| >= 6 && !ValidateUsername(Some(parts[1])).valid ==>
      line == "ERROR:" + ValidateUsername(Some(parts[1])).errorMessage.value
    ensures |parts| >= 6 && ValidateUsername(Some(parts[1])).valid && !ValidatePassword(Some(parts[2])).valid ==>
      line == "ERROR:" + ValidatePassword(Some(parts[2])).errorMessage.value
    ensures line != "REGISTER_OK" ==> |line| > 6 && line[..6] == "ERROR:"
  {
    if |parts| < 6 then MSG_REGISTER_MISSING
    else
      var user := ValidateUsername(Some(parts[1]));
      var pass := ValidatePassword(Some(parts[2]));
      var name := ValidateName(Some(parts[3]));
      var surname := ValidateName(Some(parts[4]));
      if !user.valid then "ERROR:" + user.errorMessage.value
      else if !pass.valid then "ERROR:" + pass.errorMessage.value
      else if !name.valid then "ERROR:" + name.errorMessage.value
      else if !surname.valid then "ERROR:" + surname.errorMessage.value
      else if dao.register(parts[1], parts[2], parts[3], parts[4], parts[5]) then "REGISTER_OK"
      else MSG_USER_TAKEN
  }

  // ---------------------------------------------------------------------
  // The session
  // ---------------------------------------------------------------------

  class ClientHandler {
    /** The connection the rooms and the registry see; its `playerName` is the session's name. */
    const conn: Connection
    var isMonitor: bool
    var currentRoom: GameRoom?

    constructor ()
      ensures fresh(conn) && conn.playerName == None && !isMonitor && currentRoom == null
    {
      conn := new Connection();
      isMonitor := false;
      currentRoom := null;
    }

    /** The objects a command on the current room may change. */
    function RoomParts(): set<object>
      reads this
    {
      if currentRoom == null then {} else {currentRoom, currentRoom.board1, currentRoom.board2}
    }

    /** `checkAuth()`: true exactly when logged in; otherwise the client is told to log in. */
    method CheckAuth(t: Trace) returns (ok: bool, t': Trace)
      ensures ok <==> conn.playerName.Some?
      ensures ok ==> t' == t
      ensures !ok ==> t' == Send(t, conn, MSG_NEED_LOGIN)
    {
      if conn.playerName == None {
        return false, Send(t, conn, MSG_NEED_LOGIN);
      }
      return true, t;
    }

    /**
     * `handleLogin(parts)`: a refusal is one error line and nothing more; an
     * admission names the session, and a monitor is registered with the
     * room registry, which sends it a first snapshot.
     */
    method HandleLogin(parts: seq<string>, dao: Directory, mgr: RoomManager, t: Trace) returns (t': Trace)
      requires mgr.Valid()
      modifies this, conn, mgr
      ensures mgr.Valid() && mgr.rooms == old(mgr.rooms) && currentRoom == old(currentRoom)
      ensures LoginOf(parts, dao).Refused? ==>
        && conn.playerName == old(conn.playerName) && isMonitor == old(isMonitor)
        && mgr.monitors == old(mgr.monitors)
        && t' == Send(t, conn, LoginOf(parts, dao).line)
      ensures LoginOf(parts, dao).Admitted? ==>
        var v := LoginOf(parts, dao);
        && conn.playerName == Some(v.name)
        && isMonitor == (old(isMonitor) || v.monitor)
        && mgr.monitors == old(mgr.monitors) + (if v.monitor then [conn] else [])
        && t' == if v.monitor then Send(Send(t, conn, v.line), conn, "MONITOR_DATA:" + mgr.MonitorData())
                 else Send(t, conn, v.line)
    {
      if |parts| < 3 {
        return Send(t, conn, MSG_LOGIN_MISSING);
      }
      var user := parts[1];
      var pass := parts[2];
      if Backdoor(user, pass) {
        conn.playerName := Some("ADMIN");
        isMonitor := true;
        t' := Send(t, conn, ADMIN_LOGIN_OK);
        t' := mgr.AddMonitor(conn, t');
        return;
      }
      var player := dao.login(user, pass);
      if player.Some? {
        conn.playerName := Some(player.value.username);
        if player.value.admin {
          isMonitor := true;
          t' := Send(t, conn, ADMIN_LOGIN_OK);
          t' := mgr.AddMonitor(conn, t');
        } else {
          t' := Send(t, conn, "LOGIN_OK:" + IntToString(player.value.victorias) + ":" + IntToString(player.value.derrotas));
        }
      } else if dao.usernameExists(user) {
        t' := Send(t, conn, MSG_WRONG_PASSWORD);
      } else {
        t' := Send(t, conn, MSG_NO_SUCH_USER);
      }
    }

    /** `handleRegister(parts)`: one reply line; the session itself is not logged in. */
    method HandleRegister(parts: seq<string>, dao: Directory, t: Trace) returns (t': Trace)
      ensures t' == Send(t, conn, RegisterReply(parts, dao))
    {
      if |parts| < 6 {
        return Send(t, conn, MSG_REGISTER_MISSING);
      }
      var usernameValidation := ValidateUsername(Some(parts[1]));
      if !usernameValidation.valid {
        return Send(t, conn, "ERROR:" + usernameValidation.errorMessage.value);
      }
      var passwordValidation := ValidatePassword(Some(parts[2]));
      if !passwordValidation.valid {
        return Send(t, conn, "ERROR:" + passwordValidation.errorMessage.value);
      }
      var nombreValidation := ValidateName(Some(parts[3]));
      if !nombreValidation.valid {
        return Send(t, conn, "ERROR:" + nombreValidation.errorMessage.value);
      }
      var apellidoValidation := ValidateName(Some(parts[4]));
      if !apellidoValidation.valid {
        return Send(t, conn, "ERROR:" + apellidoValidation.errorMessage.value);
      }
      if dao.register(parts[1], parts[2], parts[3], parts[4], parts[5]) {
        t' := Send(t, conn, "REGISTER_OK");
      } else {
        t' := Send(t, conn, MSG_USER_TAKEN);
      }
    }

    /** `handleLogout()`: the session forgets its name and its monitor role; the room and the registry are left alone. */
    method HandleLogout(t: Trace) returns (t': Trace)
      modifies this, conn
      ensures conn.playerName == None && !isMonitor && currentRoom == old(currentRoom)
      ensures t' == Send(t, conn, "LOGOUT_OK")
    {
      conn.playerName := None;
      isMonitor := false;
      t' := Send(t, conn, "LOGOUT_OK");
    }

    /** A logged-in CREATE_ROOM: the registry's answer, then this session's reply naming the room or the limit. */
    method Open(mgr: RoomManager, t: Trace) returns (room: GameRoom?, t': Trace)
      requires mgr.Valid()
      modifies mgr
      ensures mgr.Valid() && mgr.monitors == old(mgr.monitors)
      ensures room != null ==> room in mgr.rooms
      ensures old(|mgr.rooms|) >= MAX_ROOMS ==>
        room == null && mgr.rooms == old(mgr.rooms) && t' == Send(t, conn, MSG_ROOM_LIMIT)
      ensures old(|mgr.rooms|) < MAX_ROOMS ==>
        && room != null && fresh(room) && room.Valid()
        && mgr.rooms == old(mgr.rooms) + [room]
        && room.roomId == "Sala-" + IntToString(old(|mgr.rooms|) + 1)
        && room.player1 == conn && room.currentState == WAITING
        && t' == t.(sent := t.sent + CreationLines(room, mgr))
    {
      room, t' := mgr.CreateRoom(conn, t);
      if room != null {
        assert t'.sent == t.sent + [(conn, "AUTO_JOINED:" + room.roomId)] + mgr.Snapshot();
        t' := Send(t', conn, "ROOM_CREATED:" + room.roomId);
      } else {
        t' := Send(t', conn, MSG_ROOM_LIMIT);
      }
    }

    /** What a successful createRoom sends, ending with this session's confirmation. */
    function CreationLines(room: GameRoom, mgr: RoomManager): seq<(Connection, string)>
      reads mgr, mgr.rooms, PlayersOf(mgr.rooms)
      requires mgr.Valid()
    {
      [(conn, "AUTO_JOINED:" + room.roomId)] + mgr.Snapshot() + [(conn, "ROOM_CREATED:" + room.roomId)]
    }

    /** The lines joinRoom sends before the monitors' snapshot, to the creator `p1` and to this session. */
    function SeatLines(p1: Connection?, roomId: string): seq<(Connection, string)>
      reads conn, p1
      requires p1 != null
    {
      [(p1, "PLAYER_JOINED:" + NameText(conn.playerName)), (conn, "ROOM_INFO:" + roomId + ":" + NameText(p1.playerName))]
      + [(p1, "Start_Placing_Ships"), (conn, "Start_Placing_Ships")]
    }

    /** A logged-in JOIN_ROOM with an id: the registry's answer, then this session's reply; `room` is the joined room. */
    method Enter(roomId: string, mgr: RoomManager, t: Trace) returns (joined: bool, room: GameRoom?, t': Trace)
      requires mgr.Valid()
      modifies mgr.rooms
      ensures mgr.Valid() && mgr.rooms == old(mgr.rooms) && mgr.monitors == old(mgr.monitors)
      ensures joined <==> old(mgr.Joinable(roomId))
      ensures !joined ==> room == null && unchanged(mgr.rooms) && t' == Send(t, conn, MSG_JOIN_FAILED)
      ensures joined ==>
        && room == old(mgr.GetRoomById(roomId)) && room != null
        && room.Core() == old(mgr.GetRoomById(roomId).Core()).(player2 := conn, state := PLACING_SHIPS)
        && t' == t.(sent := t.sent + SeatLines(room.player1, roomId) + mgr.Snapshot() + [(conn, "JOINED_OK")])
    {
      joined, t' := mgr.JoinRoom(roomId, conn, t);
      room := null;
      if joined {
        assert t'.sent == t.sent + SeatLines(mgr.GetRoomById(roomId).player1, roomId) + mgr.Snapshot();
        t' := Send(t', conn, "JOINED_OK");
        room := mgr.GetRoomById(roomId);
      } else {
        t' := Send(t', conn, MSG_JOIN_FAILED);
      }
    }

    /** GET_ROOMS: after checkAuth, the registry's list. */
    method HandleListRooms(mgr: RoomManager, t: Trace) returns (t': Trace)
      ensures conn.playerName.None? ==> t' == Send(t, conn, MSG_NEED_LOGIN)
      ensures conn.playerName.Some? ==> t' == Send(t, conn, "ROOM_LIST:" + mgr.RoomList())
    {
      var ok;
      ok, t' := CheckAuth(t);
      if ok {
        var list := mgr.GetRoomListString();
        t' := Send(t', conn, "ROOM_LIST:" + list);
      }
    }

    /**
     * PLACE_SHIPS: no login check, only a current room and a second piece,
     * which the room places (see GameRoom.PlaceShips).
     */
    method HandlePlaceShips(parts: seq<string>, mgr: RoomManager, t: Trace) returns (t': Trace)
      requires mgr.Valid() && (currentRoom != null ==> currentRoom.Valid())
      modifies RoomParts()
      ensures mgr.Valid() && (currentRoom != null ==> currentRoom.Valid())
      ensures currentRoom == null || |parts| <= 1 ==> unchanged(RoomParts()) && t' == t
      ensures currentRoom != null && |parts| > 1 && old(currentRoom.currentState) != PLACING_SHIPS ==>
        unchanged(RoomParts()) && t' == t
      ensures currentRoom != null && |parts| > 1 && old(currentRoom.currentState) == PLACING_SHIPS ==>
        var entries := Split(parts[1], ';');
        && (|entries| != SHIP_COUNT ==> unchanged(RoomParts()) && t' == Send(t, conn, MSG_WRONG_COUNT))
        && (|entries| == SHIP_COUNT ==> GridOf(currentRoom.HomeBoard(conn)) == Placement(entries).grid)
    {
      t' := t;
      if currentRoom != null && |parts| > 1 {
        t' := currentRoom.PlaceShips(conn, parts[1], mgr, t);
      }
    }

    /**
     * SHOOT: no login check, only a current room and two more pieces. A piece
     * that is not an int is answered with one error line; otherwise the room
     * takes the shot (see GameRoom.ProcessShot), and the sunk-ship check's
     * indexing error, when it happens, escapes as `crashed`.
     */
    method HandleShoot(parts: seq<string>, mgr: RoomManager, t: Trace) returns (t': Trace, crashed: bool)
      requires mgr.Valid() && (currentRoom != null ==> currentRoom.Valid())
      modifies RoomParts(), mgr
      ensures mgr.Valid() && (currentRoom != null ==> currentRoom.Valid())
      ensures currentRoom == null || |parts| <= 2 ==> unchanged(mgr) && t' == t && !crashed
      ensures currentRoom != null && |parts| > 2 && (ParseInt(parts[1]).None? || ParseInt(parts[2]).None?) ==>
        unchanged(RoomParts(), mgr) && t' == Send(t, conn, MSG_NOT_NUMBERS) && !crashed
      ensures currentRoom != null && |parts| > 2 && ParseInt(parts[1]).Some? && ParseInt(parts[2]).Some? ==>
        var row := ParseInt(parts[1]).value;
        var col := ParseInt(parts[2]).value;
        && (!old(currentRoom.Accepts(conn, row, col)) ==>
              unchanged(RoomParts(), mgr) && !crashed && t' == t.(sent := t.sent + old(currentRoom.Refusal(conn))))
        && (old(currentRoom.Accepts(conn, row, col)) ==> crashed == old(currentRoom.StrikeOf(conn, row, col)).fault)
    {
      t', crashed := t, false;
      if currentRoom != null && |parts| > 2 {
        var row := ParseInt(parts[1]);
        var col := ParseInt(parts[2]);
        if row.None? || col.None? {
          t' := Send(t, conn, MSG_NOT_NUMBERS);
        } else {
          t', crashed := currentRoom.ProcessShot(conn, row.value, col.value, mgr, t);
        }
      }
    }

    /**
     * `handleDisconnect()`: a monitor leaves the registry's monitor list; a
     * player in a room abandons it (see GameRoom.HandlePlayerDisconnect).
     */
    method HandleDisconnect(mgr: RoomManager, t: Trace) returns (t': Trace)
      requires mgr.Valid() && (currentRoom != null ==> currentRoom.Valid())
      modifies mgr
      ensures mgr.Valid()
      ensures isMonitor ==>
        mgr.monitors == RemoveFirst(old(mgr.monitors), conn) && mgr.rooms == old(mgr.rooms) && t' == t
      ensures !isMonitor && currentRoom == null ==> unchanged(mgr) && t' == t
      ensures !isMonitor && currentRoom != null ==>
        var room: GameRoom := currentRoom;
        var winner := if conn == room.player1 then room.player2 else room.player1;
        var awarded := room.currentState != WAITING && winner != null;
        && mgr.monitors == old(mgr.monitors)
        && (room.currentState == FINISHED ==> mgr.rooms == old(mgr.rooms) && t' == t)
        && (room.currentState != FINISHED ==>
              && mgr.rooms == RemoveFirst(old(mgr.rooms), room)
              && t' == Trace(t.sent + (if awarded then [(winner as Connection, "GAME_OVER:WIN_BY_DISCONNECT")] else []) + mgr.Snapshot(),
                             t.results + (if awarded then [(winner.playerName, true)] else [])))
    {
      t' := t;
      if isMonitor {
        mgr.RemoveMonitor(conn);
      } else if currentRoom != null {
        t' := currentRoom.HandlePlayerDisconnect(conn, mgr, t);
      }
    }

    /**
     * `processMessage(message)`: split at `:`, then route on the first piece.
     * `crashed` is an exception escaping the handler: the empty split, or the
     * sunk-ship check's indexing error during a shot.
     */
    method ProcessMessage(message: string, dao: Directory, mgr: RoomManager, t: Trace) returns (t': Trace, crashed: bool)
      requires mgr.Valid() && (currentRoom != null ==> currentRoom.Valid())
      modifies this, conn, mgr, mgr.rooms, RoomParts()
      ensures mgr.Valid() && (currentRoom != null ==> currentRoom.Valid())
      ensures crashed ==> RouteOf(message) == Crash || RouteOf(message) == Run(SHOOT)
      ensures RouteOf(message) == Crash ==> crashed && t' == t && unchanged(this, conn, mgr)
      ensures RouteOf(message) == Unknown ==> unchanged(this, conn, mgr) && t' == Send(t, conn, MSG_UNKNOWN)
      ensures RouteOf(message) != Run(LOGIN) && RouteOf(message) != Run(LOGOUT) ==>
        conn.playerName == old(conn.playerName) && isMonitor == old(isMonitor)
      ensures RouteOf(message) != Run(CREATE_ROOM) && RouteOf(message) != Run(JOIN_ROOM) ==>
        currentRoom == old(currentRoom)
      ensures RouteOf(message).Run? && RouteOf(message).command in {CREATE_ROOM, JOIN_ROOM, GET_ROOMS} && old(conn.playerName).None? ==>
        currentRoom == old(currentRoom) && unchanged(mgr) && t' == Send(t, conn, MSG_NEED_LOGIN)
    {
      var parts := Split(message, ':');
      if |parts| == 0 {
        return t, true;
      }
      crashed := false;
      match RouteOf(message)
      case Unknown =>
        t' := Send(t, conn, MSG_UNKNOWN);
      case Run(c) =>
        if c in {LOGIN, REGISTER, LOGOUT} {
          t' := Account(c, parts, dao, mgr, t);
        } else if c in {CREATE_ROOM, JOIN_ROOM, GET_ROOMS} {
          t' := Lobby(c, parts, mgr, t);
        } else {
          t', crashed := Play(c, parts, mgr, t);
        }
    }

    /** The commands about the session's account. */
    method Account(c: Command, parts: seq<string>, dao: Directory, mgr: RoomManager, t: Trace) returns (t': Trace)
      requires c in {LOGIN, REGISTER, LOGOUT}
      requires mgr.Valid()
      modifies this, conn, mgr
      ensures mgr.Valid() && mgr.rooms == old(mgr.rooms) && currentRoom == old(currentRoom)
      ensures c == REGISTER ==> unchanged(this, conn, mgr) && t' == Send(t, conn, RegisterReply(parts, dao))
      ensures c == LOGOUT ==> unchanged(mgr) && conn.playerName == None && !isMonitor && t' == Send(t, conn, "LOGOUT_OK")
      ensures c == LOGIN && LoginOf(parts, dao).Refused? ==>
        && conn.playerName == old(conn.playerName) && isMonitor == old(isMonitor)
        && mgr.monitors == old(mgr.monitors)
        && t' == Send(t, conn, LoginOf(parts, dao).line)
      ensures c == LOGIN && LoginOf(parts, dao).Admitted? ==>
        var v := LoginOf(parts, dao);
        && conn.playerName == Some(v.name)
        && isMonitor == (old(isMonitor) || v.monitor)
        && mgr.monitors == old(mgr.monitors) + (if v.monitor then [conn] else [])
        && t' == if v.monitor then Send(Send(t, conn, v.line), conn, "MONITOR_DATA:" + mgr.MonitorData())
                 else Send(t, conn, v.line)
    {
      match c
      case LOGIN =>
        t' := HandleLogin(parts, dao, mgr, t);
      case REGISTER =>
        t' := HandleRegister(parts, dao, t);
      case LOGOUT =>
        t' := HandleLogout(t);
    }

    /** The commands that need a login: creating, joining and listing rooms. */
    method Lobby(c: Command, parts: seq<string>, mgr: RoomManager, t: Trace) returns (t': Trace)
      requires c in {CREATE_ROOM, JOIN_ROOM, GET_ROOMS}
      requires mgr.Valid() && (currentRoom != null ==> currentRoom.Valid())
      modifies this, mgr, mgr.rooms
      ensures mgr.Valid() && (currentRoom != null ==> currentRoom.Valid())
      ensures isMonitor == old(isMonitor) && mgr.monitors == old(mgr.monitors)
      ensures c == GET_ROOMS ==> currentRoom == old(currentRoom)
      ensures old(conn.playerName).None? ==> currentRoom == old(currentRoom) && unchanged(mgr) && t' == Send(t, conn, MSG_NEED_LOGIN)
    {
      match c
      case CREATE_ROOM =>
        t' := HandleCreateRoom(mgr, t);
      case JOIN_ROOM =>
        t' := HandleJoinRoom(parts, mgr, t);
      case GET_ROOMS =>
        t' := HandleListRooms(mgr, t);
    }

    /**
     * CREATE_ROOM: once checkAuth passes, the session's room becomes the
     * registry's answer, so a refusal at the limit forgets the previous room.
     */
    method HandleCreateRoom(mgr: RoomManager, t: Trace) returns (t': Trace)
      requires mgr.Valid() && (currentRoom != null ==> currentRoom.Valid())
      modifies this, mgr
      ensures mgr.Valid() && (currentRoom != null ==> currentRoom.Valid())
      ensures isMonitor == old(isMonitor) && mgr.monitors == old(mgr.monitors)
      ensures conn.playerName.None? ==> currentRoom == old(currentRoom) && unchanged(mgr) && t' == Send(t, conn, MSG_NEED_LOGIN)
      ensures conn.playerName.Some? && old(|mgr.rooms|) >= MAX_ROOMS ==>
        currentRoom == null && mgr.rooms == old(mgr.rooms) && t' == Send(t, conn, MSG_ROOM_LIMIT)
      ensures conn.playerName.Some? && old(|mgr.rooms|) < MAX_ROOMS ==>
        && currentRoom != null && fresh(currentRoom)
        && mgr.rooms == old(mgr.rooms) + [currentRoom]
        && currentRoom.roomId == "Sala-" + IntToString(old(|mgr.rooms|) + 1)
        && currentRoom.player1 == conn && currentRoom.currentState == WAITING
        && t' == t.(sent := t.sent + CreationLines(currentRoom, mgr))
    {
      var ok;
      ok, t' := CheckAuth(t);
      if ok {
        assert |mgr.rooms| == old(|mgr.rooms|);
        t' := Host(mgr, t');
      }
    }

    /** A logged-in CREATE_ROOM: the registry's answer and the reply, then the session's room, null at the limit. */
    method Host(mgr: RoomManager, t: Trace) returns (t': Trace)
      requires mgr.Valid() && (currentRoom != null ==> currentRoom.Valid())
      modifies this, mgr
      ensures mgr.Valid() && (currentRoom != null ==> currentRoom.Valid())
      ensures isMonitor == old(isMonitor) && mgr.monitors == old(mgr.monitors)
      ensures old(|mgr.rooms|) >= MAX_ROOMS ==>
        currentRoom == null && mgr.rooms == old(mgr.rooms) && t' == Send(t, conn, MSG_ROOM_LIMIT)
      ensures old(|mgr.rooms|) < MAX_ROOMS ==>
        && currentRoom != null && fresh(currentRoom)
        && mgr.rooms == old(mgr.rooms) + [currentRoom]
        && currentRoom.roomId == "Sala-" + IntToString(old(|mgr.rooms|) + 1)
        && currentRoom.player1 == conn && currentRoom.currentState == WAITING
        && t' == t.(sent := t.sent + CreationLines(currentRoom, mgr))
    {
      var room;
      room, t' := Open(mgr, t);
      Keep(room, mgr);
    }

    /** `this.currentRoom = room`, null included; a registered room is a valid one. */
    method Keep(room: GameRoom?, ghost mgr: RoomManager)
      requires mgr.Valid() && (room != null ==> room in mgr.rooms)
      modifies this
      ensures mgr.Valid() && (currentRoom != null ==> currentRoom.Valid())
      ensures isMonitor == old(isMonitor) && mgr.Snapshot() == old(mgr.Snapshot())
      ensures currentRoom == room
    {
      currentRoom := room;
    }

    /**
     * JOIN_ROOM: checkAuth comes first, so a logged-out client hears of it
     * even without a room id, and a logged-in one without an id hears
     * nothing. A successful join is confirmed after the registry's own lines
     * and becomes the session's room; a failed one keeps the previous room.
     */
    method HandleJoinRoom(parts: seq<string>, mgr: RoomManager, t: Trace) returns (t': Trace)
      requires mgr.Valid() && (currentRoom != null ==> currentRoom.Valid())
      modifies this, mgr.rooms
      ensures mgr.Valid() && (currentRoom != null ==> currentRoom.Valid())
      ensures isMonitor == old(isMonitor) && mgr.rooms == old(mgr.rooms) && mgr.monitors == old(mgr.monitors)
      ensures old(conn.playerName).None? ==> currentRoom == old(currentRoom) && unchanged(mgr.rooms) && t' == Send(t, conn, MSG_NEED_LOGIN)
      ensures old(conn.playerName).Some? && |parts| <= 1 ==>
        currentRoom == old(currentRoom) && unchanged(mgr.rooms) && t' == t
      ensures old(conn.playerName).Some? && |parts| > 1 && !old(mgr.Joinable(parts[1])) ==>
        currentRoom == old(currentRoom) && unchanged(mgr.rooms) && t' == Send(t, conn, MSG_JOIN_FAILED)
      ensures old(conn.playerName).Some? && |parts| > 1 && old(mgr.Joinable(parts[1])) ==>
        && currentRoom == old(mgr.GetRoomById(parts[1])) && currentRoom != null
        && currentRoom.Core() == old(mgr.GetRoomById(parts[1]).Core()).(player2 := conn, state := PLACING_SHIPS)
        && t' == t.(sent := t.sent + SeatLines(currentRoom.player1, parts[1]) + mgr.Snapshot() + [(conn, "JOINED_OK")])
    {
      var ok;
      ok, t' := CheckAuth(t);
      if ok && |parts| > 1 {
        assert mgr.Joinable(parts[1]) == old(mgr.Joinable(parts[1]));
        t' := Seat(parts[1], mgr, t');
      }
    }

    /** A logged-in JOIN_ROOM with an id: the registry's answer and the reply, then the session's room. */
    method Seat(roomId: string, mgr: RoomManager, t: Trace) returns (t': Trace)
      requires mgr.Valid() && (currentRoom != null ==> currentRoom.Valid())
      modifies this, mgr.rooms
      ensures mgr.Valid() && (currentRoom != null ==> currentRoom.Valid())
      ensures isMonitor == old(isMonitor) && mgr.rooms == old(mgr.rooms) && mgr.monitors == old(mgr.monitors)
      ensures !old(mgr.Joinable(roomId)) ==>
        currentRoom == old(currentRoom) && unchanged(mgr.rooms) && t' == Send(t, conn, MSG_JOIN_FAILED)
      ensures old(mgr.Joinable(roomId)) ==>
        && currentRoom == old(mgr.GetRoomById(roomId)) && currentRoom != null
        && currentRoom.Core() == old(mgr.GetRoomById(roomId).Core()).(player2 := conn, state := PLACING_SHIPS)
        && t' == t.(sent := t.sent + SeatLines(currentRoom.player1, roomId) + mgr.Snapshot() + [(conn, "JOINED_OK")])
    {
      var joined, room;
      joined, room, t' := Enter(roomId, mgr, t);
      Adopt(room, mgr);
    }

    /** `this.currentRoom = room` when the join returned a room; a registered room is a valid one. */
    method Adopt(room: GameRoom?, ghost mgr: RoomManager)
      requires mgr.Valid() && (currentRoom != null ==> currentRoom.Valid())
      requires room != null ==> room in mgr.rooms
      modifies this
      ensures mgr.Valid() && (currentRoom != null ==> currentRoom.Valid())
      ensures isMonitor == old(isMonitor) && mgr.Snapshot() == old(mgr.Snapshot())
      ensures currentRoom == if room != null then room else old(currentRoom)
    {
      if room != null {
        currentRoom := room;
      }
    }

    /** The commands on the session's room, which need only the room. */
    method Play(c: Command, parts: seq<string>, mgr: RoomManager, t: Trace) returns (t': Trace, crashed: bool)
      requires c in {PLACE_SHIPS, SHOOT}
      requires mgr.Valid() && (currentRoom != null ==> currentRoom.Valid())
      modifies RoomParts(), mgr
      ensures mgr.Valid() && (currentRoom != null ==> currentRoom.Valid())
      ensures crashed ==> c == SHOOT
      ensures currentRoom == null ==> unchanged(mgr) && t' == t && !crashed
    {
      crashed := false;
      if c == PLACE_SHIPS {
        t' := HandlePlaceShips(parts, mgr, t);
      } else {
        t', crashed := HandleShoot(parts, mgr, t);
      }
    }
  }
}
