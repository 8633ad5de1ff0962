/**
 * What the game engine sees of a client connection (its logged-in name), the
 * text lines the server writes to connections, and the game results it hands
 * to the database layer. Each `sendMessage` appends to one shared log of
 * (connection, line) pairs, so the order of lines across players is kept;
 * `Outbox` recovers what one connection received.
 */
module Wire {
  import opened Lang

  /** A client connection; `playerName` is null until a login succeeds. */
  class Connection {
    var playerName: Option<string>

    constructor ()
      ensures playerName == None
    {
      playerName := None;
    }
  }

  /** `"..." + name` in Java prints a null name as `null`. */
  function NameText(name: Option<string>): string {
    match name
    case None => "null"
    case Some(n) => n
  }

  /** The lines of the log addressed to `c`, in the order they were written. */
  function Outbox(log: seq<(Connection, string)>, c: Connection): (lines: seq<string>)
    ensures |lines| <= |log|
    ensures (forall i :: 0 <= i < |log| ==> log[i].0 != c) ==> lines == []
  {
    if |log| == 0 then []
    else Outbox(log[..|log| - 1], c) + (if log[|log| - 1].0 == c then [log[|log| - 1].1] else [])
  }

  /** Appending to the log adds to the outbox of the addressee only. */
  lemma {:induction false} OutboxAppend(log: seq<(Connection, string)>, more: seq<(Connection, string)>, c: Connection)
    ensures Outbox(log + more, c) == Outbox(log, c) + Outbox(more, c)
    decreases |more|
  {
    if |more| == 0 {
      assert log + more == log;
    } else {
      var all := log + more;
      assert all[..|all| - 1] == log + more[..|more| - 1];
      OutboxAppend(log, more[..|more| - 1], c);
    }
  }

  /** The same line sent to each connection of `to`, in list order. */
  function Broadcast(to: seq<Connection>, line: string): (log: seq<(Connection, string)>)
    ensures |log| == |to|
    ensures forall i :: 0 <= i < |to| ==> log[i] == (to[i], line)
  {
    if |to| == 0 then [] else Broadcast(to[..|to| - 1], line) + [(to[|to| - 1], line)]
  }

  /**
   * What the engine has done to the outside world so far: the lines written
   * to connections, in order, and the game results handed to the database
   * layer. Operations take a trace and return the extended one.
   */
  datatype Trace = Trace(sent: seq<(Connection, string)>, results: seq<(Option<string>, bool)>)

  /** `sendMessage(line)` on connection `to`. */
  function Send(t: Trace, to: Connection, line: string): Trace {
    t.(sent := t.sent + [(to, line)])
  }

  /** `recordGameResult(won)`: a win or a loss for the connection's current name, which may be null. */
  function Record(t: Trace, who: Connection, won: bool): Trace
    reads who
  {
    t.(results := t.results + [(who.playerName, won)])
  }
}
