/** The gimbal session: one TCP connection, modelled as a connection state
    and an append-only log of what the session did on it (commands sent and
    sleeps taken), in order. */
module Session {
  import opened Commands

  /** One observable step of the session. */
  datatype Event = Sent(command: string) | Slept(seconds: nat)

  /** Created but not connected; connected; released by close. */
  datatype Connection = Unconnected | Connected | Released

  /** Outcome of a relative move: sent, an unknown symbol (KeyError), or a send on a socket that is not connected. */
  datatype MoveOutcome = Moved | UnknownSymbol | SendFailed

  // ---------------------------------------------------------------------
  // Specification functions over the event log
  // ---------------------------------------------------------------------

  /** The commands of a log, in the order they were sent. */
  function SentCommands(log: seq<Event>): (r: seq<string>)
    ensures |r| <= |log|
  {
    if log == [] then []
    else SentCommands(log[..|log| - 1])
         + (match log[|log| - 1] case Sent(c) => [c] case Slept(_) => [])
  }

  /** How many sleeps a log holds. */
  function SleepCount(log: seq<Event>): (n: nat)
    ensures n <= |log|
  {
    if log == [] then 0
    else SleepCount(log[..|log| - 1]) + (if log[|log| - 1].Slept? then 1 else 0)
  }

  lemma {:induction false} SentCommandsAppend(a: seq<Event>, b: seq<Event>)
    ensures SentCommands(a + b) == SentCommands(a) + SentCommands(b)
    ensures SleepCount(a + b) == SleepCount(a) + SleepCount(b)
    decreases |b|
  {
    if b != [] {
      assert (a + b)[..|a + b| - 1] == a + b[..|b| - 1];
      SentCommandsAppend(a, b[..|b| - 1]);
    } else {
      assert a + b == a;
    }
  }

  /** What sending a list of commands leaves in the log: each command followed by a DELAY sleep. */
  function SequenceTrace(sequence: seq<string>): (t: seq<Event>)
    ensures |t| == 2 * |sequence|
    ensures forall i :: 0 <= i < |sequence| ==> t[2 * i] == Sent(sequence[i])
    ensures forall i :: 0 <= i < |sequence| ==> t[2 * i + 1] == Slept(DELAY)
  {
    if sequence == [] then []
    else SequenceTrace(sequence[..|sequence| - 1]) + [Sent(sequence[|sequence| - 1]), Slept(DELAY)]
  }

  /** A sequence sends its commands once each, in list order, and sleeps once per command. */
  lemma {:induction false} SequenceTraceSends(sequence: seq<string>)
    ensures SentCommands(SequenceTrace(sequence)) == sequence
    ensures SleepCount(SequenceTrace(sequence)) == |sequence|
    decreases |sequence|
  {
    if sequence != [] {
      var init := sequence[..|sequence| - 1];
      var last := sequence[|sequence| - 1];
      SequenceTraceSends(init);
      SentCommandsAppend(SequenceTrace(init), [Sent(last), Slept(DELAY)]);
      assert SentCommands([Sent(last), Slept(DELAY)]) == [last] by {
        assert [Sent(last), Slept(DELAY)][..1] == [Sent(last)];
        assert [Sent(last)][..0] == [];
      }
      assert SleepCount([Sent(last), Slept(DELAY)]) == 1 by {
        assert [Sent(last), Slept(DELAY)][..1] == [Sent(last)];
        assert [Sent(last)][..0] == [];
      }
      assert init + [last] == sequence;
    }
  }

  /** The log of one full rotation. */
  function SweepTrace(): (t: seq<Event>)
    ensures |t| == 8
  {
    SequenceTrace(RotationSequence(ABS_MAX))
  }

  /** The log of close on an open connection: settle, then home. */
  function CloseTrace(): seq<Event>
  {
    [Slept(DELAY), Sent(HOME)]
  }

  /** Close sends home as its only command, after its one sleep. */
  lemma CloseTraceSends()
    ensures SentCommands(CloseTrace()) == [HOME]
    ensures SleepCount(CloseTrace()) == 1
  {
    assert CloseTrace()[..1] == [Slept(DELAY)];
    assert [Slept(DELAY)][..0] == [];
  }

  // ---------------------------------------------------------------------
  // The gimbal object
  // ---------------------------------------------------------------------

  class Gimbal {
    /** State of the socket. */
    var connection: Connection
    /** Buffered inbound data; nothing in this program ever fills it. */
    var response: string
    /** Everything the session has sent or slept, oldest first. */
    var log: seq<Event>

    /** Creates the socket and an empty response, then powers on. When the
        connection cannot be made the home send fails, which in the program
        raises out of the constructor; here the object is left unconnected
        with nothing logged. */
    constructor (connectSucceeds: bool)
      ensures response == ""
      ensures connection == (if connectSucceeds then Connected else Unconnected)
      ensures log == (if connectSucceeds then [Sent(HOME), Slept(DELAY)] else [])
    {
      connection := Unconnected;
      response := "";
      log := [];
      new;
      var _ := PowerOn(connectSucceeds);
    }

    /** Writes one command. Fails, changing nothing, when the socket is not connected. */
    method Send(command: string) returns (ok: bool)
      modifies this`log
      ensures ok == (connection == Connected)
      ensures log == old(log) + (if ok then [Sent(command)] else [])
    {
      ok := connection == Connected;
      if ok {
        log := log + [Sent(command)];
      }
    }

    /** A sleep of the given length, recorded rather than waited. */
    method Sleep(seconds: nat)
      modifies this`log
      ensures log == old(log) + [Slept(seconds)]
    {
      log := log + [Slept(seconds)];
    }

    /** Connects, then sends home and sleeps DELAY. A failed connect is
        reported and swallowed, and home is still attempted; the sleep is
        reached only when home went out. */
    method PowerOn(connectSucceeds: bool) returns (ok: bool)
      modifies this`log, this`connection
      ensures connection ==
        (if old(connection) == Unconnected && connectSucceeds then Connected else old(connection))
      ensures ok == (connection == Connected)
      ensures log == old(log) + (if ok then [Sent(HOME), Slept(DELAY)] else [])
    {
      if connection == Unconnected && connectSucceeds {
        connection := Connected;
      }
      ok := Home();
      if ok {
        Sleep(DELAY);
      }
    }

    /** Returns the buffered response and clears it. */
    method GetResponse() returns (output: string)
      modifies this`response
      ensures output == old(response)
      ensures response == ""
    {
      output := response;
      response := "";
    }

    /** Sends the home command and nothing else. */
    method Home() returns (ok: bool)
      modifies this`log
      ensures ok == (connection == Connected)
      ensures log == old(log) + (if ok then [Sent(HOME)] else [])
    {
      ok := Send(HOME);
    }

    /** Looks the symbol up in the movement table and sends that command.
        The program also guards against an empty table entry; no entry is
        empty (MovementCommand's contract), so that branch is left out. */
    method SendMovement(symbol: char) returns (outcome: MoveOutcome)
      modifies this`log
      ensures outcome == UnknownSymbol <==> symbol !in MovementTrans
      ensures outcome == SendFailed <==> symbol in MovementTrans && connection != Connected
      ensures log == old(log) + (if outcome == Moved then [Sent(MovementTrans[symbol])] else [])
    {
      match MovementCommand(symbol)
      case None =>
        outcome := UnknownSymbol;
      case Some(signal) =>
        var ok := Send(signal);
        outcome := if ok then Moved else SendFailed;
    }

    /** Sends each command in list order, sleeping DELAY after every one,
        the last included. A failed send stops the sequence. */
    method SendSequence(sequence: seq<string>) returns (ok: bool)
      modifies this`log
      ensures ok == (connection == Connected || sequence == [])
      ensures log == old(log) + (if ok then SequenceTrace(sequence) else [])
    {
      ok := true;
      for i := 0 to |sequence|
        invariant log == old(log) + SequenceTrace(sequence[..i])
        invariant i > 0 ==> connection == Connected
      {
        var sent := Send(sequence[i]);
        if !sent {
          ok := false;
          return;
        }
        Sleep(DELAY);
        assert sequence[..i + 1][..i] == sequence[..i];
      }
      assert sequence[..|sequence|] == sequence;
    }

    /** One sweep over the four corners. */
    method FullRotation() returns (ok: bool)
      modifies this`log
      ensures ok == (connection == Connected)
      ensures log == old(log) + (if ok then SweepTrace() else [])
    {
      ok := SendSequence(RotationSequence(ABS_MAX));
    }

    /** Sleeps DELAY, sends home, then releases the socket. On a socket that
        is not connected (never connected, or already released) the home
        send fails, so nothing is sent and the socket is not touched. */
    method Close() returns (ok: bool)
      modifies this`log, this`connection
      ensures ok == (old(connection) == Connected)
      ensures connection == (if ok then Released else old(connection))
      ensures log == old(log) + [Slept(DELAY)] + (if ok then [Sent(HOME)] else [])
    {
      Sleep(DELAY);
      ok := Home();
      if ok {
        connection := Released;
      }
    }
  }

  /** Closing twice sends home once: the second close only sleeps. */
  method CloseTwice(g: Gimbal)
    requires g.connection == Connected
    modifies g`log, g`connection
    ensures g.connection == Released
    ensures g.log == old(g.log) + [Slept(DELAY), Sent(HOME), Slept(DELAY)]
  {
    var first := g.Close();
    var second := g.Close();
    assert first && !second;
  }
}
