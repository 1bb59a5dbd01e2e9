/** The run controller: which run mode the flags select, and what a run in
    that mode sends. The wall clock, the keyboard and the operator's
    interrupt are inputs. */
module Controller {
  import opened Commands
  import opened Session

  /** The run modes, after precedence has been applied. */
  datatype Mode = Manual | Continuous | Timespan(seconds: nat) | Repetitions(count: nat) | NoMotion

  /** Wall-clock readings in whole seconds: the one taken to fix the end
      time, then one per evaluation of the loop condition, in order. */
  datatype Clock = Clock(start: int, checks: seq<int>)

  /** When the operator's interrupt arrives: never, or once the given
      number of sweeps has completed (if the run is still going). */
  datatype Interrupt = Uninterrupted | InterruptAfter(sweeps: nat)

  /** The hotkeys of manual mode and the direction symbol each one moves. */
  const Bindings: map<char, char> := map['w' := 'u', 'a' := 'l', 's' := 'd', 'd' := 'r']

  /** Mode precedence: manual, then continuous, then a positive timespan,
      then a positive repetition count, else no motion. */
  function SelectMode(manual: bool, continuous: bool, timespan: int, reps: int): (m: Mode)
    ensures m == Manual <==> manual
    ensures m == Continuous <==> !manual && continuous
    ensures m.Timespan? <==> !manual && !continuous && timespan > 0
    ensures m.Repetitions? <==> !manual && !continuous && timespan <= 0 && reps > 0
    ensures m.Timespan? ==> m.seconds == timespan
    ensures m.Repetitions? ==> m.count == reps
  {
    if manual then Manual
    else if continuous then Continuous
    else if timespan > 0 then Timespan(timespan)
    else if reps > 0 then Repetitions(reps)
    else NoMotion
  }

  /** Whether the interrupt has arrived once `done` sweeps have completed. */
  predicate InterruptedAt(interrupt: Interrupt, done: nat)
  {
    interrupt.InterruptAfter? && interrupt.sweeps == done
  }

  /** How many of the leading readings are still within the end time: the
      number of times the timespan loop's condition holds before it first fails. */
  function LeadingWithin(checks: seq<int>, end: int): (n: nat)
    ensures n <= |checks|
    ensures forall j :: 0 <= j < n ==> checks[j] <= end
    ensures n < |checks| ==> checks[n] > end
  {
    if checks == [] || checks[0] > end then 0 else 1 + LeadingWithin(checks[1..], end)
  }

  /** The number of sweeps a loop that would run `due` times completes
      when the interrupt may cut it short. */
  function Completed(due: nat, interrupt: Interrupt): (k: nat)
    ensures k <= due
    ensures k < due <==> interrupt.InterruptAfter? && interrupt.sweeps < due
    ensures k < due ==> k == interrupt.sweeps
  {
    if interrupt.InterruptAfter? && interrupt.sweeps < due then interrupt.sweeps else due
  }

  /** The log of sending the same command list `n` times over. */
  function Repeated(sequence: seq<string>, n: nat): seq<Event>
  {
    if n == 0 then [] else Repeated(sequence, n - 1) + SequenceTrace(sequence)
  }

  /** The log of `n` consecutive sweeps. */
  function Sweeps(n: nat): seq<Event>
  {
    Repeated(RotationSequence(ABS_MAX), n)
  }

  lemma SweepsStep(n: nat)
    ensures Sweeps(n + 1) == Sweeps(n) + SweepTrace()
  {
  }

  /** The log of one key press in manual mode: the bound move, or nothing for an unbound key. */
  function KeyTrace(key: char): seq<Event>
  {
    if key in Bindings then [Sent(MovementTrans[Bindings[key]])] else []
  }

  /** The log of a run of key presses in manual mode. */
  function KeysTrace(keys: seq<char>): seq<Event>
  {
    if keys == [] then [] else KeysTrace(keys[..|keys| - 1]) + KeyTrace(keys[|keys| - 1])
  }

  /** Whether a run in this mode ends with close: manual and continuous end
      only by interrupt, which the outer handler answers with close;
      timespan closes at the end (or on interrupt, whichever comes first);
      repetitions close only when interrupted before the last sweep. */
  predicate ClosesSession(mode: Mode, interrupt: Interrupt)
  {
    match mode
    case Manual => true
    case Continuous => true
    case Timespan(_) => true
    case Repetitions(n) => interrupt.InterruptAfter? && interrupt.sweeps < n
    case NoMotion => false
  }

  /** The number of sweeps a run completes. */
  function SweepsRun(mode: Mode, clock: Clock, interrupt: Interrupt): nat
    requires mode == Continuous ==> interrupt.InterruptAfter?
  {
    match mode
    case Manual => 0
    case Continuous => interrupt.sweeps
    case Timespan(secs) => Completed(LeadingWithin(clock.checks, clock.start + secs), interrupt)
    case Repetitions(n) => Completed(n, interrupt)
    case NoMotion => 0
  }

  /** What a run sends and sleeps before any close: the key moves in
      manual mode, the completed sweeps otherwise. */
  function Motion(mode: Mode, keys: seq<char>, clock: Clock, interrupt: Interrupt): seq<Event>
    requires mode == Continuous ==> interrupt.InterruptAfter?
  {
    if mode == Manual then KeysTrace(keys) else Sweeps(SweepsRun(mode, clock, interrupt))
  }

  /** Everything a run adds to the session log. */
  function RunTrace(mode: Mode, keys: seq<char>, clock: Clock, interrupt: Interrupt): seq<Event>
    requires mode == Continuous ==> interrupt.InterruptAfter?
  {
    Motion(mode, keys, clock, interrupt) + (if ClosesSession(mode, interrupt) then CloseTrace() else [])
  }

  // ---------------------------------------------------------------------
  // Properties of runs
  // ---------------------------------------------------------------------

  /** Repeating a four-command list n times sends 4n commands, cycling
      through the list in order, with one sleep per command. */
  lemma {:induction false} RepeatedSends(sequence: seq<string>, n: nat)
    requires |sequence| == 4
    ensures |SentCommands(Repeated(sequence, n))| == 4 * n
    ensures forall i :: 0 <= i < 4 * n ==> SentCommands(Repeated(sequence, n))[i] == sequence[i % 4]
    ensures SleepCount(Repeated(sequence, n)) == 4 * n
    ensures forall c :: c in SentCommands(Repeated(sequence, n)) ==> c in sequence
  {
    if n > 0 {
      RepeatedSends(sequence, n - 1);
      SequenceTraceSends(sequence);
      SentCommandsAppend(Repeated(sequence, n - 1), SequenceTrace(sequence));
      var before := SentCommands(Repeated(sequence, n - 1));
      var now := SentCommands(Repeated(sequence, n));
      assert now == before + sequence;
      forall i | 4 * (n - 1) <= i < 4 * n
        ensures now[i] == sequence[i % 4]
      {
        assert i % 4 == i - 4 * (n - 1);
      }
    }
  }

  /** n sweeps send 4n corner commands, cycling through the corners in
      order, with one sleep per command and no home among them. */
  lemma SweepsSend(n: nat)
    ensures |SentCommands(Sweeps(n))| == 4 * n
    ensures forall i :: 0 <= i < 4 * n ==> SentCommands(Sweeps(n))[i] == RotationSequence(ABS_MAX)[i % 4]
    ensures SleepCount(Sweeps(n)) == 4 * n
    ensures HOME !in SentCommands(Sweeps(n))
  {
    HomeNotInRotation(ABS_MAX);
    RepeatedSends(RotationSequence(ABS_MAX), n);
  }

  /** A hotkey press sends exactly its move. */
  lemma KeyTraceSends(key: char)
    requires key in Bindings
    ensures SentCommands(KeyTrace(key)) == [MovementTrans[Bindings[key]]]
  {
    assert [Sent(MovementTrans[Bindings[key]])][..0] == [];
  }

  /** Manual key presses send only table moves, at most one per key, and never sleep. */
  lemma {:induction false} KeysTraceMoves(keys: seq<char>)
    ensures |SentCommands(KeysTrace(keys))| <= |keys|
    ensures forall i :: 0 <= i < |SentCommands(KeysTrace(keys))| ==> SentCommands(KeysTrace(keys))[i] in MovementTrans.Values
    ensures SleepCount(KeysTrace(keys)) == 0
    decreases |keys|
  {
    if keys != [] {
      var init, last := keys[..|keys| - 1], keys[|keys| - 1];
      KeysTraceMoves(init);
      SentCommandsAppend(KeysTrace(init), KeyTrace(last));
      var before := SentCommands(KeysTrace(init));
      var now := SentCommands(KeysTrace(keys));
      if last in Bindings {
        KeyTraceSends(last);
        var c := MovementTrans[Bindings[last]];
        assert c in MovementTrans.Values;
        assert now == before + [c];
        forall i | 0 <= i < |now| ensures now[i] in MovementTrans.Values {
          if i < |before| {
            assert now[i] == before[i];
          }
        }
      } else {
        assert KeyTrace(last) == [];
        assert now == before;
      }
    }
  }

  /** When every key pressed is a hotkey, each press sends its move, in press order. */
  lemma {:induction false} KeysTraceInOrder(keys: seq<char>)
    requires forall i :: 0 <= i < |keys| ==> keys[i] in Bindings
    ensures |SentCommands(KeysTrace(keys))| == |keys|
    ensures forall i :: 0 <= i < |keys| ==> SentCommands(KeysTrace(keys))[i] == MovementTrans[Bindings[keys[i]]]
    decreases |keys|
  {
    if keys != [] {
      var init, last := keys[..|keys| - 1], keys[|keys| - 1];
      KeysTraceInOrder(init);
      SentCommandsAppend(KeysTrace(init), KeyTrace(last));
      KeyTraceSends(last);
      var now := SentCommands(KeysTrace(keys));
      assert now == SentCommands(KeysTrace(init)) + [MovementTrans[Bindings[last]]];
      forall i | 0 <= i < |keys| ensures now[i] == MovementTrans[Bindings[keys[i]]] {
        if i < |init| {
          assert keys[i] == init[i];
        }
      }
    }
  }

  /** The moves bound to the hotkeys among the pressed keys, in press
      order; presses of other keys contribute nothing. */
  function BoundMoves(keys: seq<char>): (r: seq<string>)
    ensures |r| <= |keys|
    ensures forall c :: c in r ==> c in MovementTrans.Values
  {
    if keys == [] then []
    else
      var last := keys[|keys| - 1];
      BoundMoves(keys[..|keys| - 1]) + (if last in Bindings then [MovementTrans[Bindings[last]]] else [])
  }

  /** For any key presses, hotkeys or not, manual mode sends exactly the
      bound moves, in press order. */
  lemma {:induction false} KeysTraceSendsBound(keys: seq<char>)
    ensures SentCommands(KeysTrace(keys)) == BoundMoves(keys)
    decreases |keys|
  {
    if keys != [] {
      var init, last := keys[..|keys| - 1], keys[|keys| - 1];
      KeysTraceSendsBound(init);
      SentCommandsAppend(KeysTrace(init), KeyTrace(last));
      if last in Bindings {
        KeyTraceSends(last);
      } else {
        assert KeyTrace(last) == [];
      }
    }
  }

  /** A press of a key that is not a hotkey after the others adds no move. */
  lemma BoundMovesIgnoresLastKey(keys: seq<char>, other: char)
    requires other !in Bindings
    ensures BoundMoves(keys + [other]) == BoundMoves(keys)
  {
    assert (keys + [other])[..|keys|] == keys;
  }

  /** Keys that are not hotkeys change nothing: dropping one pressed first
      or last leaves the moves sent the same. */
  lemma {:induction false} BoundMovesIgnoresOtherKeys(keys: seq<char>, other: char)
    requires other !in Bindings
    ensures BoundMoves(keys + [other]) == BoundMoves(keys)
    ensures BoundMoves([other] + keys) == BoundMoves(keys)
    decreases |keys|
  {
    BoundMovesIgnoresLastKey(keys, other);
    var pressed := [other] + keys;
    if keys == [] {
      assert pressed == [other] && pressed[..0] == [];
    } else {
      var init, last := keys[..|keys| - 1], keys[|keys| - 1];
      BoundMovesIgnoresOtherKeys(init, other);
      var move := if last in Bindings then [MovementTrans[Bindings[last]]] else [];
      assert pressed[..|pressed| - 1] == [other] + init && pressed[|pressed| - 1] == last;
      assert BoundMoves(pressed) == BoundMoves([other] + init) + move;
      assert BoundMoves(keys) == BoundMoves(init) + move;
    }
  }

  /** Nothing a run does before closing sends home. */
  lemma MotionSendsNoHome(mode: Mode, keys: seq<char>, clock: Clock, interrupt: Interrupt)
    requires mode == Continuous ==> interrupt.InterruptAfter?
    ensures HOME !in SentCommands(Motion(mode, keys, clock, interrupt))
  {
    if mode == Manual {
      KeysTraceMoves(keys);
      HomeIsNoMove();
    } else {
      SweepsSend(SweepsRun(mode, clock, interrupt));
    }
  }

  /** Home is sent at most once by a run, exactly when the run closes the
      session, and then it is the last command. */
  lemma HomeSentOnlyByClose(mode: Mode, keys: seq<char>, clock: Clock, interrupt: Interrupt)
    requires mode == Continuous ==> interrupt.InterruptAfter?
    ensures var cmds := SentCommands(RunTrace(mode, keys, clock, interrupt));
      multiset(cmds)[HOME] == (if ClosesSession(mode, interrupt) then 1 else 0)
      && (ClosesSession(mode, interrupt) ==> cmds[|cmds| - 1] == HOME)
  {
    var motion := Motion(mode, keys, clock, interrupt);
    MotionSendsNoHome(mode, keys, clock, interrupt);
    var closing := if ClosesSession(mode, interrupt) then CloseTrace() else [];
    SentCommandsAppend(motion, closing);
    CloseTraceSends();
    assert SentCommands(RunTrace(mode, keys, clock, interrupt))
        == SentCommands(motion) + (if ClosesSession(mode, interrupt) then [HOME] else []);
  }

  /** A repetitions run that is not interrupted sends exactly 4 * reps
      corner commands, in sweep order, and does not close. */
  lemma RepetitionsRunExactly(manual: bool, continuous: bool, timespan: int, reps: int,
                              keys: seq<char>, clock: Clock)
    requires !manual && !continuous && timespan <= 0 && reps > 0
    ensures var cmds := SentCommands(RunTrace(SelectMode(manual, continuous, timespan, reps), keys, clock, Uninterrupted));
      |cmds| == 4 * reps
      && (forall i :: 0 <= i < 4 * reps ==> cmds[i] == RotationSequence(ABS_MAX)[i % 4])
      && HOME !in cmds
  {
    var mode := SelectMode(manual, continuous, timespan, reps);
    assert mode == Repetitions(reps);
    assert RunTrace(mode, keys, clock, Uninterrupted) == Sweeps(reps);
    SweepsSend(reps);
  }

  /** A timespan run sweeps while the clock reads at most start + timespan
      (unless interrupted sooner), then closes once. */
  lemma TimespanRunThenClose(secs: nat, keys: seq<char>, clock: Clock, interrupt: Interrupt)
    ensures var k := SweepsRun(Timespan(secs), clock, interrupt);
      var cmds := SentCommands(RunTrace(Timespan(secs), keys, clock, interrupt));
      (forall j :: 0 <= j < k ==> clock.checks[j] <= clock.start + secs)
      && (k < |clock.checks| && !InterruptedAt(interrupt, k) ==> clock.checks[k] > clock.start + secs)
      && (interrupt.InterruptAfter? ==> k <= interrupt.sweeps)
      && |cmds| == 4 * k + 1
      && (forall i :: 0 <= i < 4 * k ==> cmds[i] == RotationSequence(ABS_MAX)[i % 4])
      && cmds[4 * k] == HOME
  {
    var k := SweepsRun(Timespan(secs), clock, interrupt);
    SweepsSend(k);
    CloseTraceSends();
    SentCommandsAppend(Sweeps(k), CloseTrace());
    var cmds := SentCommands(RunTrace(Timespan(secs), keys, clock, interrupt));
    assert cmds == SentCommands(Sweeps(k)) + [HOME];
  }

  /** Two repetitions: eight corner commands and no close; interrupted
      after the first sweep: four corner commands, then one home. */
  lemma TwoRepetitionsScenario(clock: Clock, keys: seq<char>)
    ensures var mode := SelectMode(false, false, 0, 2);
      SentCommands(RunTrace(mode, keys, clock, Uninterrupted)) == RotationSequence(ABS_MAX) + RotationSequence(ABS_MAX)
      && SentCommands(RunTrace(mode, keys, clock, InterruptAfter(1))) == RotationSequence(ABS_MAX) + [HOME]
  {
    var mode := SelectMode(false, false, 0, 2);
    assert mode == Repetitions(2);
    RepeatedSends(RotationSequence(ABS_MAX), 1);
    SequenceTraceSends(RotationSequence(ABS_MAX));
    assert Repeated(RotationSequence(ABS_MAX), 1) == SweepTrace();
    SentCommandsAppend(Repeated(RotationSequence(ABS_MAX), 1), SweepTrace());
    assert RunTrace(mode, keys, clock, Uninterrupted) == Repeated(RotationSequence(ABS_MAX), 1) + SweepTrace();
    assert RunTrace(mode, keys, clock, InterruptAfter(1)) == Repeated(RotationSequence(ABS_MAX), 1) + CloseTrace();
    CloseTraceSends();
    SentCommandsAppend(Repeated(RotationSequence(ABS_MAX), 1), CloseTrace());
  }

  /** With no flags the argument defaults (-r 1, -t 0) give one sweep and no close. */
  lemma DefaultRun(clock: Clock, keys: seq<char>)
    ensures SelectMode(false, false, 0, 1) == Repetitions(1)
    ensures SentCommands(RunTrace(SelectMode(false, false, 0, 1), keys, clock, Uninterrupted)) == RotationSequence(ABS_MAX)
    ensures !ClosesSession(SelectMode(false, false, 0, 1), Uninterrupted)
  {
    SequenceTraceSends(RotationSequence(ABS_MAX));
    assert Repeated(RotationSequence(ABS_MAX), 0) == [];
    assert RunTrace(Repetitions(1), keys, clock, Uninterrupted) == SweepTrace();
  }

  // ---------------------------------------------------------------------
  // Manual mode as written
  // ---------------------------------------------------------------------

  /** Manual mode as the program writes it: the first binding passes an
      `args` keyword to keyboard.on_press_key, which takes none, so a
      TypeError leaves main before any key is bound and the outer handler
      closes the session. Whatever keys are pressed, only close runs. */
  function ManualTraceAsWritten(keys: seq<char>): (t: seq<Event>)
    ensures SentCommands(t) == [HOME]
  {
    CloseTraceSends();
    CloseTrace()
  }

  /** With 'w' bound as intended, a manual run sends the moves of the
      hotkeys pressed, in press order, then the home of close. */
  lemma ManualRunSends(keys: seq<char>, clock: Clock, interrupt: Interrupt)
    ensures SentCommands(RunTrace(Manual, keys, clock, interrupt)) == BoundMoves(keys) + [HOME]
  {
    assert RunTrace(Manual, keys, clock, interrupt) == KeysTrace(keys) + CloseTrace();
    SentCommandsAppend(KeysTrace(keys), CloseTrace());
    KeysTraceSendsBound(keys);
    CloseTraceSends();
  }

  /** Pressing 'w' in manual mode: as written nothing moves before home;
      as intended the tilt-up move goes out first. */
  lemma ManualBindingDropsKeys(clock: Clock, interrupt: Interrupt)
    ensures SentCommands(ManualTraceAsWritten(['w'])) == [HOME]
    ensures SentCommands(RunTrace(Manual, ['w'], clock, interrupt)) == ["TO100\n", HOME]
  {
    ManualRunSends(['w'], clock, interrupt);
    assert ['w'][..0] == [];
    assert BoundMoves(['w']) == [MovementTrans['u']];
  }

  // ---------------------------------------------------------------------
  // The run itself
  // ---------------------------------------------------------------------

  /** Manual mode with all four hotkeys bound as intended (the 'w' binding
      corrected, see ManualTraceAsWritten): read and clear the response,
      then send the bound move for each key pressed. */
  method ManualControl(g: Gimbal, keys: seq<char>)
    requires g.connection == Connected
    modifies g`log, g`response
    ensures g.log == old(g.log) + KeysTrace(keys)
    ensures g.response == ""
  {
    var _ := g.GetResponse();
    for i := 0 to |keys|
      invariant g.log == old(g.log) + KeysTrace(keys[..i])
      invariant g.response == ""
    {
      if keys[i] in Bindings {
        var _ := g.SendMovement(Bindings[keys[i]]);
      }
      assert keys[..i + 1][..i] == keys[..i];
    }
    assert keys[..|keys|] == keys;
  }

  /** One more full rotation on an open session extends the sweeps logged so far by one. */
  method SweepOnce(g: Gimbal, ghost before: seq<Event>, ghost done: nat)
    requires g.connection == Connected
    requires g.log == before + Sweeps(done)
    modifies g`log
    ensures g.log == before + Sweeps(done + 1)
  {
    var ok := g.FullRotation();
    SweepsStep(done);
  }

  /** Continuous mode: sweep until the interrupt arrives. */
  method SweepContinuously(g: Gimbal, interrupt: Interrupt)
    requires g.connection == Connected && interrupt.InterruptAfter?
    modifies g`log
    ensures g.log == old(g.log) + Sweeps(interrupt.sweeps)
  {
    var done: nat := 0;
    while !InterruptedAt(interrupt, done)
      invariant done <= interrupt.sweeps
      invariant g.log == old(g.log) + Sweeps(done)
      invariant g.connection == Connected
      decreases interrupt.sweeps - done
    {
      SweepOnce(g, old(g.log), done);
      done := done + 1;
    }
  }

  /** One more turn of the timespan loop stays within the sweeps the run completes. */
  lemma TimespanLoopStep(checks: seq<int>, end: int, interrupt: Interrupt, done: nat)
    requires done <= Completed(LeadingWithin(checks, end), interrupt)
    requires !InterruptedAt(interrupt, done) && done < |checks| && checks[done] <= end
    ensures done + 1 <= Completed(LeadingWithin(checks, end), interrupt)
  {
  }

  /** When the timespan loop's condition fails, the run has completed all its sweeps. */
  lemma TimespanLoopStops(checks: seq<int>, end: int, interrupt: Interrupt, done: nat)
    requires done <= Completed(LeadingWithin(checks, end), interrupt)
    requires InterruptedAt(interrupt, done) || done == |checks| || (done < |checks| && checks[done] > end)
    ensures done == Completed(LeadingWithin(checks, end), interrupt)
  {
  }

  /** Timespan mode: fix the end time from the first reading, then sweep
      while the clock reads at most the end time and no interrupt has come. */
  method SweepWithin(g: Gimbal, seconds: nat, clock: Clock, interrupt: Interrupt)
    requires g.connection == Connected
    modifies g`log
    ensures g.log == old(g.log) + Sweeps(Completed(LeadingWithin(clock.checks, clock.start + seconds), interrupt))
  {
    var end := clock.start + seconds;
    var done: nat := 0;
    while !InterruptedAt(interrupt, done) && done < |clock.checks| && clock.checks[done] <= end
      invariant done <= Completed(LeadingWithin(clock.checks, end), interrupt)
      invariant g.log == old(g.log) + Sweeps(done)
      invariant g.connection == Connected
      decreases |clock.checks| - done
    {
      TimespanLoopStep(clock.checks, end, interrupt, done);
      SweepOnce(g, old(g.log), done);
      done := done + 1;
    }
    TimespanLoopStops(clock.checks, end, interrupt, done);
  }

  /** Repetitions mode: sweep `count` times unless the interrupt comes first. */
  method SweepRepeatedly(g: Gimbal, count: nat, interrupt: Interrupt)
    requires g.connection == Connected
    modifies g`log
    ensures g.log == old(g.log) + Sweeps(Completed(count, interrupt))
  {
    var done: nat := 0;
    while done < count && !InterruptedAt(interrupt, done)
      invariant done <= Completed(count, interrupt)
      invariant g.log == old(g.log) + Sweeps(done)
      invariant g.connection == Connected
    {
      SweepOnce(g, old(g.log), done);
      done := done + 1;
    }
  }

  /** The motion of one mode: its key presses or its sweeps, before any close. */
  method Move(g: Gimbal, mode: Mode, keys: seq<char>, clock: Clock, interrupt: Interrupt)
    requires g.connection == Connected
    requires mode == Continuous ==> interrupt.InterruptAfter?
    modifies g`log, g`response
    ensures g.log == old(g.log) + Motion(mode, keys, clock, interrupt)
    ensures g.response == (if mode == Manual then "" else old(g.response))
  {
    match mode {
      case Manual =>
        ManualControl(g, keys);
      case Continuous =>
        SweepContinuously(g, interrupt);
        assert SweepsRun(mode, clock, interrupt) == interrupt.sweeps;
      case Timespan(seconds) =>
        SweepWithin(g, seconds, clock, interrupt);
        assert SweepsRun(mode, clock, interrupt) == Completed(LeadingWithin(clock.checks, clock.start + seconds), interrupt);
      case Repetitions(count) =>
        SweepRepeatedly(g, count, interrupt);
        assert SweepsRun(mode, clock, interrupt) == Completed(count, interrupt);
      case NoMotion =>
        assert Sweeps(0) == [];
    }
  }

  /** The body of main and its outer handler, on a session that powered on.
      The mode the flags select runs; a timespan run then closes, and an
      interrupt goes to the handler, which closes the session. */
  method Run(g: Gimbal, manual: bool, continuous: bool, timespan: int, reps: int,
             keys: seq<char>, clock: Clock, interrupt: Interrupt)
    requires g.connection == Connected
    requires SelectMode(manual, continuous, timespan, reps) == Continuous ==> interrupt.InterruptAfter?
    modifies g
    ensures g.log == old(g.log) + RunTrace(SelectMode(manual, continuous, timespan, reps), keys, clock, interrupt)
    ensures g.connection ==
      (if ClosesSession(SelectMode(manual, continuous, timespan, reps), interrupt) then Released else Connected)
    ensures g.response == (if manual then "" else old(g.response))
  {
    var mode := SelectMode(manual, continuous, timespan, reps);
    Move(g, mode, keys, clock, interrupt);
    // the normal end of a timespan run, or the handler after an interrupt
    if ClosesSession(mode, interrupt) {
      var _ := g.Close();
    }
  }
}
