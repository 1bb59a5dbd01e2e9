# Gimbal sweep tester, modelled in Dafny

The program drives a pan/tilt gimbal over one TCP connection. It sends
line-oriented text commands:

- `RE\nA\n` homes the gimbal.
- `TO±100\n` and `PO±100\n` are relative tilt and pan moves.
- `TP<t>\nPP<p>\nA\n` moves to an absolute position.

A full rotation visits the four corners at ±3000, sleeping five seconds
after each command. The command-line flags pick one run mode, in this order
of precedence:

1. manual (WASD hotkeys);
2. continuous sweeps until interrupted;
3. sweeps for a number of seconds, then close;
4. a number of sweeps.

The outer handler answers any exception, including Ctrl-C, by closing the
session. Closing sleeps, sends home and releases the socket.

The model has three modules:

- `Commands` (`commands.dfy`, pure) holds the command strings, the
  movement table, decimal rendering of integers with a reader for it, and
  the four-corner sweep.
- `Session` (`session.dfy`, imperative) is the `Gimbal` class. The socket
  becomes a connection state plus an append-only log of events: commands
  sent and sleeps taken. A send on a socket that is not connected fails and
  logs nothing, which stands in for the socket error.
- `Controller` (`controller.dfy`, mixed) covers mode selection, the run
  loops of each mode and the outer close handler. A run is specified by
  `RunTrace`, the exact events it appends to the log.

Three things the program gets from its environment are inputs to the model:

- The wall clock is a `Clock` value: the reading that fixes the end time,
  then one reading per evaluation of the loop condition.
- The operator's Ctrl-C is an `Interrupt` value: never, or after a given
  number of completed sweeps.
- Manual-mode key presses are a sequence of characters.

Sleeps are recorded in the log rather than waited out.

Some details of the program's timing and framing matter for what a run sends:

- `send_sequence` sleeps after every command, the last one included.
- `close` sleeps before it homes.
- Each corner command already ends in its own `A\n`, and nothing follows a sweep.
- Repetitions mode ends without closing the session.
- A failed connect in `power_on` is printed and swallowed. Home is still
  attempted, but that send fails (see "## Left out").

## Model

| member | source | states |
|---|---|---|
| Commands.IntToString | gimbal_test.py:52-55 | The `{}` rendering of an integer has no newline. It starts with a minus sign exactly when the integer is negative, and then no zero follows the sign |
| Commands.NatToStringRoundTrip | gimbal_test.py:52-55 | Reading back the digits of a natural number gives that number |
| Commands.IntToStringRoundTrip | gimbal_test.py:52-55 | Reading back the rendering of any integer gives that integer, sign included |
| Commands.IntToStringInjective | gimbal_test.py:52-55 | Different integers are rendered as different strings |
| Commands.SplitLineAt | gimbal_test.py:52-55 | A newline-free field followed by a newline splits off exactly that field and the rest |
| Commands.AbsoluteRoundTrip | gimbal_test.py:52-55 | An absolute command parses back to exactly its tilt and pan |
| Commands.MovementCommand | gimbal_test.py:13 | The table defines exactly the symbols u, d, l and r (any other symbol is the KeyError case), and every entry is a non-empty newline-terminated line |
| Commands.MovementTableMeaning | gimbal_test.py:13 | u/d move tilt by +100/-100, and l/r move pan by -100/+100 |
| Commands.HomeIsNoMove | gimbal_test.py:13 | No relative move is the home command |
| Commands.Corners | gimbal_test.py:52-56 | The four corners at magnitude m: tilt +m for the first two and -m for the last two, with pan alternating +m and -m |
| Commands.RotationSequence | gimbal_test.py:51-56 | A rotation has exactly four commands |
| Commands.RotationVisitsCorners | gimbal_test.py:51-56 | The rotation's i-th command parses to the i-th corner, in sweep order |
| Commands.RotationDistinct | gimbal_test.py:51-56 | At a non-zero magnitude the four commands are pairwise distinct |
| Commands.HomeNotInRotation | gimbal_test.py:51-56 | No sweep command is the home command |
| Commands.AbsMaxText | gimbal_test.py:10 | ABS_MAX renders as "3000" and its negation as "-3000" |
| Commands.RotationText | gimbal_test.py:52-56 | The sweep at ABS_MAX is exactly the four command texts with the minus signs written out |
| Session.SentCommandsAppend | gimbal_test.py:42 | Sends and sleeps of concatenated logs add up |
| Session.SequenceTrace | gimbal_test.py:60-63 | Command i of a sequence is logged at position 2i and followed by a DELAY sleep |
| Session.SequenceTraceSends | gimbal_test.py:60-63 | A sequence sends its commands once each, in list order, and sleeps once per command |
| Session.CloseTraceSends | gimbal_test.py:22-25 | Close sends home as its only command, after exactly one sleep |
| Session.Gimbal.constructor | gimbal_test.py:16-20 | The response starts empty. After a successful connect the log is home followed by a DELAY sleep; otherwise nothing is logged and the socket stays unconnected |
| Session.Gimbal.Send | gimbal_test.py:42 | A send succeeds iff the socket is connected, and then it logs exactly that command |
| Session.Gimbal.Sleep | gimbal_test.py:23 | Appends one sleep of the given length |
| Session.Gimbal.PowerOn | gimbal_test.py:27-33 | Connects only an unconnected socket, and only when the connect succeeds; then it attempts home, and sleeps DELAY only if home went out |
| Session.Gimbal.GetResponse | gimbal_test.py:35-38 | Returns the old response and clears it |
| Session.Gimbal.Home | gimbal_test.py:40-42 | Sends the home command and nothing else, iff connected |
| Session.Gimbal.SendMovement | gimbal_test.py:44-49 | Reports UnknownSymbol exactly for symbols outside the table, and SendFailed exactly for table symbols on a socket that is not connected. The log gains the table command iff it reports Moved |
| Session.Gimbal.SendSequence | gimbal_test.py:60-63 | It succeeds iff the socket is connected or the sequence is empty. On success the log gains exactly the sequence's trace; on failure it gains nothing |
| Session.Gimbal.FullRotation | gimbal_test.py:51-58 | On a connected socket the log gains the sweep's eight events; otherwise nothing |
| Session.Gimbal.Close | gimbal_test.py:22-25 | Always sleeps DELAY. Home is sent and the socket released iff it was connected; otherwise the socket state is unchanged |
| Session.CloseTwice | gimbal_test.py:22-25 | A second close on a released socket only sleeps, so home is sent once |
| Controller.SelectMode | gimbal_test.py:89-113 | Mode precedence, both directions: manual, then continuous, then timespan > 0, then reps > 0, else no motion, carrying the seconds or count |
| Controller.LeadingWithin | gimbal_test.py:107-108 | The number of readings that pass the `time.time() <= end_time` test before the first one that fails |
| Controller.Completed | gimbal_test.py:102-118 | A loop that would run `due` times completes fewer iff the interrupt comes before the last one, and then it completes exactly the interrupt's number |
| Controller.RepeatedSends | gimbal_test.py:112-113 | Repeating a four-command list n times sends 4n commands, cycling through the list in order, with 4n sleeps and no foreign command |
| Controller.SweepsSend | gimbal_test.py:104-113 | n sweeps send 4n corner commands in sweep order, with 4n sleeps and no home |
| Controller.KeysTraceMoves | gimbal_test.py:93-96 | With 'w' bound as intended, manual key presses send only table moves, at most one per key, and never sleep |
| Controller.KeysTraceInOrder | gimbal_test.py:93-96 | With 'w' bound as intended, when every key is a hotkey, press i sends the move bound to key i |
| Controller.KeysTraceSendsBound | gimbal_test.py:93-96 | With 'w' bound as intended, for any presses, hotkeys or not, manual mode sends exactly the moves bound to the hotkeys pressed, in press order |
| Controller.BoundMovesIgnoresOtherKeys | gimbal_test.py:93-96 | With 'w' bound as intended, a press of a key that is not a hotkey, before or after the others, adds no move |
| Controller.MotionSendsNoHome | gimbal_test.py:89-113 | Nothing a run does before closing sends home |
| Controller.HomeSentOnlyByClose | gimbal_test.py:106-118 | A run sends home once if it closes the session and never otherwise; when it does, home is the last command |
| Controller.RepetitionsRunExactly | gimbal_test.py:111-113 | An uninterrupted repetitions run sends exactly 4·reps corner commands in sweep order, and no home |
| Controller.TimespanRunThenClose | gimbal_test.py:106-110 | Every completed sweep was started at a reading within the end time. The run stops at the first reading past the end time, or at the interrupt, and never sweeps past the interrupt. It then sends 4k corner commands in sweep order, and one final home |
| Controller.TwoRepetitionsScenario | gimbal_test.py:111-118 | With -r 2 the run sends the rotation twice and does not close. Interrupted after one sweep, it sends the rotation once, then home |
| Controller.DefaultRun | gimbal_test.py:76-77 | Without flags (-r 1, -t 0) the run is one repetition: the rotation is sent once and the session is not closed |
| Controller.ManualTraceAsWritten | gimbal_test.py:93 | As written, manual mode raises at the first binding, so whatever keys are pressed the only command sent is the home of close |
| Controller.ManualRunSends | gimbal_test.py:90-118 | With 'w' bound as intended, a manual run sends exactly the moves of the hotkeys pressed, in press order, then the home of close |
| Controller.ManualBindingDropsKeys | gimbal_test.py:93 | Pressing 'w': as written only home goes out; as intended, "TO100\n" goes out, then home |
| Controller.ManualControl | gimbal_test.py:90-100 | With 'w' bound as intended, clears the response, and the log gains exactly the moves of the hotkeys pressed |
| Controller.SweepOnce | gimbal_test.py:105 | One rotation on a connected socket extends the logged sweeps by one |
| Controller.SweepContinuously | gimbal_test.py:102-105 | The log gains exactly the sweeps completed before the interrupt |
| Controller.SweepWithin | gimbal_test.py:106-109 | The log gains exactly the sweeps started at readings within start + timespan, cut short by the interrupt |
| Controller.SweepRepeatedly | gimbal_test.py:111-113 | The log gains exactly `reps` sweeps, or fewer if the interrupt comes first |
| Controller.Move | gimbal_test.py:89-113 | The log gains exactly the selected mode's motion, and the response is cleared only in manual mode. Manual mode follows the corrected binding of line 93 (see Findings) |
| Controller.Run | gimbal_test.py:89-118 | The log gains exactly the run's trace. The socket is released iff the run closes: always in timespan, manual and continuous mode (the last two end only by the interrupt, which close answers), and in repetitions mode only when interrupted before the last sweep. Manual mode follows the corrected binding of line 93 (see Findings) |

## Left out

- Real sockets, addresses and the port: the socket is a connection state and an event log. Bytes on the wire are the command strings themselves, since the commands are ASCII.
- Session.Gimbal.Send: a write that fails on a connected socket is not modelled. Only a socket that is not connected fails.
- Session.Gimbal.SendMovement: the `if not signal` branch is left out, because no table entry is empty (`Commands.MovementCommand` proves this).
- Session.Gimbal.constructor: the program's exception when home fails after a failed connect is modelled as an unconnected object with nothing logged. `Controller.Run` requires a connected session.
- asyncio and `time.sleep`: sleeps are logged events, not waits. The program's coroutines run one after another, so no concurrency is lost.
- The wall clock is a sequence of whole-second readings. Fractional seconds are not modelled. A clock that runs out of readings ends the timespan loop.
- Controller.Run: interruption is only modelled between sweeps. A Ctrl-C in the middle of a sweep, or during a sleep, is not modelled.
- Controller.Run: continuous mode requires an interrupt, because the program loops forever without one.
- Controller.Move: its manual arm models the corrected binding of gimbal_test.py:93 and appends the moves of the hotkeys pressed. As written, the TypeError at line 93 leaves `main` first, so nothing is appended before the close (`Controller.ManualTraceAsWritten`). Its continuous arm, like `Controller.SweepContinuously`, requires an interrupt, because the program's loop has no other exit.
- Controller.Run: the manual arm models the corrected binding of gimbal_test.py:93, not the code as written. As written, manual mode only closes (`Controller.ManualTraceAsWritten`, see Findings). The end of the key sequence stands for the interrupt that ends manual mode, so manual mode closes with or without an `Interrupt` value.
- Controller.ManualControl: the keyboard library's hook threads are a key sequence handled in order. The printed prompt and the printed response are left out.
- argparse and the module-level globals: the flags are parameters of `Controller.SelectMode` and `Controller.Run`. The defaults are the caller's to supply. `-r` defaults to 1 (gimbal_test.py:76), so a run without flags is `Repetitions(1)`: one sweep and no close. `NoMotion` needs an explicit `-r` of 0 or less.
- The commented-out alternative sequence at gimbal_test.py:65-71 is not code and is not modelled.
- `print` output (errors, prompts) is not modelled.

## Findings

| source | as written | input that shows it | evidently intended | confidence | as-written member | corrected member |
|---|---|---|---|---|---|---|
| gimbal_test.py:93 | `keyboard.on_press_key('w', gimbal.send_movement, args=('u'))` passes an `args` keyword, but `on_press_key(key, callback, suppress=False)` takes none. The TypeError leaves `main` before any key is bound, and the handler closes the session | `-m`, then press `w`: only the home of close is sent | bind 'w' like the other three keys (`add_hotkey('w', ..., args=('u'))`), so that 'w' sends `TO100\n` | medium, depends on the keyboard library's `on_press_key` signature; not executed | Controller.ManualTraceAsWritten | Controller.KeysTraceInOrder |
