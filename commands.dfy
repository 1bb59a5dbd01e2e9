/** The gimbal's line-oriented command protocol: the home string, the
    relative-move table, absolute positioning and the four-corner sweep.
    Everything here is pure; the session that sends these strings lives in
    module Session. */
module Commands {

  datatype Option<T> = None | Some(value: T)

  /** Largest absolute tilt/pan magnitude; the sweep corners sit at +/-ABS_MAX. */
  const ABS_MAX: int := 3000

  /** Seconds slept after every sequence command, after power-on and before closing. */
  const DELAY: nat := 5

  /** Reset to the reference position, then apply. */
  const HOME: string := "RE\nA\n"

  /** The relative-move table: one fixed command per direction symbol. */
  const MovementTrans: map<char, string> :=
    map['u' := "TO100\n", 'd' := "TO-100\n", 'l' := "PO-100\n", 'r' := "PO100\n"]

  // ---------------------------------------------------------------------
  // Signed decimal rendering (Python's str/format of an int) and its inverse
  // ---------------------------------------------------------------------

  predicate IsDigit(c: char) { '0' <= c <= '9' }

  predicate AllDigits(s: string) { forall i :: 0 <= i < |s| ==> IsDigit(s[i]) }

  function DigitValue(c: char): nat
    requires IsDigit(c)
  {
    (c as int) - ('0' as int)
  }

  function DigitChar(d: nat): (c: char)
    requires d < 10
    ensures IsDigit(c) && DigitValue(c) == d
  {
    (('0' as int) + d) as char
  }

  /** Decimal digits of n, most significant first, without leading zeros. */
  function NatToString(n: nat): (s: string)
    ensures |s| >= 1 && AllDigits(s)
    ensures s[0] == '0' <==> n == 0
    ensures n < 10 ==> |s| == 1
  {
    if n < 10 then [DigitChar(n)] else NatToString(n / 10) + [DigitChar(n % 10)]
  }

  /** Signed decimal rendering: a minus sign for negative values, then the digits. */
  function IntToString(n: int): (s: string)
    ensures '\n' !in s
    ensures |s| >= 1 && (s[0] == '-' <==> n < 0)
    ensures n < 0 ==> |s| >= 2 && s[1] != '0'
  {
    if n < 0 then "-" + NatToString(-n) else NatToString(n)
  }

  /** Value of a string of decimal digits, most significant first. */
  function DigitsValue(s: string): nat
    requires AllDigits(s)
  {
    if s == [] then 0 else DigitsValue(s[..|s| - 1]) * 10 + DigitValue(s[|s| - 1])
  }

  /** Reads a signed decimal integer; None for anything else. */
  function ParseInt(s: string): Option<int>
  {
    if |s| > 0 && s[0] == '-' then
      if |s| > 1 && AllDigits(s[1..]) then Some(-(DigitsValue(s[1..]) as int)) else None
    else if |s| > 0 && AllDigits(s) then Some(DigitsValue(s))
    else None
  }

  lemma {:induction false} NatToStringValue(n: nat)
    ensures DigitsValue(NatToString(n)) == n
    decreases n
  {
    if n >= 10 {
      var s := NatToString(n);
      assert s[..|s| - 1] == NatToString(n / 10);
      NatToStringValue(n / 10);
    }
  }

  /** Reading the digits of a natural number gives it back. */
  lemma NatToStringRoundTrip(n: nat)
    ensures ParseInt(NatToString(n)) == Some(n as int)
  {
    NatToStringValue(n);
  }

  /** Rendering then reading an integer gives it back. */
  lemma IntToStringRoundTrip(n: int)
    ensures ParseInt(IntToString(n)) == Some(n)
  {
    if n < 0 {
      var digits := NatToString(-n);
      assert IntToString(n) == "-" + digits;
      assert ("-" + digits)[1..] == digits;
      NatToStringValue(-n);
    } else {
      NatToStringRoundTrip(n);
    }
  }

  /** Different integers are rendered differently. */
  lemma IntToStringInjective(a: int, b: int)
    requires IntToString(a) == IntToString(b)
    ensures a == b
  {
    IntToStringRoundTrip(a);
    IntToStringRoundTrip(b);
  }

  // ---------------------------------------------------------------------
  // Line splitting, used to read commands back
  // ---------------------------------------------------------------------

  /** The text before the first newline and the text after it. */
  function SplitLine(s: string): Option<(string, string)>
  {
    if s == [] then None
    else if s[0] == '\n' then Some(([], s[1..]))
    else match SplitLine(s[1..])
      case None => None
      case Some((line, rest)) => Some(([s[0]] + line, rest))
  }

  lemma {:induction false} SplitLineAt(line: string, rest: string)
    requires '\n' !in line
    ensures SplitLine(line + "\n" + rest) == Some((line, rest))
  {
    if line != [] {
      assert (line + "\n" + rest)[1..] == line[1..] + "\n" + rest;
      SplitLineAt(line[1..], rest);
      assert [line[0]] + line[1..] == line;
    } else {
      assert line + "\n" + rest == "\n" + rest;
    }
  }

  // ---------------------------------------------------------------------
  // Absolute positioning
  // ---------------------------------------------------------------------

  datatype Position = Position(tilt: int, pan: int)

  /** Set tilt position, set pan position, apply. */
  function AbsoluteCommand(tilt: int, pan: int): string
  {
    "TP" + IntToString(tilt) + "\nPP" + IntToString(pan) + "\nA\n"
  }

  /** Reads an absolute-position command back into its (tilt, pan) pair. */
  function ParseAbsolute(s: string): Option<Position>
  {
    if |s| < 2 || s[..2] != "TP" then None
    else match SplitLine(s[2..])
      case None => None
      case Some((tilt, rest)) =>
        if |rest| < 2 || rest[..2] != "PP" then None
        else match SplitLine(rest[2..])
          case None => None
          case Some((pan, tail)) =>
            if tail != "A\n" then None
            else match (ParseInt(tilt), ParseInt(pan))
              case (Some(t), Some(p)) => Some(Position(t, p))
              case _ => None
  }

  /** The absolute command carries exactly its two integers, signs included. */
  lemma AbsoluteRoundTrip(tilt: int, pan: int)
    ensures ParseAbsolute(AbsoluteCommand(tilt, pan)) == Some(Position(tilt, pan))
  {
    var t, p := IntToString(tilt), IntToString(pan);
    var s := AbsoluteCommand(tilt, pan);
    var rest := "PP" + p + "\nA\n";
    assert s[..2] == "TP";
    assert s[2..] == t + "\n" + rest;
    SplitLineAt(t, rest);
    assert rest[..2] == "PP";
    assert rest[2..] == p + "\n" + "A\n";
    SplitLineAt(p, "A\n");
    IntToStringRoundTrip(tilt);
    IntToStringRoundTrip(pan);
  }

  // ---------------------------------------------------------------------
  // Relative moves
  // ---------------------------------------------------------------------

  datatype Axis = Tilt | Pan

  /** Offset the given axis by a relative amount. */
  function RelativeCommand(axis: Axis, offset: int): string
  {
    (if axis == Tilt then "TO" else "PO") + IntToString(offset) + "\n"
  }

  /** The table lookup; None where the program's dictionary raises KeyError. */
  function MovementCommand(symbol: char): (r: Option<string>)
    ensures r.Some? <==> symbol in {'u', 'd', 'l', 'r'}
    ensures r.Some? ==> r.value != "" && r.value[|r.value| - 1] == '\n'
  {
    if symbol in MovementTrans then Some(MovementTrans[symbol]) else None
  }

  /** What each direction symbol means: up/down move tilt by +/-100, left/right move pan by -/+100. */
  lemma MovementTableMeaning()
    ensures MovementTrans['u'] == RelativeCommand(Tilt, 100)
    ensures MovementTrans['d'] == RelativeCommand(Tilt, -100)
    ensures MovementTrans['l'] == RelativeCommand(Pan, -100)
    ensures MovementTrans['r'] == RelativeCommand(Pan, 100)
  {
    assert NatToString(1) == "1";
    assert NatToString(10) == "10";
    assert NatToString(100) == "100";
  }

  /** No relative move is the home command. */
  lemma HomeIsNoMove()
    ensures HOME !in MovementTrans.Values
  {
    forall m | m in MovementTrans ensures MovementTrans[m] != HOME {
      assert MovementTrans[m][0] in {'T', 'P'} && HOME[0] == 'R';
    }
  }

  // ---------------------------------------------------------------------
  // The four-corner sweep
  // ---------------------------------------------------------------------

  /** The corners at magnitude m, in the order the sweep visits them:
      tilt +m twice then -m twice, pan alternating +m and -m. */
  function Corners(m: int): (c: seq<Position>)
    ensures |c| == 4
    ensures forall i :: 0 <= i < 4 ==> c[i].tilt == (if i < 2 then m else -m)
    ensures forall i :: 0 <= i < 4 ==> c[i].pan == (if i % 2 == 0 then m else -m)
  {
    [Position(m, m), Position(m, -m), Position(-m, m), Position(-m, -m)]
  }

  /** The commands of one full rotation at magnitude m; the program sweeps at ABS_MAX. */
  function RotationSequence(m: int): (r: seq<string>)
    ensures |r| == 4
  {
    var top_left := AbsoluteCommand(m, m);
    var top_right := AbsoluteCommand(m, -m);
    var bottom_left := AbsoluteCommand(-m, m);
    var bottom_right := AbsoluteCommand(-m, -m);
    [top_left, top_right, bottom_left, bottom_right]
  }

  /** The sweep is exactly the four corners, in order. */
  lemma RotationVisitsCorners(m: int)
    ensures forall i :: 0 <= i < 4 ==> ParseAbsolute(RotationSequence(m)[i]) == Some(Corners(m)[i])
  {
    var r, c := RotationSequence(m), Corners(m);
    forall i | 0 <= i < 4 ensures ParseAbsolute(r[i]) == Some(c[i]) {
      assert r[i] == AbsoluteCommand(c[i].tilt, c[i].pan);
      AbsoluteRoundTrip(c[i].tilt, c[i].pan);
    }
  }

  /** At a non-zero magnitude the sweep's four commands are distinct. */
  lemma RotationDistinct(m: int)
    requires m != 0
    ensures forall i, j :: 0 <= i < j < 4 ==> RotationSequence(m)[i] != RotationSequence(m)[j]
  {
    RotationVisitsCorners(m);
    var r, c := RotationSequence(m), Corners(m);
    forall i, j | 0 <= i < j < 4 ensures r[i] != r[j] {
      assert c[i] != c[j];
    }
  }

  /** No sweep command is the home command. */
  lemma HomeNotInRotation(m: int)
    ensures HOME !in RotationSequence(m)
  {
    var r := RotationSequence(m);
    forall i | 0 <= i < 4 ensures r[i] != HOME {
      assert r[i][0] == 'T' && HOME[0] == 'R';
    }
  }

  /** ABS_MAX as the protocol writes it, with and without its minus sign. */
  lemma AbsMaxText()
    ensures IntToString(ABS_MAX) == "3000" && IntToString(-ABS_MAX) == "-3000"
  {
    assert NatToString(3) == "3";
    assert NatToString(30) == "30";
    assert NatToString(300) == "300";
    assert NatToString(3000) == "3000";
  }

  /** The sweep at a magnitude whose rendering is `plus` and whose negation's is `minus`. */
  lemma RotationTextOf(m: int, plus: string, minus: string)
    requires IntToString(m) == plus && IntToString(-m) == minus
    ensures RotationSequence(m) ==
      ["TP" + plus + "\nPP" + plus + "\nA\n", "TP" + plus + "\nPP" + minus + "\nA\n",
       "TP" + minus + "\nPP" + plus + "\nA\n", "TP" + minus + "\nPP" + minus + "\nA\n"]
  {
  }

  /** The sweep's text, with the minus signs written out. */
  lemma RotationText()
    ensures RotationSequence(ABS_MAX) ==
      ["TP3000\nPP3000\nA\n", "TP3000\nPP-3000\nA\n",
       "TP-3000\nPP3000\nA\n", "TP-3000\nPP-3000\nA\n"]
  {
    AbsMaxText();
    RotationTextOf(ABS_MAX, "3000", "-3000");
    assert "TP" + "3000" + "\nPP" + "3000" + "\nA\n" == "TP3000\nPP3000\nA\n";
    assert "TP" + "3000" + "\nPP" + "-3000" + "\nA\n" == "TP3000\nPP-3000\nA\n";
    assert "TP" + "-3000" + "\nPP" + "3000" + "\nA\n" == "TP-3000\nPP3000\nA\n";
    assert "TP" + "-3000" + "\nPP" + "-3000" + "\nA\n" == "TP-3000\nPP-3000\nA\n";
  }
}
