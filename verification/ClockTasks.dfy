/** clock.c: what the clock task and the chronometer task do with the commands they get, composed with the
    command protocols that deliver those commands. */
module ClockTasks {
  import opened Arithmetic
  import opened Hmsh
  import Clock = ClockCommands
  import Chrono = ChronoCommands

  /** What a chain shows: hundredths since midnight, printed with or without the last two digits. */
  datatype Face = Face(units: int, hundredthes: bool)

  predicate Prints(chain: seq<char>, head: char, face: Face) {
    Valid(TimeOf(face.units)) && chain == Chain(head, TimeOf(face.units), face.hundredthes)
  }

  predicate PrintsAll(chains: seq<seq<char>>, head: char, faces: seq<Face>) {
    |chains| == |faces| && forall i :: 0 <= i < |faces| ==> Prints(chains[i], head, faces[i])
  }

  lemma PrintsMore(chains: seq<seq<char>>, chain: seq<char>, head: char, faces: seq<Face>, face: Face)
    requires PrintsAll(chains, head, faces) && Prints(chain, head, face)
    ensures PrintsAll(chains + [chain], head, faces + [face])
  {
    hide Prints;
  }

  // ---- ClockChrono_Clock ----

  /** The clock in hundredths since midnight; shown: what was handed to Display_PutHour so far. */
  datatype ClockTask = ClockTask(hour: int, display: bool, shown: seq<Face>)

  /** Advancing the minutes alone: 59 turns to 0 and the hours stay. */
  function TurnMinutes(h: int): (r: int)
    requires 0 <= h < DAY
    ensures 0 <= r < DAY
  {
    if h / 6000 % 60 < 59 then h + 6000 else h - 354000
  }

  /** Advancing the seconds alone: 59 turns to 0 and the minutes stay. */
  function TurnSeconds(h: int): (r: int)
    requires 0 <= h < DAY
    ensures 0 <= r < DAY
  {
    if h / 100 % 60 < 59 then h + 100 else h - 5900
  }

  /** The switch on the command. */
  function ClockAct(s: ClockTask, c: char): (t: ClockTask)
    requires 0 <= s.hour < DAY
    ensures 0 <= t.hour < DAY && t.shown == s.shown
  {
    var h := s.hour;
    match c
    case 'R' => s.(hour := Around(h, 1), display := Around(h, 1) % 100 == 0)
    case 'T' => s.(hour := h - h % 100, display := false)
    case 'H' => s.(hour := Around(h, 360000), display := true)
    case 'M' => s.(hour := TurnMinutes(h), display := true)
    case 'S' => s.(hour := TurnSeconds(h), display := true)
    case _ => s
  }

  function ClockShow(s: ClockTask): ClockTask {
    if s.display then s.(shown := s.shown + [Face(s.hour, false)]) else s
  }

  /** The task after a sequence of commands; display is uninitialised at the start. */
  function ClockRun(display: bool, commands: seq<char>): (t: ClockTask)
    ensures 0 <= t.hour < DAY
  {
    if commands == [] then ClockTask(0, display, [])
    else ClockShow(ClockAct(ClockRun(display, commands[..|commands| - 1]), commands[|commands| - 1]))
  }

  method ClockSwitch(command: char, hour: Hour, d0: bool, ghost s: ClockTask) returns (display: bool)
    requires Valid(hour.Value()) && Units(hour.Value()) == s.hour && d0 == s.display
    modifies hour
    ensures Valid(hour.Value()) && 0 <= s.hour < DAY && Units(hour.Value()) == ClockAct(s, command).hour
    ensures display == ClockAct(s, command).display
  {
    TimeOfUnits(hour.Value());
    UnitsInjective(hour.Value(), hour.Value());
    display := d0;
    match command {
      case 'R' =>
        display := hour.PlusOneUnit();
        HundredthsOf(hour.Value());
      case 'T' => hour.InitialiseHundredthes(); display := false;
      case 'H' => hour.AdvanceHours(); display := true;
      case 'M' => hour.AdvanceMinutes(); display := true;
      case 'S' => hour.AdvanceSeconds(); display := true;
      case _ =>
    }
  }

  lemma HundredthsOf(t: Time)
    requires Valid(t)
    ensures Units(t) % 100 == t.hundredthes
  {
  }

  lemma AtMidnight()
    ensures Valid(MIDNIGHT) && Units(MIDNIGHT) == 0
  {
  }

  lemma NothingPrinted(head: char)
    ensures PrintsAll([], head, [])
  {
    hide Prints;
  }

  /** Convert prints the hundredths counted by the model. */
  method Print(hour: Hour, hundredthes: bool, chain: array<char>) returns (printed: seq<char>)
    requires Valid(hour.Value()) && chain.Length == 12
    modifies chain
    ensures chain[0] == old(chain[0]) && Prints(printed, chain[0], Face(Units(hour.Value()), hundredthes))
  {
    TimeOfUnits(hour.Value());
    hour.Convert(hundredthes, chain);
    printed := chain[..];
  }

  /** The loop of ClockChrono_Clock over a finite run of commands. */
  method ClockLoop(commands: seq<char>, garbage: bool) returns (final: Hour, shown: seq<seq<char>>)
    ensures fresh(final)
    ensures Valid(final.Value()) && Units(final.Value()) == ClockRun(garbage, commands).hour
    ensures PrintsAll(shown, 'h', ClockRun(garbage, commands).shown)
  {
    hide PrintsAll, Prints, ClockAct, Units, Valid;
    var hour := new Hour.Initialise();
    AtMidnight();
    NothingPrinted('h');
    var display := garbage;
    var chain := new char[12](_ => 'h');
    shown := [];
    for i := 0 to |commands|
      invariant fresh(hour) && fresh(chain) && chain.Length == 12 && chain[0] == 'h'
      invariant Valid(hour.Value()) && Units(hour.Value()) == ClockRun(garbage, commands[..i]).hour
      invariant display == ClockRun(garbage, commands[..i]).display
      invariant PrintsAll(shown, 'h', ClockRun(garbage, commands[..i]).shown)
    {
      assert commands[..i + 1][..i] == commands[..i];
      ghost var s := ClockRun(garbage, commands[..i]);
      display := ClockSwitch(commands[i], hour, display, s);
      if display {
        var printed := Print(hour, false, chain);
        PrintsMore(shown, printed, 'h', s.shown, Face(Units(hour.Value()), false));
        shown := shown + [printed];
      }
      assert ClockRun(garbage, commands[..i + 1]) == ClockShow(ClockAct(s, commands[i]));
    }
    assert commands[..|commands|] == commands;
    final := hour;
  }

  /** The time k hundredths after start, on the circle of a day. */
  function After(start: int, k: int): int {
    (start + k) % DAY
  }

  lemma AfterNone(start: int)
    requires 0 <= start < DAY
    ensures After(start, 0) == start
  {
    Remainder(start, 0, start, DAY);
  }

  lemma AfterMore(start: int, k: int)
    ensures Around(After(start, k), 1) == After(start, k + 1)
  {
    AroundIsModulo(start + k, 1);
  }

  /** A stretch of R commands advances the clock by one hundredth each, modulo a day. */
  lemma {:induction false} TicksAdd(display: bool, t: seq<char>, a: nat, b: nat)
    requires a <= b <= |t| && forall i :: a <= i < b ==> t[i] == 'R'
    ensures ClockRun(display, t[..b]).hour == After(ClockRun(display, t[..a]).hour, b - a)
  {
    hide *;
    var start := ClockRun(display, t[..a]).hour;
    if a == b {
      AfterNone(start);
    } else {
      TicksAdd(display, t, a, b - 1);
      OneTick(display, t, b);
      AfterMore(start, b - 1 - a);
      assert b - 1 - a + 1 == b - a;
    }
  }

  lemma OneTick(display: bool, t: seq<char>, b: nat)
    requires 0 < b <= |t| && t[b - 1] == 'R'
    ensures ClockRun(display, t[..b]).hour == Around(ClockRun(display, t[..b - 1]).hour, 1)
  {
    assert t[..b][..b - 1] == t[..b - 1];
    hide TurnMinutes, TurnSeconds;
  }

  lemma {:induction false} OnlyTicks(t: seq<char>, a: nat, b: nat)
    requires Clock.Legal(t) && a < b <= |t| && t[a] == 'R' && forall i :: a <= i < b ==> t[i] != 'T'
    ensures forall i :: a <= i < b ==> t[i] == 'R'
  {
    if a + 1 < b {
      OnlyTicks(t, a, b - 1);
      assert Clock.RunningAt(t, b - 1);
    }
  }

  /** In every interleaving of the clock's command protocol: from a start R up to the next T, the clock reads the
      starting time plus one hundredth for each command delivered, whatever was typed meanwhile. */
  lemma ClockKeepsTime(garbage: char, schedule: seq<Clock.Event>, display: bool, a: nat, b: nat)
    requires var t := Clock.Run(garbage, schedule).trace;
             a < b <= |t| && t[a] == 'R' && forall i :: a <= i < b ==> t[i] != 'T'
    ensures var t := Clock.Run(garbage, schedule).trace;
            ClockRun(display, t[..b]).hour == After(ClockRun(display, t[..a]).hour, b - a)
  {
    hide *;
    var t := Clock.Run(garbage, schedule).trace;
    Clock.DeliveredCommands(garbage, schedule);
    OnlyTicks(t, a, b);
    TicksAdd(display, t, a, b);
  }

  // ---- Setting the clock ----

  /** The hours turned by one, nothing else. */
  function OneHour(t: Time): Time {
    t.(hours := (t.hours + 1) % 24)
  }

  /** The minutes turned by one, without carry. */
  function OneMinute(t: Time): Time {
    t.(minutes := (t.minutes + 1) % 60)
  }

  /** The seconds turned by one, without carry. */
  function OneSecond(t: Time): Time {
    t.(seconds := (t.seconds + 1) % 60)
  }

  /** What each command does to hours, minutes, seconds and hundredths, and whether the clock is printed: H, M and
      S turn one field and print, T clears the hundredths and does not, R counts and prints the full seconds. */
  lemma CommandLaws(s: ClockTask)
    requires 0 <= s.hour < DAY
    ensures var t := TimeOf(s.hour);
      && Valid(t) && Units(t) == s.hour
      && TimeOf(ClockAct(s, 'H').hour) == OneHour(t) && ClockAct(s, 'H').display
      && TimeOf(ClockAct(s, 'M').hour) == OneMinute(t) && ClockAct(s, 'M').display
      && TimeOf(ClockAct(s, 'S').hour) == OneSecond(t) && ClockAct(s, 'S').display
      && TimeOf(ClockAct(s, 'T').hour) == t.(hundredthes := 0) && !ClockAct(s, 'T').display
      && TimeOf(ClockAct(s, 'R').hour) == NextUnit(t)
      && (ClockAct(s, 'R').display <==> NextUnit(t).hundredthes == 0)
  {
    hide TimeOf, NextUnit, Units, TurnMinutes, TurnSeconds, Around, OneHour, OneMinute, OneSecond;
    var t := TimeOf(s.hour);
    TimeOfIsValid(s.hour);
    TurnLaws(s.hour);
    NextUnitAdds(t);
    TimeOfUnits(NextUnit(t));
    HundredthsOf(NextUnit(t));
  }

  lemma TimeOfIsValid(u: int)
    requires 0 <= u < DAY
    ensures Valid(TimeOf(u)) && Units(TimeOf(u)) == u
  {
    assert u / 6000 == u / 100 / 60 && u / 360000 == u / 6000 / 60;
  }

  /** The turns on hundredths since midnight are those of the fields. */
  lemma TurnLaws(h: int)
    requires 0 <= h < DAY
    ensures var t := TimeOf(h);
      && TimeOf(Around(h, 360000)) == OneHour(t)
      && TimeOf(TurnMinutes(h)) == OneMinute(t)
      && TimeOf(TurnSeconds(h)) == OneSecond(t)
      && TimeOf(h - h % 100) == t.(hundredthes := 0)
  {
    TimeOfIsValid(h);
    var t := TimeOf(h);
    FieldsValid(t);
    FieldUnits(h);
    hide TimeOf, Valid, Units, OneHour, OneMinute, OneSecond, Around, TurnMinutes, TurnSeconds;
    TimeOfUnits(OneHour(t));
    TimeOfUnits(OneMinute(t));
    TimeOfUnits(OneSecond(t));
    TimeOfUnits(t.(hundredthes := 0));
  }

  lemma FieldsValid(t: Time)
    requires Valid(t)
    ensures Valid(OneHour(t)) && Valid(OneMinute(t)) && Valid(OneSecond(t)) && Valid(t.(hundredthes := 0))
  {
  }

  lemma FieldUnits(h: int)
    requires 0 <= h < DAY
    ensures var t := TimeOf(h);
      && Units(OneHour(t)) == Around(h, 360000)
      && Units(OneMinute(t)) == TurnMinutes(h)
      && Units(OneSecond(t)) == TurnSeconds(h)
      && Units(t.(hundredthes := 0)) == h - h % 100
  {
    TimeOfIsValid(h);
  }

  /** How often a character occurs. */
  function Times(c: char, t: seq<char>): nat {
    if t == [] then 0 else Times(c, t[..|t| - 1]) + if t[|t| - 1] == c then 1 else 0
  }

  lemma NextRemainder(x: nat, m: int)
    requires m > 0
    ensures (x % m + 1) % m == (x + 1) % m
  {
    var q, r := x / m, x % m;
    assert x == q * m + r;
    if r + 1 < m {
      Remainder(x + 1, q, r + 1, m);
      Remainder(r + 1, 0, r + 1, m);
    } else {
      assert x + 1 == (q + 1) * m;
      Remainder(x + 1, q + 1, 0, m);
      Remainder(r + 1, 1, 0, m);
    }
  }

  /** h hours, m minutes and s seconds, each modulo its own range. */
  function Dial(h: nat, m: nat, s: nat): Time {
    Time(h % 24, m % 60, s % 60, 0)
  }

  lemma DialTurns(h: nat, m: nat, s: nat)
    ensures var t := Dial(h, m, s);
      && OneHour(t) == Dial(h + 1, m, s)
      && OneMinute(t) == Dial(h, m + 1, s)
      && OneSecond(t) == Dial(h, m, s + 1)
  {
    NextRemainder(h, 24);
    NextRemainder(m, 60);
    NextRemainder(s, 60);
  }

  lemma OneSetting(s: ClockTask, c: char, h: nat, m: nat, x: nat)
    requires 0 <= s.hour < DAY && c in {'H', 'M', 'S'} && TimeOf(s.hour) == Dial(h, m, x)
    ensures var u := ClockAct(s, c);
      && u.display
      && TimeOf(u.hour) ==
           Dial(if c == 'H' then h + 1 else h, if c == 'M' then m + 1 else m, if c == 'S' then x + 1 else x)
  {
    hide ClockAct, TimeOf, Dial, OneHour, OneMinute, OneSecond, NextUnit, Units, Valid;
    CommandLaws(s);
    DialTurns(h, m, x);
  }

  /** Setting the clock: after any commands H, M and S, in any order, it reads as many hours, minutes and seconds, each
      modulo its own range and without carry, and has been printed once per command. */
  lemma {:induction false} Setting(display: bool, t: seq<char>)
    requires forall i :: 0 <= i < |t| ==> t[i] in {'H', 'M', 'S'}
    ensures var s := ClockRun(display, t);
      && TimeOf(s.hour) == Time(Times('H', t) % 24, Times('M', t) % 60, Times('S', t) % 60, 0)
      && |s.shown| == |t|
      && (t != [] ==> s.shown[|t| - 1] == Face(s.hour, false))
  {
    SettingDial(display, t);
    hide ClockRun, TimeOf, Times;
  }

  lemma {:induction false} SettingDial(display: bool, t: seq<char>)
    requires forall i :: 0 <= i < |t| ==> t[i] in {'H', 'M', 'S'}
    ensures var s := ClockRun(display, t);
      && TimeOf(s.hour) == Dial(Times('H', t), Times('M', t), Times('S', t))
      && |s.shown| == |t|
      && (t != [] ==> s.shown[|t| - 1] == Face(s.hour, false))
  {
    if t == [] {
      assert TimeOf(0) == MIDNIGHT == Dial(0, 0, 0);
    } else {
      hide ClockAct, TimeOf, Dial;
      var b := t[..|t| - 1];
      SettingDial(display, b);
      OneSetting(ClockRun(display, b), t[|t| - 1], Times('H', b), Times('M', b), Times('S', b));
    }
  }

  /** T clears exactly the hundredths and prints nothing; R prints the full seconds only. */
  lemma StopAndRun(display: bool, t: seq<char>)
    requires t != [] && t[|t| - 1] in {'T', 'R'}
    ensures var s, u := ClockRun(display, t[..|t| - 1]), ClockRun(display, t);
      if t[|t| - 1] == 'T' then TimeOf(u.hour) == TimeOf(s.hour).(hundredthes := 0) && u.shown == s.shown
      else u.shown == s.shown + if TimeOf(u.hour).hundredthes == 0 then [Face(u.hour, false)] else []
  {
    hide ClockAct, TimeOf, OneHour, OneMinute, OneSecond, NextUnit, Units, Valid;
    CommandLaws(ClockRun(display, t[..|t| - 1]));
  }

  // ---- ClockChrono_Chrono ----

  /** The chronometer in hundredths since midnight; shown: what was handed to Display_PutTimes so far. */
  datatype ChronoTask =
    ChronoTask(times: int, intermediate: bool, end: int, display: bool, hundredthes: bool, shown: seq<Face>)

  predicate ChronoValid(s: ChronoTask) {
    0 <= s.times < DAY && 0 <= s.end < DAY
  }

  /** The switch on the command. */
  function ChronoAct(s: ChronoTask, c: char): (t: ChronoTask)
    ensures ChronoValid(s) ==> ChronoValid(t)
    ensures t.shown == s.shown
  {
    match c
    case 'R' => s.(times := 0, display := true, hundredthes := false, intermediate := false)
    case 'C' =>
      var n := Around(s.times, 1);
      if s.intermediate
      then s.(times := n, intermediate := n != s.end, display := n == s.end, hundredthes := false)
      else s.(times := n, display := n % 100 == 0)
    case 'I' => s.(intermediate := true, end := Around(s.times, 300), display := true, hundredthes := true)
    case 'E' => s.(display := true, hundredthes := true)
    case _ => s
  }

  function ChronoShow(s: ChronoTask): ChronoTask {
    if s.display then s.(shown := s.shown + [Face(s.times, s.hundredthes)]) else s
  }

  function ChronoDo(s: ChronoTask, c: char): (t: ChronoTask)
    ensures ChronoValid(s) ==> ChronoValid(t)
  {
    ChronoShow(ChronoAct(s, c))
  }

  /** The task after its own initial R and then the delivered commands. */
  function ChronoRun(commands: seq<char>): (t: ChronoTask)
    ensures ChronoValid(t)
  {
    if commands == [] then ChronoDo(ChronoTask(0, false, 0, false, false, []), 'R')
    else ChronoDo(ChronoRun(commands[..|commands| - 1]), commands[|commands| - 1])
  }

  /** The task's variables hold the times of the model as hours, minutes, seconds and hundredths. */
  ghost predicate Refines(times: Time, end: Time, intermediate: bool, display: bool, hundredthes: bool, s: ChronoTask) {
    Valid(times) && Valid(end) && Units(times) == s.times && Units(end) == s.end &&
    intermediate == s.intermediate && display == s.display && hundredthes == s.hundredthes
  }

  method ChronoSwitch(command: char, times: Hour, end: Hour, i0: bool, d0: bool, h0: bool, ghost s: ChronoTask)
    returns (intermediate: bool, display: bool, hundredthes: bool)
    requires times != end && Refines(times.Value(), end.Value(), i0, d0, h0, s)
    modifies times, end
    ensures Refines(times.Value(), end.Value(), intermediate, display, hundredthes, ChronoAct(s, command))
  {
    hide Units, Around, NextUnit, NextSecond, SecondsLater;
    AtMidnight();
    intermediate, display, hundredthes := i0, d0, h0;
    UnitsInjective(times.Value(), end.Value());
    match command {
      case 'R' =>
        times.Reset();
        display, hundredthes, intermediate := true, false, false;
      case 'C' =>
        display := times.PlusOneUnit();
        HundredthsOf(times.Value());
        if intermediate {
          UnitsInjective(times.Value(), end.Value());
          var equal := times.Equal(end);
          intermediate := !equal;
          display := !intermediate;
          hundredthes := false;
        }
      case 'I' =>
        intermediate := true;
        end.Assign(times);
        end.PlusNSeconds(3);
        AroundIsModulo(s.times, 300);
        Remainder(s.times, 0, s.times, DAY);
        display, hundredthes := true, true;
      case 'E' =>
        display, hundredthes := true, true;
      case _ =>
    }
  }

  /** The loop of ClockChrono_Chrono: each command is acted on, then the next is got. */
  method ChronoLoop(commands: seq<char>) returns (final: Hour, shown: seq<seq<char>>)
    ensures fresh(final)
    ensures Valid(final.Value()) && Units(final.Value()) == ChronoRun(commands).times
    ensures PrintsAll(shown, 't', ChronoRun(commands).shown)
  {
    hide PrintsAll, Prints, ChronoAct, Units, Valid;
    AtMidnight();
    NothingPrinted('t');
    var times := new Hour.Initialise();
    var end := new Hour.Initialise();
    var intermediate, display, hundredthes := false, false, false;
    var chain := new char[12](_ => 't');
    var command := 'R';
    shown := [];
    ghost var task := ChronoTask(0, false, 0, false, false, []);
    var i := 0;
    while true
      invariant fresh(times) && fresh(end) && times != end && fresh(chain) && chain.Length == 12 && chain[0] == 't'
      invariant 0 <= i <= |commands|
      invariant Refines(times.Value(), end.Value(), intermediate, display, hundredthes, task)
      invariant ChronoDo(task, command) == ChronoRun(commands[..i])
      invariant PrintsAll(shown, 't', task.shown)
      decreases |commands| - i
    {
      intermediate, display, hundredthes :=
        ChronoSwitch(command, times, end, intermediate, display, hundredthes, task);
      ghost var before := task.shown;
      task := ChronoDo(task, command);
      if display {
        var printed := Print(times, hundredthes, chain);
        PrintsMore(shown, printed, 't', before, Face(Units(times.Value()), hundredthes));
        shown := shown + [printed];
      }
      if i == |commands| {
        assert commands[..i] == commands;
        break;
      }
      command := commands[i];
      i := i + 1;
      assert commands[..i][..i - 1] == commands[..i - 1];
    }
    final := times;
  }

  /** Hundredths counted since the last R. */
  function CountedSinceReset(t: seq<char>): nat {
    if t == [] then 0
    else if t[|t| - 1] == 'R' then 0
    else CountedSinceReset(t[..|t| - 1]) + if t[|t| - 1] == 'C' then 1 else 0
  }

  /** The chronometer reads the number of C commands since the last R, modulo a day. */
  lemma {:induction false} ChronoReads(t: seq<char>)
    ensures ChronoRun(t).times == CountedSinceReset(t) % DAY
  {
    if t != [] {
      var before := t[..|t| - 1];
      ChronoReads(before);
      AroundIsModulo(CountedSinceReset(before), 1);
    }
  }

  /** The freeze: after an I at time x, the next 299 C commands print nothing, so the display keeps x with its
      hundredths; the 300th ends the freeze and prints x plus three seconds, also when midnight lies between. */
  lemma {:induction false} Freeze(t: seq<char>, i: nat, j: nat)
    requires i < j <= |t| && t[i] == 'I' && j - i - 1 <= 300
    requires forall m :: i < m < j ==> t[m] == 'C'
    ensures var x := ChronoRun(t[..i]); var y := ChronoRun(t[..j]); var k := j - i - 1;
      && y.times == Around(x.times, k)
      && y.end == Around(x.times, 300)
      && (y.intermediate <==> k < 300)
      && (k < 300 ==> y.shown == x.shown + [Face(x.times, true)])
      && (k == 300 ==> y.shown == x.shown + [Face(x.times, true), Face(Around(x.times, 300), false)])
  {
    assert t[..j][..j - 1] == t[..j - 1];
    OneMore(t[..j]);
    hide ChronoRun;
    if j - i - 1 > 0 {
      Freeze(t, i, j - 1);
    }
  }

  lemma OneMore(t: seq<char>)
    requires t != []
    ensures ChronoRun(t) == ChronoDo(ChronoRun(t[..|t| - 1]), t[|t| - 1])
  {
    hide ChronoDo;
  }

  /** Once the freeze has ended it stays ended until the next I. */
  lemma {:induction false} Thawed(t: seq<char>, i: nat, j: nat)
    requires i <= j <= |t| && !ChronoRun(t[..i]).intermediate
    requires forall m :: i <= m < j ==> t[m] != 'I'
    ensures !ChronoRun(t[..j]).intermediate
  {
    if i < j {
      Thawed(t, i, j - 1);
      assert t[..j][..j - 1] == t[..j - 1];
    }
  }

  predicate Letter(c: char) {
    c == 'C' || c == 'I' || c == 'E' || c == 'R'
  }

  lemma LettersOf(t: seq<char>, k: nat)
    requires k < |t| && Chrono.IsRound(t[k..], {'C', 'I'})
    ensures forall i :: k <= i < |t| ==> Letter(t[i])
  {
    var r := t[k..];
    forall i | k <= i < |t|
      ensures Letter(t[i])
    {
      assert t[i] == r[i - k];
    }
  }

  lemma {:induction false} RoundLetters(t: seq<char>)
    requires Chrono.Rounds(t, {'C', 'I'})
    ensures forall i :: 0 <= i < |t| ==> Letter(t[i])
  {
    hide Chrono.Rounds, Chrono.IsRound, Letter;
    if t != [] {
      var k := Chrono.LastRound(t, {'C', 'I'});
      LettersOf(t, k);
      RoundLetters(t[..k]);
      assert forall i :: 0 <= i < k ==> t[i] == t[..k][i];
    }
  }

  /** In every interleaving of the chronometer's command protocol under the keys C, I, E: after an I at position i
      and until the next I, E or R, exactly 300 deliveries leave the display frozen. */
  lemma FreezeInEveryRun(key: char, schedule: seq<Chrono.Event>, i: nat, j: nat)
    requires forall e :: 0 <= e < |schedule| && schedule[e].Call? ==> schedule[e].command in {'C', 'I', 'E'}
    requires var t := Chrono.Run(key, schedule).trace;
             i < j <= |t| && t[i] == 'I' && forall m :: i < m < j ==> t[m] !in {'I', 'E', 'R'}
    ensures var t := Chrono.Run(key, schedule).trace;
      var x := ChronoRun(t[..i]); var y := ChronoRun(t[..j]); var k := j - i - 1;
      && (y.intermediate <==> k < 300)
      && (k < 300 ==> y.shown == x.shown + [Face(x.times, true)])
      && (k == 300 ==> y.shown == x.shown + [Face(x.times, true), Face(Around(x.times, 300), false)])
  {
    var t := Chrono.Run(key, schedule).trace;
    Chrono.KeyboardTrace(key, schedule);
    var rest :| Chrono.Rounds(t + rest, {'C', 'I'});
    RoundLetters(t + rest);
    forall m | i < m < j
      ensures t[m] == 'C'
    {
      assert t[m] == (t + rest)[m];
    }
    if j - i - 1 <= 300 {
      Freeze(t, i, j);
    } else {
      Freeze(t, i, i + 301);
      Thawed(t, i + 301, j);
    }
  }

  // ---- What the chronometer prints ----

  /** At the start and at R midnight is printed, E prints the time with its hundredths, I likewise, and a C
      outside a freeze prints the full seconds, with hundredths only if the last print had them. */
  lemma ChronoPrints(t: seq<char>)
    requires t != []
    ensures ChronoRun([]).shown == [Face(0, false)]
    ensures var s, u, c := ChronoRun(t[..|t| - 1]), ChronoRun(t), t[|t| - 1];
      && (c == 'R' ==> u.times == 0 && !u.intermediate && u.shown == s.shown + [Face(0, false)])
      && (c == 'E' || c == 'I' ==> u.times == s.times && u.shown == s.shown + [Face(s.times, true)])
      && (c == 'C' && !s.intermediate ==>
            u.shown == s.shown + if u.times % 100 == 0 then [Face(u.times, s.hundredthes)] else [])
  {
  }

  /** Outside a freeze nothing with hundredths was printed last, unless by an E. */
  lemma {:induction false} PlainOutsideFreeze(t: seq<char>)
    requires forall i :: 0 <= i < |t| ==> Letter(t[i])
    requires forall i :: 0 <= i < |t| - 1 && t[i] == 'E' ==> t[i + 1] == 'R'
    ensures var s := ChronoRun(t); s.hundredthes && !s.intermediate ==> t != [] && t[|t| - 1] == 'E'
  {
    if t != [] { PlainOutsideFreeze(t[..|t| - 1]); }
  }

  lemma {:induction false} RoundEnds(t: seq<char>)
    requires Chrono.Rounds(t, {'C', 'I'})
    ensures t != [] ==> t[|t| - 1] == 'R'
    ensures forall i :: 0 <= i < |t| - 1 && t[i] == 'E' ==> t[i + 1] == 'R'
  {
    hide Chrono.Rounds, Chrono.IsRound;
    if t != [] {
      var k := Chrono.LastRound(t, {'C', 'I'});
      EndOf(t, k);
      RoundEnds(t[..k]);
      forall i | 0 <= i < k
        ensures t[i] == t[..k][i]
      {
      }
    }
  }

  lemma EndOf(t: seq<char>, k: nat)
    requires k < |t| && Chrono.IsRound(t[k..], {'C', 'I'})
    ensures t[|t| - 1] == 'R' && forall i :: k <= i < |t| - 1 && t[i] == 'E' ==> t[i + 1] == 'R'
  {
    var r := t[k..];
    assert t[|t| - 1] == r[|r| - 1];
    forall i | k <= i < |t| - 1 && t[i] == 'E'
      ensures t[i + 1] == 'R'
    {
      assert r[i - k] == 'E' && r[i + 1 - k] == t[i + 1];
    }
  }

  /** In every interleaving under the keys C, I, E: a count outside a freeze prints the time exactly if it is a full
      second, and then without hundredths. */
  lemma FullSecondsPrint(key: char, schedule: seq<Chrono.Event>, j: nat)
    requires forall e :: 0 <= e < |schedule| && schedule[e].Call? ==> schedule[e].command in {'C', 'I', 'E'}
    requires var t := Chrono.Run(key, schedule).trace; 0 < j <= |t| && t[j - 1] == 'C'
    ensures var t := Chrono.Run(key, schedule).trace; var s, u := ChronoRun(t[..j - 1]), ChronoRun(t[..j]);
      !s.intermediate ==> u.shown == s.shown + if u.times % 100 == 0 then [Face(u.times, false)] else []
  {
    hide *;
    var t := Chrono.Run(key, schedule).trace;
    Chrono.KeyboardTrace(key, schedule);
    var rest :| Chrono.Rounds(t + rest, {'C', 'I'});
    RoundLetters(t + rest);
    RoundEnds(t + rest);
    CutBefore(t + rest, j);
    assert (t + rest)[..j - 1] == t[..j - 1] && (t + rest)[j - 1] == 'C';
    PlainOutsideFreeze(t[..j - 1]);
    assert t[..j][..j - 1] == t[..j - 1];
    ChronoPrints(t[..j]);
  }

  lemma CutBefore(w: seq<char>, j: nat)
    requires 0 < j <= |w| && (forall i :: 0 <= i < |w| ==> Letter(w[i]))
    requires w[j - 1] == 'C' && forall i :: 0 <= i < |w| - 1 && w[i] == 'E' ==> w[i + 1] == 'R'
    ensures var b := w[..j - 1];
      && (forall i :: 0 <= i < |b| ==> Letter(b[i]))
      && (forall i :: 0 <= i < |b| - 1 && b[i] == 'E' ==> b[i + 1] == 'R')
      && (b != [] ==> b[|b| - 1] != 'E')
  {
    hide Letter;
    var b := w[..j - 1];
    forall i | 0 <= i < |b| - 1 && b[i] == 'E'
      ensures b[i + 1] == 'R'
    {
      assert w[i] == 'E' && w[i + 1] == b[i + 1];
    }
    if b != [] { assert b[|b| - 1] == w[j - 2] && w[j - 2 + 1] == 'C'; }
  }
}
