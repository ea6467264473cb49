/** When can the handshake of testscsync.c still come to its end? Exactly as long as the call of the master was not
    refused and no stamp has been taken that reads 0, which is how get_delta recognises that there is none. */
module TscCompletion {

  import opened Arithmetic
  import opened TscSync

  /** The events es from state s on. */
  function RunFrom(c: Setup, s: State, es: seq<Event>): State
    decreases |es|
  {
    if es == [] then s else RunFrom(c, Step(c, s, es[0]), es[1..])
  }

  lemma {:induction false} RunSplit(c: Setup, now: nat, a: seq<Event>, b: seq<Event>)
    ensures Run(c, now, a + b) == RunFrom(c, Run(c, now, a), b)
    decreases |b|
  {
    hide Step;
    if b == [] {
      assert a + b == a;
    } else {
      var d := a + [b[0]];
      assert a + b == d + b[1..] && d[..|a|] == a;
      RunSplit(c, now, d, b[1..]);
    }
  }

  /** No stamp taken so far reads 0. */
  ghost predicate NoZero(c: Setup, stamps: seq<nat>) {
    forall i :: 0 <= i < |stamps| ==> U64(stamps[i] + c.theta) != 0
  }

  // ---- A stamp of 0: the slave waits for ever ----

  /** The last stamp reads 0 and the slave is waiting for it. */
  ghost predicate Starved(c: Setup, s: State) {
    Inv(c, s) && Asking(s.slave) && |s.stamps| == |s.rounds| + 1 && LastStamp(c, s.stamps) == 0
  }

  lemma HalvesOfZero()
    ensures 0 % HALF == 0 && 0 / HALF == 0 && Slot(0, 0) == 0
  {
  }

  lemma SlaveStarves(c: Setup, s: State)
    requires Starved(c, s)
    ensures Asking(SlaveGo(c, s).slave) && SlaveGo(c, s).stamps == s.stamps && SlaveGo(c, s).rounds == s.rounds
  {
    HalvesOfZero();
    hide U64, Collected, LastStamp, Slot;
  }

  lemma MasterStarves(c: Setup, s: State)
    requires Starved(c, s)
    ensures MasterGo(c, s).stamps == s.stamps && MasterGo(c, s).rounds == s.rounds && MasterGo(c, s).slave == s.slave
  {
    hide U64, Collected, LastStamp, Slot;
  }

  lemma StepKeeps(c: Setup, s: State, e: Event)
    requires Inv(c, s)
    ensures Inv(c, Step(c, s, e))
  {
    hide Inv, MasterGo, SlaveGo;
    match e {
      case Tick(n) => TimePasses(c, s, n);
      case MasterStep => MasterKeeps(c, s);
      case SlaveStep => SlaveKeeps(c, s);
      case LaunchFails => LaunchKeeps(c, s);
    }
  }

  lemma StaysStarved(c: Setup, s: State, e: Event)
    requires Starved(c, s)
    ensures Starved(c, Step(c, s, e))
  {
    StepKeeps(c, s, e);
    SlaveStarves(c, s);
    MasterStarves(c, s);
    hide Inv, MasterGo, SlaveGo, LastStamp;
  }

  lemma {:induction false} StarvedForEver(c: Setup, s: State, es: seq<Event>)
    requires Starved(c, s)
    ensures !RunFrom(c, s, es).slave.Measured?
    decreases |es|
  {
    if es != [] {
      StaysStarved(c, s, es[0]);
      hide Starved, Step;
      StarvedForEver(c, Step(c, s, es[0]), es[1..]);
    }
  }

  /** All stamps but the last were collected, hence not 0. */
  lemma ZeroStarves(c: Setup, s: State)
    requires Inv(c, s) && !NoZero(c, s.stamps)
    ensures Starved(c, s)
  {
    var i :| 0 <= i < |s.stamps| && U64(s.stamps[i] + c.theta) == 0;
    assert i >= |s.rounds| by { hide U64; }
    assert i == |s.stamps| - 1;
    hide U64, Slot;
  }

  lemma {:induction false} FailedForEver(c: Setup, s: State, es: seq<Event>)
    requires s.slave.Failed?
    ensures RunFrom(c, s, es).slave.Failed?
    decreases |es|
  {
    if es != [] { FailedForEver(c, Step(c, s, es[0]), es[1..]); }
  }

  // ---- Otherwise: a step that brings the measurement nearer ----

  /** The master has answered the current request. */
  predicate Served(s: State) {
    s.served == |s.rounds| + 1
  }

  /** A step that does something: the master's while it has something to do, else the slave's. A stamp that would read 0
      is put off by a cycle. */
  function Choice(c: Setup, s: State): Event {
    if s.slave.AwaitReady? then if s.goMaster != 0 then MasterStep else SlaveStep
    else if Asking(s.slave) && !Served(s) then
      if s.master.Lock? && s.lock != Nobody then SlaveStep
      else if s.master.ReadStamp? && U64(s.now + c.theta) == 0 then Tick(1)
      else MasterStep
    else SlaveStep
  }

  function SlavePhase(v: Slave): nat {
    match v
    case Start => 9
    case Launch => 8
    case AwaitReady => 7
    case ReadT0 => 6
    case Request => 5
    case DropLock(_) => 3
    case ClearLow(_) => 2
    case ClearHigh(_) => 1
    case ReadT1(_) => 0
    case _ => 4
  }

  function MasterPlace(s: State): nat {
    match s.master
    case Ready => 9
    case Spin => if Served(s) then 1 else 8
    case Ack => 7
    case Lock => 6
    case ReadStamp => 5
    case StoreLow(_) => 4
    case StoreHigh(_) => 3
    case Unlock => 2
    case _ => 1
  }

  /** Before the answer the slave has to let go of the lock, afterwards to take it and look. */
  function SlavePlace(s: State): nat {
    match s.slave
    case Relax => if Served(s) then 6 else 2
    case TakeLock => if Served(s) then 5 else 1
    case LoadLow => if Served(s) then 4 else 5
    case LoadHigh(_) => if Served(s) then 3 else 4
    case Test(_) => if Served(s) then 2 else 3
    case _ => 0
  }

  /** Compared from the first component on. */
  datatype Rank = Rank(rounds: int, phase: nat, master: nat, slave: nat, zero: nat)

  function RankOf(c: Setup, s: State): Rank {
    Rank(c.iters - |s.rounds|, SlavePhase(s.slave),
         if s.slave.AwaitReady? || Asking(s.slave) then MasterPlace(s) else 0,
         SlavePlace(s), if U64(s.now + c.theta) == 0 then 1 else 0)
  }

  predicate Nearer(a: Rank, b: Rank) {
    a.rounds < b.rounds || (a.rounds == b.rounds &&
    (a.phase < b.phase || (a.phase == b.phase &&
    (a.master < b.master || (a.master == b.master &&
    (a.slave < b.slave || (a.slave == b.slave && a.zero < b.zero)))))))
  }

  lemma OneCycleOn(c: Setup, now: nat)
    requires U64(now + c.theta) == 0
    ensures U64(now + 1 + c.theta) != 0
  {
  }

  lemma NoZeroLast(c: Setup, stamps: seq<nat>)
    requires stamps != [] && NoZero(c, stamps)
    ensures LastStamp(c, stamps) != 0
  {
    hide U64;
  }

  lemma SetupAdvances(c: Setup, s: State)
    requires Inv(c, s) && SettingUp(s.slave) && !s.slave.Failed?
    ensures var t := Step(c, s, Choice(c, s)); t.slave.Measured? || Nearer(RankOf(c, t), RankOf(c, s))
    ensures var t := Step(c, s, Choice(c, s)); !t.slave.Failed? && t.stamps == s.stamps
  {
    hide U64, Collected, LastStamp, Slot;
  }

  /** The slave lets go of the lock the master is waiting for. */
  lemma SlaveLetsGo(c: Setup, s: State)
    requires Inv(c, s) && Asking(s.slave) && !Served(s) && s.master.Lock? && s.lock != Nobody
    ensures var t := SlaveGo(c, s); Nearer(RankOf(c, t), RankOf(c, s)) && Asking(t.slave) && t.stamps == s.stamps
  {
    HalvesOfZero();
    hide U64, Collected, LastStamp, Slot, SetupOk, AnsweredOk, IdleOk, Follows;
  }

  lemma MasterAnswers(c: Setup, s: State)
    requires Inv(c, s) && Asking(s.slave) && !Served(s) && !(s.master.Lock? && s.lock != Nobody)
    ensures var t := MasterGo(c, s); Nearer(RankOf(c, t), RankOf(c, s)) && t.slave == s.slave
    ensures MasterGo(c, s).stamps == if s.master.ReadStamp? then s.stamps + [s.now] else s.stamps
  {
    hide U64, Collected, LastStamp, Slot, SetupOk, AnsweredOk, IdleOk, Follows;
  }

  lemma AnswerAdvances(c: Setup, s: State)
    requires Inv(c, s) && Asking(s.slave) && !Served(s)
    ensures var t := Step(c, s, Choice(c, s)); Nearer(RankOf(c, t), RankOf(c, s)) && Asking(t.slave)
    ensures var t := Step(c, s, Choice(c, s));
      t.stamps == s.stamps || (t.stamps == s.stamps + [s.now] && U64(s.now + c.theta) != 0)
  {
    if s.master.Lock? && s.lock != Nobody {
      SlaveLetsGo(c, s);
    } else if s.master.ReadStamp? && U64(s.now + c.theta) == 0 {
      OneCycleOn(c, s.now);
    } else {
      MasterAnswers(c, s);
    }
    hide Inv, SlaveGo, MasterGo, U64;
  }

  lemma LookAdvances(c: Setup, s: State)
    requires Inv(c, s) && Asking(s.slave) && Served(s) && NoZero(c, s.stamps)
    ensures var t := Step(c, s, Choice(c, s));
      Nearer(RankOf(c, t), RankOf(c, s)) && !t.slave.Failed? && !t.slave.Measured? && t.stamps == s.stamps
  {
    assert s.stamps != [] by { hide U64, Slot, LastStamp, Collected; }
    NoZeroLast(c, s.stamps);
    hide U64, Collected, LastStamp, Slot;
  }

  lemma RoundAdvances(c: Setup, s: State)
    requires Inv(c, s) && !SettingUp(s.slave) && !Asking(s.slave) && !s.slave.Measured?
    ensures var t := Step(c, s, Choice(c, s)); t.slave.Measured? || Nearer(RankOf(c, t), RankOf(c, s))
    ensures var t := Step(c, s, Choice(c, s)); !t.slave.Failed? && t.stamps == s.stamps
  {
    hide U64, Collected, LastStamp, Slot;
  }

  lemma NoZeroMore(c: Setup, stamps: seq<nat>, now: nat)
    requires NoZero(c, stamps) && U64(now + c.theta) != 0
    ensures NoZero(c, stamps + [now])
  {
    hide U64;
  }

  lemma ChoiceAdvances(c: Setup, s: State)
    requires Inv(c, s) && NoZero(c, s.stamps) && !s.slave.Failed? && !s.slave.Measured?
    ensures var t := Step(c, s, Choice(c, s));
      (t.slave.Measured? || Nearer(RankOf(c, t), RankOf(c, s))) && !t.slave.Failed? && NoZero(c, t.stamps)
  {
    hide Inv, NoZero, Step, Choice, Nearer, RankOf, U64;
    if SettingUp(s.slave) {
      SetupAdvances(c, s);
    } else if !Asking(s.slave) {
      RoundAdvances(c, s);
    } else if Served(s) {
      LookAdvances(c, s);
    } else {
      AnswerAdvances(c, s);
      if U64(s.now + c.theta) != 0 { NoZeroMore(c, s.stamps, s.now); }
    }
  }

  lemma RoundsBound(c: Setup, s: State)
    requires Inv(c, s)
    ensures |s.rounds| <= c.iters
  {
    hide U64, Collected, LastStamp, Slot;
  }

  /** The measurement can be finished. */
  lemma {:induction false} Finish(c: Setup, s: State) returns (rest: seq<Event>)
    requires Inv(c, s) && NoZero(c, s.stamps) && !s.slave.Failed?
    ensures RunFrom(c, s, rest).slave.Measured?
    decreases RankOf(c, s).rounds, RankOf(c, s).phase, RankOf(c, s).master, RankOf(c, s).slave, RankOf(c, s).zero
  {
    if s.slave.Measured? {
      rest := [];
    } else {
      var e := Choice(c, s);
      StepKeeps(c, s, e);
      ChoiceAdvances(c, s);
      RoundsBound(c, s);
      hide Inv, NoZero, Step, Choice;
      var t := Step(c, s, e);
      if t.slave.Measured? {
        rest := [e];
        assert [e][1..] == [];
      } else {
        rest := Finish(c, t);
        assert ([e] + rest)[1..] == rest;
        rest := [e] + rest;
      }
    }
  }

  ghost predicate CanMeasure(c: Setup, now: nat, schedule: seq<Event>) {
    exists rest :: Run(c, now, schedule + rest).slave.Measured?
  }

  /** A run can be continued to the end of get_delta if and only if the call of the master was not refused and no stamp
      taken so far reads 0. */
  lemma MeasuresIffNoZero(c: Setup, now: nat, schedule: seq<Event>)
    ensures var s := Run(c, now, schedule);
      CanMeasure(c, now, schedule) <==> !s.slave.Failed? && NoZero(c, s.stamps)
  {
    hide Inv, NoZero, Run, RunFrom, Starved;
    RunKeeps(c, now, schedule);
    var s := Run(c, now, schedule);
    if !s.slave.Failed? && NoZero(c, s.stamps) {
      var rest := Finish(c, s);
      RunSplit(c, now, schedule, rest);
      assert Run(c, now, schedule + rest).slave.Measured?;
    } else {
      forall rest
        ensures !Run(c, now, schedule + rest).slave.Measured?
      {
        RunSplit(c, now, schedule, rest);
        if s.slave.Failed? {
          FailedForEver(c, s, rest);
        } else {
          ZeroStarves(c, s);
          StarvedForEver(c, s, rest);
        }
      }
    }
  }

  // ---- Runs of one exchange ----

  lemma Extend(c: Setup, now: nat, schedule: seq<Event>, before: State, e: Event, after: State)
    requires Run(c, now, schedule) == before && Step(c, before, e) == after
    ensures Run(c, now, schedule + [e]) == after
  {
    hide Step;
    assert (schedule + [e])[..|schedule|] == schedule;
  }

  /** The first request, made at clock reading now, and the master's answer at the same reading. */
  lemma FirstAnswer(c: Setup, now: nat) returns (schedule: seq<Event>)
    requires c.iters == 1
    ensures var v := U64(now + c.theta);
      Run(c, now, schedule) == State(0, v % HALF, v / HALF, Nobody, now, Returned, 1, [now], TakeLock, now, [])
  {
    hide U64, Run;
    var v := U64(now + c.theta);
    schedule := Asked(c, now);
    var a := State(1, 0, 0, Nobody, now, Spin, 0, [], TakeLock, now, []);
    var b := a.(goMaster := 0, lock := TheMaster, stamps := [now]);
    Extend(c, now, schedule, a, MasterStep, a.(master := Ack));
    schedule := schedule + [MasterStep];
    Extend(c, now, schedule, a.(master := Ack), MasterStep, a.(goMaster := 0, master := Lock));
    schedule := schedule + [MasterStep];
    Extend(c, now, schedule, a.(goMaster := 0, master := Lock), MasterStep, b.(stamps := [], master := ReadStamp));
    schedule := schedule + [MasterStep];
    assert [] + [now] == [now];
    Extend(c, now, schedule, b.(stamps := [], master := ReadStamp), MasterStep, b.(master := StoreLow(v)));
    schedule := schedule + [MasterStep];
    Extend(c, now, schedule, b.(master := StoreLow(v)), MasterStep, b.(low := v % HALF, master := StoreHigh(v)));
    schedule := schedule + [MasterStep];
    var d := b.(low := v % HALF, high := v / HALF, master := Unlock);
    Extend(c, now, schedule, b.(low := v % HALF, master := StoreHigh(v)), MasterStep, d);
    schedule := schedule + [MasterStep];
    Extend(c, now, schedule, d, MasterStep, d.(lock := Nobody, served := 1, master := Returned));
    schedule := schedule + [MasterStep];
  }

  lemma Asked(c: Setup, now: nat) returns (schedule: seq<Event>)
    requires c.iters == 1
    ensures Run(c, now, schedule) == State(1, 0, 0, Nobody, now, Spin, 0, [], TakeLock, now, [])
  {
    var s := Init(now);
    assert Run(c, now, []) == s;
    hide Run;
    Extend(c, now, [], s, SlaveStep, s.(goMaster := 1, slave := Launch));
    schedule := [] + [SlaveStep];
    var t := s.(goMaster := 1, master := Ready, slave := AwaitReady);
    Extend(c, now, schedule, s.(goMaster := 1, slave := Launch), SlaveStep, t);
    schedule := schedule + [SlaveStep];
    Extend(c, now, schedule, t, MasterStep, t.(goMaster := 0, master := Spin));
    schedule := schedule + [MasterStep];
    var u := t.(goMaster := 0, master := Spin, slave := ReadT0);
    Extend(c, now, schedule, t.(goMaster := 0, master := Spin), SlaveStep, u);
    schedule := schedule + [SlaveStep];
    Extend(c, now, schedule, u, SlaveStep, u.(slave := Request));
    schedule := schedule + [SlaveStep];
    Extend(c, now, schedule, u.(slave := Request), SlaveStep, u.(goMaster := 1, slave := TakeLock));
    schedule := schedule + [SlaveStep];
  }

  /** The slave sees the answer. */
  lemma Seen(c: Setup, now: nat) returns (schedule: seq<Event>)
    requires c.iters == 1 && U64(now + c.theta) != 0
    ensures var v := U64(now + c.theta);
      Run(c, now, schedule) == State(0, v % HALF, v / HALF, TheSlave, now, Returned, 1, [now], DropLock(v), now, [])
  {
    hide Run;
    schedule := FirstAnswer(c, now);
    var v := U64(now + c.theta);
    var a := State(0, v % HALF, v / HALF, Nobody, now, Returned, 1, [now], TakeLock, now, []);
    var b := a.(lock := TheSlave);
    Halves(v);
    hide U64, Slot;
    Extend(c, now, schedule, a, SlaveStep, b.(slave := LoadLow));
    schedule := schedule + [SlaveStep];
    Extend(c, now, schedule, b.(slave := LoadLow), SlaveStep, b.(slave := LoadHigh(v % HALF)));
    schedule := schedule + [SlaveStep];
    Extend(c, now, schedule, b.(slave := LoadHigh(v % HALF)), SlaveStep, b.(slave := Test(v)));
    schedule := schedule + [SlaveStep];
    Extend(c, now, schedule, b.(slave := Test(v)), SlaveStep, b.(slave := DropLock(v)));
    schedule := schedule + [SlaveStep];
  }

  /** A whole measurement of one exchange, answered at once and lasting the given number of cycles. */
  lemma OneExchange(c: Setup, now: nat, cycles: nat) returns (schedule: seq<Event>)
    requires c.iters == 1 && U64(now + c.theta) != 0
    ensures var s := Run(c, now, schedule);
      s.slave.Measured? && s.stamps == [now] && s.rounds == [Round(now, U64(now + c.theta), now + cycles)]
  {
    hide U64, Run, Slot;
    schedule := Seen(c, now);
    var v := U64(now + c.theta);
    var a := State(0, v % HALF, v / HALF, Nobody, now, Returned, 1, [now], ClearLow(v), now, []);
    Extend(c, now, schedule, a.(lock := TheSlave, slave := DropLock(v)), SlaveStep, a);
    schedule := schedule + [SlaveStep];
    Extend(c, now, schedule, a, SlaveStep, a.(low := 0, slave := ClearHigh(v)));
    schedule := schedule + [SlaveStep];
    var d := a.(low := 0, high := 0, slave := ReadT1(v));
    Extend(c, now, schedule, a.(low := 0, slave := ClearHigh(v)), SlaveStep, d);
    schedule := schedule + [SlaveStep];
    Extend(c, now, schedule, d, Tick(cycles), d.(now := now + cycles));
    schedule := schedule + [Tick(cycles)];
    assert [] + [Round(now, v, now + cycles)] == [Round(now, v, now + cycles)];
    Extend(c, now, schedule, d.(now := now + cycles), SlaveStep,
           d.(now := now + cycles, slave := Measured, rounds := [Round(now, v, now + cycles)]));
    schedule := schedule + [SlaveStep];
  }

  /** A run whose only exchange, two cycles long and without any offset, lies across the wrap of the slave's counter:
      the estimate is half the range off. */
  lemma WrappedRun() returns (schedule: seq<Event>)
    ensures var s := Run(Setup(1, 0), WHOLE - 1, schedule); var rs := Readings(s.rounds);
      && s.slave.Measured? && |rs| == 1 && Trip(rs[0]) == 2
      && Estimate(rs[0]) == 1 - WHOLE / 2 && !Near(Estimate(rs[0]), 0, 1)
  {
    WrapOnce(WHOLE - 1);
    schedule := OneExchange(Setup(1, 0), WHOLE - 1, 2);
    WrappedExchange();
    hide Run, Trip, Estimate, Near;
  }

  /** A run that can never be finished: the master reads its counter when it is 0. */
  lemma ZeroStamp() returns (schedule: seq<Event>)
    ensures Run(Setup(1, 0), WHOLE, schedule).stamps == [WHOLE] && !CanMeasure(Setup(1, 0), WHOLE, schedule)
  {
    schedule := FirstAnswer(Setup(1, 0), WHOLE);
    var s := Run(Setup(1, 0), WHOLE, schedule);
    assert s.stamps[0] == WHOLE && U64(s.stamps[0] + 0) == 0;
    hide Run, CanMeasure;
    MeasuresIffNoZero(Setup(1, 0), WHOLE, schedule);
  }
}
