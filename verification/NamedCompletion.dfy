/** When can the tasks of namedstuff.c all complete? The timed wait on prio_sem is meant to run out; if it succeeds, it
    has taken a unit that another task needs for its first wait, and that task waits for ever. */
module NamedCompletion {

  import opened Arithmetic
  import opened Counting
  import opened NamedTasks

  /** What holds in every run. */
  ghost predicate Inv(c: Setup, s: State) {
    Shape(c, s) && RingOk(c, s) && Phased(c, s) && UnitsOk(c, s)
  }

  lemma RunInv(c: Setup, schedule: seq<Event>)
    requires c.n > 0
    ensures Inv(c, Run(c, schedule))
  {
    RunKeeps(c, schedule);
    RunKeepsUnits(c, schedule);
    hide Run, RingOk, Phased, UnitsOk;
  }

  lemma StepInv(c: Setup, s: State, e: Event)
    requires Inv(c, s)
    ensures Inv(c, Step(c, s, e))
  {
    hide RingOk, Phased, UnitsOk, StartStep, TaskStep;
    match e {
      case Start =>
        StarterKeepsRing(c, s);
        StarterKeepsPhase(c, s);
        StarterKeepsUnits(c, s);
      case Task(t) =>
        TaskKeeps(c, s, t, false);
        TaskKeepsUnits(c, s, t, false);
      case Timeout(t) =>
        TaskKeeps(c, s, t, true);
        TaskKeepsUnits(c, s, t, true);
    }
  }

  ghost predicate AllComplete(c: Setup, s: State)
    requires Shape(c, s)
  {
    s.starter.Done? && AllAt(c, s, COMPLETE)
  }

  // ---- The work left ----

  function Work(c: Setup, l: Place): nat {
    match l
    case Ring(i, part) =>
      10 + (if i < c.r then 4 * (c.r - i) else 0) +
      (match part case Await => 3 case Print => 2 case Newline => 1 case Pass => 0)
    case After(stage) => if stage < COMPLETE then COMPLETE - stage else 0
  }

  function Works(c: Setup, s: State): (w: seq<nat>)
    requires Shape(c, s)
    ensures |w| == c.n && forall t :: 0 <= t < c.n ==> w[t] == Work(c, s.tasks[t])
  {
    seq(c.n, t requires 0 <= t < c.n => Work(c, s.tasks[t]))
  }

  function TotalWork(c: Setup, s: State): nat
    requires Shape(c, s)
  {
    SumOfNats(Works(c, s));
    SumOf(Works(c, s))
  }

  function StarterPhase(st: Starter): nat {
    match st
    case Token => 7
    case Gather1(_) => 6
    case Prio(_) => 5
    case Gather2(_) => 4
    case Mail(_) => 3
    case Collect(_) => 2
    case Release(_) => 1
    case Done => 0
  }

  function StarterLeft(c: Setup, st: Starter): nat {
    if st.Token? || st.Done? || st.i >= c.n then 0 else c.n - st.i
  }

  /** Task t can go on without taking a unit of prio_sem in its timed wait. */
  predicate Movable(s: State, t: nat)
    requires t in s.tasks && t < |s.sems|
  {
    match s.tasks[t]
    case Ring(_, part) => part.Await? ==> s.sems[t] > 0
    case After(stage) =>
      && stage < COMPLETE && (stage == PRIO_WAIT ==> s.prio > 0) && (stage == MAIL_IN ==> s.mbxIn != [])
      && (stage == LAST_WAIT ==> s.sync > 0)
  }

  /** The timed operations run out. */
  function Move(s: State, t: nat): Event
    requires t in s.tasks
  {
    if s.tasks[t] == After(PRIO_TIMED) || s.tasks[t] == After(MAIL_TIMED) then Timeout(t) else Task(t)
  }

  predicate StarterMovable(c: Setup, s: State) {
    match s.starter
    case Gather1(i) => i >= c.n || s.sync > 0
    case Gather2(i) => i >= c.n || s.sync > 0
    case Collect(i) => i >= c.n || s.mbxOut != []
    case Done => false
    case _ => true
  }

  lemma MoveIsWork(c: Setup, s: State, t: nat)
    requires Shape(c, s) && t < c.n && Movable(s, t)
    requires s.tasks[t].Ring? ==> s.tasks[t].round < c.r
    ensures var u := Step(c, s, Move(s, t));
      && u.starter == s.starter && u.stolen == s.stolen && u.tasks == s.tasks[t := u.tasks[t]]
      && Work(c, u.tasks[t]) < Work(c, s.tasks[t])
  {
  }

  lemma LessWork(c: Setup, s: State, u: State, t: nat)
    requires Shape(c, s) && Shape(c, u) && t < c.n && u.tasks == s.tasks[t := u.tasks[t]]
    requires Work(c, u.tasks[t]) < Work(c, s.tasks[t])
    ensures TotalWork(c, u) < TotalWork(c, s)
  {
    hide Work;
    assert Works(c, u) == Works(c, s)[t := Work(c, u.tasks[t])];
    SumUpdate(Works(c, s), t, Work(c, u.tasks[t]));
  }

  lemma InRange(c: Setup, s: State, t: nat)
    requires Inv(c, s) && t < c.n && s.tasks[t].Ring?
    ensures s.tasks[t].round < c.r
  {
    assert PlaceOk(c, s.round, s.turn, t, s.tasks[t]);
  }

  lemma MoveAdvances(c: Setup, s: State, t: nat)
    requires Inv(c, s) && t < c.n && Movable(s, t)
    ensures var u := Step(c, s, Move(s, t));
      TotalWork(c, u) < TotalWork(c, s) && u.starter == s.starter && u.stolen == s.stolen
  {
    if s.tasks[t].Ring? { InRange(c, s, t); }
    MoveIsWork(c, s, t);
    hide Step, Work, RingOk, Phased, UnitsOk, TotalWork;
    LessWork(c, s, Step(c, s, Move(s, t)), t);
  }

  lemma StarterMoves(c: Setup, s: State)
    requires Shape(c, s) && StarterMovable(c, s)
    ensures var u := StartStep(c, s);
      && u.stolen == s.stolen && u.tasks == s.tasks
      && (StarterPhase(u.starter) < StarterPhase(s.starter) ||
          (StarterPhase(u.starter) == StarterPhase(s.starter) && StarterLeft(c, u.starter) < StarterLeft(c, s.starter)))
  {
  }

  lemma StarterAdvances(c: Setup, s: State)
    requires Inv(c, s) && StarterMovable(c, s)
    ensures var u := Step(c, s, Start);
      && TotalWork(c, u) == TotalWork(c, s) && u.stolen == s.stolen && u.tasks == s.tasks
      && (StarterPhase(u.starter) < StarterPhase(s.starter) ||
          (StarterPhase(u.starter) == StarterPhase(s.starter) && StarterLeft(c, u.starter) < StarterLeft(c, s.starter)))
  {
    StarterMoves(c, s);
    hide StartStep, StarterPhase, StarterLeft, StarterMovable, RingOk, Phased, UnitsOk, Work;
    assert Works(c, Step(c, s, Start)) == Works(c, s);
  }

  // ---- Somebody can always go on ----

  lemma {:induction false} SumPositive(a: seq<nat>) returns (i: nat)
    requires SumOf(a) > 0
    ensures i < |a| && a[i] > 0
  {
    i := |a| - 1;
    if a[i] == 0 { i := SumPositive(a[..i]); }
  }

  /** A task still in the ring that can go on, if any is still there. */
  lemma RingPick(c: Setup, s: State) returns (found: bool, t: nat)
    requires Inv(c, s) && !s.starter.Token?
    ensures found ==> t < c.n && s.tasks[t].Ring? && Movable(s, t)
    ensures !found ==> AllAt(c, s, 0)
  {
    hide Phased, UnitsOk, Laps, Lap;
    if holder: nat :| holder in s.tasks && HoldsToken(s.tasks[holder]) {
      found, t := true, holder;
    } else {
      assert Where(s.tasks, HoldsToken) == {};
      t := SumPositive(s.sems);
      assert t == s.turn;
      found := s.tasks[t].Ring?;
      if !found { RingOver(c, s); }
    }
  }

  lemma RingOver(c: Setup, s: State)
    requires Inv(c, s) && s.tasks[s.turn].After?
    requires forall t :: t in s.tasks ==> !HoldsToken(s.tasks[t])
    ensures AllAt(c, s, 0)
  {
    hide Phased, UnitsOk, Laps, Lap, Tokens, Parked;
    assert PlaceOk(c, s.round, s.turn, s.turn, s.tasks[s.turn]);
    forall t | 0 <= t < c.n
      ensures s.tasks[t].After?
    {
      assert PlaceOk(c, s.round, s.turn, t, s.tasks[t]);
    }
  }

  lemma SomeoneBehind(c: Setup, s: State, stage: nat) returns (t: nat)
    requires Shape(c, s) && Passed(s.tasks, stage) < c.n
    ensures t < c.n && !(s.tasks[t].After? && s.tasks[t].stage > stage)
  {
    t := Missing(Range(c.n), Where(s.tasks, Beyond(stage)));
  }

  lemma Missing(a: set<nat>, b: set<nat>) returns (x: nat)
    requires |a| > |b|
    ensures x in a && x !in b
  {
    if a <= b { SubsetCount(a, b); }
    x :| x in a && x !in b;
  }

  lemma BehindCounts(c: Setup, s: State, stage: nat, t: nat)
    requires Shape(c, s) && t < c.n && !(s.tasks[t].After? && s.tasks[t].stage > stage)
    ensures Passed(s.tasks, stage) < c.n
  {
    assert t !in Where(s.tasks, Beyond(stage));
    SubsetCount(Where(s.tasks, Beyond(stage)), Range(c.n) - {t});
  }

  lemma AllBeyond(c: Setup, s: State, stage: nat)
    requires Shape(c, s) && AllAt(c, s, stage + 1)
    ensures Passed(s.tasks, stage) == c.n
  {
    assert Where(s.tasks, Beyond(stage)) == Range(c.n);
  }

  /** Stages that never block. */
  predicate Free(stage: nat) {
    stage < COMPLETE && stage != PRIO_WAIT && stage != MAIL_IN && stage != LAST_WAIT
  }

  /** All tasks are out of the ring and at a wait, or complete. */
  ghost predicate AllWait(c: Setup, s: State)
    requires Shape(c, s)
  {
    AllAt(c, s, 0) && forall t :: 0 <= t < c.n ==> !Free(s.tasks[t].stage)
  }

  lemma FirstPassed(c: Setup, s: State)
    requires Shape(c, s) && AllWait(c, s)
    ensures Count(s.tasks).first == c.n
  {
    AllBeyond(c, s, FIRST_SYNC);
  }

  /** With everybody waiting, the starter or the task it waits for can go on. */
  lemma WaitPick(c: Setup, s: State) returns (t: nat)
    requires Inv(c, s) && AllWait(c, s) && s.stolen == 0 && !AllComplete(c, s)
    ensures StarterMovable(c, s) || (t < c.n && Movable(s, t))
  {
    t := 0;
    FirstPassed(c, s);
    hide RingOk;
    if !StarterMovable(c, s) {
      match s.starter {
        case Gather2(_) =>
          t := SomeoneBehind(c, s, SECOND_SYNC);
          BehindCounts(c, s, PRIO_WAIT, t);
        case Collect(_) =>
          t := SomeoneBehind(c, s, MAIL_OUT);
          AllPassed(c, s, SECOND_SYNC, t);
          BehindCounts(c, s, MAIL_IN, t);
        case Done =>
          t :| 0 <= t < c.n && s.tasks[t].stage < COMPLETE;
          AllPassed(c, s, MAIL_OUT, t);
          BehindCounts(c, s, LAST_WAIT, t);
        case _ =>
      }
    }
  }

  /** As long as no unit was stolen, somebody can go on until all have completed. */
  lemma Pick(c: Setup, s: State) returns (t: nat)
    requires Inv(c, s) && s.stolen == 0 && !AllComplete(c, s)
    ensures StarterMovable(c, s) || (t < c.n && Movable(s, t))
  {
    t := 0;
    if !s.starter.Token? {
      hide RingOk, Phased, UnitsOk;
      var found: bool;
      found, t := RingPick(c, s);
      if !found {
        if u: nat :| u < c.n && Free(s.tasks[u].stage) {
          t := u;
        } else {
          t := WaitPick(c, s);
        }
      }
    }
  }

  /** The events es from state s on. */
  function RunFrom(c: Setup, s: State, es: seq<Event>): (t: State)
    requires Shape(c, s)
    ensures Shape(c, t)
    decreases |es|
  {
    if es == [] then s else RunFrom(c, Step(c, s, es[0]), es[1..])
  }

  lemma {:induction false} RunSplit(c: Setup, a: seq<Event>, b: seq<Event>)
    requires c.n > 0
    ensures Run(c, a + b) == RunFrom(c, Run(c, a), b)
    decreases |b|
  {
    hide Step;
    if b == [] {
      assert a + b == a;
    } else {
      var d := a + [b[0]];
      assert a + b == d + b[1..] && d[..|a|] == a;
      RunSplit(c, d, b[1..]);
    }
  }

  lemma {:induction false} Finish(c: Setup, s: State) returns (rest: seq<Event>)
    requires Inv(c, s) && s.stolen == 0
    ensures AllComplete(c, RunFrom(c, s, rest))
    decreases TotalWork(c, s), StarterPhase(s.starter), StarterLeft(c, s.starter)
  {
    if AllComplete(c, s) {
      rest := [];
    } else {
      var t := Pick(c, s);
      var e := if StarterMovable(c, s) then Start else Move(s, t);
      if StarterMovable(c, s) { StarterAdvances(c, s); } else { MoveAdvances(c, s, t); }
      StepInv(c, s, e);
      InvShape(c, s);
      hide Inv, Step, TotalWork, StarterMovable, Movable, AllComplete;
      InvShape(c, Step(c, s, e));
      rest := Finish(c, Step(c, s, e));
      assert ([e] + rest)[1..] == rest;
      rest := [e] + rest;
    }
  }

  lemma InvShape(c: Setup, s: State)
    requires Inv(c, s)
    ensures Shape(c, s)
  {
  }

  // ---- A stolen unit ----

  lemma {:induction false} StolenStays(c: Setup, s: State, es: seq<Event>)
    requires Shape(c, s)
    ensures RunFrom(c, s, es).stolen >= s.stolen
    decreases |es|
  {
    if es != [] {
      assert Step(c, s, es[0]).stolen >= s.stolen;
      hide Step;
      StolenStays(c, Step(c, s, es[0]), es[1..]);
    }
  }

  lemma StolenBlocks(c: Setup, s: State)
    requires Inv(c, s) && s.stolen > 0
    ensures !AllComplete(c, s)
  {
    if AllAt(c, s, COMPLETE) {
      assert AllAt(c, s, PRIO_WAIT + 1);
      AllBeyond(c, s, PRIO_WAIT);
    }
  }

  ghost predicate CanComplete(c: Setup, schedule: seq<Event>)
    requires c.n > 0
  {
    exists rest :: AllComplete(c, Run(c, schedule + rest))
  }

  /** For any n and r: a run can be continued until the starter is done and all tasks are complete if and only if no
      timed wait on prio_sem has succeeded. */
  lemma CompletesIffNoneStolen(c: Setup, schedule: seq<Event>)
    requires c.n > 0
    ensures CanComplete(c, schedule) <==> Run(c, schedule).stolen == 0
  {
    hide Inv, Run, RunFrom, AllComplete;
    var s := Run(c, schedule);
    if s.stolen == 0 {
      RunInv(c, schedule);
      var rest := Finish(c, s);
      RunSplit(c, schedule, rest);
      assert AllComplete(c, Run(c, schedule + rest));
    } else {
      forall rest
        ensures !AllComplete(c, Run(c, schedule + rest))
      {
        RunSplit(c, schedule, rest);
        StolenStays(c, s, rest);
        RunInv(c, schedule + rest);
        StolenBlocks(c, Run(c, schedule + rest));
      }
    }
  }

  // ---- A run that steals ----

  /** Nobody has passed the first wait on prio_sem. */
  ghost predicate Early(c: Setup, s: State)
    requires Shape(c, s)
  {
    && s.stolen == 0 && (s.starter.Token? || s.starter.Gather1? || s.starter.Prio? || s.starter.Gather2?)
    && forall t :: 0 <= t < c.n && s.tasks[t].After? ==> s.tasks[t].stage <= PRIO_WAIT
  }

  lemma EarlyPick(c: Setup, s: State) returns (e: Event, t: nat)
    requires Inv(c, s) && Early(c, s) && !s.starter.Gather2?
    ensures (e == Start && StarterMovable(c, s)) ||
      (t < c.n && e == Move(s, t) && Movable(s, t) && (s.tasks[t].Ring? || s.tasks[t].stage == FIRST_SYNC))
  {
    e, t := Start, 0;
    if !s.starter.Token? {
      hide RingOk, UnitsOk;
      var found: bool;
      found, t := RingPick(c, s);
      if found {
        e := Move(s, t);
      } else if u: nat :| u < c.n && s.tasks[u].stage == FIRST_SYNC {
        t := u;
        e := Move(s, t);
      } else {
        AllBeyond(c, s, FIRST_SYNC);
      }
    }
  }

  lemma MoveStaysEarly(c: Setup, s: State, t: nat)
    requires Shape(c, s) && Early(c, s) && t < c.n && Movable(s, t)
    requires s.tasks[t].Ring? || s.tasks[t].stage == FIRST_SYNC
    ensures Early(c, Step(c, s, Move(s, t)))
  {
  }

  lemma StartStaysEarly(c: Setup, s: State)
    requires Shape(c, s) && Early(c, s) && !s.starter.Gather2?
    ensures Early(c, Step(c, s, Start))
  {
  }

  /** All units given out and nobody past the first wait. */
  lemma {:induction false} ReachGate(c: Setup, s: State) returns (rest: seq<Event>)
    requires Inv(c, s) && Early(c, s)
    ensures var u := RunFrom(c, s, rest); Inv(c, u) && Early(c, u) && u.starter.Gather2?
    decreases TotalWork(c, s), StarterPhase(s.starter), StarterLeft(c, s.starter)
  {
    if s.starter.Gather2? {
      rest := [];
    } else {
      InvShape(c, s);
      hide Inv, Step, TotalWork, StarterMovable, Movable, Early;
      var e, t := EarlyPick(c, s);
      if e == Start {
        StarterAdvances(c, s);
        StartStaysEarly(c, s);
      } else {
        MoveAdvances(c, s, t);
        MoveStaysEarly(c, s, t);
      }
      StepInv(c, s, e);
      InvShape(c, Step(c, s, e));
      rest := ReachGate(c, Step(c, s, e));
      assert ([e] + rest)[1..] == rest;
      rest := [e] + rest;
    }
  }

  lemma GateOpen(c: Setup, s: State)
    requires Inv(c, s) && Early(c, s) && s.starter.Gather2?
    ensures s.tasks[0] == After(PRIO_WAIT) && s.prio == c.n
  {
    hide RingOk;
    AllPassed(c, s, FIRST_SYNC, 0);
    assert Where(s.tasks, Beyond(PRIO_WAIT)) == {};
  }

  /** Task 0 passes its first wait, prints, and finds a unit in its timed wait. */
  lemma Steals(c: Setup, s: State)
    requires Shape(c, s) && c.n >= 2 && s.tasks[0] == After(PRIO_WAIT) && s.prio == c.n && s.stolen == 0
    ensures RunFrom(c, s, [Task(0), Task(0), Task(0)]).stolen == 1
  {
    var a := Step(c, s, Task(0));
    assert a.tasks[0] == After(PRIO_PRINT) && a.prio == c.n - 1 && a.stolen == 0;
    var b := Step(c, a, Task(0));
    assert b.tasks[0] == After(PRIO_TIMED) && b.prio == c.n - 1 && b.stolen == 0;
    var d := Step(c, b, Task(0));
    assert d.stolen == 1;
    hide Step;
    assert [Task(0), Task(0), Task(0)][1..] == [Task(0), Task(0)] && [Task(0), Task(0)][1..] == [Task(0)];
    assert RunFrom(c, b, [Task(0)]) == d;
    assert RunFrom(c, a, [Task(0), Task(0)]) == d;
  }

  lemma StartsEarly(c: Setup)
    requires c.n > 0
    ensures Shape(c, Run(c, [])) && Early(c, Run(c, []))
  {
  }

  /** With two tasks or more there is always a run that can never be completed. */
  lemma StolenUnit(c: Setup) returns (schedule: seq<Event>)
    requires c.n >= 2
    ensures Run(c, schedule).stolen == 1 && !CanComplete(c, schedule)
  {
    RunInv(c, []);
    StartsEarly(c);
    hide Run, RunFrom, Inv, Early, CanComplete;
    var first := ReachGate(c, Run(c, []));
    RunSplit(c, [], first);
    assert [] + first == first;
    InvShape(c, Run(c, first));
    GateOpen(c, Run(c, first));
    EarlyNone(c, Run(c, first));
    Steals(c, Run(c, first));
    schedule := first + [Task(0), Task(0), Task(0)];
    RunSplit(c, first, [Task(0), Task(0), Task(0)]);
    CompletesIffNoneStolen(c, schedule);
  }

  lemma EarlyNone(c: Setup, s: State)
    requires Shape(c, s) && Early(c, s)
    ensures s.stolen == 0
  {
  }
}
