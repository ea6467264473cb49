/** namedstuff.c: n tasks pass a token round a ring of semaphores for r rounds, printing their names; then they and
    the starting task go through phases synchronised by one semaphore, sync_sem, which carries signals from the
    tasks to the starter twice and from the starter to the tasks at the end. The original has n = 4, r = 5.

    One step is one semaphore or mailbox operation, or one printing section (serialised by print_sem). A timed wait
    may end by timeout at any moment; a step of a blocked task changes nothing. */
module NamedTasks {
  import opened Counting
  import opened Arithmetic

  /** Inside the ring loop. */
  datatype Part = Await | Print | Newline | Pass

  // What a task does next once it has left the ring loop.
  const FIRST_SYNC := 0      // signal sync_sem
  const PRIO_WAIT := 1       // wait on prio_sem
  const PRIO_PRINT := 2
  const PRIO_TIMED := 3      // timed wait on prio_sem
  const SECOND_SYNC := 4     // signal sync_sem
  const MAIL_IN := 5         // receive from mbx_in
  const MAIL_OUT := 6        // send to mbx_out
  const LAST_WAIT := 7       // wait on sync_sem
  const MAIL_TIMED := 8      // timed receive from mbx_in
  const COMPLETE := 9

  datatype Place = Ring(round: nat, part: Part) | After(stage: nat)

  datatype Starter =
    | Token                  // signal sems[0]
    | Gather1(i: nat)        // the i-th wait on sync_sem
    | Prio(i: nat)           // the i-th signal to prio_sem
    | Gather2(i: nat)        // the i-th wait on sync_sem, second time
    | Mail(i: nat)           // the i-th send to mbx_in
    | Collect(i: nat)        // the i-th receive from mbx_out
    | Release(i: nat)        // the i-th signal to sync_sem
    | Done

  datatype Setup = Setup(n: nat, r: nat)

  /** log: the names printed in the ring; round, turn: whose name comes next and in which round; takers, messages: who
      received what from mbx_in, in order; collected: what the starter received from mbx_out;
      stolen: how many timed waits on prio_sem took a unit; lines: the newlines printed in the ring. */
  datatype State = State(
    sems: seq<nat>, sync: nat, prio: nat, mbxIn: seq<nat>, mbxOut: seq<nat>,
    tasks: map<nat, Place>, starter: Starter,
    log: seq<nat>, round: nat, turn: nat, takers: seq<nat>, messages: seq<nat>, collected: seq<nat>,
    stolen: nat, lines: nat)

  datatype Event = Start | Task(t: nat) | Timeout(t: nat)

  /** 0, ..., n - 1 */
  function Range(n: nat): (r: set<nat>)
    ensures |r| == n && forall t: nat :: t in r <==> t < n
  {
    if n == 0 then {} else Range(n - 1) + {n - 1}
  }

  function Init(c: Setup): State {
    State(seq(c.n, _ => 0), 0, 0, [], [], map t | t in Range(c.n) :: Entry(c, 0), Token, [], 0, 0, [], [], [], 0, 0)
  }

  /** The head of the ring loop with counter i. */
  function Entry(c: Setup, i: nat): Place {
    if i < c.r then Ring(i, Await) else After(FIRST_SYNC)
  }

  ghost predicate Shape(c: Setup, s: State) {
    c.n > 0 && |s.sems| == c.n && forall t: nat :: t in s.tasks <==> t < c.n
  }

  function NextOf(c: Setup, t: nat): nat
    requires t < c.n
  {
    if t + 1 == c.n then 0 else t + 1
  }

  function RingStep(c: Setup, s: State, t: nat): (u: State)
    requires Shape(c, s) && t in s.tasks && s.tasks[t].Ring?
    ensures Shape(c, u)
  {
    var i := s.tasks[t].round;
    match s.tasks[t].part
    case Await =>
      if s.sems[t] == 0 then s
      else s.(sems := s.sems[t := s.sems[t] - 1], tasks := s.tasks[t := Ring(i, Print)])
    case Print =>
      var lap := t + 1 == c.n;
      s.(log := s.log + [t], tasks := s.tasks[t := Ring(i, if lap then Newline else Pass)],
         round := if lap then s.round + 1 else s.round, turn := if lap then 0 else t + 1)
    case Newline => s.(lines := s.lines + 1, tasks := s.tasks[t := Ring(i, Pass)])
    case Pass =>
      var u := NextOf(c, t);
      s.(sems := s.sems[u := s.sems[u] + 1], tasks := s.tasks[t := Entry(c, i + 1)])
  }

  /** A task past the ring, about to leave the given stage. */
  predicate Enabled(s: State, stage: nat, timeout: bool) {
    if stage == PRIO_WAIT then s.prio > 0
    else if stage == PRIO_TIMED then timeout || s.prio > 0
    else if stage == MAIL_IN then s.mbxIn != []
    else if stage == LAST_WAIT then s.sync > 0
    else if stage == MAIL_TIMED then timeout || s.mbxIn != []
    else stage < COMPLETE
  }

  function Effect(s: State, stage: nat, timeout: bool, t: nat): State
    requires Enabled(s, stage, timeout)
  {
    if stage == FIRST_SYNC || stage == SECOND_SYNC then s.(sync := s.sync + 1)
    else if stage == PRIO_WAIT then s.(prio := s.prio - 1)
    else if stage == PRIO_TIMED && !timeout then s.(prio := s.prio - 1, stolen := s.stolen + 1)
    else if stage == MAIL_IN then
      s.(mbxIn := s.mbxIn[1..], takers := s.takers + [t], messages := s.messages + [s.mbxIn[0]])
    else if stage == MAIL_TIMED && !timeout then s.(mbxIn := s.mbxIn[1..])
    else if stage == MAIL_OUT then s.(mbxOut := s.mbxOut + [t])
    else if stage == LAST_WAIT then s.(sync := s.sync - 1)
    else s
  }

  function TaskStep(c: Setup, s: State, t: nat, timeout: bool): (u: State)
    requires Shape(c, s)
    ensures Shape(c, u)
  {
    if t !in s.tasks then s
    else match s.tasks[t]
      case Ring(_, _) => if timeout then s else RingStep(c, s, t)
      case After(stage) =>
        if Enabled(s, stage, timeout) then Effect(s, stage, timeout, t).(tasks := s.tasks[t := After(stage + 1)]) else s
  }

  function StartStep(c: Setup, s: State): (u: State)
    requires Shape(c, s)
    ensures Shape(c, u)
  {
    match s.starter
    case Token => s.(sems := s.sems[0 := s.sems[0] + 1], starter := Gather1(0))
    case Gather1(i) =>
      if i >= c.n then s.(starter := Prio(0))
      else if s.sync == 0 then s else s.(sync := s.sync - 1, starter := Gather1(i + 1))
    case Prio(i) => if i >= c.n then s.(starter := Gather2(0)) else s.(prio := s.prio + 1, starter := Prio(i + 1))
    case Gather2(i) =>
      if i >= c.n then s.(starter := Mail(0))
      else if s.sync == 0 then s else s.(sync := s.sync - 1, starter := Gather2(i + 1))
    case Mail(i) => if i >= c.n then s.(starter := Collect(0)) else s.(mbxIn := s.mbxIn + [i], starter := Mail(i + 1))
    case Collect(i) =>
      if i >= c.n then s.(starter := Release(0)) else if s.mbxOut == [] then s
      else s.(mbxOut := s.mbxOut[1..], collected := s.collected + [s.mbxOut[0]], starter := Collect(i + 1))
    case Release(i) => if i >= c.n then s.(starter := Done) else s.(sync := s.sync + 1, starter := Release(i + 1))
    case Done => s
  }

  function Step(c: Setup, s: State, e: Event): (u: State)
    requires Shape(c, s)
    ensures Shape(c, u)
  {
    match e
    case Start => StartStep(c, s)
    case Task(t) => TaskStep(c, s, t, false)
    case Timeout(t) => TaskStep(c, s, t, true)
  }

  function Run(c: Setup, schedule: seq<Event>): (s: State)
    requires c.n > 0
    ensures Shape(c, s)
  {
    if schedule == [] then Init(c)
    else Step(c, Run(c, schedule[..|schedule| - 1]), schedule[|schedule| - 1])
  }

  // ---- The phases ----

  /** Past the given stage. */
  function Beyond(stage: nat): Place -> bool {
    (l: Place) => l.After? && l.stage > stage
  }

  /** How many tasks have left the given stage. */
  function Passed(tasks: map<nat, Place>, stage: nat): nat {
    |Where(tasks, Beyond(stage))|
  }

  /** The counts that matter: tasks past each semaphore and mailbox operation. */
  datatype Tally = Tally(first: nat, prio: nat, second: nat, mailIn: nat, mailOut: nat, last: nat)

  function Count(tasks: map<nat, Place>): Tally {
    Tally(Passed(tasks, FIRST_SYNC), Passed(tasks, PRIO_WAIT), Passed(tasks, SECOND_SYNC), Passed(tasks, MAIL_IN),
          Passed(tasks, MAIL_OUT), Passed(tasks, LAST_WAIT))
  }

  ghost predicate PhaseOk(n: nat, starter: Starter, sync: nat, prio: nat, inbox: nat, outbox: nat, p: Tally) {
    match starter
    case Token => sync == p.first && p.prio == 0 && prio == 0 && inbox == outbox == 0
    case Gather1(i) => i <= n && sync + i == p.first && p.prio == 0 && prio == 0 && inbox == outbox == 0
    case Prio(i) => p.first == n && sync == p.second && p.mailIn == 0 && inbox == outbox == 0
    case Gather2(i) => i <= n && p.first == n && sync + i == p.second && p.mailIn == 0 && inbox == outbox == 0
    case Mail(i) => i <= n && p.second == n && sync == 0 && inbox + p.mailIn == i && outbox == p.mailOut && p.last == 0
    case Collect(i) =>
      i <= n && p.second == n && sync == 0 && inbox + p.mailIn == n && outbox + i == p.mailOut && p.last == 0
    case Release(i) => i <= n && p.mailOut == n && inbox == outbox == 0 && sync + p.last == i
    case Done => p.mailOut == n && inbox == outbox == 0 && sync + p.last == n
  }

  ghost predicate Phased(c: Setup, s: State) {
    PhaseOk(c.n, s.starter, s.sync, s.prio, |s.mbxIn|, |s.mbxOut|, Count(s.tasks))
  }

  /** Fewer tasks have left a later stage; no more than n any stage. */
  lemma Monotone(c: Setup, s: State, early: nat, late: nat)
    requires Shape(c, s) && early <= late
    ensures Passed(s.tasks, late) <= Passed(s.tasks, early) <= c.n
  {
    SubsetCount(Where(s.tasks, Beyond(late)), Where(s.tasks, Beyond(early)));
    SubsetCount(Where(s.tasks, Beyond(early)), Range(c.n));
    hide Range;
  }

  /** If n tasks have left a stage, every task has. */
  lemma AllPassed(c: Setup, s: State, stage: nat, t: nat)
    requires Shape(c, s) && Passed(s.tasks, stage) == c.n && t < c.n
    ensures s.tasks[t].After? && s.tasks[t].stage > stage
  {
    SubsetCount(Where(s.tasks, Beyond(stage)), Range(c.n));
    assert t in Where(s.tasks, Beyond(stage));
  }

  lemma NonePassed(c: Setup, s: State, stage: nat, t: nat)
    requires Shape(c, s) && Passed(s.tasks, stage) == 0 && t < c.n
    ensures !(s.tasks[t].After? && s.tasks[t].stage > stage)
  {
    NoneThere(s.tasks, Beyond(stage));
  }

  /** A task leaving a stage raises the count of that stage only. */
  lemma LeaveStage(s: State, u: State, t: nat, stage: nat, k: nat)
    requires t in s.tasks && s.tasks[t] == After(stage) && u.tasks == s.tasks[t := After(stage + 1)]
    ensures Passed(u.tasks, k) == Passed(s.tasks, k) + if k == stage then 1 else 0
  {
    MoveOne(s.tasks, t, After(stage + 1), Beyond(k));
  }

  lemma StayBefore(s: State, u: State, t: nat, next: Place, k: nat)
    requires t in s.tasks && s.tasks[t].Ring? && (next.Ring? || next.stage == 0) && u.tasks == s.tasks[t := next]
    ensures Passed(u.tasks, k) == Passed(s.tasks, k)
  {
    MoveOne(s.tasks, t, next, Beyond(k));
  }

  lemma Ordered(c: Setup, s: State)
    requires Shape(c, s)
    ensures var p := Count(s.tasks); p.last <= p.mailOut <= p.mailIn <= p.second <= p.prio <= p.first <= c.n
  {
    hide Passed;
    Monotone(c, s, FIRST_SYNC, PRIO_WAIT);
    Monotone(c, s, PRIO_WAIT, SECOND_SYNC);
    Monotone(c, s, SECOND_SYNC, MAIL_IN);
    Monotone(c, s, MAIL_IN, MAIL_OUT);
    Monotone(c, s, MAIL_OUT, LAST_WAIT);
  }

  lemma StarterKeepsPhase(c: Setup, s: State)
    requires Shape(c, s) && Phased(c, s)
    ensures Phased(c, StartStep(c, s))
  {
    hide Count;
    Ordered(c, s);
  }

  /** The tally after a task has left a stage. */
  lemma TallyLeave(s: State, u: State, t: nat, stage: nat)
    requires t in s.tasks && s.tasks[t] == After(stage) && u.tasks == s.tasks[t := After(stage + 1)]
    ensures var p := Count(s.tasks);
      Count(u.tasks) ==
      (if stage == FIRST_SYNC then p.(first := p.first + 1)
       else if stage == PRIO_WAIT then p.(prio := p.prio + 1)
       else if stage == SECOND_SYNC then p.(second := p.second + 1)
       else if stage == MAIL_IN then p.(mailIn := p.mailIn + 1)
       else if stage == MAIL_OUT then p.(mailOut := p.mailOut + 1)
       else if stage == LAST_WAIT then p.(last := p.last + 1)
       else p)
  {
    hide Passed;
    forall k { LeaveStage(s, u, t, stage, k); }
  }

  /** Which stages a task can stand at, given the tally. */
  lemma StageBounds(c: Setup, s: State, t: nat)
    requires Shape(c, s) && t in s.tasks && s.tasks[t].After?
    ensures var p, stage := Count(s.tasks), s.tasks[t].stage;
      && (p.first == c.n ==> stage > FIRST_SYNC) && (p.second == c.n ==> stage > SECOND_SYNC)
      && (p.mailOut == c.n ==> stage > MAIL_OUT)
      && (p.prio == 0 ==> stage <= PRIO_WAIT) && (p.mailIn == 0 ==> stage <= MAIL_IN)
      && (p.last == 0 ==> stage <= LAST_WAIT)
  {
    hide Passed;
    var p := Count(s.tasks);
    if p.first == c.n { AllPassed(c, s, FIRST_SYNC, t); }
    if p.second == c.n { AllPassed(c, s, SECOND_SYNC, t); }
    if p.mailOut == c.n { AllPassed(c, s, MAIL_OUT, t); }
    if p.prio == 0 { NonePassed(c, s, PRIO_WAIT, t); }
    if p.mailIn == 0 { NonePassed(c, s, MAIL_IN, t); }
    if p.last == 0 { NonePassed(c, s, LAST_WAIT, t); }
  }

  lemma LeavingKeepsPhase(c: Setup, s: State, t: nat, timeout: bool)
    requires Shape(c, s) && Phased(c, s) && t in s.tasks && s.tasks[t].After? && Enabled(s, s.tasks[t].stage, timeout)
    ensures Phased(c, TaskStep(c, s, t, timeout))
  {
    hide Count;
    var u, stage := TaskStep(c, s, t, timeout), s.tasks[t].stage;
    TallyLeave(s, u, t, stage);
    StageBounds(c, s, t);
  }

  lemma RingingKeepsPhase(c: Setup, s: State, t: nat)
    requires Shape(c, s) && Phased(c, s) && t in s.tasks && s.tasks[t].Ring?
    ensures Phased(c, RingStep(c, s, t))
  {
    hide Passed, PhaseOk, Count;
    var u := RingStep(c, s, t);
    var next := u.tasks[t];
    if u.tasks == s.tasks[t := next] { TallyRing(s, u, t, next); }
  }

  lemma TallyRing(s: State, u: State, t: nat, next: Place)
    requires t in s.tasks && s.tasks[t].Ring? && (next.Ring? || next.stage == 0) && u.tasks == s.tasks[t := next]
    ensures Count(u.tasks) == Count(s.tasks)
  {
    hide Passed;
    forall k { StayBefore(s, u, t, next, k); }
  }

  lemma TaskKeepsPhase(c: Setup, s: State, t: nat, timeout: bool)
    requires Shape(c, s) && Phased(c, s)
    ensures Phased(c, TaskStep(c, s, t, timeout))
  {
    hide Phased;
    if t in s.tasks {
      match s.tasks[t]
      case Ring(_, _) => RingingKeepsPhase(c, s, t);
      case After(stage) => if Enabled(s, stage, timeout) { LeavingKeepsPhase(c, s, t, timeout); }
    }
  }

  // ---- The ring ----

  /** The names 0, ..., k - 1. */
  function Lap(k: nat): seq<nat> {
    if k == 0 then [] else Lap(k - 1) + [k - 1]
  }

  /** q rounds of n names. */
  function Laps(n: nat, q: nat): seq<nat> {
    if q == 0 then [] else Laps(n, q - 1) + Lap(n)
  }

  lemma {:induction false} LapPrefix(k: nat, n: nat)
    requires k <= n
    ensures Lap(k) <= Lap(n)
  {
    if k < n { LapPrefix(k, n - 1); }
  }

  lemma {:induction false} LapsPrefix(n: nat, q: nat, k: nat, r: nat)
    requires k <= n && (q < r || (q == r && k == 0))
    ensures Laps(n, q) + Lap(k) <= Laps(n, r)
    decreases r
  {
    if q < r - 1 {
      LapsPrefix(n, q, k, r - 1);
    } else if q < r {
      LapPrefix(k, n);
    } else {
      assert Laps(n, q) + Lap(0) == Laps(n, q);
    }
  }

  predicate HoldsToken(l: Place) {
    l.Ring? && !l.part.Await?
  }

  /** How often task t has printed when task turn comes next in the given round. */
  function Printed(round: nat, turn: nat, t: nat): nat {
    round + if t < turn then 1 else 0
  }

  predicate PlaceOk(c: Setup, round: nat, turn: nat, t: nat, l: Place) {
    t < c.n &&
    match l
    case Ring(i, part) =>
      i < c.r &&
      (if part.Await? then i == Printed(round, turn, t)
       else if part.Print? then i == Printed(round, turn, t) && t == turn
       else i + 1 == Printed(round, turn, t) && NextOf(c, t) == turn && (part.Newline? ==> t + 1 == c.n))
    case After(_) => Printed(round, turn, t) == c.r
  }

  ghost predicate PlacesOk(c: Setup, round: nat, turn: nat, tasks: map<nat, Place>) {
    forall t :: t in tasks ==> PlaceOk(c, round, turn, t, tasks[t])
  }

  function Tokens(s: State): int {
    SumOf(s.sems) + |Where(s.tasks, HoldsToken)| + if s.starter.Token? then 1 else 0
  }

  /** The token lies only in the semaphore of the task whose turn it is. */
  ghost predicate Parked(sems: seq<nat>, turn: nat) {
    forall t :: 0 <= t < |sems| && sems[t] > 0 ==> t == turn
  }

  ghost predicate RingOk(c: Setup, s: State) {
    && s.turn < c.n && (s.round < c.r || (s.round == c.r && s.turn == 0))
    && s.log == Laps(c.n, s.round) + Lap(s.turn)
    && Tokens(s) == 1
    && (s.starter.Token? ==> s.round == s.turn == 0)
    && Parked(s.sems, s.turn)
    && PlacesOk(c, s.round, s.turn, s.tasks)
  }

  lemma InitRing(c: Setup)
    requires c.n > 0
    ensures RingOk(c, Init(c)) && Phased(c, Init(c))
  {
    var s := Init(c);
    SumZero(c.n);
    assert Where(s.tasks, HoldsToken) == {};
    assert Where(s.tasks, Beyond(FIRST_SYNC)) == Where(s.tasks, Beyond(PRIO_WAIT)) == {};
  }

  /** While one task holds the token, no other does. */
  lemma OneHolder(c: Setup, s: State, t: nat)
    requires Shape(c, s) && RingOk(c, s) && t in s.tasks && HoldsToken(s.tasks[t])
    ensures SumOf(s.sems) == 0 && !s.starter.Token? && forall u :: u in s.tasks && HoldsToken(s.tasks[u]) ==> u == t
  {
    SumOfNats(s.sems);
    Sole(s.tasks, t, HoldsToken);
  }

  lemma TokenMoves(c: Setup, s: State, t: nat)
    requires Shape(c, s) && Tokens(s) == 1 && t in s.tasks && s.tasks[t].Ring?
    ensures Tokens(RingStep(c, s, t)) == 1
  {
    hide Where, SumOf;
    var u := RingStep(c, s, t);
    if u.tasks == s.tasks[t := u.tasks[t]] { MoveOne(s.tasks, t, u.tasks[t], HoldsToken); }
    if s.tasks[t].part.Await? && s.sems[t] > 0 { SumUpdate(s.sems, t, s.sems[t] - 1); }
    if s.tasks[t].part.Pass? { SumUpdate(s.sems, NextOf(c, t), s.sems[NextOf(c, t)] + 1); }
  }

  lemma PrintLog(c: Setup, s: State, t: nat)
    requires Shape(c, s) && RingOk(c, s) && t in s.tasks && s.tasks[t].Ring? && s.tasks[t].part.Print?
    ensures var u := RingStep(c, s, t); u.log == Laps(c.n, u.round) + Lap(u.turn)
  {
    hide Where, SumOf;
    assert s.log + [t] == Laps(c.n, s.round) + (Lap(t) + [t]);
    assert Lap(t + 1) == Lap(t) + [t];
    if t + 1 == c.n { assert Laps(c.n, s.round + 1) == Laps(c.n, s.round) + Lap(c.n); }
  }

  /** Printing moves the turn on; for the other tasks nothing changes. */
  lemma TurnMoves(c: Setup, round: nat, turn: nat, t: nat, l: Place)
    requires turn < c.n && PlaceOk(c, round, turn, t, l) && t != turn && !HoldsToken(l)
    ensures PlaceOk(c, if turn + 1 == c.n then round + 1 else round, if turn + 1 == c.n then 0 else turn + 1, t, l)
  {
  }

  lemma RingPlaces(c: Setup, s: State, t: nat)
    requires Shape(c, s) && RingOk(c, s) && t in s.tasks && s.tasks[t].Ring?
    ensures var u := RingStep(c, s, t); PlacesOk(c, u.round, u.turn, u.tasks)
  {
    if HoldsToken(s.tasks[t]) { OneHolder(c, s, t); }
    hide Where, SumOf, Laps, Lap, Tokens;
    var u := RingStep(c, s, t);
    assert PlaceOk(c, s.round, s.turn, t, s.tasks[t]);
    forall x | x in u.tasks
      ensures PlaceOk(c, u.round, u.turn, x, u.tasks[x])
    {
      if x != t {
        assert PlaceOk(c, s.round, s.turn, x, s.tasks[x]);
        if s.tasks[t].part.Print? { TurnMoves(c, s.round, s.turn, x, s.tasks[x]); }
      }
    }
  }

  lemma RingKeeps(c: Setup, s: State, t: nat)
    requires Shape(c, s) && RingOk(c, s) && t in s.tasks && s.tasks[t].Ring?
    ensures RingOk(c, RingStep(c, s, t))
  {
    RingPlaces(c, s, t);
    TokenMoves(c, s, t);
    if s.tasks[t].part.Print? { PrintLog(c, s, t); }
    if HoldsToken(s.tasks[t]) { OneHolder(c, s, t); NoneParked(s.sems); }
    assert PlaceOk(c, s.round, s.turn, t, s.tasks[t]);
    hide Laps, Lap, Tokens, SumOf, PlacesOk;
  }

  lemma NoneParked(sems: seq<nat>)
    requires SumOf(sems) == 0
    ensures forall t :: 0 <= t < |sems| ==> sems[t] == 0
  {
    forall t | 0 <= t < |sems|
      ensures sems[t] == 0
    {
      SumUpdate(sems, t, 0);
      SumOfNats(sems[t := 0]);
    }
  }

  lemma AfterKeepsRing(c: Setup, s: State, t: nat, timeout: bool)
    requires Shape(c, s) && RingOk(c, s) && t in s.tasks && s.tasks[t].After?
    ensures RingOk(c, TaskStep(c, s, t, timeout))
  {
    hide Laps, Lap, SumOf, Where, Parked;
    var stage := s.tasks[t].stage;
    if Enabled(s, stage, timeout) {
      MoveOne(s.tasks, t, After(stage + 1), HoldsToken);
      assert PlaceOk(c, s.round, s.turn, t, s.tasks[t]);
      StillAfter(c, s, t, stage);
      hide PlacesOk, Shape;
    }
  }

  lemma StillAfter(c: Setup, s: State, t: nat, stage: nat)
    requires PlacesOk(c, s.round, s.turn, s.tasks) && t in s.tasks && s.tasks[t] == After(stage)
    ensures PlacesOk(c, s.round, s.turn, s.tasks[t := After(stage + 1)])
  {
    assert PlaceOk(c, s.round, s.turn, t, s.tasks[t]);
  }

  lemma StarterKeepsRing(c: Setup, s: State)
    requires Shape(c, s) && RingOk(c, s)
    ensures RingOk(c, StartStep(c, s))
  {
    hide Laps, Lap, SumOf, Where, PlacesOk;
    if s.starter.Token? { SumUpdate(s.sems, 0, s.sems[0] + 1); }
  }

  lemma {:induction false} RunKeeps(c: Setup, schedule: seq<Event>)
    requires c.n > 0
    ensures RingOk(c, Run(c, schedule)) && Phased(c, Run(c, schedule))
  {
    if schedule == [] {
      InitRing(c);
    } else {
      var s, e := Run(c, schedule[..|schedule| - 1]), schedule[|schedule| - 1];
      RunKeeps(c, schedule[..|schedule| - 1]);
      hide RingOk, Phased, StartStep, TaskStep, Run;
      match e {
        case Start => StarterKeepsRing(c, s); StarterKeepsPhase(c, s);
        case Task(t) => TaskKeeps(c, s, t, false);
        case Timeout(t) => TaskKeeps(c, s, t, true);
      }
    }
  }

  lemma TaskKeeps(c: Setup, s: State, t: nat, timeout: bool)
    requires Shape(c, s) && RingOk(c, s) && Phased(c, s)
    ensures RingOk(c, TaskStep(c, s, t, timeout)) && Phased(c, TaskStep(c, s, t, timeout))
  {
    hide RingOk, Phased;
    TaskKeepsPhase(c, s, t, timeout);
    if t in s.tasks {
      if s.tasks[t].Ring? { RingKeeps(c, s, t); } else { AfterKeepsRing(c, s, t, timeout); }
    }
  }

  // ---- Main results ----

  /** The value of a task's loop counter, r once it has left the loop. */
  function Counter(c: Setup, l: Place): nat {
    if l.Ring? then l.round else c.r
  }

  /** For any n and r, in every interleaving: one token in all, the names printed so far are the first of r rounds of
      0 ... n-1, all of them once the last task has left the loop, and the loop counters of two tasks differ by at
      most one. */
  lemma TokenRing(c: Setup, schedule: seq<Event>)
    requires c.n > 0
    ensures var s := Run(c, schedule);
      && Tokens(s) == 1
      && s.log <= Laps(c.n, c.r) && (s.tasks[c.n - 1].After? ==> s.log == Laps(c.n, c.r))
      && forall t, u :: 0 <= t < c.n && 0 <= u < c.n ==> Counter(c, s.tasks[t]) <= Counter(c, s.tasks[u]) + 1
  {
    RunKeeps(c, schedule);
    var s := Run(c, schedule);
    LapsPrefix(c.n, s.round, s.turn, c.r);
    assert PlaceOk(c, s.round, s.turn, c.n - 1, s.tasks[c.n - 1]);
    assert Laps(c.n, c.r) + Lap(0) == Laps(c.n, c.r);
    hide Laps, Lap, Tokens, Run;
    forall t | 0 <= t < c.n
      ensures CounterOk(s.round, s.turn, Counter(c, s.tasks[t]))
    {
      CounterNear(c, s.round, s.turn, t, s.tasks[t]);
    }
    hide Counter, PlacesOk, RingOk;
  }

  lemma CounterNear(c: Setup, round: nat, turn: nat, t: nat, l: Place)
    requires PlaceOk(c, round, turn, t, l) && turn < c.n
    ensures CounterOk(round, turn, Counter(c, l))
  {
  }

  predicate CounterOk(round: nat, turn: nat, counter: nat) {
    counter == round || (counter == round + 1 && turn > 0) || (counter + 1 == round && turn == 0)
  }

  predicate AtNewline(l: Place) {
    l.Ring? && l.part.Newline?
  }

  /** Newlines printed or about to be printed. */
  function Lines(s: State): nat {
    s.lines + |Where(s.tasks, AtNewline)|
  }

  lemma StepKeepsLines(c: Setup, s: State, e: Event)
    requires Shape(c, s)
    ensures var u := Step(c, s, e); Lines(u) == Lines(s) + u.round - s.round
  {
    hide Where;
    var u := Step(c, s, e);
    if e.Start? {
      assert u.tasks == s.tasks;
    } else if e.t in s.tasks {
      assert u.tasks == s.tasks || u.tasks == s.tasks[e.t := u.tasks[e.t]];
      MoveOne(s.tasks, e.t, u.tasks[e.t], AtNewline);
    }
  }

  lemma {:induction false} RunKeepsLines(c: Setup, schedule: seq<Event>)
    requires c.n > 0
    ensures var s := Run(c, schedule); Lines(s) == s.round
  {
    if schedule == [] {
      assert Where(Init(c).tasks, AtNewline) == {};
    } else {
      RunKeepsLines(c, schedule[..|schedule| - 1]);
      StepKeepsLines(c, Run(c, schedule[..|schedule| - 1]), schedule[|schedule| - 1]);
      hide Step, Lines;
    }
  }

  /** In every interleaving a newline ends each round of names: there are as many as complete rounds, except while
      the last task is about to print one, before it passes the token on. */
  lemma Newlines(c: Setup, schedule: seq<Event>)
    requires c.n > 0
    ensures var s := Run(c, schedule);
      && s.log == Laps(c.n, s.round) + Lap(s.turn) && s.turn < c.n
      && (if AtNewline(s.tasks[c.n - 1]) then s.lines + 1 == s.round else s.lines == s.round)
  {
    RunKeeps(c, schedule);
    RunKeepsLines(c, schedule);
    var s := Run(c, schedule);
    hide Run, Phased;
    OnlyLastAtNewline(c, s);
    hide Laps, Lap, Where, Tokens, Parked, PlacesOk;
  }

  lemma OnlyLastAtNewline(c: Setup, s: State)
    requires Shape(c, s) && PlacesOk(c, s.round, s.turn, s.tasks)
    ensures |Where(s.tasks, AtNewline)| == if AtNewline(s.tasks[c.n - 1]) then 1 else 0
  {
    forall t | t in s.tasks && AtNewline(s.tasks[t])
      ensures t == c.n - 1
    {
      assert PlaceOk(c, s.round, s.turn, t, s.tasks[t]);
    }
    assert Where(s.tasks, AtNewline) == if AtNewline(s.tasks[c.n - 1]) then {c.n - 1} else {};
  }

  /** All tasks stand at or beyond the stage. */
  ghost predicate AllAt(c: Setup, s: State, stage: nat)
    requires Shape(c, s)
  {
    forall t :: 0 <= t < c.n ==> s.tasks[t].After? && s.tasks[t].stage >= stage
  }

  predicate Reached(s: State, t: nat, stage: nat)
    requires t in s.tasks
  {
    s.tasks[t].After? && s.tasks[t].stage >= stage
  }

  /** No task passes a barrier before all tasks and the starter have reached it. */
  lemma Barriers(c: Setup, schedule: seq<Event>, t: nat)
    requires c.n > 0 && t < c.n
    ensures var s := Run(c, schedule);
      && (Reached(s, t, PRIO_PRINT) ==> AllAt(c, s, PRIO_WAIT) && !s.starter.Token? && !s.starter.Gather1?)
      && (Reached(s, t, MAIL_OUT) ==>
            AllAt(c, s, MAIL_IN) && (s.starter.Mail? || s.starter.Collect? || s.starter.Release? || s.starter.Done?))
      && (Reached(s, t, MAIL_TIMED) ==> AllAt(c, s, LAST_WAIT) && (s.starter.Release? || s.starter.Done?))
  {
    RunKeeps(c, schedule);
    var s := Run(c, schedule);
    hide Run, RingOk;
    Ordered(c, s);
    StagesSeen(c, s, t);
    hide Count;
    var p := Count(s.tasks);
    if p.first == c.n { EveryoneAt(c, s, FIRST_SYNC); }
    if p.second == c.n { EveryoneAt(c, s, SECOND_SYNC); }
    if p.mailOut == c.n { EveryoneAt(c, s, MAIL_OUT); }
  }

  lemma StagesSeen(c: Setup, s: State, t: nat)
    requires Shape(c, s) && t < c.n
    ensures var p := Count(s.tasks);
      && (Reached(s, t, PRIO_PRINT) ==> p.prio > 0) && (Reached(s, t, MAIL_OUT) ==> p.mailIn > 0)
      && (Reached(s, t, MAIL_TIMED) ==> p.last > 0)
  {
    hide Passed;
    var p := Count(s.tasks);
    if p.prio == 0 { NonePassed(c, s, PRIO_WAIT, t); }
    if p.mailIn == 0 { NonePassed(c, s, MAIL_IN, t); }
    if p.last == 0 { NonePassed(c, s, LAST_WAIT, t); }
  }

  lemma EveryoneAt(c: Setup, s: State, stage: nat)
    requires Shape(c, s) && Passed(s.tasks, stage) == c.n
    ensures forall k: nat :: k <= stage + 1 ==> AllAt(c, s, k)
  {
    forall t | 0 <= t < c.n
      ensures s.tasks[t].After? && s.tasks[t].stage > stage
    {
      AllPassed(c, s, stage, t);
    }
  }

  /** sync_sem is never confused: while the starter waits on it, its value counts only task signals of the phase the
      starter waits for; when a task's last wait can succeed, the starter has consumed both signals of every task and
      every unit left is one of the starter's own. */
  lemma SignalsNeverConfused(c: Setup, schedule: seq<Event>)
    requires c.n > 0
    ensures var s := Run(c, schedule); var p := Count(s.tasks);
      && (s.starter.Gather1? ==> s.sync + s.starter.i == p.first && p.second == 0 && p.last == 0)
      && (s.starter.Gather2? ==> p.first == c.n && s.sync + s.starter.i == p.second && p.last == 0)
      && (s.starter.Release? ==> p.first == p.second == c.n && s.sync + p.last == s.starter.i)
      && (s.starter.Done? ==> p.first == p.second == c.n && s.sync + p.last == c.n)
      && (forall t :: 0 <= t < c.n && s.tasks[t] == After(LAST_WAIT) && s.sync > 0 ==>
            s.starter.Release? || s.starter.Done?)
  {
    RunKeeps(c, schedule);
    var s := Run(c, schedule);
    hide Run, RingOk;
    Ordered(c, s);
    forall t | 0 <= t < c.n && s.tasks[t] == After(LAST_WAIT) && s.sync > 0
      ensures s.starter.Release? || s.starter.Done?
    {
      StageBounds(c, s, t);
    }
    hide Count;
  }

  /** Whenever a task comes to its timed receive, mbx_in is empty. */
  lemma TimedReceiveFindsNothing(c: Setup, schedule: seq<Event>, t: nat)
    requires c.n > 0 && t < c.n
    ensures var s := Run(c, schedule); s.tasks[t] == After(MAIL_TIMED) ==> s.mbxIn == []
  {
    RunKeeps(c, schedule);
    Barriers(c, schedule, t);
    hide Run, RingOk, Count;
  }

  // ---- The mail ----

  /** xs lists the tasks that have left the stage, each once. */
  ghost predicate Lists(xs: seq<nat>, tasks: map<nat, Place>, stage: nat) {
    && (forall i, j :: 0 <= i < j < |xs| ==> xs[i] != xs[j])
    && (forall t :: t in xs <==> t in tasks && Beyond(stage)(tasks[t]))
  }

  /** How many messages the starter has put into mbx_in. */
  function Sent(c: Setup, starter: Starter): nat {
    if starter.Mail? then starter.i
    else if starter.Collect? || starter.Release? || starter.Done? then c.n
    else 0
  }

  ghost predicate MailOk(c: Setup, s: State) {
    && s.messages + s.mbxIn == Lap(Sent(c, s.starter)) && |s.takers| == |s.messages|
    && Lists(s.takers, s.tasks, MAIL_IN) && Lists(s.collected + s.mbxOut, s.tasks, MAIL_OUT)
  }

  lemma ListsLeave(xs: seq<nat>, tasks: map<nat, Place>, t: nat, stage: nat, k: nat)
    requires Lists(xs, tasks, k) && t in tasks && tasks[t] == After(stage)
    ensures Lists(if k == stage then xs + [t] else xs, tasks[t := After(stage + 1)], k)
  {
    if k == stage {
      assert t !in xs;
      assert forall u :: u in xs + [t] <==> u in xs || u == t;
    }
  }

  lemma ListsRing(xs: seq<nat>, tasks: map<nat, Place>, t: nat, next: Place, k: nat)
    requires Lists(xs, tasks, k) && t in tasks && tasks[t].Ring? && (next.Ring? || next.stage == 0)
    ensures Lists(xs, tasks[t := next], k)
  {
  }

  lemma StarterKeepsMail(c: Setup, s: State)
    requires Shape(c, s) && Phased(c, s) && MailOk(c, s)
    ensures MailOk(c, StartStep(c, s))
  {
    hide Lists, Count;
    match s.starter
    case Mail(i) =>
      if i < c.n { assert s.messages + (s.mbxIn + [i]) == (s.messages + s.mbxIn) + [i]; }
    case Collect(i) =>
      if i < c.n && s.mbxOut != [] { assert (s.collected + [s.mbxOut[0]]) + s.mbxOut[1..] == s.collected + s.mbxOut; }
    case _ =>
  }

  lemma LeavingKeepsMail(c: Setup, s: State, t: nat, timeout: bool)
    requires Shape(c, s) && Phased(c, s) && MailOk(c, s)
    requires t in s.tasks && s.tasks[t].After? && Enabled(s, s.tasks[t].stage, timeout)
    ensures MailOk(c, TaskStep(c, s, t, timeout))
  {
    var stage, u := s.tasks[t].stage, TaskStep(c, s, t, timeout);
    if stage == MAIL_TIMED { NothingLeft(c, s, t); }
    LeavingMessages(s, stage, timeout, t);
    ListsLeave(s.takers, s.tasks, t, stage, MAIL_IN);
    ListsLeave(s.collected + s.mbxOut, s.tasks, t, stage, MAIL_OUT);
    assert u == Effect(s, stage, timeout, t).(tasks := s.tasks[t := After(stage + 1)]);
    hide Phased, Lists, Lap, Effect, Enabled, Shape;
  }

  /** What leaving a stage does to the two mailboxes and their histories. */
  lemma LeavingMessages(s: State, stage: nat, timeout: bool, t: nat)
    requires Enabled(s, stage, timeout) && (stage == MAIL_TIMED ==> s.mbxIn == [])
    ensures var u := Effect(s, stage, timeout, t);
      && u.starter == s.starter && u.messages + u.mbxIn == s.messages + s.mbxIn
      && |u.messages| - |s.messages| == |u.takers| - |s.takers|
      && u.takers == (if stage == MAIL_IN then s.takers + [t] else s.takers)
      && u.collected + u.mbxOut ==
           (if stage == MAIL_OUT then (s.collected + s.mbxOut) + [t] else s.collected + s.mbxOut)
  {
    if stage == MAIL_IN { assert (s.messages + [s.mbxIn[0]]) + s.mbxIn[1..] == s.messages + s.mbxIn; }
    if stage == MAIL_OUT { assert s.collected + (s.mbxOut + [t]) == (s.collected + s.mbxOut) + [t]; }
  }

  lemma NothingLeft(c: Setup, s: State, t: nat)
    requires Shape(c, s) && Phased(c, s) && t in s.tasks && s.tasks[t] == After(MAIL_TIMED)
    ensures s.mbxIn == []
  {
    StageBounds(c, s, t);
    hide Count;
  }

  lemma RingingKeepsMail(c: Setup, s: State, t: nat)
    requires Shape(c, s) && MailOk(c, s) && t in s.tasks && s.tasks[t].Ring?
    ensures MailOk(c, RingStep(c, s, t))
  {
    hide Lists, Lap;
    var u := RingStep(c, s, t);
    var next := u.tasks[t];
    ListsRing(s.takers, s.tasks, t, next, MAIL_IN);
    ListsRing(s.collected + s.mbxOut, s.tasks, t, next, MAIL_OUT);
    assert u.tasks == s.tasks || u.tasks == s.tasks[t := next];
  }

  lemma TaskKeepsMail(c: Setup, s: State, t: nat, timeout: bool)
    requires Shape(c, s) && Phased(c, s) && MailOk(c, s)
    ensures MailOk(c, TaskStep(c, s, t, timeout))
  {
    hide Phased, MailOk;
    if t in s.tasks {
      match s.tasks[t]
      case Ring(_, _) => RingingKeepsMail(c, s, t);
      case After(stage) => if Enabled(s, stage, timeout) { LeavingKeepsMail(c, s, t, timeout); }
    }
  }

  lemma InitMail(c: Setup)
    ensures MailOk(c, Init(c))
  {
  }

  lemma {:induction false} RunKeepsMail(c: Setup, schedule: seq<Event>)
    requires c.n > 0
    ensures MailOk(c, Run(c, schedule))
  {
    hide RingOk, Phased, MailOk, StartStep, TaskStep;
    if schedule == [] {
      InitMail(c);
    } else {
      var s, e := Run(c, schedule[..|schedule| - 1]), schedule[|schedule| - 1];
      RunKeeps(c, schedule[..|schedule| - 1]);
      RunKeepsMail(c, schedule[..|schedule| - 1]);
      match e {
        case Start => StarterKeepsMail(c, s);
        case Task(t) => TaskKeepsMail(c, s, t, false);
        case Timeout(t) => TaskKeepsMail(c, s, t, true);
      }
    }
  }

  /** Every one of 0, ..., n - 1 is listed exactly once. */
  ghost predicate Permutes(xs: seq<nat>, n: nat) {
    (forall i, j :: 0 <= i < j < |xs| ==> xs[i] != xs[j]) && (forall t: nat :: t in xs <==> t < n)
  }

  lemma ListsAll(c: Setup, s: State, xs: seq<nat>, stage: nat)
    requires Shape(c, s) && Lists(xs, s.tasks, stage) && Passed(s.tasks, stage) == c.n
    ensures Permutes(xs, c.n)
  {
    forall t: nat
      ensures t in xs <==> t < c.n
    {
      if t < c.n { AllPassed(c, s, stage, t); }
    }
  }

  /** Every message is delivered, and to one task each: what the tasks have received from mbx_in is, in order, the first
      of the messages 0, 1, ..., by tasks all different; when the starter releases the tasks, each has received one of
      the n messages and the starter has received each task's answer exactly once. */
  lemma MailDelivered(c: Setup, schedule: seq<Event>)
    requires c.n > 0
    ensures var s := Run(c, schedule);
      && s.messages <= Lap(c.n) && |s.takers| == |s.messages|
      && (forall i, j :: 0 <= i < j < |s.takers| ==> s.takers[i] != s.takers[j])
      && (s.starter.Release? || s.starter.Done? ==>
            s.messages == Lap(c.n) && Permutes(s.takers, c.n) && Permutes(s.collected, c.n))
  {
    RunKeeps(c, schedule);
    RunKeepsMail(c, schedule);
    var s := Run(c, schedule);
    hide Run, RingOk;
    Ordered(c, s);
    if s.starter.Release? || s.starter.Done? {
      assert s.collected + s.mbxOut == s.collected && s.messages + s.mbxIn == s.messages;
      ListsAll(c, s, s.takers, MAIL_IN);
      ListsAll(c, s, s.collected, MAIL_OUT);
    }
    SentBound(c, s);
    hide Count, Lists, Lap;
  }

  lemma SentBound(c: Setup, s: State)
    requires Phased(c, s)
    ensures Lap(Sent(c, s.starter)) <= Lap(c.n)
  {
    hide Count, Lap;
    LapPrefix(Sent(c, s.starter), c.n);
  }

  /** Both mailboxes have room for n messages, and no send ever finds one of them full. */
  lemma MailboxesHaveRoom(c: Setup, schedule: seq<Event>)
    requires c.n > 0
    ensures var s := Run(c, schedule);
      && |s.mbxIn| <= c.n && |s.mbxOut| <= c.n
      && (s.starter.Mail? && s.starter.i < c.n ==> |s.mbxIn| < c.n)
      && (forall t :: 0 <= t < c.n && s.tasks[t] == After(MAIL_OUT) ==> |s.mbxOut| < c.n)
  {
    RunKeeps(c, schedule);
    var s := Run(c, schedule);
    hide Run, RingOk;
    Ordered(c, s);
    forall t | 0 <= t < c.n && s.tasks[t] == After(MAIL_OUT)
      ensures |s.mbxOut| < c.n
    {
      StageBounds(c, s, t);
    }
    hide Count;
  }

  // ---- The units of the priority semaphore ----

  /** How often the starter has signalled prio_sem. */
  function Signalled(c: Setup, starter: Starter): nat {
    if starter.Token? || starter.Gather1? then 0 else if starter.Prio? then starter.i else c.n
  }

  /** Every unit of prio_sem is there, or went to a first wait, or to a timed wait. */
  ghost predicate UnitsOk(c: Setup, s: State) {
    s.prio + Passed(s.tasks, PRIO_WAIT) + s.stolen == Signalled(c, s.starter) <= c.n
  }

  lemma StarterKeepsUnits(c: Setup, s: State)
    requires Shape(c, s) && UnitsOk(c, s)
    ensures UnitsOk(c, StartStep(c, s))
  {
    hide Passed;
  }

  lemma TaskKeepsUnits(c: Setup, s: State, t: nat, timeout: bool)
    requires Shape(c, s) && UnitsOk(c, s)
    ensures UnitsOk(c, TaskStep(c, s, t, timeout))
  {
    hide Passed;
    var u := TaskStep(c, s, t, timeout);
    if t in s.tasks && u.tasks != s.tasks {
      if s.tasks[t].Ring? {
        StayBefore(s, u, t, u.tasks[t], PRIO_WAIT);
      } else {
        LeaveStage(s, u, t, s.tasks[t].stage, PRIO_WAIT);
      }
    }
  }

  lemma InitUnits(c: Setup)
    ensures UnitsOk(c, Init(c))
  {
    assert Where(Init(c).tasks, Beyond(PRIO_WAIT)) == {};
  }

  lemma {:induction false} RunKeepsUnits(c: Setup, schedule: seq<Event>)
    requires c.n > 0
    ensures UnitsOk(c, Run(c, schedule))
  {
    hide UnitsOk, StartStep, TaskStep;
    if schedule == [] {
      InitUnits(c);
    } else {
      var s, e := Run(c, schedule[..|schedule| - 1]), schedule[|schedule| - 1];
      RunKeepsUnits(c, schedule[..|schedule| - 1]);
      match e {
        case Start => StarterKeepsUnits(c, s);
        case Task(t) => TaskKeepsUnits(c, s, t, false);
        case Timeout(t) => TaskKeepsUnits(c, s, t, true);
      }
    }
  }
}
