/** dispclk.c: Display_PutHour, Display_PutTimes and Display_Get, a two-slot buffer that keeps only the latest
    chain of each slot, with any number of producing and consuming tasks.

    Every step of a task is one semaphore operation or one access to a shared variable; a step of a blocked task
    changes nothing. */
module Display {
  import opened Counting

  type Chain = c: seq<char> | |c| == 12 witness "            "

  datatype Slot = HourSlot | TimesSlot

  datatype Place =
    | Idle
    // Display_PutHour, Display_PutTimes
    | PutLock(slot: Slot, chain: Chain)
    | PutStore(slot: Slot, chain: Chain)
    | PutTag(slot: Slot)
    | PutTest(slot: Slot)
    | PutFill(slot: Slot)
    | PutSignal(slot: Slot)
    // Display_Get
    | GetWait
    | GetLock
    | GetTest
    | GetCopy(slot: Slot)
    | GetClear(slot: Slot)
    | GetReturn
    // leaving Put
    | PutReturn

  /** One delivery by Display_Get: from which slot, which of the puts to that slot, and the characters. */
  datatype Delivery = Delivery(slot: Slot, index: nat, chain: Chain)

  /** A slot: the stored chain, whether it is full, and the history of tagged chains put into it. */
  datatype Buffer = Buffer(content: Chain, full: bool, puts: seq<Chain>)

  /** gets: the deliveries so far; returned: completed calls of Display_Get. */
  datatype State = State(hour: Buffer, times: Buffer, notEmpty: nat, mutex: nat, tasks: map<nat, Place>,
                         gets: seq<Delivery>, returned: nat)
  {
    function Of(slot: Slot): Buffer {
      if slot == HourSlot then hour else times
    }

    function With(slot: Slot, b: Buffer): State {
      if slot == HourSlot then this.(hour := b) else this.(times := b)
    }
  }

  datatype Event = CallPut(task: nat, slot: Slot, chain: Chain) | CallGet(task: nat) | Go(task: nat)

  function Init(garbage: Chain): State {
    State(Buffer(garbage, false, []), Buffer(garbage, false, []), 0, 1, map[], [], 0)
  }

  function At(s: State, p: nat): Place {
    if p in s.tasks then s.tasks[p] else Idle
  }

  function Tag(slot: Slot): char {
    if slot == HourSlot then 'h' else 't'
  }

  function Tagged(slot: Slot, c: Chain): Chain {
    c[0 := Tag(slot)]
  }

  /** A task blocked on a semaphore cannot step. */
  predicate Enabled(s: State, l: Place) {
    match l
    case Idle => false
    case PutLock(_, _) => s.mutex > 0
    case GetLock => s.mutex > 0
    case GetWait => s.notEmpty > 0
    case _ => true
  }

  /** Where a task at l goes next. */
  function Next(s: State, l: Place): Place {
    match l
    case Idle => Idle
    case PutLock(slot, chain) => PutStore(slot, chain)
    case PutStore(slot, _) => PutTag(slot)
    case PutTag(slot) => PutTest(slot)
    case PutTest(slot) => if s.Of(slot).full then PutReturn else PutFill(slot)
    case PutFill(slot) => PutSignal(slot)
    case PutSignal(_) => PutReturn
    case PutReturn => Idle
    case GetWait => GetLock
    case GetLock => GetTest
    case GetTest => if s.times.full then GetCopy(TimesSlot) else if s.hour.full then GetCopy(HourSlot) else GetReturn
    case GetCopy(slot) => GetClear(slot)
    case GetClear(_) => GetReturn
    case GetReturn => Idle
  }

  /** What the step of a task at l does to the shared variables. */
  function Effect(s: State, l: Place): State
    requires Enabled(s, l)
  {
    match l
    case PutLock(_, _) => s.(mutex := s.mutex - 1)
    case PutStore(slot, chain) => s.With(slot, s.Of(slot).(content := chain))
    case PutTag(slot) =>
      var b := s.Of(slot);
      var c := Tagged(slot, b.content);
      s.With(slot, b.(content := c, puts := b.puts + [c]))
    case PutFill(slot) => s.With(slot, s.Of(slot).(full := true))
    case PutSignal(_) => s.(notEmpty := s.notEmpty + 1)
    case PutReturn => s.(mutex := s.mutex + 1)
    case GetWait => s.(notEmpty := s.notEmpty - 1)
    case GetLock => s.(mutex := s.mutex - 1)
    case GetCopy(slot) =>
      var b := s.Of(slot);
      var last := if b.puts == [] then 0 else |b.puts| - 1;
      s.(gets := s.gets + [Delivery(slot, last, b.content)])
    case GetClear(slot) => s.With(slot, s.Of(slot).(full := false))
    case GetReturn => s.(mutex := s.mutex + 1, returned := s.returned + 1)
    case _ => s
  }

  function GoStep(s: State, p: nat): State {
    var l := At(s, p);
    if !Enabled(s, l) then s else Effect(s, l).(tasks := s.tasks[p := Next(s, l)])
  }

  function Step(s: State, e: Event): State {
    match e
    case CallPut(p, slot, chain) => if At(s, p).Idle? then s.(tasks := s.tasks[p := PutLock(slot, chain)]) else s
    case CallGet(p) => if At(s, p).Idle? then s.(tasks := s.tasks[p := GetWait]) else s
    case Go(p) => GoStep(s, p)
  }

  function Run(garbage: Chain, schedule: seq<Event>): State {
    if schedule == [] then Init(garbage)
    else Step(Run(garbage, schedule[..|schedule| - 1]), schedule[|schedule| - 1])
  }

  // ---- Counting ----

  /** Between a wait on the mutex and the signal that ends it. */
  predicate Critical(l: Place) {
    !(l.Idle? || l.PutLock? || l.GetWait? || l.GetLock?)
  }

  /** A consumer already past notEmpty that has not yet emptied a slot. */
  predicate PastNotEmpty(l: Place) {
    l.GetLock? || l.GetTest? || l.GetCopy? || l.GetClear?
  }

  predicate AboutToSignal(l: Place) {
    l.PutSignal?
  }

  function Full(s: State): nat {
    (if s.hour.full then 1 else 0) + if s.times.full then 1 else 0
  }

  /** The last of the puts to the slot has not been delivered. */
  ghost predicate IsNew(slot: Slot, puts: seq<Chain>, gets: seq<Delivery>) {
    |puts| > 0 && forall i :: 0 <= i < |gets| && gets[i].slot == slot ==> gets[i].index < |puts| - 1
  }

  ghost predicate Latest(b: Buffer) {
    b.puts != [] ==> b.content == b.puts[|b.puts| - 1]
  }

  ghost predicate CountsOk(s: State) {
    && s.mutex + |Where(s.tasks, Critical)| == 1
    && s.notEmpty + |Where(s.tasks, PastNotEmpty)| + |Where(s.tasks, AboutToSignal)| == Full(s)
  }

  /** What the place of a task says about the slots. */
  ghost predicate PlaceOk(s: State, l: Place) {
    match l
    case PutTest(slot) => IsNew(slot, s.Of(slot).puts, s.gets)
    case PutFill(slot) => IsNew(slot, s.Of(slot).puts, s.gets) && !s.Of(slot).full
    case PutSignal(slot) => s.Of(slot).full
    case GetCopy(slot) => s.Of(slot).full && (slot == HourSlot ==> !s.times.full)
    case GetClear(slot) => s.Of(slot).full
    case _ => true
  }

  /** Outside a put to the slot its content is the latest put; outside a delivery a full slot holds a new one. */
  ghost predicate SlotOk(s: State, slot: Slot) {
    && (Nobody(s.tasks, PutTag(slot)) ==> Latest(s.Of(slot)))
    && (s.Of(slot).full && Nobody(s.tasks, GetClear(slot)) ==> IsNew(slot, s.Of(slot).puts, s.gets))
  }

  ghost predicate Nobody(tasks: map<nat, Place>, l: Place) {
    forall p :: p in tasks ==> tasks[p] != l
  }

  /** Deliveries are of puts actually made, in order, each at most once. */
  ghost predicate Faithful(gets: seq<Delivery>, hours: seq<Chain>, times: seq<Chain>) {
    && (forall i :: 0 <= i < |gets| ==>
          var puts := if gets[i].slot == HourSlot then hours else times;
          gets[i].index < |puts| && gets[i].chain == puts[gets[i].index])
    && (forall i, j :: 0 <= i < j < |gets| && gets[i].slot == gets[j].slot ==> gets[i].index < gets[j].index)
  }

  /** Consumers that have delivered and not yet returned. */
  predicate Delivered(l: Place) {
    l.GetClear? || l.GetReturn?
  }

  ghost predicate Inv(s: State) {
    && CountsOk(s)
    && (forall p :: p in s.tasks ==> PlaceOk(s, s.tasks[p]))
    && SlotOk(s, HourSlot) && SlotOk(s, TimesSlot)
    && Faithful(s.gets, s.hour.puts, s.times.puts)
    && |s.gets| == s.returned + |Where(s.tasks, Delivered)|
  }

  // ---- Every step keeps the invariant ----

  lemma EffectOnCounts(s: State, l: Place)
    requires Enabled(s, l) && PlaceOk(s, l) && (l == GetTest ==> Full(s) > 0)
    ensures var t, n := Effect(s, l), Next(s, l);
      && t.mutex + One(Critical(n)) == s.mutex + One(Critical(l))
      && t.notEmpty + One(PastNotEmpty(n)) + One(AboutToSignal(n)) + Full(s)
           == s.notEmpty + One(PastNotEmpty(l)) + One(AboutToSignal(l)) + Full(t)
      && |t.gets| + s.returned + One(Delivered(l)) == |s.gets| + t.returned + One(Delivered(n))
  {
  }

  lemma CountsKept(s: State, p: nat)
    requires CountsOk(s) && p in s.tasks && PlaceOk(s, s.tasks[p])
    requires |s.gets| == s.returned + |Where(s.tasks, Delivered)|
    ensures var t := GoStep(s, p); CountsOk(t) && |t.gets| == t.returned + |Where(t.tasks, Delivered)|
  {
    if Enabled(s, s.tasks[p]) {
      if s.tasks[p] == GetTest { NeverMisses(s, p); }
      StepOnCounts(s, p);
      hide GoStep, Where, Full, One, PlaceOk, Critical, PastNotEmpty, AboutToSignal, Delivered;
      var n := Next(s, s.tasks[p]);
      hide Next;
      MoveOne(s.tasks, p, n, Critical);
      MoveOne(s.tasks, p, n, PastNotEmpty);
      MoveOne(s.tasks, p, n, AboutToSignal);
      MoveOne(s.tasks, p, n, Delivered);
    }
  }

  lemma StepOnCounts(s: State, p: nat)
    requires p in s.tasks && Enabled(s, s.tasks[p]) && PlaceOk(s, s.tasks[p]) && (s.tasks[p] == GetTest ==> Full(s) > 0)
    ensures var t, l := GoStep(s, p), s.tasks[p]; var n := Next(s, l);
      && t.tasks == s.tasks[p := n]
      && t.mutex + One(Critical(n)) == s.mutex + One(Critical(l))
      && t.notEmpty + One(PastNotEmpty(n)) + One(AboutToSignal(n)) + Full(s)
           == s.notEmpty + One(PastNotEmpty(l)) + One(AboutToSignal(l)) + Full(t)
      && |t.gets| + s.returned + One(Delivered(l)) == |s.gets| + t.returned + One(Delivered(n))
  {
    EffectOnCounts(s, s.tasks[p]);
    hide Effect, Next, PlaceOk, Critical, PastNotEmpty, AboutToSignal, Delivered;
  }

  /** A consumer that got past notEmpty always finds a full slot. */
  lemma NeverMisses(s: State, p: nat)
    requires CountsOk(s) && p in s.tasks && s.tasks[p] == GetTest
    ensures Full(s) > 0
  {
    assert p in Where(s.tasks, PastNotEmpty);
  }

  /** The task in the critical section is alone there. */
  lemma Alone(s: State, p: nat)
    requires CountsOk(s) && p in s.tasks && Critical(s.tasks[p])
    ensures s.mutex == 0 && forall q :: q in s.tasks && Critical(s.tasks[q]) ==> q == p
  {
    Sole(s.tasks, p, Critical);
  }

  /** Two tasks never both stand in the critical section, so what a step does to a slot concerns no other task. */
  lemma OthersOk(s: State, p: nat, q: nat)
    requires Inv(s) && p in s.tasks && Enabled(s, s.tasks[p]) && q in s.tasks && q != p
    ensures PlaceOk(GoStep(s, p), s.tasks[q])
  {
    if Critical(s.tasks[p]) {
      Alone(s, p);
    } else {
      var t := GoStep(s, p);
      assert t == s.(mutex := t.mutex, notEmpty := t.notEmpty, tasks := t.tasks);
    }
  }

  lemma OwnPlaceOk(s: State, p: nat)
    requires Inv(s) && p in s.tasks && Enabled(s, s.tasks[p])
    ensures PlaceOk(GoStep(s, p), Next(s, s.tasks[p]))
  {
    hide CountsOk, SlotOk;
  }

  lemma NobodyMoved(s: State, p: nat, l: Place)
    requires CountsOk(s) && p in s.tasks && Enabled(s, s.tasks[p]) && Critical(l)
    ensures var t := GoStep(s, p);
      if Critical(s.tasks[p])
      then (Nobody(s.tasks, l) <==> s.tasks[p] != l) && (Nobody(t.tasks, l) <==> Next(s, s.tasks[p]) != l)
      else Nobody(s.tasks, l) && Next(s, s.tasks[p]) != l ==> Nobody(t.tasks, l)
    ensures !Critical(s.tasks[p]) && Nobody(GoStep(s, p).tasks, l) ==> Nobody(s.tasks, l)
  {
    var t := GoStep(s, p);
    if Critical(s.tasks[p]) { Alone(s, p); }
    hide CountsOk, Effect;
    assert forall q :: q in t.tasks && q != p ==> q in s.tasks && t.tasks[q] == s.tasks[q];
    assert t.tasks[p] == Next(s, s.tasks[p]);
  }

  lemma OneMoreGet(slot: Slot, puts: seq<Chain>, gets: seq<Delivery>, d: Delivery)
    requires d.slot != slot && IsNew(slot, puts, gets)
    ensures IsNew(slot, puts, gets + [d])
  {
    var more := gets + [d];
    forall i | 0 <= i < |more| && more[i].slot == slot
      ensures more[i].index < |puts| - 1
    {
      assert i < |gets| && more[i] == gets[i];
    }
  }

  lemma OneMorePut(slot: Slot, gets: seq<Delivery>, hours: seq<Chain>, times: seq<Chain>, c: Chain)
    requires Faithful(gets, hours, times)
    ensures IsNew(slot, (if slot == HourSlot then hours else times) + [c], gets)
  {
  }

  /** The latest content and the freshness of a slot survive every step. */
  lemma SlotKept(s: State, p: nat, slot: Slot)
    requires CountsOk(s) && p in s.tasks && Enabled(s, s.tasks[p]) && PlaceOk(s, s.tasks[p])
    requires SlotOk(s, slot) && Faithful(s.gets, s.hour.puts, s.times.puts)
    ensures SlotOk(GoStep(s, p), slot)
  {
    hide CountsOk, Where, Nobody, IsNew, Faithful;
    var l := s.tasks[p];
    NobodyMoved(s, p, PutTag(slot));
    NobodyMoved(s, p, GetClear(slot));
    match l {
      case GetCopy(other) =>
        if other != slot && s.Of(slot).full {
          OneMoreGet(slot, s.Of(slot).puts, s.gets, GoStep(s, p).gets[|s.gets|]);
        }
      case PutTag(_) => OneMorePut(slot, s.gets, s.hour.puts, s.times.puts, Tagged(slot, s.Of(slot).content));
      case _ =>
    }
  }

  lemma Deliver(gets: seq<Delivery>, hours: seq<Chain>, times: seq<Chain>, d: Delivery)
    requires Faithful(gets, hours, times)
    requires var puts := if d.slot == HourSlot then hours else times;
             IsNew(d.slot, puts, gets) && d.index == |puts| - 1 && d.chain == puts[d.index]
    ensures Faithful(gets + [d], hours, times)
  {
  }

  lemma Append(gets: seq<Delivery>, hours: seq<Chain>, times: seq<Chain>, c: Chain)
    requires Faithful(gets, hours, times)
    ensures Faithful(gets, hours + [c], times) && Faithful(gets, hours, times + [c])
  {
  }

  lemma GetsKept(s: State, p: nat)
    requires CountsOk(s) && p in s.tasks && Enabled(s, s.tasks[p]) && PlaceOk(s, s.tasks[p])
    requires SlotOk(s, HourSlot) && SlotOk(s, TimesSlot) && Faithful(s.gets, s.hour.puts, s.times.puts)
    ensures var t := GoStep(s, p); Faithful(t.gets, t.hour.puts, t.times.puts)
  {
    hide CountsOk, Where, Nobody, Faithful;
    var t, l := GoStep(s, p), s.tasks[p];
    match l {
      case GetCopy(slot) =>
        NobodyMoved(s, p, PutTag(slot));
        NobodyMoved(s, p, GetClear(slot));
        Deliver(s.gets, s.hour.puts, s.times.puts, t.gets[|s.gets|]);
      case PutTag(slot) =>
        Append(s.gets, s.hour.puts, s.times.puts, Tagged(slot, s.Of(slot).content));
      case _ =>
    }
  }

  lemma GoKeeps(s: State, p: nat)
    requires Inv(s)
    ensures Inv(GoStep(s, p))
  {
    if p in s.tasks && Enabled(s, s.tasks[p]) {
      CountsKept(s, p);
      var t := GoStep(s, p);
      forall q | q in t.tasks
        ensures PlaceOk(t, t.tasks[q])
      {
        if q == p { OwnPlaceOk(s, p); } else { OthersOk(s, p, q); }
      }
      SlotKept(s, p, HourSlot);
      SlotKept(s, p, TimesSlot);
      GetsKept(s, p);
    }
  }

  lemma CallKeepsCounts(s: State, p: nat, next: Place)
    requires CountsOk(s) && At(s, p).Idle? && (next.PutLock? || next.GetWait?)
    ensures CountsOk(s.(tasks := s.tasks[p := next]))
    ensures |Where(s.tasks[p := next], Delivered)| == |Where(s.tasks, Delivered)|
  {
    hide Where;
    MoveOne(s.tasks, p, next, Critical);
    MoveOne(s.tasks, p, next, PastNotEmpty);
    MoveOne(s.tasks, p, next, AboutToSignal);
    MoveOne(s.tasks, p, next, Delivered);
  }

  lemma CallKeeps(s: State, p: nat, next: Place)
    requires Inv(s) && At(s, p).Idle? && (next.PutLock? || next.GetWait?)
    ensures Inv(s.(tasks := s.tasks[p := next]))
  {
    CallKeepsCounts(s, p, next);
    CallKeepsSlot(s, p, next, HourSlot);
    CallKeepsSlot(s, p, next, TimesSlot);
    hide Where, IsNew, Faithful, CountsOk, SlotOk, PlaceOk;
    var t := s.(tasks := s.tasks[p := next]);
    forall q | q in t.tasks
      ensures PlaceOk(t, t.tasks[q])
    {
      if q == p { CallKeepsPlace(s, t.tasks, Idle, next); } else { CallKeepsPlace(s, t.tasks, s.tasks[q], next); }
    }
  }

  lemma CallKeepsPlace(s: State, tasks: map<nat, Place>, l: Place, next: Place)
    requires next.PutLock? || next.GetWait?
    ensures PlaceOk(s, l) ==> PlaceOk(s.(tasks := tasks), l)
    ensures PlaceOk(s.(tasks := tasks), next)
  {
    hide IsNew;
  }

  lemma CallKeepsSlot(s: State, p: nat, next: Place, slot: Slot)
    requires SlotOk(s, slot) && At(s, p).Idle? && (next.PutLock? || next.GetWait?)
    ensures SlotOk(s.(tasks := s.tasks[p := next]), slot)
  {
    hide IsNew, Latest;
    var more := s.tasks[p := next];
    forall l | Critical(l) && Nobody(more, l)
      ensures Nobody(s.tasks, l)
    {
      assert forall q :: q in s.tasks && q != p ==> more[q] == s.tasks[q];
    }
    assert Critical(PutTag(slot)) && Critical(GetClear(slot));
  }

  lemma {:induction false} RunKeeps(garbage: Chain, schedule: seq<Event>)
    ensures Inv(Run(garbage, schedule))
  {
    if schedule == [] {
      var s := Init(garbage);
      assert Where(s.tasks, Critical) == Where(s.tasks, PastNotEmpty) == Where(s.tasks, AboutToSignal) == {};
      assert Where(s.tasks, Delivered) == {};
    } else {
      var s, e := Run(garbage, schedule[..|schedule| - 1]), schedule[|schedule| - 1];
      RunKeeps(garbage, schedule[..|schedule| - 1]);
      hide Inv;
      match e
      case CallPut(p, slot, chain) => if At(s, p).Idle? { CallKeeps(s, p, PutLock(slot, chain)); }
      case CallGet(p) => if At(s, p).Idle? { CallKeeps(s, p, GetWait); }
      case Go(p) => GoKeeps(s, p);
    }
  }

  // ---- Main results ----

  /** In every interleaving, whenever the mutex is free, notEmpty plus the consumers already past it is the number
      of full slots; and every completed Display_Get has delivered a chain. */
  lemma FullSlotsAreAnnounced(garbage: Chain, schedule: seq<Event>)
    ensures var s := Run(garbage, schedule);
      && s.mutex <= 1
      && (s.mutex == 1 ==> s.notEmpty + |Where(s.tasks, PastNotEmpty)| == Full(s) && |s.gets| == s.returned)
      && s.returned <= |s.gets| <= s.returned + 1
  {
    RunKeeps(garbage, schedule);
    var s := Run(garbage, schedule);
    if s.mutex == 1 {
      NoneThere(s.tasks, Critical);
      assert Where(s.tasks, AboutToSignal) == {} && Where(s.tasks, Delivered) == {};
    } else {
      assert Where(s.tasks, Delivered) <= Where(s.tasks, Critical);
      SubsetCount(Where(s.tasks, Delivered), Where(s.tasks, Critical));
    }
  }

  /** In every interleaving the deliveries from a slot are distinct puts to that slot, in the order they were put,
      with exactly the characters put. */
  lemma NoPutDeliveredTwice(garbage: Chain, schedule: seq<Event>)
    ensures var s := Run(garbage, schedule); Faithful(s.gets, s.hour.puts, s.times.puts)
  {
    RunKeeps(garbage, schedule);
  }

  /** In every interleaving a delivery made by the next step is the latest put to its slot at that moment,
      beginning with h for the clock and t for the chronometer, and the clock is served only when the chronometer
      has nothing new. */
  lemma DeliversLatest(garbage: Chain, schedule: seq<Event>, p: nat)
    requires var s := Run(garbage, schedule); |GoStep(s, p).gets| > |s.gets|
    ensures var s := Run(garbage, schedule); var t := GoStep(s, p); var d := t.gets[|s.gets|];
      && t.gets == s.gets + [d]
      && s.Of(d.slot).full && d.index + 1 == |s.Of(d.slot).puts| && d.chain == s.Of(d.slot).puts[d.index]
      && d.chain[0] == (if d.slot == TimesSlot then 't' else 'h')
      && (d.slot == HourSlot ==> !s.times.full)
  {
    hide Run, CountsOk, Faithful, Nobody;
    RunKeeps(garbage, schedule);
    RunTags(garbage, schedule);
    var s := Run(garbage, schedule);
    NobodyMoved(s, p, PutTag(s.tasks[p].slot));
    NobodyMoved(s, p, GetClear(s.tasks[p].slot));
  }

  ghost predicate AllTagged(slot: Slot, puts: seq<Chain>) {
    forall i :: 0 <= i < |puts| ==> puts[i][0] == Tag(slot)
  }

  lemma {:induction false} RunTags(garbage: Chain, schedule: seq<Event>)
    ensures var s := Run(garbage, schedule); AllTagged(HourSlot, s.hour.puts) && AllTagged(TimesSlot, s.times.puts)
  {
    if schedule != [] {
      var s, e := Run(garbage, schedule[..|schedule| - 1]), schedule[|schedule| - 1];
      RunTags(garbage, schedule[..|schedule| - 1]);
      hide AllTagged, Run;
      if e.Go? {
        var l := At(s, e.task);
        if l.PutTag? { TagMore(l.slot, s.Of(l.slot).puts, s.Of(l.slot).content); }
      }
    }
  }

  lemma TagMore(slot: Slot, puts: seq<Chain>, c: Chain)
    requires AllTagged(slot, puts)
    ensures AllTagged(slot, puts + [Tagged(slot, c)])
  {
  }

  // ---- What is put, read off the schedule ----

  /** A call of Display_PutHour or Display_PutTimes. */
  datatype Put = Put(slot: Slot, chain: Chain)

  /** calls: the last put each task has called; hours, times: the chains whose calls have come to tag the slot,
      tagged. */
  datatype Log = Log(calls: map<nat, Put>, hours: seq<Chain>, times: seq<Chain>)

  function Noted(log: Log, s: State, e: Event): Log {
    match e
    case CallPut(p, slot, chain) => if At(s, p).Idle? then log.(calls := log.calls[p := Put(slot, chain)]) else log
    case CallGet(_) => log
    case Go(p) =>
      if !At(s, p).PutTag? || p !in log.calls then log
      else if log.calls[p].slot == HourSlot then log.(hours := log.hours + [log.calls[p].chain[0 := 'h']])
      else log.(times := log.times + [log.calls[p].chain[0 := 't']])
  }

  function LogOf(garbage: Chain, schedule: seq<Event>): Log {
    if schedule == [] then Log(map[], [], [])
    else
      var before := schedule[..|schedule| - 1];
      Noted(LogOf(garbage, before), Run(garbage, before), schedule[|schedule| - 1])
  }

  /** A task inside a put is where its call has brought it, and stores the chain it was called with. */
  predicate PutOk(s: State, l: Place, called: bool, put: Put) {
    match l
    case PutLock(slot, chain) => called && put == Put(slot, chain)
    case PutStore(slot, chain) => called && put == Put(slot, chain)
    case PutTag(slot) => called && put == Put(slot, s.Of(slot).content)
    case _ => true
  }

  function CallOf(log: Log, p: nat): Put {
    if p in log.calls then log.calls[p] else Put(HourSlot, "            ")
  }

  ghost predicate LogOk(s: State, log: Log) {
    && s.hour.puts == log.hours && s.times.puts == log.times
    && forall p :: p in s.tasks ==> PutOk(s, s.tasks[p], p in log.calls, CallOf(log, p))
  }

  lemma GoKeepsLog(s: State, log: Log, p: nat)
    requires CountsOk(s) && LogOk(s, log) && p in s.tasks && Enabled(s, s.tasks[p])
    ensures LogOk(GoStep(s, p), Noted(log, s, Go(p)))
  {
    if Critical(s.tasks[p]) { Alone(s, p); }
    hide CountsOk, Where;
    var t, more := GoStep(s, p), Noted(log, s, Go(p));
    assert PutOk(s, s.tasks[p], p in log.calls, CallOf(log, p));
    assert more.calls == log.calls && t.tasks == s.tasks[p := t.tasks[p]];
    forall q | q in t.tasks
      ensures PutOk(t, t.tasks[q], q in log.calls, CallOf(log, q))
    {
      if q != p {
        assert PutOk(s, s.tasks[q], q in log.calls, CallOf(log, q));
        OtherPut(s, p, s.tasks[q], q in log.calls, CallOf(log, q));
      }
    }
  }

  /** A step changes the content of a slot only in the critical section, where nobody else is. */
  lemma OtherPut(s: State, p: nat, l: Place, called: bool, put: Put)
    requires p in s.tasks && Enabled(s, s.tasks[p]) && PutOk(s, l, called, put)
    requires Critical(s.tasks[p]) ==> !Critical(l)
    ensures PutOk(GoStep(s, p), l, called, put)
  {
  }

  lemma CallKeepsLog(s: State, log: Log, e: Event)
    requires LogOk(s, log) && !e.Go?
    ensures LogOk(Step(s, e), Noted(log, s, e))
  {
    var t, more := Step(s, e), Noted(log, s, e);
    forall q | q in t.tasks
      ensures PutOk(t, t.tasks[q], q in more.calls, CallOf(more, q))
    {
      if q in s.tasks { assert PutOk(s, s.tasks[q], q in log.calls, CallOf(log, q)); }
    }
  }

  /** In every interleaving the chains put into a slot are those of the calls, in the order in which they came to
      it, with only the first character replaced: h for the clock, t for the chronometer. */
  lemma {:induction false} PutsAreCalled(garbage: Chain, schedule: seq<Event>)
    ensures LogOk(Run(garbage, schedule), LogOf(garbage, schedule))
  {
    if schedule != [] {
      var before, e := schedule[..|schedule| - 1], schedule[|schedule| - 1];
      PutsAreCalled(garbage, before);
      RunKeeps(garbage, before);
      var s, log := Run(garbage, before), LogOf(garbage, before);
      hide LogOk, CountsOk, PlaceOk, SlotOk, Faithful, Where;
      if e.Go? {
        if e.task in s.tasks && Enabled(s, s.tasks[e.task]) { GoKeepsLog(s, log, e.task); }
      } else {
        CallKeepsLog(s, log, e);
      }
    }
  }

  // ---- The C functions, called without preemption ----

  /** Task 0 steps until it is idle; at most seven steps. */
  ghost function PutCall(s: State, slot: Slot, chain: Chain): State {
    var a := GoStep(GoStep(GoStep(Step(s, CallPut(0, slot, chain)), 0), 0), 0);
    GoStep(GoStep(GoStep(GoStep(a, 0), 0), 0), 0)
  }

  ghost function GetCall(s: State): State {
    var a := GoStep(GoStep(GoStep(Step(s, CallGet(0)), 0), 0), 0);
    GoStep(GoStep(GoStep(a, 0), 0), 0)
  }

  /** The step of a task that is alone in the module. */
  lemma Advance(s: State, l: Place)
    requires s.tasks == map[0 := l]
    ensures GoStep(s, 0) == if Enabled(s, l) then Effect(s, l).(tasks := map[0 := Next(s, l)]) else s
  {
    assert s.tasks[0 := Next(s, l)] == map[0 := Next(s, l)];
  }

  lemma PutCallResult(s: State, slot: Slot, chain: Chain)
    requires s.tasks == map[] && s.mutex > 0
    ensures var b := s.Of(slot);
      PutCall(s, slot, chain) ==
        s.With(slot, Buffer(Tagged(slot, chain), true, b.puts + [Tagged(slot, chain)]))
         .(notEmpty := s.notEmpty + One(!b.full), tasks := map[0 := Idle])
  {
    hide GoStep, Tagged;
    var b, c := s.Of(slot), Tagged(slot, chain);
    var s0 := s.(tasks := map[0 := PutLock(slot, chain)]);
    assert Step(s, CallPut(0, slot, chain)) == s0;
    Advance(s0, PutLock(slot, chain));
    var s1 := s.(mutex := s.mutex - 1, tasks := map[0 := PutStore(slot, chain)]);
    assert GoStep(s0, 0) == s1;
    Advance(s1, PutStore(slot, chain));
    var s2 := s1.With(slot, b.(content := chain)).(tasks := map[0 := PutTag(slot)]);
    assert GoStep(s1, 0) == s2;
    Advance(s2, PutTag(slot));
    var s3 := s1.With(slot, Buffer(c, b.full, b.puts + [c])).(tasks := map[0 := PutTest(slot)]);
    assert GoStep(s2, 0) == s3;
    PutCallEnd(s3, slot);
  }

  lemma PutCallEnd(s: State, slot: Slot)
    requires s.tasks == map[0 := PutTest(slot)]
    ensures var b := s.Of(slot);
      GoStep(GoStep(GoStep(GoStep(s, 0), 0), 0), 0) ==
        s.With(slot, b.(full := true))
         .(mutex := s.mutex + 1, notEmpty := s.notEmpty + One(!b.full), tasks := map[0 := Idle])
  {
    hide GoStep;
    Advance(s, PutTest(slot));
    var s1 := GoStep(s, 0);
    if s.Of(slot).full {
      Advance(s1, PutReturn);
      Advance(GoStep(s1, 0), Idle);
    } else {
      Advance(s1, PutFill(slot));
      var s2 := GoStep(s1, 0);
      Advance(s2, PutSignal(slot));
      Advance(GoStep(s2, 0), PutReturn);
    }
  }

  lemma GetCallResult(s: State)
    requires s.tasks == map[] && s.mutex > 0 && s.notEmpty > 0
    ensures GetCall(s) == GetFinal(s.(notEmpty := s.notEmpty - 1, mutex := s.mutex - 1))
  {
    hide GoStep, GetFinal;
    var s0 := s.(tasks := map[0 := GetWait]);
    assert Step(s, CallGet(0)) == s0;
    Advance(s0, GetWait);
    var s1 := s.(notEmpty := s.notEmpty - 1, tasks := map[0 := GetLock]);
    assert GoStep(s0, 0) == s1;
    Advance(s1, GetLock);
    GetCallEnd(s1.(mutex := s.mutex - 1, tasks := map[]));
  }

  /** What Display_Get leaves, from the moment it holds the mutex. */
  ghost function GetFinal(s: State): State {
    var t := s.(mutex := s.mutex + 1, returned := s.returned + 1, tasks := map[0 := Idle]);
    if s.times.full then t.(times := s.times.(full := false), gets := s.gets + [LastOf(s, TimesSlot)])
    else if s.hour.full then t.(hour := s.hour.(full := false), gets := s.gets + [LastOf(s, HourSlot)])
    else t
  }

  ghost function LastOf(s: State, slot: Slot): Delivery {
    var b := s.Of(slot);
    Delivery(slot, if b.puts == [] then 0 else |b.puts| - 1, b.content)
  }

  lemma GetCallEnd(s: State)
    ensures GoStep(GoStep(GoStep(GoStep(s.(tasks := map[0 := GetTest]), 0), 0), 0), 0) == GetFinal(s)
  {
    hide GoStep;
    var s2 := s.(tasks := map[0 := GetTest]);
    Advance(s2, GetTest);
    var s3 := GoStep(s2, 0);
    if Full(s) == 0 {
      Advance(s3, GetReturn);
      Advance(GoStep(s3, 0), Idle);
    } else {
      TakeSlot(s, if s.times.full then TimesSlot else HourSlot);
    }
  }

  lemma TakeSlot(s: State, slot: Slot)
    ensures GoStep(GoStep(GoStep(s.(tasks := map[0 := GetCopy(slot)]), 0), 0), 0) ==
      s.With(slot, s.Of(slot).(full := false))
       .(mutex := s.mutex + 1, returned := s.returned + 1, tasks := map[0 := Idle], gets := s.gets + [LastOf(s, slot)])
  {
    hide GoStep;
    var s3 := s.(tasks := map[0 := GetCopy(slot)]);
    Advance(s3, GetCopy(slot));
    var s4 := s.(gets := s.gets + [LastOf(s, slot)], tasks := map[0 := GetClear(slot)]);
    assert GoStep(s3, 0) == s4;
    Advance(s4, GetClear(slot));
    Advance(GoStep(s4, 0), GetReturn);
  }

  /** The static variables of dispclk.c with the three functions in their own shape; a blocking wait returns only
      once its semaphore is positive, hence the preconditions. */
  class Screen {
    var hour: Chain
    var times: Chain
    var hourFull: bool
    var timesFull: bool
    var notEmpty: nat
    var mutex: nat

    constructor (garbage: Chain)
      ensures Quiet() == Init(garbage)
    {
      hour, times, hourFull, timesFull, notEmpty, mutex := garbage, garbage, false, false, 0, 1;
    }

    /** The module between calls, histories cleared. */
    ghost function Quiet(): State
      reads this
    {
      State(Buffer(hour, hourFull, []), Buffer(times, timesFull, []), notEmpty, mutex, map[], [], 0)
    }

    ghost predicate Agrees(s: State)
      reads this
    {
      At(s, 0) == Idle && s.hour.content == hour && s.hour.full == hourFull && s.times.content == times &&
      s.times.full == timesFull && s.notEmpty == notEmpty && s.mutex == mutex
    }

    method PutHour(chain: Chain)
      requires mutex > 0
      modifies this
      ensures Agrees(PutCall(old(Quiet()), HourSlot, chain))
    {
      hide PutCall;
      PutCallResult(Quiet(), HourSlot, chain);
      mutex := mutex - 1;
      hour := chain;
      hour := hour[0 := 'h'];
      if !hourFull {
        hourFull := true;
        notEmpty := notEmpty + 1;
      }
      mutex := mutex + 1;
    }

    method PutTimes(chain: Chain)
      requires mutex > 0
      modifies this
      ensures Agrees(PutCall(old(Quiet()), TimesSlot, chain))
    {
      hide PutCall;
      PutCallResult(Quiet(), TimesSlot, chain);
      mutex := mutex - 1;
      times := chain;
      times := times[0 := 't'];
      if !timesFull {
        timesFull := true;
        notEmpty := notEmpty + 1;
      }
      mutex := mutex + 1;
    }

    /** chain0 and receiver0 are what the caller's variables held before. */
    method Get(chain0: Chain, receiver0: Slot) returns (chain: Chain, receiver: Slot)
      requires notEmpty > 0 && mutex > 0
      modifies this
      ensures var t := GetCall(old(Quiet()));
        Agrees(t) && if old(Full(Quiet())) > 0
                     then |t.gets| == 1 && t.gets[0].slot == receiver && t.gets[0].chain == chain
                     else chain == chain0 && receiver == receiver0
    {
      hide GetCall;
      GetCallResult(Quiet());
      chain, receiver := chain0, receiver0;
      notEmpty := notEmpty - 1;
      mutex := mutex - 1;
      if timesFull {
        receiver := TimesSlot;
        chain := times;
        timesFull := false;
      } else if hourFull {
        receiver := HourSlot;
        chain := hour;
        hourFull := false;
      }
      mutex := mutex + 1;
    }
  }
}
