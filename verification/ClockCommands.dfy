/** cmdclk.c: CommandClock_Put and CommandClock_Get, in every interleaving of any number of putting tasks and
    the one getting task. Clockstatus changes only while the getter owns the token, so the status a command was
    admitted under is still the status when it is delivered. */
module ClockCommands {
  import opened CommandSlot

  datatype Status = Stopped | Running

  datatype Getter =
    | Switch              // about to read the status
    | StoppedWait         // stopped: about to wait on notEmpty
    | TryWait             // running: about to wait_if on notEmpty
    | Fetch               // owns the token, about to read the buffer
    | SetStatus(command: char, next: Status)
    | Release(command: char)  // about to signal notFull and return

  /** trace: commands delivered by Get; fetched: the characters read from the buffer. */
  datatype State = State(status: Status, slot: Slot, getter: Getter, trace: seq<char>, fetched: seq<char>)

  datatype Event = Call(task: nat, command: char) | Put(task: nat) | Get

  function Init(garbage: char): State {
    State(Stopped, Slot(garbage, 0, 1, map[], []), Switch, [], [])
  }

  predicate Admits(status: Status, c: char) {
    (status == Running) == (c == 'T')
  }

  function GetStep(s: State): State {
    match s.getter
    case Switch => s.(getter := if s.status == Stopped then StoppedWait else TryWait)
    case StoppedWait =>
      if s.slot.notEmpty == 0 then s else s.(slot := s.slot.(notEmpty := s.slot.notEmpty - 1), getter := Fetch)
    case TryWait =>
      if s.slot.notEmpty > 0 then s.(slot := s.slot.(notEmpty := s.slot.notEmpty - 1), getter := Fetch)
      else s.(trace := s.trace + ['R'], getter := Switch)
    case Fetch =>
      var c := s.slot.buffer;
      s.(fetched := s.fetched + [c],
         getter := if s.status == Stopped && c == 'R' then SetStatus(c, Running)
                   else if s.status == Running && c == 'T' then SetStatus(c, Stopped)
                   else Release(c))
    case SetStatus(c, next) => s.(status := next, getter := Release(c))
    case Release(c) => s.(slot := s.slot.(notFull := s.slot.notFull + 1), trace := s.trace + [c], getter := Switch)
  }

  function Step(s: State, e: Event): State {
    match e
    case Call(p, c) => s.(slot := CommandSlot.Call(s.slot, p, c))
    case Put(p) =>
      var here := PutterAt(s.slot, p);
      s.(slot := PutStep(s.slot, p, here.Testing? && Admits(s.status, here.command)))
    case Get => GetStep(s)
  }

  function Run(garbage: char, schedule: seq<Event>): State {
    if schedule == [] then Init(garbage)
    else Step(Run(garbage, schedule[..|schedule| - 1]), schedule[|schedule| - 1])
  }

  // ---- Legal traces ----

  /** The clock is running just before t[i] exactly when the preceding command was R. */
  predicate RunningAt(t: seq<char>, i: nat)
    requires i <= |t|
  {
    i > 0 && t[i - 1] == 'R'
  }

  /** While running only R and T are delivered, while stopped anything but T. */
  predicate Legal(t: seq<char>) {
    forall i :: 0 <= i < |t| ==> if RunningAt(t, i) then t[i] in {'R', 'T'} else t[i] != 'T'
  }

  predicate Reached(t: seq<char>, status: Status) {
    Legal(t) && (RunningAt(t, |t|) <==> status == Running)
  }

  lemma Extend(t: seq<char>, before: Status, c: char, after: Status)
    requires Reached(t, before)
    requires before == Stopped ==> c != 'T' && (after == Running <==> c == 'R')
    requires before == Running ==> (c == 'R' && after == Running) || (c == 'T' && after == Stopped)
    ensures Reached(t + [c], after)
  {
    var u := t + [c];
    forall i | 0 <= i < |u|
      ensures if RunningAt(u, i) then u[i] in {'R', 'T'} else u[i] != 'T'
    {
      if i < |t| { assert RunningAt(u, i) == RunningAt(t, i); } else { assert RunningAt(u, i) == RunningAt(t, |t|); }
    }
  }

  // ---- The invariant ----

  predicate GetterHolds(g: Getter) {
    g.Fetch? || g.SetStatus? || g.Release?
  }

  function AllTokens(s: State): nat {
    Tokens(s.slot) + if GetterHolds(s.getter) then 1 else 0
  }

  ghost predicate Loaded(s: State) {
    s.slot.notEmpty > 0 || s.getter.Fetch? || Unannounced(s.slot)
  }

  ghost predicate PuttersOk(s: State) {
    forall p :: p in s.slot.putters && s.slot.putters[p].Storing? ==> Admits(s.status, s.slot.putters[p].command)
  }

  predicate GetterOk(s: State) {
    match s.getter
    case Switch => Reached(s.trace, s.status)
    case StoppedWait => Reached(s.trace, s.status) && s.status == Stopped
    case TryWait => Reached(s.trace, s.status) && s.status == Running
    case Fetch => Reached(s.trace, s.status)
    case SetStatus(c, next) => Reached(s.trace, s.status) && Reached(s.trace + [c], next)
    case Release(c) => Reached(s.trace + [c], s.status)
  }

  ghost predicate Inv(s: State) {
    && AllTokens(s) == 1
    && PuttersOk(s)
    && GetterOk(s)
    && (Loaded(s) ==> Admits(s.status, s.slot.buffer))
    && s.slot.stored == s.fetched + (if Loaded(s) then [s.slot.buffer] else [])
  }

  lemma CallKeeps(s: State, p: nat, c: char)
    requires Inv(s)
    ensures Inv(Step(s, Call(p, c)))
  {
    CallKeepsTokens(s.slot, p, c);
    var t := Step(s, Call(p, c));
    assert forall q :: q in s.slot.putters && q != p ==> q in t.slot.putters && t.slot.putters[q] == s.slot.putters[q];
    assert Unannounced(t.slot) <==> Unannounced(s.slot);
  }

  lemma HolderUnloaded(s: State, p: nat)
    requires Inv(s) && p in s.slot.putters && Holds(s.slot.putters[p])
    ensures s.slot.notEmpty == s.slot.notFull == 0 && !GetterHolds(s.getter)
    ensures Loaded(s) <==> s.slot.putters[p] == Signalling(true)
    ensures forall q :: q in s.slot.putters && q != p ==> !Holds(s.slot.putters[q])
  {
    assert p in Holders(s.slot);
    SoleHolder(s.slot, p);
    forall q | q in s.slot.putters && q != p
      ensures !Holds(s.slot.putters[q])
    {
      assert q !in Holders(s.slot);
    }
  }

  lemma PutKeeps(s: State, p: nat)
    requires Inv(s)
    ensures Inv(Step(s, Put(p)))
  {
    hide Reached, Tokens, Holders;
    var t := Step(s, Put(p));
    var here := PutterAt(s.slot, p);
    PutKeepsTokens(s.slot, p, here.Testing? && Admits(s.status, here.command));
    assert forall q :: q in s.slot.putters && q != p ==> q in t.slot.putters && t.slot.putters[q] == s.slot.putters[q];
    if Holds(here) {
      HolderUnloaded(s, p);
      if here.Storing? { assert t.slot.putters[p] == Signalling(true); }
    } else {
      assert Unannounced(t.slot) <==> Unannounced(s.slot);
    }
  }

  lemma GetKeepsTokens(s: State)
    requires Inv(s)
    ensures AllTokens(GetStep(s)) == 1 && PuttersOk(GetStep(s))
    ensures Unannounced(GetStep(s).slot) <==> Unannounced(s.slot)
    ensures s.slot.notEmpty > 0 || GetterHolds(s.getter) ==> !Unannounced(s.slot)
  {
    var t := GetStep(s);
    assert Holders(t.slot) == Holders(s.slot);
    if s.slot.notEmpty > 0 || GetterHolds(s.getter) {
      forall q | q in s.slot.putters
        ensures !Holds(s.slot.putters[q])
      {
        if Holds(s.slot.putters[q]) { HolderUnloaded(s, q); }
      }
    }
  }

  lemma GetKeepsTrace(s: State)
    requires Inv(s)
    ensures GetterOk(GetStep(s))
  {
    match s.getter
    case TryWait =>
      if s.slot.notEmpty == 0 { Extend(s.trace, Running, 'R', Running); }
    case Fetch =>
      var c := s.slot.buffer;
      Extend(s.trace, s.status, c, if c == 'R' then Running else Stopped);
    case _ =>
  }

  lemma GetKeeps(s: State)
    requires Inv(s)
    ensures Inv(GetStep(s))
  {
    GetKeepsTokens(s);
    GetKeepsTrace(s);
    var t := GetStep(s);
    assert s.fetched + [] == s.fetched;
    assert Loaded(t) <==> Loaded(s) && !s.getter.Fetch?;
  }

  lemma {:induction false} RunKeeps(garbage: char, schedule: seq<Event>)
    ensures Inv(Run(garbage, schedule))
  {
    if schedule == [] {
      assert Holders(Init(garbage).slot) == {};
    } else {
      var before := schedule[..|schedule| - 1];
      RunKeeps(garbage, before);
      match schedule[|schedule| - 1]
      case Call(p, c) => CallKeeps(Run(garbage, before), p, c);
      case Put(p) => PutKeeps(Run(garbage, before), p);
      case Get => GetKeeps(Run(garbage, before));
    }
  }

  // ---- Main result ----

  /** In every interleaving: one token, a faithful one-place channel, and T delivered only while running, every
      other command than R and T only while stopped. */
  lemma DeliveredCommands(garbage: char, schedule: seq<Event>)
    ensures AllTokens(Run(garbage, schedule)) == 1
    ensures Legal(Run(garbage, schedule).trace)
    ensures var s := Run(garbage, schedule);
            s.slot.stored == s.fetched || s.slot.stored == s.fetched + [s.slot.buffer]
  {
    RunKeeps(garbage, schedule);
    var s := Run(garbage, schedule);
    if s.getter.Release? {
      var u := s.trace + [s.getter.command];
      forall i | 0 <= i < |s.trace|
        ensures if RunningAt(s.trace, i) then s.trace[i] in {'R', 'T'} else s.trace[i] != 'T'
      {
        assert RunningAt(u, i) == RunningAt(s.trace, i) && u[i] == s.trace[i];
      }
    }
  }

  // ---- The C functions, called without preemption ----

  ghost function Continue(s: State): State {
    if s.getter.Switch? then s else GetStep(s)
  }

  /** A whole call of Get, none of whose steps is interrupted: at most five steps. */
  ghost function GetCall(s: State): State {
    Continue(Continue(Continue(Continue(GetStep(s)))))
  }

  /** The static variables of cmdclk.c with Put and Get in their own shape; a blocking wait returns only once
      its semaphore is positive, hence the preconditions. */
  class CommandClock {
    var status: Status
    var buffer: char
    var notEmpty: nat
    var notFull: nat

    constructor ()
      ensures Quiet() == Init(buffer)
    {
      notEmpty, notFull, status := 0, 1, Stopped;
    }

    ghost function Quiet(): State
      reads this
    {
      State(status, Slot(buffer, notEmpty, notFull, map[], []), Switch, [], [])
    }

    ghost predicate Agrees(s: State)
      reads this
    {
      s.status == status && s.getter == Switch &&
      s.slot.buffer == buffer && s.slot.notEmpty == notEmpty && s.slot.notFull == notFull
    }

    method Put(command: char)
      requires notFull > 0
      modifies this
      ensures var s := Step(Step(old(Quiet()), Call(0, command)), Event.Put(0));
              var t := Step(Step(Step(s, Event.Put(0)), Event.Put(0)), Event.Put(0));
              Agrees(t) && PutterAt(t.slot, 0) == Idle
      ensures status == old(status)
      ensures if (if old(status) == Running then command == 'T' else command != 'T')
        then notEmpty == old(notEmpty) + 1 && notFull == old(notFull) - 1 && buffer == command
        else notEmpty == old(notEmpty) && notFull == old(notFull) && buffer == old(buffer)
    {
      notFull := notFull - 1;
      if (status == Running) == (command == 'T') {
        buffer := command;
        notEmpty := notEmpty + 1;
      } else {
        notFull := notFull + 1;
      }
    }

    method Get() returns (command: char)
      requires status == Stopped ==> notEmpty > 0
      modifies this
      ensures var t := GetCall(old(Quiet())); Agrees(t) && t.trace == [command]
      ensures if old(notEmpty) == 0
        then command == 'R' && status == Running && notFull == old(notFull) && notEmpty == 0
        else command == old(buffer) && notEmpty == old(notEmpty) - 1 && notFull == old(notFull) + 1 &&
             status == (if command == 'R' then Running else if command == 'T' then Stopped else old(status))
    {
      match status {
        case Stopped =>
          notEmpty := notEmpty - 1;
          command := buffer;
          if command == 'R' {
            status := Running;
          }
          notFull := notFull + 1;
        case Running =>
          if notEmpty > 0 {
            notEmpty := notEmpty - 1;
            command := buffer;
            if command == 'T' {
              status := Stopped;
            }
            notFull := notFull + 1;
          } else {
            command := 'R';
          }
      }
    }
  }
}
