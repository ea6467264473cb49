/** cmdcrn.c: CommandChrono_Put and CommandChrono_Get. Any number of tasks call Put, one task calls Get over
    and over. Chronostatus is read and written without a lock; this module shows for every interleaving that
    the single token and the automaton of statuses still force the commands Get delivers into the shape
    (C (C|I)* E R)*, cut off anywhere. */
module ChronoCommands {
  import opened CommandSlot

  datatype Status = StoppedInitial | Running | StoppedFinal

  /** Where the task inside Get stands. */
  datatype Getter =
    | Switch              // about to read the status
    | InitialWait         // stoppedInitial: about to wait on notEmpty
    | TryWait             // running: about to wait_if on notEmpty
    | TimedWait           // stoppedFinal: about to wait_timed on notEmpty
    | Fetch               // owns the token, about to read the buffer
    | SetRunning(command: char)
    | SetFinal(command: char)
    | Release(command: char)  // about to signal notFull and return
    | MarkBuffered        // owns the token, about to set buffered
    | SetInitial          // about to write stoppedInitial and return 'R'

  /** trace: commands delivered by Get; fetched: the characters read from the buffer. */
  datatype State = State(status: Status, slot: Slot, buffered: bool, getter: Getter,
                         trace: seq<char>, fetched: seq<char>)

  datatype Event = Call(task: nat, command: char) | Put(task: nat) | Get | Timeout

  function Init(garbage: char): State {
    State(StoppedInitial, Slot(garbage, 0, 1, map[], []), false, Switch, [], [])
  }

  predicate Admits(status: Status, c: char) {
    (status == Running) != (c == 'C')
  }

  function GetStep(s: State, timeout: bool): State {
    match s.getter
    case Switch =>
      (match s.status
       case StoppedInitial => if s.buffered then s.(buffered := false, getter := Fetch) else s.(getter := InitialWait)
       case Running => s.(getter := TryWait)
       case StoppedFinal => s.(getter := TimedWait))
    case InitialWait =>
      if s.slot.notEmpty == 0 then s else s.(slot := s.slot.(notEmpty := s.slot.notEmpty - 1), getter := Fetch)
    case TryWait =>
      if s.slot.notEmpty > 0 then s.(slot := s.slot.(notEmpty := s.slot.notEmpty - 1), getter := Fetch)
      else s.(trace := s.trace + ['C'], getter := Switch)
    case TimedWait =>
      if timeout then s.(getter := SetInitial)
      else if s.slot.notEmpty == 0 then s
      else s.(slot := s.slot.(notEmpty := s.slot.notEmpty - 1), getter := MarkBuffered)
    case Fetch =>
      var c := s.slot.buffer;
      s.(fetched := s.fetched + [c],
         getter := if s.status == StoppedInitial then SetRunning(c) else if c == 'E' then SetFinal(c) else Release(c))
    case SetRunning(c) => s.(status := Running, getter := Release(c))
    case SetFinal(c) => s.(status := StoppedFinal, getter := Release(c))
    case Release(c) => s.(slot := s.slot.(notFull := s.slot.notFull + 1), trace := s.trace + [c], getter := Switch)
    case MarkBuffered => s.(buffered := true, getter := SetInitial)
    case SetInitial => s.(status := StoppedInitial, trace := s.trace + ['R'], getter := Switch)
  }

  function Step(s: State, e: Event): State {
    match e
    case Call(p, c) => s.(slot := CommandSlot.Call(s.slot, p, c))
    case Put(p) =>
      var here := PutterAt(s.slot, p);
      s.(slot := PutStep(s.slot, p, here.Testing? && Admits(s.status, here.command)))
    case Get => GetStep(s, false)
    case Timeout => GetStep(s, true)
  }

  /** The state after any schedule, that is, after any interleaving of the tasks. */
  function Run(garbage: char, schedule: seq<Event>): State {
    if schedule == [] then Init(garbage)
    else Step(Run(garbage, schedule[..|schedule| - 1]), schedule[|schedule| - 1])
  }

  // ---- The language of command traces ----

  /** C m* E R with every m taken from mid. */
  predicate IsRound(r: seq<char>, mid: set<char>) {
    |r| >= 3 && r[0] == 'C' && r[|r| - 2] == 'E' && r[|r| - 1] == 'R' &&
    forall i :: 1 <= i < |r| - 2 ==> r[i] in mid
  }

  /** A concatenation of rounds: (C m* E R)*. */
  ghost predicate Rounds(t: seq<char>, mid: set<char>) {
    t == [] || exists k :: 0 <= k < |t| && Rounds(t[..k], mid) && IsRound(t[k..], mid)
  }

  lemma LastRound(w: seq<char>, mid: set<char>) returns (k: nat)
    requires Rounds(w, mid) && w != []
    ensures k < |w| && Rounds(w[..k], mid) && IsRound(w[k..], mid)
  {
    k :| 0 <= k < |w| && Rounds(w[..k], mid) && IsRound(w[k..], mid);
  }

  /** An unfinished round, as far as the given status allows. */
  predicate OpenRound(r: seq<char>, status: Status, mid: set<char>) {
    match status
    case StoppedInitial => r == []
    case Running => |r| >= 1 && r[0] == 'C' && forall i :: 1 <= i < |r| ==> r[i] in mid
    case StoppedFinal => |r| >= 2 && r[0] == 'C' && r[|r| - 1] == 'E' && forall i :: 1 <= i < |r| - 1 ==> r[i] in mid
  }

  ghost predicate Reached(t: seq<char>, status: Status, mid: set<char>) {
    exists k :: 0 <= k <= |t| && Rounds(t[..k], mid) && OpenRound(t[k..], status, mid)
  }

  lemma ReachedStart(mid: set<char>)
    ensures Reached([], StoppedInitial, mid)
  {
    assert Rounds([][..0], mid) && OpenRound([][0..], StoppedInitial, mid);
  }

  lemma ExtendRound(t: seq<char>, before: Status, c: char, after: Status, mid: set<char>)
    requires Reached(t, before, mid)
    requires before == StoppedInitial ==> after == Running && c == 'C'
    requires before == Running ==> (c == 'E' && after == StoppedFinal) || (c in mid && after == Running)
    requires before == StoppedFinal ==> c == 'R' && after == StoppedInitial
    ensures Reached(t + [c], after, mid)
  {
    var k :| 0 <= k <= |t| && Rounds(t[..k], mid) && OpenRound(t[k..], before, mid);
    var u := t + [c];
    assert u[..k] == t[..k] && u[k..] == t[k..] + [c];
    if before == StoppedFinal {
      assert IsRound(u[k..], mid);
      assert Rounds(u, mid);
      assert u[..|u|] == u && u[|u|..] == [];
    } else {
      assert OpenRound(u[k..], after, mid);
    }
  }

  lemma ReachedIsPrefix(t: seq<char>, status: Status, mid: set<char>)
    requires Reached(t, status, mid)
    ensures exists rest :: Rounds(t + rest, mid)
  {
    hide Rounds, OpenRound;
    var k :| 0 <= k <= |t| && Rounds(t[..k], mid) && OpenRound(t[k..], status, mid);
    CompleteRound(t, k, status, mid);
  }

  lemma CompleteRound(t: seq<char>, k: nat, status: Status, mid: set<char>)
    requires k <= |t| && Rounds(t[..k], mid) && OpenRound(t[k..], status, mid)
    ensures Rounds(t + Closing(status), mid)
  {
    hide Rounds, IsRound, OpenRound;
    var rest := Closing(status);
    CloseRound(t[k..], status, mid);
    assert t + rest == t[..k] + (t[k..] + rest);
    if status == StoppedInitial { assert t + rest == t[..k]; } else { AppendRound(t[..k], t[k..] + rest, mid); }
  }

  /** What completes an unfinished round. */
  function Closing(status: Status): seq<char> {
    match status case StoppedInitial => [] case Running => ['E', 'R'] case StoppedFinal => ['R']
  }

  lemma CloseRound(r: seq<char>, status: Status, mid: set<char>)
    requires OpenRound(r, status, mid)
    ensures if status == StoppedInitial then r == [] else IsRound(r + Closing(status), mid)
  {
  }

  lemma AppendRound(a: seq<char>, r: seq<char>, mid: set<char>)
    requires Rounds(a, mid) && IsRound(r, mid)
    ensures Rounds(a + r, mid)
  {
    var u, k := a + r, |a|;
    assert u[..k] == a && u[k..] == r;
  }

  // ---- The invariant ----

  predicate GetterHolds(g: Getter) {
    g.Fetch? || g.SetRunning? || g.SetFinal? || g.Release? || g.MarkBuffered?
  }

  /** notEmpty + notFull + holders + buffered, where the holders are the tasks inside Put or Get that took the
      token and have not passed it on. */
  function AllTokens(s: State): nat {
    Tokens(s.slot) + (if GetterHolds(s.getter) then 1 else 0) + (if s.buffered then 1 else 0)
  }

  /** The buffer holds a command that was admitted and not yet fetched. */
  ghost predicate Loaded(s: State) {
    s.slot.notEmpty > 0 || s.buffered || s.getter.MarkBuffered? || s.getter.Fetch? || Unannounced(s.slot)
  }

  predicate Known(c: char, mid: set<char>) {
    c == 'C' || c == 'E' || c in mid
  }

  ghost predicate PuttersOk(s: State, mid: set<char>) {
    forall p :: p in s.slot.putters ==>
      match s.slot.putters[p]
      case Waiting(c) => Known(c, mid)
      case Testing(c) => Known(c, mid)
      case Storing(c) => Known(c, mid) && Admits(s.status, c)
      case _ => true
  }

  ghost predicate GetterOk(s: State, mid: set<char>) {
    match s.getter
    case Switch => Reached(s.trace, s.status, mid)
    case InitialWait => Reached(s.trace, s.status, mid) && s.status == StoppedInitial && !s.buffered
    case TryWait => Reached(s.trace, s.status, mid) && s.status == Running
    case TimedWait => Reached(s.trace, s.status, mid) && s.status == StoppedFinal && !s.buffered
    case MarkBuffered => Reached(s.trace, s.status, mid) && s.status == StoppedFinal
    case SetInitial => Reached(s.trace, s.status, mid) && s.status == StoppedFinal
    case Fetch => Reached(s.trace, s.status, mid) && s.status != StoppedFinal
    case SetRunning(c) => Reached(s.trace, s.status, mid) && s.status == StoppedInitial && c == 'C'
    case SetFinal(c) => Reached(s.trace, s.status, mid) && s.status == Running && c == 'E'
    case Release(c) => Reached(s.trace + [c], s.status, mid)
  }

  ghost predicate Inv(s: State, mid: set<char>) {
    && AllTokens(s) == 1
    && (s.buffered ==> s.status == StoppedInitial || s.getter.SetInitial?)
    && PuttersOk(s, mid)
    && GetterOk(s, mid)
    && (Loaded(s) ==> Known(s.slot.buffer, mid) && Admits(s.status, s.slot.buffer))
    && s.slot.stored == s.fetched + (if Loaded(s) then [s.slot.buffer] else [])
  }

  lemma InitOk(garbage: char, mid: set<char>)
    ensures Inv(Init(garbage), mid)
  {
    ReachedStart(mid);
    assert Holders(Init(garbage).slot) == {};
  }

  lemma CallKeeps(s: State, p: nat, c: char, mid: set<char>)
    requires Inv(s, mid) && Known(c, mid)
    ensures Inv(Step(s, Call(p, c)), mid)
  {
    CallKeepsTokens(s.slot, p, c);
    var t := Step(s, Call(p, c));
    assert forall q :: q in s.slot.putters && q != p ==> q in t.slot.putters && t.slot.putters[q] == s.slot.putters[q];
    assert Unannounced(t.slot) <==> Unannounced(s.slot);
  }

  /** A task owning the token sees an unloaded slot unless it wrote the buffer itself. */
  lemma HolderUnloaded(s: State, p: nat, mid: set<char>)
    requires Inv(s, mid) && p in s.slot.putters && Holds(s.slot.putters[p])
    ensures s.slot.notEmpty == s.slot.notFull == 0 && !s.buffered && !GetterHolds(s.getter)
    ensures Loaded(s) <==> s.slot.putters[p] == Signalling(true)
    ensures forall q :: q in s.slot.putters && q != p ==> !Holds(s.slot.putters[q])
  {
    assert p in Holders(s.slot);
    SoleHolder(s.slot, p);
    forall q | q in s.slot.putters && q != p
      ensures !Holds(s.slot.putters[q])
    {
      assert q !in Holders(s.slot);
    }
  }

  lemma PutKeeps(s: State, p: nat, mid: set<char>)
    requires Inv(s, mid)
    ensures Inv(Step(s, Put(p)), mid)
  {
    hide Reached, Tokens, Holders;
    var t := Step(s, Put(p));
    var here := PutterAt(s.slot, p);
    PutKeepsTokens(s.slot, p, here.Testing? && Admits(s.status, here.command));
    assert forall q :: q in s.slot.putters && q != p ==> q in t.slot.putters && t.slot.putters[q] == s.slot.putters[q];
    if Holds(here) {
      HolderUnloaded(s, p, mid);
      if here.Storing? { assert t.slot.putters[p] == Signalling(true); }
    } else {
      assert Unannounced(t.slot) <==> Unannounced(s.slot);
    }
  }

  /** While the getter, a semaphore or buffered has the token, no task inside Put has it. */
  lemma NoHolder(s: State, mid: set<char>)
    requires Inv(s, mid) && (s.slot.notEmpty > 0 || s.buffered || GetterHolds(s.getter))
    ensures forall q :: q in s.slot.putters ==> !Holds(s.slot.putters[q])
    ensures s.slot.notEmpty + s.slot.notFull <= 1
  {
    forall q | q in s.slot.putters
      ensures !Holds(s.slot.putters[q])
    {
      if Holds(s.slot.putters[q]) { HolderUnloaded(s, q, mid); }
    }
  }

  /** No step of Get creates or destroys a token. */
  lemma GetKeepsTokens(s: State, timeout: bool, mid: set<char>)
    requires Inv(s, mid)
    ensures AllTokens(GetStep(s, timeout)) == 1
    ensures Unannounced(GetStep(s, timeout).slot) <==> Unannounced(s.slot)
    ensures s.slot.notEmpty > 0 || s.buffered || GetterHolds(s.getter) ==> !Unannounced(s.slot)
  {
    hide Reached, Admits, PuttersOk;
    assert Holders(GetStep(s, timeout).slot) == Holders(s.slot);
    hide Holders;
    if s.slot.notEmpty > 0 || s.buffered || GetterHolds(s.getter) { NoHolder(s, mid); }
  }

  /** A command admitted for storing stays admissible: the status changes only while the getter holds the token, except
      from StoppedFinal to StoppedInitial, which admit the same. */
  lemma GetKeepsPutters(s: State, timeout: bool, mid: set<char>)
    requires Inv(s, mid)
    ensures PuttersOk(GetStep(s, timeout), mid)
  {
    if GetterHolds(s.getter) { NoHolder(s, mid); }
    hide AllTokens, Reached, Loaded, Known;
    assert GetStep(s, timeout).slot.putters == s.slot.putters;
  }

  lemma GetKeepsTrace(s: State, timeout: bool, mid: set<char>)
    requires Inv(s, mid) && 'C' in mid
    ensures GetterOk(GetStep(s, timeout), mid)
  {
    match s.getter
    case TryWait =>
      if s.slot.notEmpty == 0 { ExtendRound(s.trace, Running, 'C', Running, mid); }
    case Fetch =>
      if s.status == Running && s.slot.buffer != 'E' { ExtendRound(s.trace, Running, s.slot.buffer, Running, mid); }
    case SetRunning(c) => ExtendRound(s.trace, StoppedInitial, c, Running, mid);
    case SetFinal(c) => ExtendRound(s.trace, Running, c, StoppedFinal, mid);
    case SetInitial => ExtendRound(s.trace, StoppedFinal, 'R', StoppedInitial, mid);
    case _ =>
  }

  lemma GetKeeps(s: State, timeout: bool, mid: set<char>)
    requires Inv(s, mid) && 'C' in mid
    ensures Inv(GetStep(s, timeout), mid)
  {
    GetKeepsTokens(s, timeout, mid);
    GetKeepsPutters(s, timeout, mid);
    GetKeepsTrace(s, timeout, mid);
    hide AllTokens, PuttersOk, Reached, Known, Unannounced;
    var t := GetStep(s, timeout);
    assert s.fetched + [] == s.fetched;
    assert Loaded(t) <==> Loaded(s) && !s.getter.Fetch?;
  }

  /** Every command offered to Put in the schedule is C, E or one of mid. */
  ghost predicate Offers(schedule: seq<Event>, mid: set<char>) {
    forall i :: 0 <= i < |schedule| && schedule[i].Call? ==> Known(schedule[i].command, mid)
  }

  lemma {:induction false} RunKeeps(garbage: char, schedule: seq<Event>, mid: set<char>)
    requires Offers(schedule, mid) && 'C' in mid
    ensures Inv(Run(garbage, schedule), mid)
  {
    if schedule == [] {
      InitOk(garbage, mid);
    } else {
      var before := schedule[..|schedule| - 1];
      RunKeeps(garbage, before, mid);
      match schedule[|schedule| - 1]
      case Call(p, c) => CallKeeps(Run(garbage, before), p, c, mid);
      case Put(p) => PutKeeps(Run(garbage, before), p, mid);
      case Get => GetKeeps(Run(garbage, before), false, mid);
      case Timeout => GetKeeps(Run(garbage, before), true, mid);
    }
  }

  // ---- Main results ----

  /** In every interleaving there is exactly one token, and the buffer is a faithful one-place channel: the
      characters read are those written, in order, with at most the current one outstanding. */
  lemma OneTokenInEveryRun(garbage: char, schedule: seq<Event>)
    ensures AllTokens(Run(garbage, schedule)) == 1
    ensures var s := Run(garbage, schedule);
            s.slot.stored == s.fetched || s.slot.stored == s.fetched + [s.slot.buffer]
  {
    var mid := {'C'} + set i | 0 <= i < |schedule| && schedule[i].Call? :: schedule[i].command;
    RunKeeps(garbage, schedule, mid);
  }

  /** Whatever characters are offered to Put, the trace is a beginning of (C m* E R)*, m among those offered. */
  lemma DeliveredCommands(garbage: char, schedule: seq<Event>, mid: set<char>)
    requires Offers(schedule, mid) && 'C' in mid
    ensures exists rest :: Rounds(Run(garbage, schedule).trace + rest, mid)
  {
    hide Run, AllTokens, Loaded, PuttersOk, Rounds;
    RunKeeps(garbage, schedule, mid);
    var s := Run(garbage, schedule);
    match s.getter
    case Release(c) =>
      ReachedIsPrefix(s.trace + [c], s.status, mid);
      var rest :| Rounds(s.trace + [c] + rest, mid);
      assert s.trace + ([c] + rest) == s.trace + [c] + rest;
    case _ => ReachedIsPrefix(s.trace, s.status, mid);
  }

  /** With the commands the keyboard task passes on (C, I, E), the trace is a beginning of (C (C|I)* E R)*. */
  lemma KeyboardTrace(garbage: char, schedule: seq<Event>)
    requires forall i :: 0 <= i < |schedule| && schedule[i].Call? ==> schedule[i].command in {'C', 'I', 'E'}
    ensures exists rest :: Rounds(Run(garbage, schedule).trace + rest, {'C', 'I'})
  {
    DeliveredCommands(garbage, schedule, {'C', 'I'});
  }

  /** The getter's next step, unless it has returned. */
  ghost function Continue(s: State, timeout: bool): State {
    if s.getter.Switch? then s else GetStep(s, timeout)
  }

  /** A whole call of Get, none of whose steps is interrupted: at most five steps. */
  ghost function GetCall(s: State, timeout: bool): State {
    Continue(Continue(Continue(Continue(GetStep(s, timeout), timeout), timeout), timeout), timeout)
  }

  lemma GetCallInitial(s: State, timeout: bool)
    requires s.getter == Switch && s.status == StoppedInitial && (s.buffered || s.slot.notEmpty > 0)
    ensures var t := GetCall(s, timeout);
      && t.getter == Switch && t.trace == s.trace + [s.slot.buffer] && t.status == Running && !t.buffered
      && t.slot == s.slot.(notEmpty := s.slot.notEmpty - if s.buffered then 0 else 1, notFull := s.slot.notFull + 1)
  {
  }

  lemma GetCallRunning(s: State, timeout: bool)
    requires s.getter == Switch && s.status == Running
    ensures var t := GetCall(s, timeout);
      if s.slot.notEmpty == 0 then t == s.(trace := s.trace + ['C'])
      else && t.getter == Switch && t.trace == s.trace + [s.slot.buffer] && t.buffered == s.buffered
           && t.status == (if s.slot.buffer == 'E' then StoppedFinal else Running)
           && t.slot == s.slot.(notEmpty := s.slot.notEmpty - 1, notFull := s.slot.notFull + 1)
  {
  }

  lemma GetCallFinal(s: State, timeout: bool)
    requires s.getter == Switch && s.status == StoppedFinal && (timeout || s.slot.notEmpty > 0)
    ensures var t := GetCall(s, timeout);
      && t.getter == Switch && t.trace == s.trace + ['R'] && t.status == StoppedInitial
      && t.buffered == (s.buffered || !timeout)
      && t.slot == s.slot.(notEmpty := s.slot.notEmpty - if timeout then 0 else 1)
  {
  }

  /** A whole call of Put by task 0, none of whose steps is interrupted: a call and at most four steps. */
  ghost function PutCall(s: State, c: char): State {
    Step(Step(Step(Step(Step(s, Call(0, c)), Put(0)), Put(0)), Put(0)), Put(0))
  }

  lemma PutCallResult(s: State, c: char)
    requires s.slot.putters == map[] && s.slot.notFull > 0
    ensures var t := PutCall(s, c); var accepted := if s.status == Running then c != 'C' else c == 'C';
      && t.status == s.status && t.buffered == s.buffered && t.getter == s.getter && PutterAt(t.slot, 0) == Idle
      && t.slot.buffer == (if accepted then c else s.slot.buffer)
      && t.slot.notEmpty == s.slot.notEmpty + (if accepted then 1 else 0)
      && t.slot.notFull == s.slot.notFull - (if accepted then 1 else 0)
  {
    var a := Step(s, Call(0, c));
    assert PutterAt(a.slot, 0) == Waiting(c);
    var b := Step(a, Put(0));
    assert PutterAt(b.slot, 0) == Testing(c) && b.slot.notFull == s.slot.notFull - 1;
    var d := Step(b, Put(0));
    var e := Step(d, Put(0));
    if Admits(s.status, c) {
      assert PutterAt(d.slot, 0) == Storing(c) && PutterAt(e.slot, 0) == Signalling(true) && e.slot.buffer == c;
    } else {
      assert PutterAt(d.slot, 0) == Signalling(false) && PutterAt(e.slot, 0) == Idle;
    }
  }

  // ---- The C functions, called without preemption ----

  /** The static variables of cmdcrn.c with Put and Get in their own shape. A wait on a semaphore returns only
      once the semaphore is positive, hence the preconditions. */
  class CommandChrono {
    var status: Status
    var buffer: char
    var notEmpty: nat
    var notFull: nat
    var buffered: bool

    constructor ()
      ensures Quiet() == Init(buffer)
    {
      notEmpty, notFull, status, buffered := 0, 1, StoppedInitial, false;
    }

    /** The module between calls, histories cleared. */
    ghost function Quiet(): State
      reads this
    {
      State(status, Slot(buffer, notEmpty, notFull, map[], []), buffered, Switch, [], [])
    }

    ghost predicate Agrees(s: State)
      reads this
    {
      s.status == status && s.buffered == buffered && s.getter == Switch &&
      s.slot.buffer == buffer && s.slot.notEmpty == notEmpty && s.slot.notFull == notFull
    }

    method Put(command: char)
      requires notFull > 0
      modifies this
      ensures var t := PutCall(old(Quiet()), command); Agrees(t) && PutterAt(t.slot, 0) == Idle
      ensures status == old(status) && buffered == old(buffered)
      ensures if (if old(status) == Running then command != 'C' else command == 'C')
        then notEmpty == old(notEmpty) + 1 && notFull == old(notFull) - 1 && buffer == command
        else notEmpty == old(notEmpty) && notFull == old(notFull) && buffer == old(buffer)
    {
      PutCallResult(Quiet(), command);
      hide PutCall;
      notFull := notFull - 1;
      if (status == Running) != (command == 'C') {
        buffer := command;
        notEmpty := notEmpty + 1;
      } else {
        notFull := notFull + 1;
      }
    }

    method Get(timedOut: bool) returns (command: char)
      requires status == StoppedInitial && !buffered ==> notEmpty > 0
      requires status == StoppedFinal && !timedOut ==> notEmpty > 0
      modifies this
      ensures var t := GetCall(old(Quiet()), timedOut);
              Agrees(t) && t.trace == [command]
    {
      hide GetCall;
      match status {
        case StoppedInitial =>
          GetCallInitial(Quiet(), timedOut);
          if buffered {
            buffered := false;
          } else {
            notEmpty := notEmpty - 1;
          }
          command := buffer;
          status := Running;
          notFull := notFull + 1;
        case Running =>
          GetCallRunning(Quiet(), timedOut);
          if notEmpty > 0 {
            notEmpty := notEmpty - 1;
            command := buffer;
            if command == 'E' {
              status := StoppedFinal;
            }
            notFull := notFull + 1;
          } else {
            command := 'C';
          }
        case StoppedFinal =>
          GetCallFinal(Quiet(), timedOut);
          if !timedOut {
            notEmpty := notEmpty - 1;
            buffered := true;
          }
          command := 'R';
          status := StoppedInitial;
      }
    }
  }
}
