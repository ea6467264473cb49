/** The language of the chronometer's commands is attained: whatever beginning of (C (C|I)* E R)* one asks for,
    some run of CommandChrono_Put and CommandChrono_Get under the keys C, I and E delivers exactly that. */
module ChronoLanguage {

  import opened CommandSlot
  import opened ChronoCommands

  const MID := {'C', 'I'}

  predicate Key(c: char) {
    c == 'C' || c == 'I' || c == 'E'
  }

  /** Only the keys C, I and E are typed. */
  ghost predicate Typed(schedule: seq<Event>) {
    forall i :: 0 <= i < |schedule| && schedule[i].Call? ==> Key(schedule[i].command)
  }

  lemma Extend(garbage: char, schedule: seq<Event>, e: Event)
    requires Typed(schedule) && (e.Call? ==> Key(e.command))
    ensures Run(garbage, schedule + [e]) == Step(Run(garbage, schedule), e) && Typed(schedule + [e])
  {
    hide Step;
    assert (schedule + [e])[..|schedule|] == schedule;
  }

  /** Between commands: the slot is empty and both tasks are outside their functions. */
  predicate AtRest(s: State, t: seq<char>, status: Status) {
    && s.getter == Switch && s.status == status && !s.buffered && s.trace == t
    && s.slot.notEmpty == 0 && s.slot.notFull == 1 && PutterAt(s.slot, 0) == Idle
  }

  /** A command lies in the slot. */
  predicate Offered(s: State, t: seq<char>, status: Status, c: char) {
    && s.getter == Switch && s.status == status && !s.buffered && s.trace == t
    && s.slot.notEmpty == 1 && s.slot.notFull == 0 && PutterAt(s.slot, 0) == Idle && s.slot.buffer == c
  }

  /** A command is accepted exactly if the chronometer is stopped and it is C, or is running and it is not. */
  predicate Accepts(status: Status, c: char) {
    if status == Running then c != 'C' else c == 'C'
  }

  lemma Puts(s: State, t: seq<char>, status: Status, c: char)
    requires AtRest(s, t, status) && Accepts(status, c)
    ensures Offered(Step(Step(Step(Step(Step(s, Call(0, c)), Put(0)), Put(0)), Put(0)), Put(0)), t, status, c)
  {
    var s1 := Step(s, Call(0, c));
    assert PutterAt(s1.slot, 0) == Waiting(c);
    var s2 := Step(s1, Put(0));
    assert PutterAt(s2.slot, 0) == Testing(c) && s2.slot.notFull == 0;
    var s3 := Step(s2, Put(0));
    assert PutterAt(s3.slot, 0) == Storing(c);
    var s4 := Step(s3, Put(0));
    assert PutterAt(s4.slot, 0) == Signalling(true) && s4.slot.buffer == c;
  }

  lemma PutIn(garbage: char, schedule: seq<Event>, t: seq<char>, status: Status, c: char) returns (more: seq<Event>)
    requires Typed(schedule) && AtRest(Run(garbage, schedule), t, status) && Accepts(status, c) && Key(c)
    ensures Typed(more) && Offered(Run(garbage, more), t, status, c)
  {
    Puts(Run(garbage, schedule), t, status, c);
    hide Run, Step, Typed, Offered;
    Extend(garbage, schedule, Call(0, c));
    more := schedule + [Call(0, c)];
    Extend(garbage, more, Put(0));
    more := more + [Put(0)];
    Extend(garbage, more, Put(0));
    more := more + [Put(0)];
    Extend(garbage, more, Put(0));
    more := more + [Put(0)];
    Extend(garbage, more, Put(0));
    more := more + [Put(0)];
  }

  /** n steps of Get, the second one timing out if asked for. */
  lemma Gets(garbage: char, schedule: seq<Event>, timeout: bool)
    returns (two: seq<Event>, three: seq<Event>, four: seq<Event>, five: seq<Event>)
    requires Typed(schedule)
    ensures Typed(two) && Typed(three) && Typed(four) && Typed(five)
    ensures var s2 := GetStep(GetStep(Run(garbage, schedule), false), timeout); var s3 := GetStep(s2, false);
      && Run(garbage, two) == s2 && Run(garbage, three) == s3 && Run(garbage, four) == GetStep(s3, false)
      && Run(garbage, five) == GetStep(GetStep(s3, false), false)
  {
    hide Run, Typed, GetStep;
    var e := if timeout then Timeout else Get;
    Extend(garbage, schedule, Get);
    two := schedule + [Get];
    Extend(garbage, two, e);
    two := two + [e];
    Extend(garbage, two, Get);
    three := two + [Get];
    Extend(garbage, three, Get);
    four := three + [Get];
    Extend(garbage, four, Get);
    five := four + [Get];
  }

  /** What may follow in a status, and the status it leads to. */
  predicate May(status: Status, c: char, after: Status) {
    match status
    case StoppedInitial => c == 'C' && after == Running
    case Running => (c in MID && after == Running) || (c == 'E' && after == StoppedFinal)
    case StoppedFinal => c == 'R' && after == StoppedInitial
  }

  /** Get delivers what was put in. */
  lemma Fetches(s: State, t: seq<char>, status: Status, c: char, after: Status)
    requires Offered(s, t, status, c) && May(status, c, after)
    requires status != StoppedFinal && !(status == Running && c == 'C')
    ensures var s4 := GetStep(GetStep(GetStep(GetStep(s, false), false), false), false);
      AtRest(if after == status then s4 else GetStep(s4, false), t + [c], after)
  {
  }

  lemma CountsOn(s: State, t: seq<char>)
    requires AtRest(s, t, Running)
    ensures AtRest(GetStep(GetStep(s, false), false), t + ['C'], Running)
  {
  }

  lemma TimesOut(s: State, t: seq<char>)
    requires AtRest(s, t, StoppedFinal)
    ensures AtRest(GetStep(GetStep(GetStep(s, false), true), false), t + ['R'], StoppedInitial)
  {
  }

  /** Every command that may follow is delivered in some continuation. */
  lemma Deliver(garbage: char, schedule: seq<Event>, t: seq<char>, status: Status, c: char, after: Status)
    returns (more: seq<Event>)
    requires Typed(schedule) && AtRest(Run(garbage, schedule), t, status) && May(status, c, after)
    ensures Typed(more) && AtRest(Run(garbage, more), t + [c], after)
  {
    hide Run, Typed, AtRest, Offered, GetStep;
    if status == StoppedFinal {
      TimesOut(Run(garbage, schedule), t);
      var two, three, four, five := Gets(garbage, schedule, true);
      more := three;
    } else if status == Running && c == 'C' {
      CountsOn(Run(garbage, schedule), t);
      var two, three, four, five := Gets(garbage, schedule, false);
      more := two;
    } else {
      more := PutIn(garbage, schedule, t, status, c);
      Fetches(Run(garbage, more), t, status, c, after);
      var two, three, four, five := Gets(garbage, more, false);
      more := if after == status then four else five;
    }
  }

  /** The status after the first j commands of a round. */
  function StatusAt(r: seq<char>, j: nat): Status
    requires j <= |r|
  {
    if j == 0 || j == |r| then StoppedInitial else if j == |r| - 1 then StoppedFinal else Running
  }

  lemma RoundMay(r: seq<char>, j: nat)
    requires IsRound(r, MID) && j < |r|
    ensures May(StatusAt(r, j), r[j], StatusAt(r, j + 1))
  {
  }

  lemma {:induction false} PartAttained(garbage: char, schedule: seq<Event>, w: seq<char>, r: seq<char>, j: nat)
    returns (more: seq<Event>)
    requires Typed(schedule) && AtRest(Run(garbage, schedule), w, StoppedInitial) && IsRound(r, MID) && j <= |r|
    ensures Typed(more) && AtRest(Run(garbage, more), w + r[..j], StatusAt(r, j))
  {
    hide Run, Typed, AtRest, IsRound, May;
    if j == 0 {
      more := schedule;
      assert w + r[..0] == w;
    } else {
      more := PartAttained(garbage, schedule, w, r, j - 1);
      RoundMay(r, j - 1);
      more := Deliver(garbage, more, w + r[..j - 1], StatusAt(r, j - 1), r[j - 1], StatusAt(r, j));
      assert w + r[..j - 1] + [r[j - 1]] == w + r[..j];
    }
  }

  lemma {:induction false} WordAttained(garbage: char, w: seq<char>) returns (schedule: seq<Event>)
    requires Rounds(w, MID)
    ensures Typed(schedule) && AtRest(Run(garbage, schedule), w, StoppedInitial)
    decreases |w|
  {
    hide *;
    if w == [] {
      schedule := [];
      StartsAtRest(garbage);
    } else {
      var k := LastRound(w, MID);
      schedule := WordAttained(garbage, w[..k]);
      schedule := RoundAttained(garbage, schedule, w[..k], w[k..]);
      assert w[..k] + w[k..] == w;
    }
  }

  lemma StartsAtRest(garbage: char)
    ensures Typed([]) && AtRest(Run(garbage, []), [], StoppedInitial)
  {
  }

  lemma RoundAttained(garbage: char, schedule: seq<Event>, w: seq<char>, r: seq<char>) returns (more: seq<Event>)
    requires Typed(schedule) && AtRest(Run(garbage, schedule), w, StoppedInitial) && IsRound(r, MID)
    ensures Typed(more) && AtRest(Run(garbage, more), w + r, StoppedInitial)
  {
    hide Run, Typed, AtRest, IsRound;
    more := PartAttained(garbage, schedule, w, r, |r|);
    assert r[..|r|] == r;
  }

  /** The trace grows by single commands. */
  lemma GrowsByOne(s: State, e: Event)
    ensures var u := Step(s, e).trace; u == s.trace || (|u| == |s.trace| + 1 && u[..|s.trace|] == s.trace)
  {
  }

  lemma {:induction false} PrefixAttained(garbage: char, schedule: seq<Event>, t: seq<char>) returns (first: seq<Event>)
    requires Typed(schedule) && t <= Run(garbage, schedule).trace
    ensures Typed(first) && Run(garbage, first).trace == t
  {
    first := schedule;
    if Run(garbage, schedule).trace != t {
      var before := schedule[..|schedule| - 1];
      GrowsByOne(Run(garbage, before), schedule[|schedule| - 1]);
      hide Step;
      first := PrefixAttained(garbage, before, t);
    }
  }

  ghost predicate Attained(garbage: char, t: seq<char>) {
    exists schedule :: Typed(schedule) && Run(garbage, schedule).trace == t
  }

  /** The command sequences that runs under the keys C, I and E deliver are exactly the beginnings of (C (C|I)* E
      R)*. */
  lemma KeyboardLanguage(garbage: char, t: seq<char>)
    ensures Attained(garbage, t) <==> exists rest :: Rounds(t + rest, MID)
  {
    hide Rounds, Run, AtRest;
    if Attained(garbage, t) {
      var schedule :| Typed(schedule) && Run(garbage, schedule).trace == t;
      KeyboardTrace(garbage, schedule);
    }
    if rest :| Rounds(t + rest, MID) {
      var whole := WordAttained(garbage, t + rest);
      TraceAtRest(Run(garbage, whole), t + rest);
      var first := PrefixAttained(garbage, whole, t);
    }
  }

  lemma TraceAtRest(s: State, t: seq<char>)
    requires AtRest(s, t, StoppedInitial)
    ensures s.trace == t
  {
  }

  /** The status test of Put, at any moment of any run: a task goes on to store its command exactly if the
      chronometer is stopped and the command is C, or running and it is not C. */
  lemma TestAccepts(s: State, p: nat)
    requires PutterAt(s.slot, p).Testing?
    ensures var c := PutterAt(s.slot, p).command;
      PutterAt(Step(s, Put(p)).slot, p) ==
        if (if s.status == Running then c != 'C' else c == 'C') then Storing(c) else Signalling(false)
  {
  }
}
