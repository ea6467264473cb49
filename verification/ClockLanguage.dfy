/** The legal traces of the clock's commands are attained: each is delivered by some run of CommandClock_Put and
    CommandClock_Get. */
module ClockLanguage {

  import opened CommandSlot
  import opened ClockCommands

  lemma Extend(garbage: char, schedule: seq<Event>, e: Event)
    ensures Run(garbage, schedule + [e]) == Step(Run(garbage, schedule), e)
  {
    hide Step;
    assert (schedule + [e])[..|schedule|] == schedule;
  }

  /** Between commands: the slot is empty and both tasks are outside their functions. */
  predicate AtRest(s: State, t: seq<char>) {
    && s.getter == Switch && s.trace == t && (s.status == Running <==> RunningAt(t, |t|))
    && s.slot.notEmpty == 0 && s.slot.notFull == 1 && PutterAt(s.slot, 0) == Idle
  }

  /** A command lies in the slot. */
  predicate Offered(s: State, t: seq<char>, c: char) {
    && s.getter == Switch && s.trace == t && (s.status == Running <==> RunningAt(t, |t|))
    && s.slot.notEmpty == 1 && s.slot.notFull == 0 && PutterAt(s.slot, 0) == Idle && s.slot.buffer == c
  }

  lemma Puts(s: State, t: seq<char>, c: char)
    requires AtRest(s, t) && (if s.status == Running then c == 'T' else c != 'T')
    ensures Offered(Step(Step(Step(Step(Step(s, Call(0, c)), Put(0)), Put(0)), Put(0)), Put(0)), t, c)
  {
    var s1 := Step(s, Call(0, c));
    assert PutterAt(s1.slot, 0) == Waiting(c);
    var s2 := Step(s1, Put(0));
    assert PutterAt(s2.slot, 0) == Testing(c) && s2.slot.notFull == 0;
    var s3 := Step(s2, Put(0));
    assert PutterAt(s3.slot, 0) == Storing(c);
    var s4 := Step(s3, Put(0));
    assert PutterAt(s4.slot, 0) == Signalling(true) && s4.slot.buffer == c;
  }

  lemma PutIn(garbage: char, schedule: seq<Event>, t: seq<char>, c: char) returns (more: seq<Event>)
    requires AtRest(Run(garbage, schedule), t)
    requires if Run(garbage, schedule).status == Running then c == 'T' else c != 'T'
    ensures Offered(Run(garbage, more), t, c)
  {
    Puts(Run(garbage, schedule), t, c);
    hide Run, Step, Offered;
    Extend(garbage, schedule, Call(0, c));
    more := schedule + [Call(0, c)];
    Extend(garbage, more, Put(0));
    more := more + [Put(0)];
    Extend(garbage, more, Put(0));
    more := more + [Put(0)];
    Extend(garbage, more, Put(0));
    more := more + [Put(0)];
    Extend(garbage, more, Put(0));
    more := more + [Put(0)];
  }

  lemma Gets(garbage: char, schedule: seq<Event>) returns (two: seq<Event>, four: seq<Event>, five: seq<Event>)
    ensures var s2 := GetStep(GetStep(Run(garbage, schedule))); var s4 := GetStep(GetStep(s2));
      Run(garbage, two) == s2 && Run(garbage, four) == s4 && Run(garbage, five) == GetStep(s4)
  {
    hide Run, GetStep;
    Extend(garbage, schedule, Get);
    two := schedule + [Get];
    Extend(garbage, two, Get);
    two := two + [Get];
    Extend(garbage, two, Get);
    four := two + [Get];
    Extend(garbage, four, Get);
    four := four + [Get];
    Extend(garbage, four, Get);
    five := four + [Get];
  }

  /** Get delivers what was put in; R and T take one step more, for the status. */
  lemma Fetches(s: State, t: seq<char>, c: char)
    requires Offered(s, t, c) && (if s.status == Running then c == 'T' else c != 'T')
    ensures var s4 := GetStep(GetStep(GetStep(GetStep(s))));
      AtRest(if c in {'R', 'T'} then GetStep(s4) else s4, t + [c])
  {
  }

  lemma CountsOn(s: State, t: seq<char>)
    requires AtRest(s, t) && s.status == Running
    ensures AtRest(GetStep(GetStep(s)), t + ['R'])
  {
  }

  lemma LegalBefore(t: seq<char>)
    requires Legal(t) && t != []
    ensures var n := |t| - 1; Legal(t[..n]) && if RunningAt(t[..n], n) then t[n] in {'R', 'T'} else t[n] != 'T'
  {
    var n := |t| - 1;
    assert forall i :: 0 <= i <= n ==> RunningAt(t[..n], i) == RunningAt(t, i);
    assert forall i :: 0 <= i < n ==> t[..n][i] == t[i];
  }

  lemma {:induction false} TraceAttained(garbage: char, t: seq<char>) returns (schedule: seq<Event>)
    requires Legal(t)
    ensures AtRest(Run(garbage, schedule), t)
    decreases |t|
  {
    if t == [] {
      schedule := [];
    } else {
      var n := |t| - 1;
      var c := t[n];
      LegalBefore(t);
      schedule := TraceAttained(garbage, t[..n]);
      assert t[..n] + [c] == t;
      var s := Run(garbage, schedule);
      assert s.status == Running <==> RunningAt(t[..n], n);
      hide Run, GetStep, AtRest, Offered, Legal;
      if s.status == Running && c == 'R' {
        CountsOn(s, t[..n]);
        var two, four, five := Gets(garbage, schedule);
        schedule := two;
      } else {
        schedule := PutIn(garbage, schedule, t[..n], c);
        OfferedStatus(s, Run(garbage, schedule), t[..n], c);
        Fetches(Run(garbage, schedule), t[..n], c);
        var two, four, five := Gets(garbage, schedule);
        schedule := if c in {'R', 'T'} then five else four;
      }
    }
  }

  lemma OfferedStatus(s: State, u: State, t: seq<char>, c: char)
    requires AtRest(s, t) && Offered(u, t, c)
    ensures u.status == s.status
  {
  }

  /** The command sequences that runs deliver are exactly the legal ones: R and T while running, anything but T while
      stopped. */
  lemma ClockTraces(garbage: char, t: seq<char>)
    ensures (exists schedule :: Run(garbage, schedule).trace == t) <==> Legal(t)
  {
    if Legal(t) {
      var schedule := TraceAttained(garbage, t);
      assert Run(garbage, schedule).trace == t;
    }
    if schedule :| Run(garbage, schedule).trace == t {
      DeliveredCommands(garbage, schedule);
    }
  }

  /** The status test of Put, at any moment of any run: a task goes on to store its command exactly if the clock is
      running and the command is T, or stopped and it is not T. */
  lemma TestAccepts(s: State, p: nat)
    requires PutterAt(s.slot, p).Testing?
    ensures var c := PutterAt(s.slot, p).command;
      PutterAt(Step(s, Put(p)).slot, p) ==
        if (if s.status == Running then c == 'T' else c != 'T') then Storing(c) else Signalling(false)
  {
  }
}
