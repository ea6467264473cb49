/** What becomes of the relay of user/heaps once an agent period has taken the 0 of an unfinished draw for the end: the
    sender completes its round and waits for ever, the receiver is told to end, and the round is lost. */
module RelayFailure {

  import opened Arithmetic
  import opened Relay

  /** The events es from state s on. */
  function RunFrom(s: State, es: seq<Event>): (t: State)
    requires Shape(s)
    ensures Shape(t)
    decreases |es|
  {
    if es == [] then s else RunFrom(Step(s, es[0]), es[1..])
  }

  lemma {:induction false} RunSplit(shm: seq<Word>, count: nat, a: seq<Event>, b: seq<Event>)
    requires 3 <= |shm| < MODULUS
    ensures Run(shm, count, a + b) == RunFrom(Run(shm, count, a), b)
    decreases |b|
  {
    hide Step;
    if b == [] {
      assert a + b == a;
    } else {
      var c := a + [b[0]];
      assert a + b == c + b[1..] && c[..|a|] == a;
      RunSplit(shm, count, c, b[1..]);
    }
  }

  /** The agent is out of its loop while the sender still has a round on its hands. */
  ghost predicate Doomed(s: State)
    requires Shape(s)
  {
    && s.shmsem == 0 && (s.agent.Tail? || s.agent.Ended?)
    && !s.inbox.Sent? && (s.inbox.Rpc? <==> s.receiver.Blocked?)
    && (if s.agent.Tail? then s.receiver.Call? || s.receiver.Blocked?
        else s.receiver == Replied(END) || s.receiver.Gone?)
    && match s.sender
       case Fix(_) => |s.written| == |s.received|
       case Fill(_, i, _) => |s.written| == |s.received| && i >= 1
       case Store(_, _) => |s.written| == |s.received|
       case Signal(_) => Lost(s)
       case Wait(_) => Lost(s)
       case _ => false
  }

  /** One round was written that the receiver has not read. */
  predicate Lost(s: State) {
    |s.written| == |s.received| + 1
  }

  /** The guard of an agent period reads the 0 of a draw. */
  lemma LeavesEarly(s: State)
    requires Shape(s) && Inv(s) && InLoop(s.agent) && Exposed(s)
    ensures Doomed(Step(s, AgentPeriod))
  {
    hide Checksum, Words, Complete, Reading;
  }

  lemma StaysDoomed(s: State, e: Event)
    requires Shape(s) && Doomed(s)
    ensures Doomed(Step(s, e))
  {
    hide Checksum, Words;
  }

  lemma {:induction false} DoomedForEver(s: State, es: seq<Event>)
    requires Shape(s) && Doomed(s)
    ensures Doomed(RunFrom(s, es))
    decreases |es|
  {
    if es != [] {
      StaysDoomed(s, es[0]);
      hide Doomed, Step;
      DoomedForEver(Step(s, es[0]), es[1..]);
    }
  }

  /** The steps the sender has still to make before it waits. */
  function SenderSteps(s: State): nat
    requires Shape(s)
  {
    match s.sender
    case Fix(_) => s.size + Length(s) + 6
    case Fill(_, i, _) => 3 + if i <= Length(s) then Length(s) + 1 - i else 0
    case Store(_, _) => 2
    case Signal(_) => 1
    case _ => 0
  }

  function ReceiverSteps(r: Receiver): nat {
    match r
    case Call => 3
    case Blocked => 2
    case Replied(_) => 1
    case _ => 0
  }

  lemma SenderNearer(s: State)
    requires Shape(s) && Doomed(s) && !s.sender.Wait?
    ensures SenderSteps(Step(s, SenderStep(0))) < SenderSteps(s)
  {
    hide Checksum, Words;
  }

  /** When the sender waits: what makes the receiver go on. */
  function Push(r: Receiver): Event {
    if r.Blocked? then AgentPeriod else ReceiverStep
  }

  lemma ReceiverNearer(s: State)
    requires Shape(s) && Doomed(s) && s.sender.Wait? && !s.receiver.Gone?
    ensures var t := Step(s, Push(s.receiver));
      ReceiverSteps(t.receiver) < ReceiverSteps(s.receiver) && t.sender == s.sender
  {
    hide Checksum, Words;
  }

  lemma GoneWithout(s: State)
    requires Shape(s) && Doomed(s) && s.sender.Wait? && s.receiver.Gone?
    ensures !Good(s)
  {
    assert s.received != s.written;
  }

  /** From a doomed state the receiver is told to end with one round undelivered. */
  lemma {:induction false} LosesRound(s: State) returns (rest: seq<Event>)
    requires Shape(s) && Doomed(s)
    ensures !Good(RunFrom(s, rest)) && RunFrom(s, rest).receiver.Gone? && Lost(RunFrom(s, rest))
    decreases SenderSteps(s), ReceiverSteps(s.receiver)
  {
    if s.sender.Wait? && s.receiver.Gone? {
      GoneWithout(s);
      rest := [];
    } else {
      var e := if s.sender.Wait? then Push(s.receiver) else SenderStep(0);
      StaysDoomed(s, e);
      if s.sender.Wait? { ReceiverNearer(s); } else { SenderNearer(s); }
      hide Doomed, Step, Good;
      rest := LosesRound(Step(s, e));
      assert ([e] + rest)[1..] == rest;
      rest := [e] + rest;
    }
  }

  lemma FirstUnclean(shm: seq<Word>, count: nat, schedule: seq<Event>)
    requires 3 <= |shm| < MODULUS && !Clean(shm, count, schedule)
    ensures var n := |schedule| - 1;
      && n >= 0
      && (Clean(shm, count, schedule[..n]) ==>
            var s := Run(shm, count, schedule[..n]); schedule[n].AgentPeriod? && InLoop(s.agent) && Exposed(s))
  {
    hide Run, InLoop, Exposed;
    var n := |schedule| - 1;
    assert forall k :: 0 <= k < n ==> schedule[..n][..k] == schedule[..k];
  }

  lemma {:induction false} UncleanIsDoomed(shm: seq<Word>, count: nat, schedule: seq<Event>)
    requires 3 <= |shm| < MODULUS && !Clean(shm, count, schedule)
    ensures Doomed(Run(shm, count, schedule))
  {
    hide Doomed, Inv, Step, Clean, InLoop, Exposed;
    var n := |schedule| - 1;
    FirstUnclean(shm, count, schedule);
    var s := Run(shm, count, schedule[..n]);
    if Clean(shm, count, schedule[..n]) {
      RunKeeps(shm, count, schedule[..n]);
      LeavesEarly(s);
    } else {
      UncleanIsDoomed(shm, count, schedule[..n]);
      StaysDoomed(s, schedule[n]);
    }
  }

  /** Every schedule that is not clean can be continued until the promise is broken: the receiver is told to end, and
      the sender has written a round that it never reads. */
  lemma UncleanBreaks(shm: seq<Word>, count: nat, schedule: seq<Event>) returns (rest: seq<Event>)
    requires 3 <= |shm| < MODULUS && !Clean(shm, count, schedule)
    ensures var s := Run(shm, count, schedule + rest); !Good(s) && s.receiver.Gone? && Lost(s)
  {
    UncleanIsDoomed(shm, count, schedule);
    hide *;
    rest := LosesRound(Run(shm, count, schedule));
    RunSplit(shm, count, schedule, rest);
  }

  // ---- A run of seven steps ----

  /** The promise fails on a schedule that is not clean: the agent takes the 0 of the first draw for the end, and
      the receiver is told to end before a single word was written. */
  lemma ZeroDrawEndsEarly(shm: seq<Word>, count: nat)
    requires 3 <= |shm| < MODULUS && count > 0
    ensures var es := [AgentPeriod, SenderStep(0), SenderStep(0), AgentPeriod, ReceiverStep, AgentPeriod, ReceiverStep];
      var s := Run(shm, count, es);
      s.receiver.Gone? && s.written == [] && s.sender == Fix(count)
  {
    hide Run, Step;
    var es := [AgentPeriod, SenderStep(0), SenderStep(0), AgentPeriod, ReceiverStep, AgentPeriod, ReceiverStep];
    Unroll(shm, count, es, 0);
    Unroll(shm, count, es, 1);
    Unroll(shm, count, es, 2);
    Unroll(shm, count, es, 3);
    Unroll(shm, count, es, 4);
    Unroll(shm, count, es, 5);
    Unroll(shm, count, es, 6);
    assert es[..0] == [] && es[..7] == es;
    ExposesZero(shm, count);
    EndsEarly(Run(shm, count, es[..3]));
  }

  lemma ExposesZero(shm: seq<Word>, count: nat)
    requires 3 <= |shm| < MODULUS && count > 0
    ensures var t := Step(Step(Step(Init(shm, count), AgentPeriod), SenderStep(0)), SenderStep(0));
      && t.agent == Op1 && Length(t) == 0 && t.receiver == Call && t.inbox == Empty
      && t.written == [] && t.sender == Fix(count)
  {
  }

  /** From an exposed zero: one period, one rpc, one period, and the receiver is gone. */
  lemma EndsEarly(s: State)
    requires Shape(s) && InLoop(s.agent) && Length(s) == 0 && s.receiver == Call && s.inbox == Empty
    ensures var t := Step(Step(Step(Step(s, AgentPeriod), ReceiverStep), AgentPeriod), ReceiverStep);
      t.receiver.Gone? && t.written == s.written && t.sender == s.sender
  {
  }

  lemma Unroll(shm: seq<Word>, count: nat, es: seq<Event>, i: nat)
    requires 3 <= |shm| < MODULUS && i < |es|
    ensures Run(shm, count, es[..i + 1]) == Step(Run(shm, count, es[..i]), es[i])
    ensures Run(shm, count, []) == Init(shm, count)
  {
    assert es[..i + 1][..i] == es[..i];
  }
}
