/** When is the relay of user/heaps correct under every schedule? Exactly when the sender draws no length of 0: the
    random lengths alone decide, and one zero in any round is enough for some interleaving to go wrong. */
module RelayDraws {

  import opened Arithmetic
  import opened Relay
  import opened RelayFailure

  /** The schedule draws, when left rounds remain, the length draws(left). */
  ghost predicate Follows(shm: seq<Word>, count: nat, draws: nat -> Word, schedule: seq<Event>)
    requires 3 <= |shm| < MODULUS
  {
    forall i :: 0 <= i < |schedule| ==> Draws(Run(shm, count, schedule[..i]).sender, draws, schedule[i])
  }

  ghost predicate Draws(sender: Sender, draws: nat -> Word, e: Event) {
    sender.Draw? && e.SenderStep? ==> e.value == draws(sender.left)
  }

  ghost predicate NonZero(count: nat, draws: nat -> Word) {
    forall left :: 1 <= left <= count ==> draws(left) != 0
  }

  lemma FollowsPrefix(shm: seq<Word>, count: nat, draws: nat -> Word, schedule: seq<Event>, k: nat)
    requires 3 <= |shm| < MODULUS && k <= |schedule| && Follows(shm, count, draws, schedule)
    ensures Follows(shm, count, draws, schedule[..k])
  {
    assert forall i :: 0 <= i < k ==> schedule[..k][..i] == schedule[..i];
  }

  // ---- No zero: every schedule is correct ----

  /** No zero is exposed, and at a draw the rounds left are those of the specification. */
  predicate Sound(s: State, count: nat)
    requires Shape(s)
  {
    && !Exposed(s)
    && (s.sender.Finished? || s.sender.Zero? || s.sender.LastSignal? || s.sender.left <= count)
    && (s.sender.Draw? ==> s.sender.left >= 1)
  }

  lemma StaysSound(s: State, count: nat, draws: nat -> Word, e: Event)
    requires Shape(s) && Sound(s, count) && NonZero(count, draws) && Draws(s.sender, draws, e)
    ensures Sound(Step(s, e), count)
  {
    hide Checksum, Words;
  }

  lemma {:induction false} RunIsSound(shm: seq<Word>, count: nat, draws: nat -> Word, schedule: seq<Event>)
    requires 3 <= |shm| < MODULUS && Follows(shm, count, draws, schedule) && NonZero(count, draws)
    ensures Sound(Run(shm, count, schedule), count)
  {
    if schedule != [] {
      var n := |schedule| - 1;
      FollowsPrefix(shm, count, draws, schedule, n);
      RunIsSound(shm, count, draws, schedule[..n]);
      StaysSound(Run(shm, count, schedule[..n]), count, draws, schedule[n]);
    }
  }

  lemma NonzeroDrawsAreClean(shm: seq<Word>, count: nat, draws: nat -> Word, schedule: seq<Event>)
    requires 3 <= |shm| < MODULUS && Follows(shm, count, draws, schedule) && NonZero(count, draws)
    ensures Clean(shm, count, schedule)
  {
    hide Run, Exposed;
    forall k | 0 <= k < |schedule|
      ensures !Exposed(Run(shm, count, schedule[..k]))
    {
      FollowsPrefix(shm, count, draws, schedule, k);
      RunIsSound(shm, count, draws, schedule[..k]);
    }
  }

  // ---- A zero in some round: a schedule that reaches that round undisturbed ----

  lemma More(shm: seq<Word>, count: nat, draws: nat -> Word, schedule: seq<Event>, e: Event)
    requires 3 <= |shm| < MODULUS && Follows(shm, count, draws, schedule)
    requires Draws(Run(shm, count, schedule).sender, draws, e)
    ensures Follows(shm, count, draws, schedule + [e])
    ensures Run(shm, count, schedule + [e]) == Step(Run(shm, count, schedule), e)
  {
    hide Step;
    assert (schedule + [e])[..|schedule|] == schedule;
    assert forall i :: 0 <= i < |schedule| ==> (schedule + [e])[..i] == schedule[..i];
  }

  /** Between rounds: the semaphore is free for the sender and the other two have nothing to do. */
  predicate AtRest(s: State, left: nat)
    requires Shape(s)
  {
    && s.sender == Wait(left) && s.shmsem == 1 && s.agentsem == 0 && s.agent == Op1
    && s.receiver == Call && s.inbox == Empty && Length(s) > 0 && |s.written| == |s.received|
  }

  predicate Idle(s: State)
    requires Shape(s)
  {
    && s.shmsem == 0 && s.agentsem == 0 && s.agent == Op1 && s.receiver == Call && s.inbox == Empty
    && |s.written| == |s.received|
  }

  lemma Drawing(s: State, left: nat, v: Word)
    requires Shape(s) && AtRest(s, left + 1)
    ensures var t := Step(s, SenderStep(0)); t.sender == Draw(left + 1)
    ensures var t := Step(Step(s, SenderStep(0)), SenderStep(v)); t.sender == Fix(left + 1) && Length(t) == v && Idle(t)
  {
    hide Checksum, Words;
  }

  lemma Fixing(s: State, left: nat)
    requires Shape(s) && s.sender == Fix(left) && Idle(s)
    ensures var t := Step(s, SenderStep(0)); t.sender == Fill(left, 1, 0) && Idle(t) && 1 <= Length(t) <= t.size
  {
    hide Checksum, Words;
  }

  predicate Filling(s: State, left: nat)
    requires Shape(s)
  {
    s.sender.Fill? && s.sender.left == left && 1 <= s.sender.i <= Length(s) + 1 && 1 <= Length(s) <= s.size && Idle(s)
  }

  lemma FillStep(s: State, left: nat)
    requires Shape(s) && Filling(s, left)
    ensures var t := Step(s, SenderStep(0));
      if s.sender.i <= Length(s) then Filling(t, left) && Length(t) == Length(s) && t.sender.i == s.sender.i + 1
      else t.sender.Store? && t.sender.left == left && Idle(t) && Length(t) == Length(s) && t.size == s.size
  {
    hide Checksum, Words;
  }

  predicate Storing(s: State, left: nat)
    requires Shape(s)
  {
    s.sender.Store? && s.sender.left == left && Idle(s) && 1 <= Length(s) <= s.size
  }

  /** The sender has signalled and waits again; the round is with the other two. */
  predicate Passed(s: State, left: nat, agentsem: nat, agent: Agent)
    requires Shape(s)
  {
    && s.sender == Wait(left) && s.shmsem == 0 && s.agentsem == agentsem && s.agent == agent && Length(s) > 0
    && |s.written| == |s.received| + if s.receiver.Send? || s.receiver.Sending? then 0 else 1
  }

  lemma Signals(s: State, left: nat)
    requires Shape(s) && Storing(s, left + 1)
    ensures var t := Step(s, SenderStep(0)); t.sender == Signal(left + 1)
    ensures var t := Step(Step(s, SenderStep(0)), SenderStep(0));
      Passed(t, left, 1, Op1) && t.receiver == Call && t.inbox == Empty
  {
    hide Checksum, Words;
  }

  lemma Answers(s: State, left: nat)
    requires Shape(s) && Passed(s, left, 1, Op1) && s.receiver == Call && s.inbox == Empty
    ensures var t := Step(Step(Step(Step(s, AgentPeriod), ReceiverStep), AgentPeriod), ReceiverStep);
      Passed(t, left, 0, Op3) && t.receiver == Read([], 0) && t.inbox == Empty
  {
    hide Checksum, Words;
    var a := Step(s, AgentPeriod);
    assert Passed(a, left, 0, Op2) && a.receiver == Call && a.inbox == Empty;
    var b := Step(a, ReceiverStep);
    assert Passed(b, left, 0, Op2) && b.receiver == Blocked && b.inbox == Rpc;
    var c := Step(b, AgentPeriod);
    assert Passed(c, left, 0, Op3) && c.receiver == Replied(GO) && c.inbox == Empty;
  }

  lemma ReadStep(s: State, left: nat)
    requires Shape(s) && Passed(s, left, 0, Op3) && s.receiver.Read? && s.inbox == Empty
    ensures var t := Step(s, ReceiverStep); Passed(t, left, 0, Op3) && t.inbox == Empty
    ensures var t := Step(s, ReceiverStep);
      if |s.receiver.got| < Length(s) then
        t.receiver.Read? && |t.receiver.got| == |s.receiver.got| + 1 && Length(t) == Length(s)
      else t.receiver == Send
  {
    hide Checksum, Words;
  }

  lemma Releases(s: State, left: nat)
    requires Shape(s) && Passed(s, left, 0, Op3) && s.receiver == Send && s.inbox == Empty
    ensures AtRest(Step(Step(s, ReceiverStep), AgentPeriod), left)
  {
    hide Checksum, Words;
    var a := Step(s, ReceiverStep);
    assert Passed(a, left, 0, Op3) && a.receiver == Sending && a.inbox == Sent;
  }

  lemma {:induction false} FillAll(shm: seq<Word>, count: nat, draws: nat -> Word, schedule: seq<Event>, left: nat)
    returns (more: seq<Event>)
    requires 3 <= |shm| < MODULUS && Follows(shm, count, draws, schedule) && Filling(Run(shm, count, schedule), left)
    ensures Follows(shm, count, draws, more) && Storing(Run(shm, count, more), left)
    decreases var s := Run(shm, count, schedule); Length(s) + 1 - s.sender.i
  {
    var s := Run(shm, count, schedule);
    hide Run, Follows, Step;
    More(shm, count, draws, schedule, SenderStep(0));
    FillStep(s, left);
    more := schedule + [SenderStep(0)];
    if s.sender.i <= Length(s) { more := FillAll(shm, count, draws, more, left); }
  }

  lemma {:induction false} ReadAllWords(shm: seq<Word>, count: nat, draws: nat -> Word, schedule: seq<Event>, left: nat)
    returns (more: seq<Event>)
    requires 3 <= |shm| < MODULUS && Follows(shm, count, draws, schedule)
    requires var s := Run(shm, count, schedule); Passed(s, left, 0, Op3) && s.receiver.Read? && s.inbox == Empty
    ensures Follows(shm, count, draws, more)
    ensures var t := Run(shm, count, more); Passed(t, left, 0, Op3) && t.receiver == Send && t.inbox == Empty
    decreases var s := Run(shm, count, schedule);
      if |s.receiver.got| < Length(s) then Length(s) - |s.receiver.got| else 0
  {
    var s := Run(shm, count, schedule);
    hide Run, Follows, Step;
    More(shm, count, draws, schedule, ReceiverStep);
    ReadStep(s, left);
    more := schedule + [ReceiverStep];
    if |s.receiver.got| < Length(s) { more := ReadAllWords(shm, count, draws, more, left); }
  }

  lemma SenderTurn(shm: seq<Word>, count: nat, draws: nat -> Word, schedule: seq<Event>, left: nat)
    returns (more: seq<Event>)
    requires 3 <= |shm| < MODULUS && Follows(shm, count, draws, schedule) && AtRest(Run(shm, count, schedule), left + 1)
    ensures Follows(shm, count, draws, more)
    ensures var t := Run(shm, count, more); Passed(t, left, 1, Op1) && t.receiver == Call && t.inbox == Empty
  {
    hide Run, Follows, Step;
    more := Drawn(shm, count, draws, schedule, left);
    Fixing(Run(shm, count, more), left + 1);
    More(shm, count, draws, more, SenderStep(0));
    more := FillAll(shm, count, draws, more + [SenderStep(0)], left + 1);
    Signals(Run(shm, count, more), left);
    More(shm, count, draws, more, SenderStep(0));
    More(shm, count, draws, more + [SenderStep(0)], SenderStep(0));
    more := more + [SenderStep(0)] + [SenderStep(0)];
  }

  lemma Drawn(shm: seq<Word>, count: nat, draws: nat -> Word, schedule: seq<Event>, left: nat)
    returns (more: seq<Event>)
    requires 3 <= |shm| < MODULUS && Follows(shm, count, draws, schedule) && AtRest(Run(shm, count, schedule), left + 1)
    ensures Follows(shm, count, draws, more)
    ensures var t := Run(shm, count, more); t.sender == Fix(left + 1) && Length(t) == draws(left + 1) && Idle(t)
  {
    hide Run, Follows, Step;
    Drawing(Run(shm, count, schedule), left, draws(left + 1));
    More(shm, count, draws, schedule, SenderStep(0));
    More(shm, count, draws, schedule + [SenderStep(0)], SenderStep(draws(left + 1)));
    more := schedule + [SenderStep(0)] + [SenderStep(draws(left + 1))];
  }

  lemma RelayTurn(shm: seq<Word>, count: nat, draws: nat -> Word, schedule: seq<Event>, left: nat)
    returns (more: seq<Event>)
    requires 3 <= |shm| < MODULUS && Follows(shm, count, draws, schedule)
    requires var s := Run(shm, count, schedule); Passed(s, left, 1, Op1) && s.receiver == Call && s.inbox == Empty
    ensures Follows(shm, count, draws, more) && AtRest(Run(shm, count, more), left)
  {
    Answers(Run(shm, count, schedule), left);
    hide Run, Follows, Step;
    More(shm, count, draws, schedule, AgentPeriod);
    more := schedule + [AgentPeriod];
    More(shm, count, draws, more, ReceiverStep);
    more := more + [ReceiverStep];
    More(shm, count, draws, more, AgentPeriod);
    more := more + [AgentPeriod];
    More(shm, count, draws, more, ReceiverStep);
    more := ReadAllWords(shm, count, draws, more + [ReceiverStep], left);
    Releases(Run(shm, count, more), left);
    More(shm, count, draws, more, ReceiverStep);
    More(shm, count, draws, more + [ReceiverStep], AgentPeriod);
    more := more + [ReceiverStep] + [AgentPeriod];
  }

  lemma Begins(shm: seq<Word>, count: nat)
    requires 3 <= |shm| < MODULUS
    ensures AtRest(Step(Init(shm, count), AgentPeriod), count)
  {
  }

  /** Whatever is drawn, some schedule completes the rounds before left. */
  lemma {:induction false} Reach(shm: seq<Word>, count: nat, draws: nat -> Word, left: nat)
    returns (schedule: seq<Event>)
    requires 3 <= |shm| < MODULUS && left <= count
    ensures Follows(shm, count, draws, schedule) && AtRest(Run(shm, count, schedule), left)
    decreases count - left
  {
    if left == count {
      Begins(shm, count);
      schedule := [AgentPeriod];
      assert schedule[..0] == [] && Run(shm, count, []) == Init(shm, count);
    } else {
      hide *;
      schedule := Reach(shm, count, draws, left + 1);
      schedule := SenderTurn(shm, count, draws, schedule, left);
      schedule := RelayTurn(shm, count, draws, schedule, left);
    }
  }

  /** A doomed run draws no more, so it can be continued at will. */
  lemma {:induction false} FollowsDoomed(shm: seq<Word>, count: nat, draws: nat -> Word, a: seq<Event>, b: seq<Event>)
    requires 3 <= |shm| < MODULUS && Follows(shm, count, draws, a) && Doomed(Run(shm, count, a))
    ensures Follows(shm, count, draws, a + b)
    decreases |b|
  {
    hide *;
    if b == [] {
      assert a + b == a;
    } else {
      StaysDoomed(Run(shm, count, a), b[0]);
      DrawsNoMore(Run(shm, count, a), draws, b[0]);
      More(shm, count, draws, a, b[0]);
      assert a + b == (a + [b[0]]) + b[1..];
      FollowsDoomed(shm, count, draws, a + [b[0]], b[1..]);
    }
  }

  lemma DrawsNoMore(s: State, draws: nat -> Word, e: Event)
    requires Shape(s) && Doomed(s)
    ensures Draws(s.sender, draws, e)
  {
  }

  lemma Misread(s: State, left: nat)
    requires Shape(s) && s.sender == Fix(left) && Length(s) == 0 && Idle(s)
    ensures Doomed(Step(s, AgentPeriod)) && forall draws :: Draws(s.sender, draws, AgentPeriod)
  {
    hide Checksum, Words;
  }

  /** A zero in any round: some interleaving tells the receiver to end with that round written and never read. */
  lemma ZeroDrawFails(shm: seq<Word>, count: nat, draws: nat -> Word, left: nat) returns (schedule: seq<Event>)
    requires 3 <= |shm| < MODULUS && 1 <= left <= count && draws(left) == 0
    ensures Follows(shm, count, draws, schedule)
    ensures var s := Run(shm, count, schedule); !Good(s) && s.receiver.Gone? && Lost(s)
  {
    hide *;
    var first := Reach(shm, count, draws, left);
    first := Drawn(shm, count, draws, first, left - 1);
    Misread(Run(shm, count, first), left);
    More(shm, count, draws, first, AgentPeriod);
    first := first + [AgentPeriod];
    var rest := LosesRound(Run(shm, count, first));
    RunSplit(shm, count, first, rest);
    FollowsDoomed(shm, count, draws, first, rest);
    schedule := first + rest;
  }

  /** The relay keeps its promise under every schedule if and only if no length drawn is 0. */
  lemma CorrectIffNoZeroDraw(shm: seq<Word>, count: nat, draws: nat -> Word)
    requires 3 <= |shm| < MODULUS
    ensures NonZero(count, draws) <==>
      forall schedule :: Follows(shm, count, draws, schedule) ==> Good(Run(shm, count, schedule))
  {
    hide Run, Follows, Good;
    if NonZero(count, draws) {
      forall schedule | Follows(shm, count, draws, schedule)
        ensures Good(Run(shm, count, schedule))
      {
        NonzeroDrawsAreClean(shm, count, draws, schedule);
        RunKeeps(shm, count, schedule);
        InvIsGood(Run(shm, count, schedule));
      }
    } else {
      var left :| 1 <= left <= count && draws(left) == 0;
      var bad := ZeroDrawFails(shm, count, draws, left);
    }
  }
}
