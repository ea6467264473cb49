/** The relay of user/heaps comes to its end: while its runs are clean, every step that does anything brings it nearer,
    and a schedule is clean exactly when all rounds can still be delivered. */
module RelayCompletion {

  import opened Arithmetic
  import opened Relay
  import opened RelayFailure

  /** Distance from the end, compared from the first component on: the sender's rounds, its place and the words it has
      to fill in; the agent's place; the receiver's place and the words it has to read. */
  datatype Rank = Rank(rounds: nat, sender: nat, words: nat, agent: nat, receiver: nat, unread: nat)

  predicate Nearer(a: Rank, b: Rank) {
    a.rounds < b.rounds || (a.rounds == b.rounds &&
    (a.sender < b.sender || (a.sender == b.sender &&
    (a.words < b.words || (a.words == b.words &&
    (a.agent < b.agent || (a.agent == b.agent &&
    (a.receiver < b.receiver || (a.receiver == b.receiver && a.unread < b.unread)))))))))
  }

  function Rounds(s: Sender): nat {
    if s.Zero? || s.LastSignal? || s.Finished? then 0 else s.left
  }

  function SenderPlace(s: Sender): nat {
    match s
    case Wait(_) => 8
    case Draw(_) => 7
    case Fix(_) => 6
    case Fill(_, _, _) => 5
    case Store(_, _) => 4
    case Signal(_) => 3
    case Zero => 2
    case LastSignal => 1
    case Finished => 0
  }

  function AgentPlace(a: Agent, agentsem: nat): nat {
    match a
    case Op1 => if agentsem > 0 then 6 else 2
    case Op2 => 5
    case Op3 => 4
    case Op4 => 3
    case Tail => 1
    case Ended => 0
  }

  function ReceiverPlace(r: Receiver): nat {
    match r
    case Call => 6
    case Blocked => 5
    case Replied(_) => 4
    case Read(_, _) => 3
    case Send => 2
    case Sending => 1
    case Gone => 0
  }

  function RankOf(s: State): Rank
    requires Shape(s)
  {
    var n := Length(s);
    Rank(Rounds(s.sender), SenderPlace(s.sender),
         if s.sender.Fill? && s.sender.i <= n then n + 1 - s.sender.i else 0,
         AgentPlace(s.agent, s.agentsem), ReceiverPlace(s.receiver),
         if s.receiver.Read? && |s.receiver.got| < n then n - |s.receiver.got| else 0)
  }

  lemma SenderAdvances(s: State, v: Word)
    requires Shape(s) && Inv(s) && SenderGo(s, v) != s
    ensures Nearer(RankOf(SenderGo(s, v)), RankOf(s))
  {
    hide Checksum, Words, Complete, Reading;
  }

  lemma AgentAdvances(s: State)
    requires Shape(s) && Inv(s) && AgentGo(s) != s
    ensures Nearer(RankOf(AgentGo(s)), RankOf(s))
  {
    hide Checksum, Words, Complete, Reading;
  }

  lemma ReceiverAdvances(s: State)
    requires Shape(s) && Inv(s) && ReceiverGo(s) != s
    ensures Nearer(RankOf(ReceiverGo(s)), RankOf(s))
  {
    hide Checksum, Words, Complete, Reading;
  }

  /** Every step that changes anything brings the relay nearer to its end, so no run goes on for ever. */
  lemma EveryStepCounts(s: State, e: Event)
    requires Shape(s) && Inv(s) && Step(s, e) != s
    ensures Nearer(RankOf(Step(s, e)), RankOf(s))
  {
    hide SenderGo, AgentGo, ReceiverGo, Inv, Nearer, RankOf;
    match e
    case SenderStep(v) => SenderAdvances(s, v);
    case AgentPeriod => AgentAdvances(s);
    case ReceiverStep => ReceiverAdvances(s);
  }

  predicate AllFinished(s: State) {
    s.sender.Finished? && s.agent.Ended? && s.receiver.Gone?
  }

  /** A step that does something: the sender's if it can, else the receiver's, else the agent's. */
  function Choice(s: State): Event {
    if SenderOwns(s) || (s.shmsem > 0 && s.sender.Wait?) then SenderStep(0)
    else if !(s.receiver.Blocked? || s.receiver.Sending? || s.receiver.Gone?) then ReceiverStep
    else AgentPeriod
  }

  lemma ChoiceActs(s: State)
    requires Shape(s) && Inv(s) && !AllFinished(s)
    ensures Step(s, Choice(s)) != s && (Choice(s).AgentPeriod? ==> !Exposed(s))
  {
    hide Checksum, Words, Complete, Reading;
  }

  lemma ChoiceKeeps(s: State)
    requires Shape(s) && Inv(s) && !AllFinished(s)
    ensures Inv(Step(s, Choice(s)))
  {
    ChoiceActs(s);
    hide Inv, SenderGo, AgentGo, ReceiverGo, Choice, Exposed;
    match Choice(s)
    case SenderStep(v) => SenderKeeps(s, v);
    case AgentPeriod => AgentKeeps(s);
    case ReceiverStep => ReceiverKeeps(s);
  }

  /** From every state of a clean run the three can finish. */
  lemma {:induction false} Finish(s: State) returns (rest: seq<Event>)
    requires Shape(s) && Inv(s)
    ensures Inv(RunFrom(s, rest)) && AllFinished(RunFrom(s, rest))
    decreases RankOf(s).rounds, RankOf(s).sender, RankOf(s).words, RankOf(s).agent, RankOf(s).receiver, RankOf(s).unread
  {
    hide Inv, Step, Choice, RankOf;
    if AllFinished(s) {
      rest := [];
    } else {
      ChoiceActs(s);
      ChoiceKeeps(s);
      EveryStepCounts(s, Choice(s));
      var e := Choice(s);
      rest := Finish(Step(s, e));
      assert ([e] + rest)[1..] == rest;
      rest := [e] + rest;
    }
  }

  /** Rounds written and rounds to go. */
  predicate Accounted(s: State, count: nat) {
    match s.sender
    case Wait(left) => |s.written| + left == count
    case Draw(left) => |s.written| + left == count && left > 0
    case Fix(left) => |s.written| + left == count && left > 0
    case Fill(left, _, _) => |s.written| + left == count && left > 0
    case Store(left, _) => |s.written| + left == count && left > 0
    case Signal(left) => |s.written| + left == count + 1 && left > 0
    case _ => |s.written| == count
  }

  lemma {:induction false} RunAccounts(shm: seq<Word>, count: nat, schedule: seq<Event>)
    requires 3 <= |shm| < MODULUS
    ensures Accounted(Run(shm, count, schedule), count)
  {
    if schedule != [] {
      RunAccounts(shm, count, schedule[..|schedule| - 1]);
      StepAccounts(Run(shm, count, schedule[..|schedule| - 1]), count, schedule[|schedule| - 1]);
      hide Accounted, Step;
    }
  }

  lemma StepAccounts(s: State, count: nat, e: Event)
    requires Shape(s) && Accounted(s, count)
    ensures Accounted(Step(s, e), count)
  {
    hide Checksum, Words;
  }

  /** All rounds written, all of them received, everybody finished. */
  predicate Delivered(s: State, count: nat) {
    AllFinished(s) && s.received == s.written && |s.written| == count
  }

  ghost predicate CanDeliver(shm: seq<Word>, count: nat, schedule: seq<Event>)
    requires 3 <= |shm| < MODULUS
  {
    exists rest :: Delivered(Run(shm, count, schedule + rest), count)
  }

  lemma CleanCanDeliver(shm: seq<Word>, count: nat, schedule: seq<Event>)
    requires 3 <= |shm| < MODULUS && Clean(shm, count, schedule)
    ensures CanDeliver(shm, count, schedule)
  {
    hide Run, Inv, RunFrom, Clean;
    RunKeeps(shm, count, schedule);
    var rest := Finish(Run(shm, count, schedule));
    RunSplit(shm, count, schedule, rest);
    RunAccounts(shm, count, schedule + rest);
    InvIsGood(Run(shm, count, schedule + rest));
    assert Delivered(Run(shm, count, schedule + rest), count);
  }

  lemma UncleanCannotDeliver(shm: seq<Word>, count: nat, schedule: seq<Event>)
    requires 3 <= |shm| < MODULUS && !Clean(shm, count, schedule)
    ensures !CanDeliver(shm, count, schedule)
  {
    hide Run, RunFrom, Clean;
    UncleanIsDoomed(shm, count, schedule);
    forall rest
      ensures !Delivered(Run(shm, count, schedule + rest), count)
    {
      RunSplit(shm, count, schedule, rest);
      DoomedForEver(Run(shm, count, schedule), rest);
    }
  }

  /** A schedule is clean if and only if it can still be continued until every round is delivered and all three have
      finished; and every state along a clean schedule is good. */
  lemma RelayCorrectIffClean(shm: seq<Word>, count: nat, schedule: seq<Event>)
    requires 3 <= |shm| < MODULUS
    ensures Clean(shm, count, schedule) <==> CanDeliver(shm, count, schedule)
    ensures Clean(shm, count, schedule) ==> forall k :: 0 <= k <= |schedule| ==> Good(Run(shm, count, schedule[..k]))
  {
    hide *;
    if Clean(shm, count, schedule) {
      CleanCanDeliver(shm, count, schedule);
      forall k | 0 <= k <= |schedule|
        ensures Good(Run(shm, count, schedule[..k]))
      {
        CleanIsGood(shm, count, schedule, k);
      }
    } else {
      UncleanCannotDeliver(shm, count, schedule);
    }
  }

  /** In a clean run the relay cannot get stuck: until all three have finished, some step changes the state. */
  lemma NoDeadlock(shm: seq<Word>, count: nat, schedule: seq<Event>)
    requires 3 <= |shm| < MODULUS && Clean(shm, count, schedule)
    ensures var s := Run(shm, count, schedule);
      (s.sender.Finished? && s.agent.Ended? && s.receiver.Gone?) || exists e :: Step(s, e) != s
  {
    RunKeeps(shm, count, schedule);
    var s := Run(shm, count, schedule);
    Progress(s);
  }

  lemma Progress(s: State)
    requires Shape(s) && Inv(s)
    ensures (s.sender.Finished? && s.agent.Ended? && s.receiver.Gone?) || exists e :: Step(s, e) != s
  {
    hide Add, Checksum;
    if SenderOwns(s) || (s.shmsem > 0 && s.sender.Wait?) {
      assert Step(s, SenderStep(0)) != s;
    } else if !(s.receiver.Blocked? || s.receiver.Sending? || s.receiver.Gone?) {
      assert Step(s, ReceiverStep) != s;
    } else if !s.agent.Ended? {
      assert Step(s, AgentPeriod) != s;
    }
  }
}
