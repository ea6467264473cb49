/** user/heaps: a sender, a periodic agent and a receiver pass one shared buffer round. The sender fills the
    buffer between waiting on shmsem and signalling agentsem; the agent relays; the receiver reads between the
    return of its rpc and its send.

    Granularity. One agent period, from the loop guard to the wait for the next period, is one step. In the sender
    and the receiver every semaphore operation and every message is a step, and so is every turn of their loops over
    the words (the guard on shm[0] together with the one word it writes or reads) and what follows the loop (storing or
    comparing the checksum). The sender's `if (!(shm[0] = draw) || ...) shm[0] = size` is two steps, so that a draw of 0
    stands in shm[0] until it is replaced. Words are 32-bit and unsigned, sums wrap around. */
module Relay {

  import opened Arithmetic
  import opened Counting

  const GO: Word := 0xaaaaaaaa
  const END: Word := 0xeeeeeeee

  datatype Sender =
    | Wait(left: nat)                        // left rounds to go, this one included; 0: the closing round
    | Draw(left: nat)                        // shm[0] = draw
    | Fix(left: nat)                         // shm[0] = size if the draw is 0 or too large
    | Fill(left: nat, i: nat, sum: Word)     // shm[i] = random, sum it
    | Store(left: nat, sum: Word)            // shm[shm[0] + 1] = sum
    | Signal(left: nat)
    | Zero                                   // shm[0] = 0
    | LastSignal
    | Finished

  /** Op1..Op4: inside the loop with that value of op; Tail: past the loop. */
  datatype Agent = Op1 | Op2 | Op3 | Op4 | Tail | Ended

  datatype Receiver =
    | Call                                   // about to rpc
    | Blocked                                // inside rpc
    | Replied(msg: Word)
    | Read(got: seq<Word>, sum: Word)        // next word to read: shm[|got| + 1]
    | Send                                   // about to send
    | Sending                                // inside send
    | Gone

  datatype Inbox = Empty | Rpc | Sent

  /** written, received: the buffers completed by the sender and read by the receiver; checks: the outcomes of all
      checksum comparisons made by the agent and the receiver. */
  datatype State = State(
    size: nat, shm: seq<Word>, shmsem: nat, agentsem: nat, inbox: Inbox,
    sender: Sender, agent: Agent, receiver: Receiver,
    written: seq<seq<Word>>, received: seq<seq<Word>>, checks: seq<bool>)

  /** value: the random number, where the sender's step uses one. */
  datatype Event = SenderStep(value: Word) | AgentPeriod | ReceiverStep

  function Init(shm: seq<Word>, count: nat): State
    requires 3 <= |shm| < MODULUS
  {
    State(|shm| - 2, shm[0 := |shm| - 2], 0, 0, Empty, Wait(count), Op4, Call, [], [], [])
  }

  predicate Shape(s: State) {
    1 <= s.size && s.size + 2 < MODULUS && |s.shm| == s.size + 2
  }

  function Length(s: State): nat
    requires Shape(s)
  {
    s.shm[0]
  }

  function Written(s: State, i: nat, w: Word): State {
    if i < |s.shm| then s.(shm := s.shm[i := w]) else s
  }

  function WordAt(s: State, i: nat): Word {
    if i < |s.shm| then s.shm[i] else 0
  }

  /** The words of a round: shm[1], ..., shm[shm[0]]. */
  function Words(shm: seq<Word>): seq<Word>
    requires |shm| > 0
  {
    if shm[0] < |shm| then shm[1..shm[0] + 1] else []
  }

  function Body(s: State): seq<Word>
    requires Shape(s)
  {
    Words(s.shm)
  }

  function SenderGo(s: State, v: Word): State
    requires Shape(s)
  {
    match s.sender
    case Wait(left) =>
      if s.shmsem == 0 then s
      else s.(shmsem := s.shmsem - 1, sender := if left == 0 then Zero else Draw(left))
    case Draw(left) => Written(s, 0, v).(sender := Fix(left))
    case Fix(left) =>
      (if Length(s) == 0 || Length(s) > s.size then Written(s, 0, s.size) else s).(sender := Fill(left, 1, 0))
    case Fill(left, i, sum) =>
      if i <= Length(s) then Written(s, i, v).(sender := Fill(left, i + 1, Add(sum, v)))
      else s.(sender := Store(left, sum))
    case Store(left, sum) =>
      Written(s, Length(s) + 1, sum).(sender := Signal(left), written := s.written + [Body(s)])
    case Signal(left) =>
      s.(agentsem := s.agentsem + 1, sender := Wait(if left == 0 then 0 else left - 1))
    case Zero => Written(s, 0, 0).(sender := LastSignal)
    case LastSignal => s.(agentsem := s.agentsem + 1, sender := Finished)
    case Finished => s
  }

  /** rt_receive_if followed, for an rpc, by rt_return(reply): the task that sent the message runs on. */
  function Receive(s: State, reply: Word): State {
    match s.inbox
    case Empty => s
    case Rpc => s.(inbox := Empty, receiver := if s.receiver.Blocked? then Replied(reply) else s.receiver)
    case Sent => s.(inbox := Empty, receiver := if s.receiver.Sending? then Call else s.receiver)
  }

  function AgentOp4(s: State): State {
    s.(agent := Op1, shmsem := s.shmsem + 1)
  }

  function AgentOp3(s: State): State {
    if s.inbox.Empty? then s.(agent := Op3) else AgentOp4(Receive(s, GO))
  }

  function AgentOp2(s: State): State {
    if s.inbox.Empty? then s.(agent := Op2) else AgentOp3(Receive(s, GO))
  }

  function AgentOp1(s: State): State
    requires Shape(s)
  {
    if s.agentsem == 0 then s
    else AgentOp2(s.(agentsem := s.agentsem - 1, checks := s.checks + [Checksum(Body(s)) == WordAt(s, Length(s) + 1)]))
  }

  predicate InLoop(a: Agent) {
    a.Op1? || a.Op2? || a.Op3? || a.Op4?
  }

  function AgentGo(s: State): State
    requires Shape(s)
  {
    if InLoop(s.agent) && Length(s) == 0 then s.(agent := Tail)
    else match s.agent
      case Op1 => AgentOp1(s)
      case Op2 => AgentOp2(s)
      case Op3 => AgentOp3(s)
      case Op4 => AgentOp4(s)
      case Tail => if s.inbox.Empty? then s else Receive(s, END).(agent := Ended)
      case Ended => s
  }

  function ReceiverGo(s: State): State
    requires Shape(s)
  {
    match s.receiver
    case Call => s.(inbox := Rpc, receiver := Blocked)
    case Blocked => s
    case Replied(msg) => s.(receiver := if msg == END then Gone else Read([], 0))
    case Read(got, sum) =>
      if |got| < Length(s) then
        var w := WordAt(s, |got| + 1);
        s.(receiver := Read(got + [w], Add(sum, w)))
      else s.(receiver := Send, received := s.received + [got], checks := s.checks + [sum == WordAt(s, Length(s) + 1)])
    case Send => s.(inbox := Sent, receiver := Sending)
    case Sending => s
    case Gone => s
  }

  function Step(s: State, e: Event): (t: State)
    requires Shape(s)
    ensures Shape(t)
  {
    match e
    case SenderStep(v) => SenderGo(s, v)
    case AgentPeriod => AgentGo(s)
    case ReceiverStep => ReceiverGo(s)
  }

  function Run(shm: seq<Word>, count: nat, schedule: seq<Event>): (s: State)
    requires 3 <= |shm| < MODULUS
    ensures Shape(s)
  {
    if schedule == [] then Init(shm, count)
    else Step(Run(shm, count, schedule[..|schedule| - 1]), schedule[|schedule| - 1])
  }

  // ---- The invariant ----

  /** The sender is between its wait on shmsem and its signal to agentsem. */
  predicate SenderOwns(s: State) {
    !(s.sender.Wait? || s.sender.Finished?)
  }

  predicate AgentOwns(s: State) {
    s.agent.Op2? || s.agent.Op3? || s.agent.Op4?
  }

  predicate Closing(s: State) {
    s.sender.LastSignal? || s.sender.Finished?
  }

  /** A draw of 0 stands in shm[0] and has not been replaced yet. */
  predicate Exposed(s: State)
    requires Shape(s)
  {
    s.sender.Fix? && Length(s) == 0
  }

  /** A complete round lies in the buffer, with its checksum behind it. */
  ghost predicate Complete(shm: seq<Word>) {
    |shm| > 0 && 1 <= shm[0] && shm[0] + 2 <= |shm| && shm[shm[0] + 1] == Checksum(Words(shm))
  }

  /** A complete round lies in the buffer and is the only one not yet received. */
  ghost predicate Holding(s: State)
    requires Shape(s)
  {
    Complete(s.shm) && s.written == s.received + [Words(s.shm)]
  }

  /** The receiver has read got, the first words of the buffer. */
  ghost predicate Reading(shm: seq<Word>, got: seq<Word>, sum: Word) {
    |shm| > 0 && |got| <= shm[0] && shm[0] + 2 <= |shm| && got == shm[1..|got| + 1] && sum == Checksum(got)
  }

  ghost predicate SenderOk(s: State)
    requires Shape(s)
  {
    match s.sender
    case Wait(_) => Length(s) > 0
    case Draw(left) => left > 0 && Length(s) > 0
    case Fix(left) => left > 0
    case Fill(left, i, sum) =>
      left > 0 && 1 <= Length(s) <= s.size && 1 <= i <= Length(s) + 1 && sum == Checksum(s.shm[1..i])
    case Store(left, sum) => left > 0 && 1 <= Length(s) <= s.size && sum == Checksum(Body(s))
    case Signal(left) => left > 0 && Length(s) > 0 && Holding(s)
    case Zero => Length(s) > 0
    case LastSignal => Length(s) == 0
    case Finished => Length(s) == 0 && s.agentsem > 0
  }

  /** The receiver's message and place fit the agent's op. */
  ghost predicate MessagesOk(s: State)
    requires Shape(s)
  {
    && (s.inbox.Rpc? <==> s.receiver.Blocked?)
    && (s.inbox.Sent? <==> s.receiver.Sending?)
    && match s.agent
       case Op3 => s.receiver == Replied(GO) || s.receiver.Read? || s.receiver.Send? || s.receiver.Sending?
       case Ended => s.receiver == Replied(END) || s.receiver.Gone?
       case _ => s.receiver.Call? || s.receiver.Blocked?
  }

  ghost predicate DataOk(s: State)
    requires Shape(s)
  {
    && (s.agentsem > 0 && !Closing(s) ==> Holding(s))
    && (s.agent.Op2? || (s.agent.Op3? && (s.receiver.Replied? || s.receiver.Read?)) ==> Holding(s))
    && (s.receiver.Read? ==> Reading(s.shm, s.receiver.got, s.receiver.sum))
    && (!PendingRound(s) ==> s.written == s.received)
    && (forall i :: 0 <= i < |s.checks| ==> s.checks[i])
  }

  /** A round has been written and not yet read completely. */
  predicate PendingRound(s: State) {
    s.sender.Signal? || (s.agentsem > 0 && !Closing(s)) || s.agent.Op2? ||
    (s.agent.Op3? && (s.receiver.Replied? || s.receiver.Read?))
  }

  ghost predicate Inv(s: State)
    requires Shape(s)
  {
    && s.shmsem + s.agentsem + One(SenderOwns(s)) + One(AgentOwns(s)) == 1
    && (s.agent.Tail? || s.agent.Ended? ==> Closing(s))
    && SenderOk(s) && MessagesOk(s) && DataOk(s)
  }

  lemma SumMore(ws: seq<Word>, w: Word)
    ensures Checksum(ws + [w]) == Add(Checksum(ws), w)
  {
    hide Add;
    assert (ws + [w])[..|ws|] == ws;
  }

  lemma FillMore(shm: seq<Word>, i: nat, sum: Word, v: Word)
    requires 1 <= i < |shm| && sum == Checksum(shm[1..i])
    ensures Add(sum, v) == Checksum(shm[i := v][1..i + 1])
  {
    hide Add, Checksum;
    assert shm[i := v][1..i + 1] == shm[1..i] + [v];
    SumMore(shm[1..i], v);
  }

  lemma StoreSum(shm: seq<Word>)
    requires |shm| > 0 && 1 <= shm[0] && shm[0] + 2 <= |shm|
    ensures var after := shm[shm[0] + 1 := Checksum(Words(shm))]; Complete(after) && Words(after) == Words(shm)
  {
    var after := shm[shm[0] + 1 := Checksum(Words(shm))];
    assert Words(after) == Words(shm);
    hide Add, Checksum;
  }

  lemma SenderKeeps(s: State, v: Word)
    requires Shape(s) && Inv(s)
    ensures Inv(SenderGo(s, v))
  {
    hide Add, Checksum, Words, Complete, Reading;
    match s.sender {
      case Fill(_, i, sum) =>
        if i <= Length(s) { FillMore(s.shm, i, sum, v); } else { WholeBody(s.shm); }
      case Store(_, _) => StoreSum(s.shm);
      case Fix(_) => NothingYet(SenderGo(s, v).shm);
      case _ =>
    }
  }

  lemma WholeBody(shm: seq<Word>)
    requires |shm| > 0 && shm[0] < |shm|
    ensures Words(shm) == shm[1..shm[0] + 1]
  {
  }

  lemma NothingYet(shm: seq<Word>)
    requires |shm| > 1
    ensures Checksum(shm[1..1]) == 0
    ensures shm[0] + 2 <= |shm| ==> Reading(shm, [], 0)
  {
    assert shm[1..1] == [];
  }

  /** Op 1 with the semaphore signalled: the agent owns the buffer and its checksum test succeeds. */
  lemma AgentTakes(s: State)
    requires Shape(s) && Inv(s) && s.agent.Op1? && s.agentsem > 0 && Length(s) > 0
    ensures var check := Checksum(Body(s)) == WordAt(s, Length(s) + 1);
            var t := s.(agentsem := s.agentsem - 1, checks := s.checks + [check]);
            Inv(t.(agent := Op2))
  {
    hide Add, Checksum, Words, Reading;
    assert Holding(s);
  }

  lemma AgentReturns(s: State)
    requires Shape(s) && Inv(s) && s.agent.Op2?
    ensures Inv(AgentOp2(s))
  {
    hide Add, Checksum, Words, Complete, Reading;
  }

  lemma AgentReleases(s: State)
    requires Shape(s) && Inv(s) && (s.agent.Op3? || s.agent.Op4?)
    ensures s.agent.Op3? ==> Inv(AgentOp3(s))
    ensures s.agent.Op4? ==> Inv(AgentOp4(s))
  {
    hide Add, Checksum, Words, Complete, Reading;
  }

  /** An agent period keeps the invariant, unless its guard reads the 0 of an unfinished draw. */
  lemma AgentKeeps(s: State)
    requires Shape(s) && Inv(s) && !(InLoop(s.agent) && Exposed(s))
    ensures Inv(AgentGo(s))
  {
    hide Add, Checksum, Words, Complete, Reading;
    match s.agent {
      case Op1 =>
        if Length(s) > 0 && s.agentsem > 0 {
          AgentTakes(s);
          var t := s.(agentsem := s.agentsem - 1, checks := s.checks + [Checksum(Body(s)) == WordAt(s, Length(s) + 1)]);
          AgentReturns(t.(agent := Op2));
        }
      case Op2 => AgentReturns(s);
      case Op3 => AgentReleases(s);
      case Op4 => AgentReleases(s);
      case _ =>
    }
  }

  lemma ReadMore(shm: seq<Word>, got: seq<Word>, sum: Word)
    requires Reading(shm, got, sum) && |got| < shm[0]
    ensures var w := shm[|got| + 1]; Reading(shm, got + [w], Add(sum, w))
  {
    hide Add, Checksum;
    var w := shm[|got| + 1];
    assert got + [w] == shm[1..|got| + 2];
    SumMore(got, w);
  }

  lemma ReadAll(shm: seq<Word>, got: seq<Word>, sum: Word)
    requires Reading(shm, got, sum) && |got| == shm[0] && Complete(shm)
    ensures got == Words(shm) && sum == shm[shm[0] + 1]
  {
  }

  lemma Bound(shm: seq<Word>)
    ensures Complete(shm) ==> |shm| > 0 && shm[0] + 2 <= |shm|
  {
  }

  lemma ReadBound(shm: seq<Word>, got: seq<Word>, sum: Word)
    requires Reading(shm, got, sum)
    ensures |shm| > 0 && |got| <= shm[0]
  {
  }

  lemma ReceiverKeeps(s: State)
    requires Shape(s) && Inv(s)
    ensures Inv(ReceiverGo(s))
  {
    hide Add, Checksum, Words, Complete, Reading;
    match s.receiver {
      case Replied(_) =>
        assert Holding(s) || s.agent.Ended?;
        Bound(s.shm);
        NothingYet(s.shm);
      case Read(got, sum) =>
        assert Holding(s);
        Bound(s.shm);
        ReadBound(s.shm, got, sum);
        if |got| < Length(s) { ReadMore(s.shm, got, sum); } else { ReadAll(s.shm, got, sum); }
      case _ =>
    }
  }

  /** No agent period reads the loop guard while a draw of 0 stands in shm[0]. */
  ghost predicate Clean(shm: seq<Word>, count: nat, schedule: seq<Event>)
    requires 3 <= |shm| < MODULUS
  {
    forall k :: 0 <= k < |schedule| && schedule[k].AgentPeriod? && InLoop(Run(shm, count, schedule[..k]).agent) ==>
      !Exposed(Run(shm, count, schedule[..k]))
  }

  lemma CleanBefore(shm: seq<Word>, count: nat, schedule: seq<Event>)
    requires 3 <= |shm| < MODULUS && schedule != [] && Clean(shm, count, schedule)
    ensures Clean(shm, count, schedule[..|schedule| - 1])
  {
    var before := schedule[..|schedule| - 1];
    assert forall k :: 0 <= k < |before| ==> before[..k] == schedule[..k];
  }

  lemma {:induction false} RunKeeps(shm: seq<Word>, count: nat, schedule: seq<Event>)
    requires 3 <= |shm| < MODULUS && Clean(shm, count, schedule)
    ensures Inv(Run(shm, count, schedule))
  {
    if schedule != [] {
      var n := |schedule| - 1;
      CleanBefore(shm, count, schedule);
      RunKeeps(shm, count, schedule[..n]);
      var s := Run(shm, count, schedule[..n]);
      match schedule[n] {
        case SenderStep(v) => SenderKeeps(s, v);
        case AgentPeriod => AgentKeeps(s);
        case ReceiverStep => ReceiverKeeps(s);
      }
    }
  }

  // ---- Main results ----

  predicate SenderInBody(s: State) {
    s.sender.Draw? || s.sender.Fix? || s.sender.Fill? || s.sender.Store?
  }

  predicate ReceiverInBody(s: State) {
    s.receiver.Read?
  }

  /** The agent's next period would sum the buffer. */
  predicate AgentInBody(s: State)
    requires Shape(s)
  {
    s.agent.Op1? && s.agentsem > 0 && Length(s) > 0
  }

  /** What the relay promises of a state. */
  ghost predicate Good(s: State)
    requires Shape(s)
  {
    // never two parties in the buffer
    && !(SenderInBody(s) && ReceiverInBody(s)) && !(SenderInBody(s) && AgentInBody(s))
    && !(ReceiverInBody(s) && AgentInBody(s))
    // every checksum comparison succeeded
    && (forall i :: 0 <= i < |s.checks| ==> s.checks[i])
    // the receiver has read the first of the written buffers, all of them when it is told to end
    && s.received <= s.written && |s.written| <= |s.received| + 1
    && (s.receiver == Replied(END) || s.receiver.Gone? ==> s.received == s.written)
  }

  lemma InvIsGood(s: State)
    requires Shape(s) && Inv(s)
    ensures Good(s)
  {
    hide Add, Checksum;
  }

  /** With the sender's choice of shm[0] as one step, that is, no agent period between its two assignments, every
      run is correct. */
  lemma AtomicChoiceIsCorrect(shm: seq<Word>, count: nat, schedule: seq<Event>)
    requires 3 <= |shm| < MODULUS
    requires forall k :: 0 <= k < |schedule| && schedule[k].AgentPeriod? ==> !Run(shm, count, schedule[..k]).sender.Fix?
    ensures Good(Run(shm, count, schedule))
  {
    assert Clean(shm, count, schedule);
    RunKeeps(shm, count, schedule);
    hide Run;
    InvIsGood(Run(shm, count, schedule));
  }

  /** In a clean run the agent leaves its loop, and the receiver is told to end, only after the sender's last round. */
  lemma LeavesLast(shm: seq<Word>, count: nat, schedule: seq<Event>)
    requires 3 <= |shm| < MODULUS && Clean(shm, count, schedule)
    ensures var s := Run(shm, count, schedule);
      (!InLoop(s.agent) ==> Closing(s)) && (s.receiver == Replied(END) || s.receiver.Gone? ==> Closing(s))
  {
    RunKeeps(shm, count, schedule);
    hide Run, Checksum;
  }

  /** Every state of a clean run is good. */
  lemma CleanIsGood(shm: seq<Word>, count: nat, schedule: seq<Event>, k: nat)
    requires 3 <= |shm| < MODULUS && Clean(shm, count, schedule) && k <= |schedule|
    ensures Good(Run(shm, count, schedule[..k]))
  {
    hide Good, Inv, Run;
    CleanPrefix(shm, count, schedule, k);
    RunKeeps(shm, count, schedule[..k]);
    InvIsGood(Run(shm, count, schedule[..k]));
  }

  lemma CleanPrefix(shm: seq<Word>, count: nat, schedule: seq<Event>, k: nat)
    requires 3 <= |shm| < MODULUS && Clean(shm, count, schedule) && k <= |schedule|
    ensures Clean(shm, count, schedule[..k])
  {
    var before := schedule[..k];
    assert forall j :: 0 <= j < |before| ==> before[..j] == schedule[..j];
  }
}
