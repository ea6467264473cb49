/** What the sender of user/heaps writes, read off the schedule: the lengths drawn and the random words, noted
    beside the run and independently of what the sender's steps do with them. */
module RelayRounds {

  import opened Arithmetic
  import opened Relay
  import opened RelayDraws
  import opened RelayCompletion

  /** The length of a round for a draw: the draw if the buffer has room for it and it is not 0, else all there is. */
  function Wanted(size: nat, draw: Word): nat {
    if 1 <= draw <= size then draw else size
  }

  /** draw, words: the numbers drawn in the round under way; draws, rounds: those of the completed rounds. */
  datatype Log = Log(draw: Word, words: seq<Word>, draws: seq<Word>, rounds: seq<seq<Word>>)

  /** A step of the sender at the given place, using the number v: the draw, then as many words as it asks for. */
  function Noted(size: nat, log: Log, place: Sender, v: Word): Log {
    match place
    case Draw(_) => log.(draw := v, words := [])
    case Fill(_, _, _) => if |log.words| < Wanted(size, log.draw) then log.(words := log.words + [v]) else log
    case Store(_, _) => log.(draws := log.draws + [log.draw], rounds := log.rounds + [log.words])
    case _ => log
  }

  function LogOf(shm: seq<Word>, count: nat, schedule: seq<Event>): Log
    requires 3 <= |shm| < MODULUS
  {
    if schedule == [] then Log(0, [], [], [])
    else
      var before, e := schedule[..|schedule| - 1], schedule[|schedule| - 1];
      var log := LogOf(shm, count, before);
      if e.SenderStep? then Noted(|shm| - 2, log, Run(shm, count, before).sender, e.value) else log
  }

  ghost predicate Lengths(size: nat, log: Log) {
    |log.draws| == |log.rounds| && forall k :: 0 <= k < |log.rounds| ==> |log.rounds[k]| == Wanted(size, log.draws[k])
  }

  /** The buffer and the sender's place agree with the log. */
  ghost predicate Agrees(s: State, log: Log)
    requires Shape(s)
  {
    && s.written == log.rounds && Lengths(s.size, log)
    && match s.sender
       case Fix(_) => Length(s) == log.draw && log.words == []
       case Fill(_, i, _) =>
         Length(s) == Wanted(s.size, log.draw) && 1 <= i == |log.words| + 1 <= Length(s) + 1 && log.words == s.shm[1..i]
       case Store(_, _) => Length(s) == Wanted(s.size, log.draw) == |log.words| && log.words == Words(s.shm)
       case _ => true
  }

  lemma FillAgrees(s: State, log: Log, v: Word)
    requires Shape(s) && s.sender.Fill? && Agrees(s, log)
    ensures Agrees(SenderGo(s, v), Noted(s.size, log, s.sender, v))
  {
    hide Checksum, Add;
    var i := s.sender.i;
    if i <= Length(s) { assert s.shm[i := v][1..i + 1] == s.shm[1..i] + [v]; }
  }

  lemma StoreAgrees(s: State, log: Log, v: Word)
    requires Shape(s) && s.sender.Store? && Agrees(s, log)
    ensures Agrees(SenderGo(s, v), Noted(s.size, log, s.sender, v))
  {
    hide Words, Checksum;
  }

  lemma SenderAgrees(s: State, log: Log, v: Word)
    requires Shape(s) && Agrees(s, log)
    ensures Agrees(SenderGo(s, v), Noted(s.size, log, s.sender, v))
  {
    if s.sender.Fill? {
      FillAgrees(s, log, v);
    } else if s.sender.Store? {
      StoreAgrees(s, log, v);
    } else {
      hide Words, Checksum, Lengths;
      assert s.shm[0 := v][1..1] == [] && s.shm[0 := s.size][1..1] == [];
    }
  }

  lemma OthersAgree(s: State, log: Log, e: Event)
    requires Shape(s) && Agrees(s, log) && !e.SenderStep?
    ensures Agrees(Step(s, e), log)
  {
    hide Words, Checksum, Lengths;
  }

  lemma SizeStays(s: State, e: Event)
    requires Shape(s)
    ensures Step(s, e).size == s.size
  {
    hide Words, Checksum;
  }

  lemma {:induction false} RunAgrees(shm: seq<Word>, count: nat, schedule: seq<Event>)
    requires 3 <= |shm| < MODULUS
    ensures Run(shm, count, schedule).size == |shm| - 2
    ensures Agrees(Run(shm, count, schedule), LogOf(shm, count, schedule))
  {
    if schedule != [] {
      var before, e := schedule[..|schedule| - 1], schedule[|schedule| - 1];
      RunAgrees(shm, count, before);
      var s, log := Run(shm, count, before), LogOf(shm, count, before);
      hide Agrees, Noted, SenderGo, AgentGo, ReceiverGo;
      SizeStays(s, e);
      if e.SenderStep? { SenderAgrees(s, log, e.value); } else { OthersAgree(s, log, e); }
    }
  }

  /** In every run, clean or not, the completed rounds are exactly the random words the sender was given for them, as
      many as it drew. */
  lemma RoundsAreDrawn(shm: seq<Word>, count: nat, schedule: seq<Event>)
    requires 3 <= |shm| < MODULUS
    ensures var log, written := LogOf(shm, count, schedule), Run(shm, count, schedule).written;
      && written == log.rounds && |log.draws| == |written|
      && forall k :: 0 <= k < |written| ==> |written[k]| == Wanted(|shm| - 2, log.draws[k])
  {
    RunAgrees(shm, count, schedule);
    hide Run, LogOf, Words;
  }

  /** The draws noted are those the schedule follows, the first with count rounds left. */
  ghost predicate DrawsNoted(log: Log, sender: Sender, count: nat, draws: nat -> Word) {
    && |log.draws| == |log.rounds| <= count
    && (forall k :: 0 <= k < |log.draws| ==> log.draws[k] == draws(count - k))
    && (sender.Fix? || sender.Fill? || sender.Store? ==> log.draw == draws(sender.left))
  }

  lemma NotedKeeps(s: State, log: Log, count: nat, draws: nat -> Word, v: Word)
    requires Shape(s) && s.written == log.rounds && Accounted(s, count) && DrawsNoted(log, s.sender, count, draws)
    requires Draws(s.sender, draws, SenderStep(v))
    ensures DrawsNoted(Noted(s.size, log, s.sender, v), SenderGo(s, v).sender, count, draws)
  {
    hide Words, Checksum;
  }

  lemma OthersKeepSender(s: State, e: Event)
    requires Shape(s) && !e.SenderStep?
    ensures Step(s, e).sender == s.sender
  {
    hide Words, Checksum;
  }

  lemma RunParts(shm: seq<Word>, count: nat, schedule: seq<Event>)
    requires 3 <= |shm| < MODULUS
    ensures var s := Run(shm, count, schedule); s.size == |shm| - 2 && s.written == LogOf(shm, count, schedule).rounds
  {
    RunAgrees(shm, count, schedule);
    hide Run, LogOf;
  }

  lemma {:induction false} RunNotesDraws(shm: seq<Word>, count: nat, draws: nat -> Word, schedule: seq<Event>)
    requires 3 <= |shm| < MODULUS && Follows(shm, count, draws, schedule)
    ensures DrawsNoted(LogOf(shm, count, schedule), Run(shm, count, schedule).sender, count, draws)
  {
    if schedule != [] {
      var n := |schedule| - 1;
      var e := schedule[n];
      FollowsPrefix(shm, count, draws, schedule, n);
      RunNotesDraws(shm, count, draws, schedule[..n]);
      RunParts(shm, count, schedule[..n]);
      RunAccounts(shm, count, schedule[..n]);
      var s, log := Run(shm, count, schedule[..n]), LogOf(shm, count, schedule[..n]);
      assert Draws(s.sender, draws, e);
      hide DrawsNoted, Noted, SenderGo, AgentGo, ReceiverGo, Accounted, Draws, Follows;
      if e.SenderStep? { NotedKeeps(s, log, count, draws, e.value); } else { OthersKeepSender(s, e); }
    }
  }

  /** Round k has the length drawn with count - k rounds left if that lies in 1..size, else it fills the buffer. */
  lemma RoundLengths(shm: seq<Word>, count: nat, draws: nat -> Word, schedule: seq<Event>, k: nat)
    requires 3 <= |shm| < MODULUS && Follows(shm, count, draws, schedule)
    requires k < |Run(shm, count, schedule).written|
    ensures k < count
    ensures var size, draw := |shm| - 2, draws(count - k);
      |Run(shm, count, schedule).written[k]| == if 1 <= draw <= size then draw else size
  {
    RoundsAreDrawn(shm, count, schedule);
    RunNotesDraws(shm, count, draws, schedule);
    hide Run, LogOf, Follows;
  }

  // ---- The checksum tests ----

  /** The agent's test is a real one: it succeeds exactly on a complete round. */
  lemma AgentTests(s: State)
    requires Shape(s) && s.agent.Op1? && s.agentsem > 0 && 1 <= Length(s) <= s.size
    ensures AgentGo(s).checks == s.checks + [Complete(s.shm)]
  {
    hide Checksum, Words;
  }

  /** And so is the receiver's, once it has read the words. */
  lemma ReceiverTests(s: State)
    requires Shape(s) && s.receiver.Read? && 1 <= Length(s) == |s.receiver.got|
    requires Reading(s.shm, s.receiver.got, s.receiver.sum)
    ensures ReceiverGo(s).checks == s.checks + [Complete(s.shm)]
    ensures ReceiverGo(s).received == s.received + [Words(s.shm)]
  {
    hide Checksum;
  }
}
