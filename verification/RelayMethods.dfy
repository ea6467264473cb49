/** The loops over the shared buffer of user/heaps and one period of the agent in their own shape, tied to the step
    model. */
module RelayMethods {

  import opened Arithmetic
  import opened Relay

  /** The summing loop of the agent (op 1) and of the receiver, and the comparison that follows it. */
  method SumRound(shm: array<Word>) returns (chksum: Word, ok: bool)
    requires shm.Length > 0 && shm[0] + 2 <= shm.Length
    ensures chksum == Checksum(Words(shm[..]))
    ensures shm[0] > 0 ==> (ok <==> Complete(shm[..]))
  {
    chksum := 0;
    var i := 1;
    NothingYet(shm[..]);
    while i <= shm[0]
      invariant 1 <= i <= shm[0] + 1
      invariant Reading(shm[..], shm[..][1..i], chksum)
    {
      assert shm[..][1..i] + [shm[i]] == shm[..][1..i + 1];
      ReadMore(shm[..], shm[..][1..i], chksum);
      chksum := Add(chksum, shm[i]);
      i := i + 1;
    }
    ok := chksum == shm[shm[0] + 1];
  }

  /** The sender's loop has written n words from random; beyond the round all is as it was. */
  ghost predicate Filled(shm: seq<Word>, was: seq<Word>, n: nat, sum: Word, random: seq<Word>) {
    && |shm| == |was| > 0 && n <= shm[0] && shm[0] + 2 <= |shm| && shm[0] <= |random|
    && sum == Checksum(shm[1..n + 1]) && shm[1..n + 1] == random[..n]
    && shm[shm[0] + 2..] == was[shm[0] + 2..]
  }

  lemma FilledMore(shm: seq<Word>, was: seq<Word>, n: nat, sum: Word, random: seq<Word>)
    requires Filled(shm, was, n, sum, random) && n < shm[0]
    ensures Filled(shm[n + 1 := random[n]], was, n + 1, Add(sum, random[n]), random)
  {
    FillMore(shm, n + 1, sum, random[n]);
    hide Add, Checksum;
    var after := shm[n + 1 := random[n]];
    assert after[1..n + 2] == shm[1..n + 1] + [random[n]];
    assert after[shm[0] + 2..] == shm[shm[0] + 2..];
  }

  lemma FilledAll(shm: seq<Word>, was: seq<Word>, sum: Word, random: seq<Word>)
    requires |shm| > 0 && 1 <= shm[0] && Filled(shm, was, shm[0], sum, random)
    ensures var after := shm[shm[0] + 1 := sum];
      Complete(after) && Words(after) == random[..shm[0]] && after[shm[0] + 2..] == was[shm[0] + 2..]
  {
    WholeBody(shm);
    hide Add, Checksum, Words, Complete;
    StoreSum(shm);
    assert shm[shm[0] + 1 := sum][shm[0] + 2..] == shm[shm[0] + 2..];
  }

  /** The sender between its wait and its signal: whatever is drawn, a complete round of the random words. */
  method WriteRound(shm: array<Word>, size: nat, draw: Word, random: seq<Word>)
    requires 1 <= size && shm.Length == size + 2 < MODULUS && |random| >= size
    modifies shm
    ensures Complete(shm[..])
    ensures 1 <= shm[0] <= size && (1 <= draw <= size ==> shm[0] == draw) && Words(shm[..]) == random[..shm[0]]
    ensures shm[..][shm[0] + 2..] == old(shm[..])[shm[0] + 2..]
  {
    ghost var was := shm[..];
    shm[0] := draw;
    if shm[0] == 0 || shm[0] > size {
      shm[0] := size;
    }
    NothingYet(shm[..]);
    assert Filled(shm[..], was, 0, 0, random);
    hide Add, Checksum, Words, Complete, Reading, Filled;
    var chksum := FillWords(shm, was, random);
    FilledAll(shm[..], was, chksum, random);
    ghost var filled := shm[..];
    shm[shm[0] + 1] := chksum;
    assert shm[..] == filled[filled[0] + 1 := chksum];
  }

  /** The sender's loop. */
  method FillWords(shm: array<Word>, ghost was: seq<Word>, random: seq<Word>) returns (chksum: Word)
    requires Filled(shm[..], was, 0, 0, random)
    modifies shm
    ensures |was| > 0 && shm[0] == old(shm[0]) && Filled(shm[..], was, shm[0], chksum, random)
  {
    ghost var length := shm[0];
    chksum := 0;
    var i := 1;
    assert shm.Length == |was| && length + 2 <= shm.Length && length <= |random|;
    hide Add, Checksum, Words, Complete, Reading, Filled;
    while i <= shm[0]
      invariant 1 <= i <= shm[0] + 1 && shm[0] == length
      invariant Filled(shm[..], was, i - 1, chksum, random)
    {
      FilledMore(shm[..], was, i - 1, chksum, random);
      ghost var before := shm[..];
      shm[i] := random[i - 1];
      assert shm[..] == before[i := random[i - 1]];
      chksum := Add(chksum, shm[i]);
      i := i + 1;
    }
  }

  /** The agent's local op with the two semaphores and its message queue. */
  class AgentTask {
    const shm: array<Word>
    var op: Agent
    var shmsem: nat
    var agentsem: nat
    var inbox: Inbox

    constructor (memory: array<Word>)
      ensures shm == memory && op == Op4 && shmsem == agentsem == 0 && inbox == Empty
    {
      shm, op, shmsem, agentsem, inbox := memory, Op4, 0, 0, Empty;
    }

    ghost predicate Agrees(s: State)
      reads this, shm
    {
      Shape(s) && s.shm == shm[..] && s.agent == op && s.shmsem == shmsem && s.agentsem == agentsem && s.inbox == inbox
    }

    /** One turn of the agent's loop: the switch with its fall-through. answered: rt_return was called; wrong: the
        checksum test failed. */
    method Period(ghost s: State) returns (answered: bool, wrong: bool)
      requires Agrees(s) && InLoop(op) && shm[0] > 0 && shm[0] + 2 <= shm.Length
      modifies this
      ensures Agrees(AgentGo(s))
      ensures answered <==> s.agent in {Op1, Op2} && s.inbox == Rpc && (s.agent == Op1 ==> s.agentsem > 0)
      ensures wrong <==> s.agent == Op1 && s.agentsem > 0 && !Complete(s.shm)
    {
      answered, wrong := false, false;
      if op == Op1 {
        if agentsem == 0 {
          return;
        }
        agentsem := agentsem - 1;
        op := Op2;
        var chksum, ok := SumRound(shm);
        wrong := !ok;
      }
      if op == Op2 {
        if inbox == Empty {
          return;
        }
        op := Op3;
        answered := inbox == Rpc;
        inbox := Empty;
      }
      if op == Op3 {
        if inbox == Empty {
          return;
        }
        inbox := Empty;
      }
      op := Op1;
      shmsem := shmsem + 1;
    }
  }
}
