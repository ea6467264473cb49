/** The one-slot command buffer shared by cmdclk.c and cmdcrn.c: a character guarded by the counting
    semaphores notFull (initially 1) and notEmpty (initially 0), filled by any number of tasks running Put.

    A task inside Put is described by where it stands; every step is one semaphore operation or one access
    to a shared variable, so any interleaving of tasks is a sequence of such steps. A step of a task that is
    blocked leaves the slot unchanged. */
module CommandSlot {
  import opened Counting

  datatype Putter =
    | Idle
    | Waiting(command: char)   // about to wait on notFull
    | Testing(command: char)   // owns the token, about to read the status
    | Storing(command: char)   // command admitted, about to write the buffer
    | Signalling(full: bool)   // about to signal notEmpty (full) or notFull (rejected)

  /** stored is the history of all characters ever written to the buffer. */
  datatype Slot = Slot(buffer: char, notEmpty: nat, notFull: nat, putters: map<nat, Putter>, stored: seq<char>)

  function PutterAt(s: Slot, p: nat): Putter {
    if p in s.putters then s.putters[p] else Idle
  }

  /** Task p calls Put(c); ignored while p is still inside an earlier call. */
  function Call(s: Slot, p: nat, c: char): Slot {
    if PutterAt(s, p).Idle? then s.(putters := s.putters[p := Waiting(c)]) else s
  }

  /** One step of task p inside Put; admitted is the outcome of the status test, were it made now. */
  function PutStep(s: Slot, p: nat, admitted: bool): Slot {
    match PutterAt(s, p)
    case Idle => s
    case Waiting(c) =>
      if s.notFull == 0 then s else s.(notFull := s.notFull - 1, putters := s.putters[p := Testing(c)])
    case Testing(c) =>
      s.(putters := s.putters[p := if admitted then Storing(c) else Signalling(false)])
    case Storing(c) =>
      s.(buffer := c, stored := s.stored + [c], putters := s.putters[p := Signalling(true)])
    case Signalling(full) =>
      var t := s.(putters := s.putters[p := Idle]);
      if full then t.(notEmpty := s.notEmpty + 1) else t.(notFull := s.notFull + 1)
  }

  predicate Holds(p: Putter) {
    p.Testing? || p.Storing? || p.Signalling?
  }

  /** The tasks between a wait on notFull and the following signal. */
  function Holders(s: Slot): set<nat> {
    Where(s.putters, Holds)
  }

  /** Tokens in the semaphores or with a task inside Put. */
  function Tokens(s: Slot): nat {
    s.notEmpty + s.notFull + |Holders(s)|
  }

  /** Some task has written the buffer and has not yet announced it. */
  ghost predicate Unannounced(s: Slot) {
    exists p :: p in s.putters && s.putters[p] == Signalling(true)
  }

  /** No step of Put creates or destroys a token. */
  lemma PutKeepsTokens(s: Slot, p: nat, admitted: bool)
    ensures Tokens(PutStep(s, p, admitted)) == Tokens(s)
  {
    hide Where;
    var t := PutStep(s, p, admitted);
    if t != s {
      MoveOne(s.putters, p, t.putters[p], Holds);
      assert t.putters == s.putters[p := t.putters[p]];
    }
  }

  lemma CallKeepsTokens(s: Slot, p: nat, c: char)
    ensures Holders(Call(s, p, c)) == Holders(s)
  {
  }

  /** With one token in all, a task inside Put is the only one, and both semaphores are then 0. */
  lemma SoleHolder(s: Slot, p: nat)
    requires Tokens(s) <= 1 && p in Holders(s)
    ensures s.notEmpty == s.notFull == 0 && Holders(s) == {p}
  {
    Sole(s.putters, p, Holds);
    assert Holders(s) == {p};
  }
}
