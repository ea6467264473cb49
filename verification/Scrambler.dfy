/** scrambler.c: encoding and decoding of network messages in place, by a length trailer, an additive checksum and
    an exclusive or with a key. A long has 32 bits (the file casts pointers to int); the macros EXT, FUN, PORT,
    TIMED and PACKPORT of the RPC layer are parameters. */
module Scrambler {

  import opened Arithmetic

  const BYTES := 4

  /** XTOLONGSIZE: bytes to longs, rounded up. */
  function Longs(size: int): nat
    requires size >= -3
  {
    (size + BYTES - 1) / BYTES
  }

  datatype Macros = Macros(ext: Word -> bool, fun: Word -> int, pack: Word -> Word)

  /** Requests are encoded as REQ and RTR and decoded as SRV and RCV. */
  datatype Where = PortReq | PortRtr | PortSrv | PortRcv | RpcReq | RpcRtr | RpcSrv | RpcRcv

  // ---- Exclusive or and wrapping sums ----

  function Pow2(k: nat): nat {
    if k == 0 then 1 else 2 * Pow2(k - 1)
  }

  /** Bitwise exclusive or. */
  function XorNat(a: nat, b: nat): nat
    decreases a + b
  {
    if a + b == 0 then 0 else 2 * XorNat(a / 2, b / 2) + (a + b) % 2
  }

  lemma {:induction false} XorBits(a: nat, b: nat, k: nat)
    requires a < Pow2(k) && b < Pow2(k)
    ensures XorNat(a, b) < Pow2(k)
  {
    if k > 0 && a + b > 0 { XorBits(a / 2, b / 2, k - 1); }
  }

  /** Exclusive or bit by bit. */
  lemma XorStep(p: nat, i: nat, q: nat, j: nat)
    requires i < 2 && j < 2
    ensures XorNat(2 * p + i, 2 * q + j) == 2 * XorNat(p, q) + if i == j then 0 else 1
  {
    hide XorNat;
    var a, b := 2 * p + i, 2 * q + j;
    Halves(p, i);
    Halves(q, j);
    XorZero();
    XorUnfolds(a, b);
    Halves(p + q + if i + j == 2 then 1 else 0, if i == j then 0 else 1);
  }

  lemma Halves(p: nat, i: nat)
    requires i < 2
    ensures (2 * p + i) / 2 == p && (2 * p + i) % 2 == i
  {
  }

  lemma XorUnfolds(a: nat, b: nat)
    ensures XorNat(a, b) == 2 * XorNat(a / 2, b / 2) + (a + b) % 2
  {
    if a + b == 0 { XorZero(); }
  }

  lemma XorZero()
    ensures XorNat(0, 0) == 0
  {
  }

  lemma {:induction false} XorBack(a: nat, b: nat)
    ensures XorNat(XorNat(a, b), b) == a
    decreases a + b
  {
    hide XorNat;
    XorZero();
    if a + b > 0 {
      var p, i, q, j := a / 2, a % 2, b / 2, b % 2;
      XorBack(p, q);
      XorStep(p, i, q, j);
      XorStep(XorNat(p, q), if i == j then 0 else 1, q, j);
    }
  }

  lemma Pow2At32()
    ensures Pow2(32) == MODULUS
  {
    assert Pow2(8) == 256;
    assert Pow2(16) == 256 * Pow2(8);
    assert Pow2(24) == 256 * Pow2(16);
  }

  function Xor(a: Word, b: Word): Word {
    Pow2At32();
    XorBits(a, b, 32);
    XorNat(a, b)
  }

  lemma XorTwice(w: Word, key: Word)
    ensures Xor(Xor(w, key), key) == w
  {
    XorBack(w, key);
  }

  lemma AddCancels(a: Word, x: Word, y: Word)
    requires x != y
    ensures Add(a, x) != Add(a, y) && Add(x, a) != Add(y, a)
  {
  }

  // ---- What the loops compute ----

  /** The first n words xored with the key. */
  function Frob(s: seq<Word>, n: nat, key: Word): (t: seq<Word>)
    requires n <= |s|
    ensures |t| == |s|
    ensures forall i :: 0 <= i < |s| ==> t[i] == if i < n then Xor(s[i], key) else s[i]
  {
    seq(|s|, i requires 0 <= i < |s| => if i < n then Xor(s[i], key) else s[i])
  }

  /** One changed word always changes the sum. */
  lemma {:induction false} SumDiffers(s: seq<Word>, i: nat, w: Word)
    requires i < |s| && w != s[i]
    ensures Checksum(s[i := w]) != Checksum(s)
    decreases |s|
  {
    hide Add;
    var n := |s| - 1;
    var t := s[i := w];
    if i < n {
      SumDiffers(s[..n], i, w);
      assert t[..n] == s[..n][i := w] && t[n] == s[n];
      AddCancels(s[n], Checksum(t[..n]), Checksum(s[..n]));
    } else {
      assert t[..n] == s[..n];
      AddCancels(Checksum(s[..n]), w, s[n]);
    }
  }

  // ---- Encoding and decoding as functions ----

  /** A port message: the last word becomes the checksum of the others. */
  function SealPort(s: seq<Word>, n: nat): (t: seq<Word>)
    requires 0 < n <= |s|
    ensures |t| == |s|
  {
    s[n - 1 := Checksum(s[..n - 1])]
  }

  /** An rpc message: behind the n words of the payload come its size and the checksum of all that. */
  function SealRpc(s: seq<Word>, n: nat, size: Word): (t: seq<Word>)
    requires n + 2 <= |s|
    ensures |t| == |s|
  {
    var a := s[n := size];
    a[n + 1 := Checksum(a[..n + 1])]
  }

  /** n transmitted words, unscrambled; the last one is replaced by the recomputed checksum. */
  function Unseal(s: seq<Word>, n: nat, key: Word): (t: seq<Word>)
    requires 0 < n <= |s|
    ensures |t| == |s|
  {
    SealPort(Frob(s, n, key), n)
  }

  /** The recomputed checksum differs from the transmitted one. */
  predicate Damaged(s: seq<Word>, n: nat, key: Word)
    requires 0 < n <= |s|
  {
    Unseal(s, n, key)[n - 1] != Frob(s, n, key)[n - 1]
  }

  // ---- Round trip and detection ----

  lemma FrobBack(s: seq<Word>, n: nat, key: Word)
    requires n <= |s|
    ensures Frob(Frob(s, n, key), n, key) == s
  {
    hide Xor;
    forall i | 0 <= i < n
      ensures Frob(Frob(s, n, key), n, key)[i] == s[i]
    {
      XorTwice(s[i], key);
    }
  }

  /** Decoding a sealed message finds no damage and restores every word. */
  lemma UnsealSealed(s: seq<Word>, n: nat, key: Word)
    requires 0 < n <= |s| && s[n - 1] == Checksum(s[..n - 1])
    ensures Unseal(Frob(s, n, key), n, key) == s && !Damaged(Frob(s, n, key), n, key)
  {
    hide Frob, Checksum;
    FrobBack(s, n, key);
  }

  /** Changing any one transmitted word, payload, size or checksum, is always noticed. */
  lemma OneChangeIsNoticed(s: seq<Word>, n: nat, key: Word, k: nat, w: Word)
    requires 0 < n <= |s| && s[n - 1] == Checksum(s[..n - 1])
    requires k < n && w != Frob(s, n, key)[k]
    ensures Damaged(Frob(s, n, key)[k := w], n, key)
  {
    hide Xor, Checksum;
    var got := Frob(Frob(s, n, key)[k := w], n, key);
    FrobBack(s, n, key);
    XorTwice(w, key);
    assert got == s[k := Xor(w, key)];
    assert Xor(w, key) != s[k];
    if k < n - 1 {
      SumDiffers(s[..n - 1], k, got[k]);
      assert got[..n - 1] == s[..n - 1][k := got[k]];
    } else {
      assert got[..n - 1] == s[..n - 1];
    }
  }

  /** The words encode sends for an rpc message of the given size in bytes. */
  function EncodedRpc(s: seq<Word>, size: int, key: Word): (t: seq<Word>)
    requires 0 <= size < MODULUS && Longs(size) + 2 <= |s|
    ensures |t| == |s|
  {
    var n := Longs(size);
    Frob(SealRpc(s, n, size), n + 2, key)
  }

  function EncodedPort(s: seq<Word>, size: int, key: Word): (t: seq<Word>)
    requires 1 <= size && Longs(size) <= |s|
    ensures |t| == |s|
  {
    var n := Longs(size);
    Frob(SealPort(s, n), n, key)
  }

  lemma SealedRpc(s: seq<Word>, n: nat, size: Word)
    requires n + 2 <= |s|
    ensures var t := SealRpc(s, n, size);
      t[..n] == s[..n] && t[n] == size && t[n + 1] == Checksum(t[..n + 1]) && t[n + 2..] == s[n + 2..]
  {
    hide Checksum;
    var a := s[n := size];
    assert SealRpc(s, n, size)[..n + 1] == a[..n + 1];
  }

  /** An rpc reply comes back whole: no damage is seen, and the size and every payload word are restored. */
  lemma ReplyRoundTrip(s: seq<Word>, size: int, key: Word)
    requires 0 <= size < MODULUS && Longs(size) + 2 <= |s|
    ensures var n, sent := Longs(size), EncodedRpc(s, size, key);
      && !Damaged(sent, n + 2, key)
      && Unseal(sent, n + 2, key)[..n] == s[..n] && Unseal(sent, n + 2, key)[n] == size
      && Unseal(sent, n + 2, key)[n + 2..] == s[n + 2..]
      && var bytes := BYTES * (n + 2); Longs(bytes) == n + 2 && bytes / BYTES - 2 == n
  {
    var n := Longs(size);
    assert Longs(BYTES * (n + 2)) == n + 2;
    hide Frob, Checksum, SealRpc, Unseal, Damaged, Longs;
    SealedRpc(s, n, size);
    UnsealSealed(SealRpc(s, n, size), n + 2, key);
  }

  /** What goes over the net for an rpc message: payload, size and checksum, each xored with the key; nothing
      behind them is touched. */
  lemma RpcOnTheNet(s: seq<Word>, size: int, key: Word)
    requires 0 <= size < MODULUS && Longs(size) + 2 <= |s|
    ensures var n, sent := Longs(size), EncodedRpc(s, size, key);
      && (forall i :: 0 <= i < n ==> sent[i] == Xor(s[i], key))
      && sent[n] == Xor(size, key) && sent[n + 1] == Xor(Checksum(s[..n] + [size]), key) && sent[n + 2..] == s[n + 2..]
  {
    hide Xor, Checksum, Longs;
    var n := Longs(size);
    assert s[n := size][..n + 1] == s[..n] + [size];
  }

  /** And for a port message, whose last word gives way to the checksum. */
  lemma PortOnTheNet(s: seq<Word>, size: int, key: Word)
    requires 1 <= size && Longs(size) <= |s|
    ensures var n, sent := Longs(size), EncodedPort(s, size, key);
      && (forall i :: 0 <= i < n - 1 ==> sent[i] == Xor(s[i], key))
      && sent[n - 1] == Xor(Checksum(s[..n - 1]), key) && sent[n..] == s[n..]
  {
    hide Xor, Checksum;
  }

  /** A size in bytes needs just as many longs as hold it. */
  lemma LongsCover(size: nat)
    ensures 4 * (Longs(size) - 1) < size <= 4 * Longs(size) || size == Longs(size) == 0
  {
  }

  /** Bit k of a number. */
  function Bit(a: nat, k: nat): nat {
    if k == 0 then a % 2 else Bit(a / 2, k - 1)
  }

  /** Xor bit by bit: a bit is set exactly if the two bits differ. */
  lemma {:induction false} XorOfBits(a: nat, b: nat, k: nat)
    ensures Bit(XorNat(a, b), k) == if Bit(a, k) == Bit(b, k) then 0 else 1
    decreases k
  {
    XorUnfolds(a, b);
    Halves(XorNat(a / 2, b / 2), (a + b) % 2);
    hide XorNat;
    if k > 0 {
      XorOfBits(a / 2, b / 2, k - 1);
    } else {
      SameParity(a, b);
    }
  }

  lemma SameParity(a: nat, b: nat)
    ensures (a + b) % 2 == if a % 2 == b % 2 then 0 else 1
  {
  }

  /** An rpc request is restored likewise, except that word 4 is rewritten for a function not of this module. */
  lemma RequestRoundTrip(m: Macros, s: seq<Word>, size: int, key: Word)
    requires 0 <= size < MODULUS && Longs(size) + 2 <= |s| && |s| > 4
    ensures var n, sent := Longs(size), EncodedRpc(s, size, key);
      var got := Unseal(sent, n + 2, key);
      var served := if m.ext(got[4]) then got else got[4 := m.pack(got[4])];
      && !Damaged(sent, n + 2, key) && got[n] == size
      && (forall i :: 0 <= i < n && i != 4 ==> served[i] == s[i])
      && (n > 4 ==> served[4] == if m.ext(s[4]) then s[4] else m.pack(s[4]))
  {
    hide Unseal, Damaged, EncodedRpc;
    ReplyRoundTrip(s, size, key);
    var n := Longs(size);
    var got := Unseal(EncodedRpc(s, size, key), n + 2, key);
    assert forall i :: 0 <= i < n ==> got[i] == got[..n][i] && s[i] == s[..n][i];
  }

  /** A port message is restored up to its last word, which carries the checksum. */
  lemma PortRoundTrip(s: seq<Word>, size: int, key: Word)
    requires 1 <= size && Longs(size) <= |s|
    ensures var n, sent := Longs(size), EncodedPort(s, size, key);
      !Damaged(sent, n, key) && Unseal(sent, n, key)[..n - 1] == s[..n - 1]
  {
    hide Frob, Checksum, Unseal, Damaged;
    var n := Longs(size);
    assert SealPort(s, n)[..n - 1] == s[..n - 1];
    UnsealSealed(SealPort(s, n), n, key);
  }

  /** Whatever one word of an encoded rpc message is changed to in transit, decode notices. */
  lemma RpcDetection(s: seq<Word>, size: int, key: Word, k: nat, w: Word)
    requires 0 <= size < MODULUS && Longs(size) + 2 <= |s|
    requires k < Longs(size) + 2 && w != EncodedRpc(s, size, key)[k]
    ensures Damaged(EncodedRpc(s, size, key)[k := w], Longs(size) + 2, key)
  {
    hide Frob, Checksum, SealRpc, Damaged, Longs;
    var n := Longs(size);
    SealedRpc(s, n, size);
    OneChangeIsNoticed(SealRpc(s, n, size), n + 2, key, k, w);
  }

  lemma PortDetection(s: seq<Word>, size: int, key: Word, k: nat, w: Word)
    requires 1 <= size && Longs(size) <= |s|
    requires k < Longs(size) && w != EncodedPort(s, size, key)[k]
    ensures Damaged(EncodedPort(s, size, key)[k := w], Longs(size), key)
  {
    hide Frob, Checksum, Damaged;
    var n := Longs(size);
    assert SealPort(s, n)[..n - 1] == s[..n - 1];
    OneChangeIsNoticed(SealPort(s, n), n, key, k, w);
  }

  // ---- The functions of the module, working in place ----

  /** Key, macros and the table of function indices remembered for error enquiries. */
  class Codec {
    const key: Word
    const m: Macros
    var funindx: map<int, int>

    constructor (k: Word, macros: Macros)
      ensures key == k && m == macros && funindx == map[]
    {
      key, m, funindx := k, macros, map[];
    }

    method Memfrob(msg: array<Word>, size: int)
      requires size >= -3 && Longs(size) <= msg.Length
      modifies msg
      ensures msg[..] == Frob(old(msg[..]), Longs(size), key)
    {
      hide Xor;
      for i := 0 to Longs(size)
        invariant forall j :: 0 <= j < i ==> msg[j] == Xor(old(msg[j]), key)
        invariant forall j :: i <= j < msg.Length ==> msg[j] == old(msg[j])
      {
        msg[i] := Xor(msg[i], key);
      }
    }

    /** previous: what stood in the place of the checksum. */
    method Chksum(msg: array<Word>, size: int) returns (s: Word, previous: Word)
      requires size >= -3 && Longs(size) < msg.Length
      modifies msg
      ensures var n := Longs(size);
        && s == Checksum(old(msg[..])[..n]) && previous == old(msg[..])[n] && msg[..] == old(msg[..])[n := s]
    {
      hide Add;
      var n := Longs(size);
      previous := msg[n];
      s := 0;
      for i := 0 to n
        invariant msg[..] == old(msg[..]) && s == Checksum(msg[..][..i])
      {
        assert msg[..][..i + 1][..i] == msg[..][..i];
        s := Add(s, msg[i]);
      }
      msg[n] := s;
    }

    method Encode(indx: int, msg: array<Word>, size: int, where: Where) returns (bytes: int)
      requires where.PortReq? || where.PortRtr? ==> 1 <= size && Longs(size) <= msg.Length
      requires !(where.PortReq? || where.PortRtr?) ==>
        0 <= size < MODULUS && Longs(size) + 2 <= msg.Length && msg.Length > 4
      modifies this, msg
      ensures where.PortReq? || where.PortRtr? ==>
        bytes == size && msg[..] == EncodedPort(old(msg[..]), size, key) && funindx == old(funindx)[0 := -1]
      ensures !(where.PortReq? || where.PortRtr?) ==>
        && bytes == BYTES * (Longs(size) + 2) && msg[..] == EncodedRpc(old(msg[..]), size, key)
        && var w := SealRpc(old(msg[..]), Longs(size), size)[4];
           funindx == if m.ext(w) then old(funindx) else old(funindx)[indx := m.fun(w) + 1]
    {
      hide Frob, Checksum;
      ghost var s := msg[..];
      bytes := size;
      if where == PortReq || where == PortRtr {
        LongsLess(size);
        var sum, was := Chksum(msg, size - BYTES);
        funindx := funindx[0 := -1];
      } else {
        var n := Longs(size);
        msg[n] := size;
        bytes := n * BYTES + BYTES;
        var sum, was := Chksum(msg, bytes);
        assert msg[..] == SealRpc(s, n, size);
        bytes := bytes + BYTES;
        if !m.ext(msg[4]) {
          funindx := funindx[indx := m.fun(msg[4]) + 1];
        }
      }
      Memfrob(msg, bytes);
    }

    method Decode(msg: array<Word>, bytes: int, where: Where) returns (size: int, error: bool)
      requires 1 <= bytes && Longs(bytes) <= msg.Length
      requires where.RpcSrv? || where.RpcRcv? ==> bytes >= 2 * BYTES
      requires where.RpcSrv? ==> msg.Length > 4
      modifies msg
      ensures var n := Longs(bytes); var s := old(msg[..]); var got := Unseal(s, n, key);
        && (error <==> Damaged(s, n, key))
        && msg[..] == (if where.RpcSrv? && !m.ext(got[4]) then got[4 := m.pack(got[4])] else got)
        && size == if where.RpcSrv? || where.RpcRcv? then got[bytes / BYTES - 2] else bytes
    {
      hide Frob, Checksum;
      size := bytes;
      Memfrob(msg, size);
      LongsLess(bytes);
      var new_, old_ := Chksum(msg, size - BYTES);
      if where == RpcSrv || where == RpcRcv {
        size := msg[size / BYTES - 2];
      }
      error := new_ != old_;
      if where == RpcSrv {
        if !m.ext(msg[4]) {
          msg[4] := m.pack(msg[4]);
        }
      }
    }
  }

  /** Dropping one long from a size of at least one byte drops one word, also for sizes below a long. */
  lemma LongsLess(size: int)
    requires size >= 1
    ensures Longs(size - BYTES) == Longs(size) - 1 && 0 < Longs(size) && size / BYTES - 2 < Longs(size)
  {
  }
}
