/** lxrt.h, nam2id: the first six characters of a name packed as digits of base 39. */
module NameId {

  /** A C string without its terminator. */
  type Name = s: string | '\0' !in s witness ""

  /** The id of the empty name. */
  const NO_NAME := 0xFFFF_FFFF

  /** The digit of a character: digits 1..10, letters of either case 11..36, underscore 37, all else 38. */
  function Code(c: char): (d: int)
    ensures 1 <= d <= 38
  {
    if 'a' <= c <= 'z' then c as int + (11 - 'a' as int)
    else if 'A' <= c <= 'Z' then c as int + (11 - 'A' as int)
    else if '0' <= c <= '9' then c as int - ('0' as int - 1)
    else if c == '_' then 37 else 38
  }

  /** Case folded, and every character that is no letter, digit or underscore merged into one. */
  function Fold(c: char): char {
    if 'A' <= c <= 'Z' then (c as int - 'A' as int + 'a' as int) as char
    else if 'a' <= c <= 'z' || '0' <= c <= '9' || c == '_' then c
    else '?'
  }

  function FoldAll(s: string): (t: string)
    ensures |t| == |s|
  {
    if s == [] then [] else FoldAll(s[..|s| - 1]) + [Fold(s[|s| - 1])]
  }

  /** The part of the name that counts. */
  function Head(name: string): string {
    if |name| <= 6 then name else name[..6]
  }

  /** The characters as a number of base 39. */
  function Value(s: string): int {
    if s == [] then 0 else 39 * Value(s[..|s| - 1]) + Code(s[|s| - 1])
  }

  function Id(name: Name): int {
    if name == [] then NO_NAME else Value(Head(name)) + 2
  }

  /** The loop of nam2id. */
  method Nam2Id(name: Name) returns (id: int)
    ensures id == Id(name)
  {
    var retval := 0;
    var i := 0;
    while i < 6 && i < |name|
      invariant 0 <= i <= 6 && i <= |name| && retval == Value(name[..i])
    {
      var c := name[i] as int;
      if 'a' as int <= c <= 'z' as int {
        c := c + (11 - 'a' as int);
      } else if 'A' as int <= c <= 'Z' as int {
        c := c + (11 - 'A' as int);
      } else if '0' as int <= c <= '9' as int {
        c := c - ('0' as int - 1);
      } else {
        c := if c == '_' as int then 37 else 38;
      }
      assert name[..i + 1][..i] == name[..i];
      retval := retval * 39 + c;
      i := i + 1;
    }
    if i > 0 {
      assert name[..i] == Head(name);
      id := retval + 2;
    } else {
      id := NO_NAME;
    }
  }

  /** Two characters have the same digit exactly when folding makes them equal. */
  lemma CodeIsFold(c: char, d: char)
    ensures Code(c) == Code(d) <==> Fold(c) == Fold(d)
  {
  }

  /** The characters in the order of their digits, from 1 on; every other character counts as 38. */
  const ALPHABET := "0123456789abcdefghijklmnopqrstuvwxyz_"

  lemma CodeIsPosition(c: char)
    ensures |ALPHABET| == 37 && forall j :: 0 <= j < 37 ==> (ALPHABET[j] == Fold(c) <==> Code(c) == j + 1)
    ensures Code(c) == 38 <==> Fold(c) !in ALPHABET
  {
    Alphabet();
    hide ALPHABET;
    if Code(c) < 38 { assert ALPHABET[Code(c) - 1] == Fold(c); }
  }

  lemma Alphabet()
    ensures |ALPHABET| == 37 && ALPHABET[36] == '_'
    ensures forall j :: 0 <= j < 10 ==> ALPHABET[j] as int == '0' as int + j
    ensures forall j :: 10 <= j < 36 ==> ALPHABET[j] as int == 'a' as int + (j - 10)
  {
  }

  /** The id of a name of six characters or more, written out. */
  lemma SixCharacters(name: Name)
    requires |name| >= 6
    ensures Id(name) == 2 + Code(name[5]) + 39 * Code(name[4]) + 1521 * Code(name[3]) + 59319 * Code(name[2])
                        + 2313441 * Code(name[1]) + 90224199 * Code(name[0])
  {
    OneMore(name, 0);
    OneMore(name, 1);
    OneMore(name, 2);
    OneMore(name, 3);
    OneMore(name, 4);
    OneMore(name, 5);
    assert Head(name) == name[..6];
    hide Value, Code;
  }

  lemma OneMore(s: string, k: nat)
    requires k < |s|
    ensures Value(s[..k + 1]) == 39 * Value(s[..k]) + Code(s[k]) && Value(s[..0]) == 0
  {
    assert s[..k + 1][..k] == s[..k];
  }

  function Pow39(k: nat): nat {
    if k == 0 then 1 else 39 * Pow39(k - 1)
  }

  lemma {:induction false} ValueBound(s: string)
    ensures 0 <= Value(s) < Pow39(|s|) && (s != [] ==> Value(s) >= 1)
  {
    if s != [] { ValueBound(s[..|s| - 1]); }
  }

  /** No digit is 0, so the number determines how many characters there are and the digit of each. */
  lemma {:induction false} ValueInjective(s: string, t: string)
    ensures Value(s) == Value(t) <==> FoldAll(s) == FoldAll(t)
    decreases |s|
  {
    ValueBound(s);
    ValueBound(t);
    if s != [] && t != [] {
      var a, b := s[..|s| - 1], t[..|t| - 1];
      var c, d := s[|s| - 1], t[|t| - 1];
      ValueInjective(a, b);
      CodeIsFold(c, d);
      LastDigit(Value(a), Code(c), Value(b), Code(d));
      assert FoldAll(s) == FoldAll(t) ==> FoldAll(s)[..|a|] == FoldAll(t)[..|b|] && FoldAll(s)[|a|] == FoldAll(t)[|b|];
      assert FoldAll(s)[..|a|] == FoldAll(a) && FoldAll(t)[..|b|] == FoldAll(b);
      hide Value, FoldAll, Code, Fold;
    }
  }

  lemma LastDigit(x: int, c: int, y: int, d: int)
    requires 0 <= c < 39 && 0 <= d < 39
    ensures 39 * x + c == 39 * y + d <==> x == y && c == d
  {
  }

  lemma {:induction false} Pow39Grows(j: nat, k: nat)
    requires j <= k
    ensures 1 <= Pow39(j) <= Pow39(k)
    decreases k
  {
    if j < k { Pow39Grows(j, k - 1); } else if j > 0 { Pow39Grows(j - 1, j - 1); }
  }

  lemma SixDigits()
    ensures Pow39(6) == 3518743761
  {
    assert Pow39(2) == 1521;
    assert Pow39(4) == 1521 * Pow39(2);
    assert Pow39(6) == 1521 * Pow39(4);
  }

  /** Every non-empty name has an id in 3..39^6+1, which fits 32 bits and is never the id of the empty name. */
  lemma IdRange(name: Name)
    requires name != []
    ensures 3 <= Id(name) <= Pow39(6) + 1 < NO_NAME
  {
    ValueBound(Head(name));
    Pow39Grows(|Head(name)|, 6);
    SixDigits();
  }

  /** Two non-empty names share an id exactly when their first six characters agree after folding. */
  lemma SameId(a: Name, b: Name)
    requires a != [] && b != []
    ensures Id(a) == Id(b) <==> FoldAll(Head(a)) == FoldAll(Head(b))
  {
    ValueInjective(Head(a), Head(b));
  }
}
