/** dispclk.c, MenageHmsh: carry arithmetic on hours, minutes, seconds and hundredths, and the printing of a
    time into a chain of characters. */
module Hmsh {
  import opened Arithmetic

  /** Hundredths of a second in a day. */
  const DAY := 8640000

  datatype Time = Time(hours: int, minutes: int, seconds: int, hundredthes: int)

  const MIDNIGHT := Time(0, 0, 0, 0)

  predicate Valid(t: Time) {
    0 <= t.hours < 24 && 0 <= t.minutes < 60 && 0 <= t.seconds < 60 && 0 <= t.hundredthes < 100
  }

  /** The time as hundredths since midnight. */
  function Units(t: Time): int {
    ((t.hours * 60 + t.minutes) * 60 + t.seconds) * 100 + t.hundredthes
  }

  /** Units is a bijection between valid times and 0..DAY-1, so times may be compared as numbers. */
  lemma UnitsInjective(t: Time, u: Time)
    requires Valid(t) && Valid(u)
    ensures 0 <= Units(t) < DAY
    ensures Units(t) == Units(u) <==> t == u
  {
  }

  /** The valid time u hundredths after midnight. */
  function TimeOf(u: int): Time {
    Time(u / 360000, u / 6000 % 60, u / 100 % 60, u % 100)
  }

  lemma TimeOfUnits(t: Time)
    requires Valid(t)
    ensures TimeOf(Units(t)) == t
  {
    assert Units(t) / 100 == (t.hours * 60 + t.minutes) * 60 + t.seconds;
    assert Units(t) / 6000 == t.hours * 60 + t.minutes;
    assert Units(t) / 360000 == t.hours;
  }

  function NextSecond(t: Time): (u: Time)
    requires Valid(t)
    ensures Valid(u) && u.hundredthes == t.hundredthes
  {
    if t.seconds < 59 then t.(seconds := t.seconds + 1)
    else if t.minutes < 59 then t.(minutes := t.minutes + 1, seconds := 0)
    else t.(hours := if t.hours < 23 then t.hours + 1 else 0, minutes := 0, seconds := 0)
  }

  function NextUnit(t: Time): (u: Time)
    requires Valid(t)
    ensures Valid(u)
  {
    if t.hundredthes < 99 then t.(hundredthes := t.hundredthes + 1) else NextSecond(t.(hundredthes := 0))
  }

  function SecondsLater(n: nat, t: Time): (u: Time)
    requires Valid(t)
    ensures Valid(u)
  {
    if n == 0 then t else NextSecond(SecondsLater(n - 1, t))
  }

  /** x + k on the circle of a day, for x already on it and k at most a day. */
  function Around(x: int, k: int): int {
    if x + k < DAY then x + k else x + k - DAY
  }

  /** Around is addition modulo a day. */
  lemma AroundIsModulo(x: int, k: int)
    requires 0 <= k <= DAY
    ensures (x + k) % DAY == Around(x % DAY, k)
  {
    var q, r := x / DAY, x % DAY;
    assert x == q * DAY + r && 0 <= r < DAY;
    if r + k < DAY { Remainder(x + k, q, r + k, DAY); } else { Remainder(x + k, q + 1, r + k - DAY, DAY); }
  }

  /** The three carries amount to addition modulo a day. */
  lemma NextSecondAdds(t: Time)
    requires Valid(t)
    ensures Units(NextSecond(t)) == Around(Units(t), 100)
  {
  }

  lemma NextUnitAdds(t: Time)
    requires Valid(t)
    ensures Units(NextUnit(t)) == Around(Units(t), 1)
  {
    if t.hundredthes == 99 { NextSecondAdds(t.(hundredthes := 0)); }
  }

  lemma {:induction false} SecondsLaterAdds(n: nat, t: Time)
    requires Valid(t)
    ensures Units(SecondsLater(n, t)) == (Units(t) + 100 * n) % DAY
  {
    hide NextSecond, Units;
    UnitsInjective(t, t);
    if n == 0 {
      Remainder(Units(t), 0, Units(t), DAY);
    } else {
      SecondsLaterAdds(n - 1, t);
      NextSecondAdds(SecondsLater(n - 1, t));
      AroundIsModulo(Units(t) + 100 * (n - 1), 100);
    }
  }

  // ---- Printing ----

  predicate Digit(d: int) {
    0 <= d < 10
  }

  function DigitChar(d: int): char
    requires Digit(d)
  {
    ('0' as int + d) as char
  }

  /** The twelve characters of a chain; Convert writes all but the first, which the display sets to h or t. */
  function Chain(head: char, t: Time, hundredthes: bool): (c: seq<char>)
    requires Valid(t)
    ensures |c| == 12 && c[0] == head
  {
    [head, DigitChar(t.hours / 10), DigitChar(t.hours % 10), ':',
     DigitChar(t.minutes / 10), DigitChar(t.minutes % 10), ':',
     DigitChar(t.seconds / 10), DigitChar(t.seconds % 10)] +
    if hundredthes then ['.', DigitChar(t.hundredthes / 10), DigitChar(t.hundredthes % 10)] else [' ', ' ', ' ']
  }

  function ReadPair(a: char, b: char): int {
    10 * (a as int - '0' as int) + (b as int - '0' as int)
  }

  /** Reading a printed chain back. */
  function ReadChain(c: seq<char>): Time
    requires |c| == 12
  {
    Time(ReadPair(c[1], c[2]), ReadPair(c[4], c[5]), ReadPair(c[7], c[8]),
         if c[9] == '.' then ReadPair(c[10], c[11]) else 0)
  }

  /** Printing loses nothing but, when they are not asked for, the hundredths. */
  lemma ChainReadsBack(head: char, t: Time, hundredthes: bool)
    requires Valid(t)
    ensures ReadChain(Chain(head, t, hundredthes)) == if hundredthes then t else t.(hundredthes := 0)
    ensures var c := Chain(head, t, hundredthes);
      c[3] == c[6] == ':' && if hundredthes then c[9] == '.' else c[9..] == "   "
  {
    assert forall d :: Digit(d) ==> DigitChar(d) as int - '0' as int == d;
    var c := Chain(head, t, hundredthes);
    assert c[9] == (if hundredthes then '.' else ' ');
    assert ReadPair(c[1], c[2]) == t.hours && ReadPair(c[4], c[5]) == t.minutes && ReadPair(c[7], c[8]) == t.seconds;
  }

  /** The two assignments that Convert makes for each field. */
  method WriteDigits(chain: array<char>, at: nat, n: int)
    requires at + 1 < chain.Length && 0 <= n < 100
    modifies chain
    ensures chain[..] == old(chain[..])[at := DigitChar(n / 10)][at + 1 := DigitChar(n % 10)]
  {
    var digits := ['0', '1', '2', '3', '4', '5', '6', '7', '8', '9'];
    assert forall d :: Digit(d) ==> digits[d] == DigitChar(d);
    chain[at] := digits[n / 10];
    chain[at + 1] := digits[n % 10];
  }

  // ---- The struct and the functions that update it in place ----

  class Hour {
    var hours: int
    var minutes: int
    var seconds: int
    var hundredthes: int

    ghost function Value(): Time
      reads this
    {
      Time(hours, minutes, seconds, hundredthes)
    }

    constructor Initialise()
      ensures Value() == MIDNIGHT
    {
      hours, minutes, seconds, hundredthes := 0, 0, 0, 0;
    }

    method Reset()
      modifies this
      ensures Value() == MIDNIGHT
    {
      hours, minutes, seconds, hundredthes := 0, 0, 0, 0;
    }

    method InitialiseHundredthes()
      modifies this
      ensures Value() == old(Value()).(hundredthes := 0)
    {
      hundredthes := 0;
    }

    method Assign(from: Hour)
      modifies this
      ensures Value() == old(from.Value())
    {
      hours, minutes, seconds, hundredthes := from.hours, from.minutes, from.seconds, from.hundredthes;
    }

    method Equal(other: Hour) returns (equal: bool)
      ensures equal <==> Value() == other.Value()
    {
      equal := hours == other.hours && minutes == other.minutes && seconds == other.seconds &&
        hundredthes == other.hundredthes;
    }

    method AdvanceHours()
      requires Valid(Value())
      modifies this
      ensures Value() == old(Value()).(hours := if old(hours) == 23 then 0 else old(hours) + 1)
    {
      hours := (hours + 1) % 24;
    }

    method AdvanceMinutes()
      requires Valid(Value())
      modifies this
      ensures Value() == old(Value()).(minutes := if old(minutes) == 59 then 0 else old(minutes) + 1)
    {
      minutes := (minutes + 1) % 60;
    }

    method AdvanceSeconds()
      requires Valid(Value())
      modifies this
      ensures Value() == old(Value()).(seconds := if old(seconds) == 59 then 0 else old(seconds) + 1)
    {
      seconds := (seconds + 1) % 60;
    }

    method PlusOneSecond()
      requires Valid(Value())
      modifies this
      ensures Value() == NextSecond(old(Value()))
      ensures Valid(Value()) && Units(Value()) == Around(old(Units(Value())), 100)
    {
      NextSecondAdds(Value());
      AdvanceSeconds();
      if seconds == 0 {
        AdvanceMinutes();
        if minutes == 0 {
          AdvanceHours();
        }
      }
    }

    method PlusNSeconds(n: int)
      requires Valid(Value())
      modifies this
      ensures Value() == SecondsLater(if n < 0 then 0 else n, old(Value()))
      ensures Valid(Value()) && (n >= 0 ==> Units(Value()) == (old(Units(Value())) + 100 * n) % DAY)
    {
      ghost var start := Value();
      var i := 1;
      while i <= n
        invariant 1 <= i && (n >= 0 ==> i <= n + 1) && (n < 0 ==> i == 1)
        invariant Value() == SecondsLater(i - 1, start) && Valid(Value())
      {
        PlusOneSecond();
        i := i + 1;
      }
      if n >= 0 { SecondsLaterAdds(n, start); }
    }

    method PlusOneUnit() returns (reportSeconds: bool)
      requires Valid(Value())
      modifies this
      ensures Value() == NextUnit(old(Value()))
      ensures Valid(Value()) && Units(Value()) == Around(old(Units(Value())), 1)
      ensures reportSeconds <==> Value().hundredthes == 0
    {
      NextUnitAdds(Value());
      hundredthes := (hundredthes + 1) % 100;
      reportSeconds := hundredthes == 0;
      if reportSeconds {
        PlusOneSecond();
      }
    }

    method Convert(withHundredthes: bool, chain: array<char>)
      requires Valid(Value()) && chain.Length == 12
      modifies chain
      ensures chain[..] == Chain(old(chain[0]), Value(), withHundredthes)
    {
      WriteDigits(chain, 1, hours);
      chain[3] := ':';
      WriteDigits(chain, 4, minutes);
      chain[6] := ':';
      WriteDigits(chain, 7, seconds);
      if withHundredthes {
        chain[9] := '.';
        WriteDigits(chain, 10, hundredthes);
      } else {
        chain[9], chain[10], chain[11] := ' ', ' ', ' ';
      }
    }
  }
}
