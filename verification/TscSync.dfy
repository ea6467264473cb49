/** testscsync.c: a slave CPU measures the offset of its time stamp counter against a master CPU.

    sync_master and get_delta meet over two shared 64-bit words, go[MASTER] and go[SLAVE]. go[SLAVE] carries a
    counter value, which a 32-bit machine stores and loads in two halves; the spin lock tsclock is there so that no
    half-written value is seen. Every step below is one such access, one lock operation or one counter reading;
    the two CPUs interleave freely and time advances between steps by any amount. */
module TscSync {
  import opened Arithmetic

  const HALF := 0x1_0000_0000
  const WHOLE := 0x1_0000_0000_0000_0000

  function U64(x: int): int {
    x % WHOLE
  }

  datatype Owner = Nobody | TheMaster | TheSlave

  datatype Master =
    | Asleep
    | Ready                      // go[MASTER] = 0 on entry
    | Spin                       // while (!go[MASTER])
    | Ack                        // go[MASTER] = 0 in the loop
    | Lock
    | ReadStamp
    | StoreLow(stamp: int)
    | StoreHigh(stamp: int)
    | Unlock
    | Returned

  datatype Slave =
    | Start                      // go[MASTER] = 1
    | Launch                     // smp_call_function
    | AwaitReady                 // while (go[MASTER])
    | ReadT0
    | Request                    // go[MASTER] = 1
    | TakeLock
    | LoadLow
    | LoadHigh(low: int)
    | Test(tm: int)
    | Relax                      // unlock and try again
    | DropLock(tm: int)
    | ClearLow(tm: int)
    | ClearHigh(tm: int)
    | ReadT1(tm: int)
    | Measured
    | Failed

  /** One iteration of get_delta: the times of its two readings and the stamp collected in between. */
  datatype Round = Round(begin: nat, tm: int, end: nat)

  /** now: the slave's counter, not reduced; begin: its value at the current t0; stamps: its values at the moments
      the master read its own counter. */
  datatype State = State(
    goMaster: int, low: int, high: int, lock: Owner, now: nat,
    master: Master, served: nat, stamps: seq<nat>,
    slave: Slave, begin: nat, rounds: seq<Round>)

  datatype Event = Tick(cycles: nat) | MasterStep | SlaveStep | LaunchFails

  /** The two parameters: how many iterations, and how far the master's counter is ahead of the slave's. */
  datatype Setup = Setup(iters: nat, theta: int)

  function Init(now: nat): State {
    State(0, 0, 0, Nobody, now, Asleep, 0, [], Start, now, [])
  }

  function MasterGo(c: Setup, s: State): State {
    match s.master
    case Asleep => s
    case Ready => s.(goMaster := 0, master := Head(c, 0))
    case Spin => if s.goMaster == 0 then s else s.(master := Ack)
    case Ack => s.(goMaster := 0, master := Lock)
    case Lock => if s.lock == Nobody then s.(lock := TheMaster, master := ReadStamp) else s
    case ReadStamp => s.(stamps := s.stamps + [s.now], master := StoreLow(U64(s.now + c.theta)))
    case StoreLow(v) => s.(low := v % HALF, master := StoreHigh(v))
    case StoreHigh(v) => s.(high := v / HALF, master := Unlock)
    case Unlock => s.(lock := Nobody, served := s.served + 1, master := Head(c, s.served + 1))
    case Returned => s
  }

  /** The head of the master's loop after i iterations. */
  function Head(c: Setup, i: nat): Master {
    if i < c.iters then Spin else Returned
  }

  function SlaveGo(c: Setup, s: State): State {
    match s.slave
    case Start => s.(goMaster := 1, slave := Launch)
    case Launch => s.(master := Ready, slave := AwaitReady)
    case AwaitReady => if s.goMaster != 0 then s else s.(slave := Next(c, 0))
    case ReadT0 => s.(begin := s.now, slave := Request)
    case Request => s.(goMaster := 1, slave := TakeLock)
    case TakeLock => if s.lock == Nobody then s.(lock := TheSlave, slave := LoadLow) else s
    case LoadLow => s.(slave := LoadHigh(s.low))
    case LoadHigh(l) => s.(slave := Test(Slot(l, s.high)))
    case Test(tm) => s.(slave := if tm == 0 then Relax else DropLock(tm))
    case Relax => s.(lock := Nobody, slave := TakeLock)
    case DropLock(tm) => s.(lock := Nobody, slave := ClearLow(tm))
    case ClearLow(tm) => s.(low := 0, slave := ClearHigh(tm))
    case ClearHigh(tm) => s.(high := 0, slave := ReadT1(tm))
    case ReadT1(tm) =>
      s.(rounds := s.rounds + [Round(s.begin, tm, s.now)], slave := Next(c, |s.rounds| + 1))
    case Measured => s
    case Failed => s
  }

  function Next(c: Setup, i: nat): Slave {
    if i < c.iters then ReadT0 else Measured
  }

  function Step(c: Setup, s: State, e: Event): State {
    match e
    case Tick(n) => s.(now := s.now + n)
    case MasterStep => MasterGo(c, s)
    case SlaveStep => SlaveGo(c, s)
    case LaunchFails => if s.slave.Launch? then s.(slave := Failed) else s
  }

  function Run(c: Setup, now: nat, schedule: seq<Event>): State {
    if schedule == [] then Init(now)
    else Step(c, Run(c, now, schedule[..|schedule| - 1]), schedule[|schedule| - 1])
  }

  // ---- The invariant ----

  predicate MasterLocks(m: Master) {
    m.ReadStamp? || m.StoreLow? || m.StoreHigh? || m.Unlock?
  }

  predicate SlaveLocks(v: Slave) {
    v.LoadLow? || v.LoadHigh? || v.Test? || v.Relax? || v.DropLock?
  }

  /** The slave has asked and has not yet seen an answer. */
  predicate Asking(v: Slave) {
    v.TakeLock? || v.LoadLow? || v.LoadHigh? || v.Test? || v.Relax?
  }

  predicate Answered(v: Slave) {
    v.DropLock? || v.ClearLow? || v.ClearHigh? || v.ReadT1?
  }

  predicate SettingUp(v: Slave) {
    v.Start? || v.Launch? || v.AwaitReady? || v.Failed?
  }

  /** The value the master stores for its last reading. */
  function LastStamp(c: Setup, stamps: seq<nat>): int {
    if stamps == [] then 0 else U64(stamps[|stamps| - 1] + c.theta)
  }

  function Slot(low: int, high: int): int {
    high * HALF + low
  }

  /** The master is at the head of its loop and has nothing to do. */
  predicate Resting(c: Setup, s: State) {
    s.goMaster == 0 && s.master == Head(c, s.served)
  }

  ghost predicate SetupOk(c: Setup, s: State) {
    && s.stamps == [] && s.rounds == [] && s.served == 0 && s.low == s.high == 0
    && match s.slave
       case AwaitReady => (s.master.Ready? && s.goMaster == 1) || Resting(c, s)
       case Launch => s.master.Asleep? && s.goMaster == 1
       case _ => s.master.Asleep?
  }

  /** Between iterations: every stamp has been collected. */
  ghost predicate IdleOk(c: Setup, s: State) {
    && Resting(c, s) && s.low == s.high == 0
    && |s.rounds| == |s.stamps| == s.served
    && (if s.slave.Measured? then s.served == c.iters else s.served < c.iters)
    && (s.slave.Request? ==> s.begin <= s.now)
  }

  ghost predicate AskingOk(c: Setup, s: State) {
    && |s.rounds| < c.iters
    && s.begin <= s.now
    && (s.slave.LoadHigh? ==> s.slave.low == s.low)
    && (s.slave.Test? ==> s.slave.tm == Slot(s.low, s.high))
    && match s.master
       case Ack => s.goMaster == 1 && NotServed(s)
       case Lock => s.goMaster == 0 && NotServed(s)
       case ReadStamp => s.goMaster == 0 && NotServed(s)
       case StoreLow(v) =>
         s.goMaster == 0 && Stamped(s) && s.served == |s.rounds| && v == LastStamp(c, s.stamps) &&
         s.low == s.high == 0
       case StoreHigh(v) =>
         s.goMaster == 0 && Stamped(s) && s.served == |s.rounds| && v == LastStamp(c, s.stamps) &&
         s.low == v % HALF && s.high == 0
       case Unlock =>
         s.goMaster == 0 && Stamped(s) && s.served == |s.rounds| && Slot(s.low, s.high) == LastStamp(c, s.stamps)
       case _ =>
         (s.master.Spin? && s.goMaster == 1 && NotServed(s)) ||
         (Resting(c, s) && Stamped(s) && s.served == |s.rounds| + 1 && Slot(s.low, s.high) == LastStamp(c, s.stamps))
  }

  ghost predicate NotServed(s: State) {
    s.served == |s.rounds| == |s.stamps| && s.low == s.high == 0
  }

  /** The master has read its counter during the current iteration. */
  ghost predicate Stamped(s: State) {
    |s.stamps| == |s.rounds| + 1 && s.begin <= s.stamps[|s.rounds|] <= s.now
  }

  ghost predicate AnsweredOk(c: Setup, s: State) {
    && Answered(s.slave) && |s.rounds| < c.iters
    && Resting(c, s) && Stamped(s) && s.served == |s.rounds| + 1
    && s.slave.tm == LastStamp(c, s.stamps) != 0
    && (s.slave.ReadT1? ==> s.low == s.high == 0)
    && (s.slave.ClearHigh? ==> s.low == 0)
  }

  /** Round i holds the i-th stamp, read by the master between the round's two readings, and the rounds follow one
      another. */
  ghost predicate Collected(c: Setup, rounds: seq<Round>, stamps: seq<nat>, now: nat) {
    && |rounds| <= |stamps| <= |rounds| + 1
    && (forall i :: 0 <= i < |rounds| ==>
          rounds[i].begin <= stamps[i] <= rounds[i].end <= now && rounds[i].tm == U64(stamps[i] + c.theta) != 0)
    && (forall i :: 0 < i < |rounds| ==> rounds[i - 1].end <= rounds[i].begin)
  }

  /** The last round ended before the current one began. */
  predicate Follows(s: State) {
    s.rounds != [] && !(s.slave.ReadT0? || s.slave.Measured?) ==> s.rounds[|s.rounds| - 1].end <= s.begin
  }

  lemma Later(c: Setup, s: State, n: nat)
    requires Collected(c, s.rounds, s.stamps, s.now)
    ensures Collected(c, s.rounds, s.stamps, s.now + n)
  {
    hide U64;
  }

  lemma OneMoreStamp(c: Setup, rounds: seq<Round>, stamps: seq<nat>, now: nat)
    requires Collected(c, rounds, stamps, now) && |stamps| == |rounds|
    ensures Collected(c, rounds, stamps + [now], now) && LastStamp(c, stamps + [now]) == U64(now + c.theta)
  {
    hide U64;
  }

  lemma OneMoreRound(c: Setup, rounds: seq<Round>, stamps: seq<nat>, now: nat, begin: nat)
    requires Collected(c, rounds, stamps, now) && |stamps| == |rounds| + 1
    requires begin <= stamps[|rounds|] <= now && LastStamp(c, stamps) != 0
    requires rounds != [] ==> rounds[|rounds| - 1].end <= begin
    ensures Collected(c, rounds + [Round(begin, LastStamp(c, stamps), now)], stamps, now)
  {
    hide U64;
  }

  ghost predicate Inv(c: Setup, s: State) {
    && (s.lock == TheMaster <==> MasterLocks(s.master))
    && (s.lock == TheSlave <==> SlaveLocks(s.slave))
    && (if SettingUp(s.slave) then SetupOk(c, s)
        else if Asking(s.slave) then AskingOk(c, s)
        else if Answered(s.slave) then AnsweredOk(c, s)
        else IdleOk(c, s))
    && Collected(c, s.rounds, s.stamps, s.now) && Follows(s)
  }

  lemma Halves(v: int)
    requires 0 <= v < WHOLE
    ensures Slot(v % HALF, v / HALF) == v
  {
  }

  lemma EmptySlot()
    ensures Slot(0, 0) == 0
  {
  }

  /** The last round ended in the past. */
  lemma LastEnd(c: Setup, s: State)
    requires Collected(c, s.rounds, s.stamps, s.now) && s.rounds != []
    ensures s.rounds[|s.rounds| - 1].end <= s.now
  {
    hide U64;
  }

  lemma MasterServes(c: Setup, s: State)
    requires Inv(c, s) && Asking(s.slave)
    ensures Inv(c, MasterGo(c, s))
  {
    match s.master {
      case ReadStamp => OneMoreStamp(c, s.rounds, s.stamps, s.now);
      case StoreHigh(v) => Halves(v);
      case _ =>
    }
    hide U64, Collected, LastStamp, Slot;
  }

  lemma MasterKeeps(c: Setup, s: State)
    requires Inv(c, s)
    ensures Inv(c, MasterGo(c, s))
  {
    if Asking(s.slave) {
      MasterServes(c, s);
    } else {
      hide U64, Collected, LastStamp, Slot, AskingOk;
    }
  }

  lemma SlaveAsks(c: Setup, s: State)
    requires Inv(c, s) && Asking(s.slave)
    ensures Inv(c, SlaveGo(c, s))
  {
    EmptySlot();
    hide U64, Collected, LastStamp, Slot;
  }

  lemma SlaveCollects(c: Setup, s: State)
    requires Inv(c, s) && Answered(s.slave)
    ensures Inv(c, SlaveGo(c, s))
  {
    hide U64, Collected, LastStamp, Slot, AskingOk, SetupOk;
    if s.slave.ReadT1? { OneMoreRound(c, s.rounds, s.stamps, s.now, s.begin); }
  }

  lemma SlaveKeeps(c: Setup, s: State)
    requires Inv(c, s)
    ensures Inv(c, SlaveGo(c, s))
  {
    if Asking(s.slave) {
      SlaveAsks(c, s);
    } else if Answered(s.slave) {
      SlaveCollects(c, s);
    } else {
      if s.rounds != [] { LastEnd(c, s); }
      hide U64, Collected, LastStamp, Slot;
    }
  }

  lemma TimePasses(c: Setup, s: State, n: nat)
    requires Inv(c, s)
    ensures Inv(c, s.(now := s.now + n))
  {
    Later(c, s, n);
    hide U64, Collected, LastStamp, Slot;
  }

  lemma {:induction false} RunKeeps(c: Setup, now: nat, schedule: seq<Event>)
    ensures Inv(c, Run(c, now, schedule))
  {
    hide Inv, MasterGo, SlaveGo;
    if schedule == [] {
      InitOk(c, now);
    } else {
      var s := Run(c, now, schedule[..|schedule| - 1]);
      RunKeeps(c, now, schedule[..|schedule| - 1]);
      match schedule[|schedule| - 1] {
        case Tick(n) => TimePasses(c, s, n);
        case MasterStep => MasterKeeps(c, s);
        case SlaveStep => SlaveKeeps(c, s);
        case LaunchFails => LaunchKeeps(c, s);
      }
    }
  }

  lemma InitOk(c: Setup, now: nat)
    ensures Inv(c, Init(now))
  {
    hide U64;
  }

  lemma LaunchKeeps(c: Setup, s: State)
    requires Inv(c, s)
    ensures Inv(c, Step(c, s, LaunchFails))
  {
    hide Collected, AskingOk, AnsweredOk, IdleOk;
  }

  // ---- Main result of the handshake ----

  /** In every interleaving: round i of the slave holds exactly the i-th stamp of the master, untorn, and the master
      read it between that round's t0 and t1; at the end every stamp has been collected, none twice. */
  lemma EveryStampOnce(c: Setup, now: nat, schedule: seq<Event>)
    ensures var s := Run(c, now, schedule);
      && |s.rounds| <= |s.stamps| <= |s.rounds| + 1
      && (forall i :: 0 <= i < |s.rounds| ==>
            s.rounds[i].begin <= s.stamps[i] <= s.rounds[i].end && s.rounds[i].tm == U64(s.stamps[i] + c.theta) != 0)
      && (forall i :: 0 < i < |s.rounds| ==> s.rounds[i - 1].end <= s.rounds[i].begin)
      && (s.slave.Measured? ==> |s.rounds| == |s.stamps| == c.iters)
  {
    RunKeeps(c, now, schedule);
    hide U64, Run, AskingOk, AnsweredOk, SetupOk;
  }

  // ---- get_delta: choosing the best round and estimating the offset ----

  type Count = x: int | 0 <= x < WHOLE

  /** What one iteration leaves in t0, tm and t1. */
  datatype Reading = Reading(t0: Count, tm: Count, t1: Count)

  /** t1 - t0 in unsigned arithmetic. */
  function Trip(r: Reading): Count {
    U64(r.t1 - r.t0)
  }

  /** The first of the shortest round trips. */
  ghost predicate IsBest(rs: seq<Reading>, k: nat) {
    && k < |rs| && (forall j :: 0 <= j < |rs| ==> Trip(rs[k]) <= Trip(rs[j]))
    && (forall j :: 0 <= j < k ==> Trip(rs[k]) < Trip(rs[j]))
  }

  /** An unsigned difference read as a signed number. */
  function Signed(x: int): int {
    if U64(x) < WHOLE / 2 then U64(x) else U64(x) - WHOLE
  }

  /** The midpoint of t0 and t1 minus the stamp. */
  function Estimate(r: Reading): int {
    Signed((r.t0 + r.t1) / 2 - r.tm)
  }

  /** The smoothing filter of the offset, without overflow. */
  function Smooth(offset: int, delta: int): int {
    TruncDiv(8 * offset + 2 * delta, 10)
  }

  /** A cast to long, which has 32 bits. */
  function AsLong(x: int): int {
    if x % HALF < HALF / 2 then x % HALF else x % HALF - HALF
  }

  predicate FitsLong(x: int) {
    -(HALF / 2) <= x < HALF / 2
  }

  /** The filter as computed in longs, which wrap around. */
  function SmoothLong(offset: int, delta: int): int {
    TruncDiv(AsLong(8 * offset + 2 * delta), 10)
  }

  /** The two agree exactly when the weighted sum fits a long. */
  lemma SmoothLongExact(o: int, d: int)
    ensures SmoothLong(o, d) == Smooth(o, d) <==> FitsLong(8 * o + 2 * d)
  {
    var x := 8 * o + 2 * d;
    AsLongExact(x);
    if !FitsLong(x) { TruncFar(AsLong(x), x); }
    hide AsLong;
  }

  /** The first measurement of an offset of 2^30 cycles overflows, and the offset gets the wrong sign. */
  lemma SmoothOverflows()
    ensures SmoothLong(0, 0x4000_0000) == -214748364 && Smooth(0, 0x4000_0000) == 214748364
  {
  }

  lemma TruncFar(a: int, b: int)
    requires a >= b + 20 || b >= a + 20
    ensures TruncDiv(a, 10) != TruncDiv(b, 10)
  {
  }

  /** Halving before adding, and the carry of two odd halves, give the midpoint without overflow. */
  lemma Midpoint(a: Count, b: Count)
    ensures a / 2 + b / 2 + (if a % 2 + b % 2 == 2 then 1 else 0) == (a + b) / 2 < WHOLE
  {
  }

  /** What get_delta starts from; it stays when no round trip is shorter than 2^64 - 1. */
  const NO_READING := Reading(0, 0, WHOLE - 1)

  ghost predicate SomeTrip(rs: seq<Reading>) {
    exists k :: 0 <= k < |rs| && Trip(rs[k]) < WHOLE - 1
  }

  /** The reading get_delta works with. */
  ghost predicate Chosen(rs: seq<Reading>, r: Reading) {
    if SomeTrip(rs) then exists k: nat :: IsBest(rs, k) && rs[k] == r else r == NO_READING
  }

  /** The loop of get_delta: the first of the shortest round trips. */
  method ChooseBest(rs: seq<Reading>) returns (bestT0: int, bestTm: int, bestT1: int)
    ensures 0 <= bestT0 < WHOLE && 0 <= bestTm < WHOLE && 0 <= bestT1 < WHOLE
    ensures Chosen(rs, Reading(bestT0, bestTm, bestT1))
  {
    hide U64;
    assert U64(WHOLE - 1 - 0) == WHOLE - 1 by { WrapOnce(WHOLE - 1); }
    bestT0, bestTm, bestT1 := 0, 0, WHOLE - 1;
    ghost var best, found := 0, false;
    for i := 0 to |rs|
      invariant 0 <= bestT0 < WHOLE && 0 <= bestTm < WHOLE && 0 <= bestT1 < WHOLE
      invariant !found ==>
        bestT0 == bestTm == 0 && bestT1 == WHOLE - 1 && forall j :: 0 <= j < i ==> Trip(rs[j]) >= WHOLE - 1
      invariant found ==>
        && best < i && IsBest(rs[..i], best) && rs[best] == Reading(bestT0, bestTm, bestT1)
        && Trip(rs[best]) < WHOLE - 1
    {
      var t0: int, tm: int, t1: int := rs[i].t0, rs[i].tm, rs[i].t1;
      if U64(t1 - t0) < U64(bestT1 - bestT0) {
        bestT0, bestT1, bestTm := t0, t1, tm;
        best, found := i, true;
      }
    }
    assert rs[..|rs|] == rs;
  }

  /** The cast changes nothing as long as the value fits, and is far off otherwise. */
  lemma AsLongExact(x: int)
    ensures FitsLong(x) <==> AsLong(x) == x
    ensures !FitsLong(x) ==> AsLong(x) >= x + HALF || AsLong(x) <= x - HALF
  {
    assert x == x / HALF * HALF + x % HALF;
  }

  /** Casting the unsigned difference or its signed reading is the same. */
  lemma AsLongOfSigned(x: int)
    ensures AsLong(U64(x)) == AsLong(Signed(x))
  {
    var u := U64(x);
    assert (u - WHOLE) % HALF == u % HALF;
    hide U64;
  }

  ghost predicate Outcome(r: Reading, tune: bool, offset: int, rt: int, master: int, delta: int, newOffset: int) {
    && rt == Trip(r) && master == U64(r.tm - r.t0)
    && (tune ==> delta == Estimate(r) && newOffset == offset)
    && (!tune ==> delta == newOffset == SmoothLong(offset, AsLong(Estimate(r))))
  }

  /** What get_delta returns and leaves in ofst[slave], for the readings of its iterations. */
  ghost predicate Returns(rs: seq<Reading>, tune: bool, offset: int, rt: int, master: int, delta: int, newOffset: int) {
    exists r :: Chosen(rs, r) && Outcome(r, tune, offset, rt, master, delta, newOffset)
  }

  /** get_delta from the readings of its iterations; offset is ofst[slave]. */
  method GetDelta(rs: seq<Reading>, tune: bool, offset: int) returns (rt: int, master: int, delta: int, newOffset: int)
    ensures Returns(rs, tune, offset, rt, master, delta, newOffset)
  {
    hide U64, Signed, Chosen, TruncDiv, AsLong;
    var bestT0, bestTm, bestT1 := ChooseBest(rs);
    rt := U64(bestT1 - bestT0);
    master := U64(bestTm - bestT0);
    var tcenter := Center(bestT0, bestT1);
    newOffset := offset;
    if tune {
      delta := Signed(tcenter - bestTm);
    } else {
      AsLongOfSigned(tcenter - bestTm);
      newOffset := TruncDiv(AsLong(8 * newOffset + 2 * AsLong(U64(tcenter - bestTm))), 10);
      delta := newOffset;
    }
    assert Outcome(Reading(bestT0, bestTm, bestT1), tune, offset, rt, master, delta, newOffset);
  }

  /** The average of two counter values without overflow. */
  method Center(t0: int, t1: int) returns (tcenter: int)
    requires 0 <= t0 < WHOLE && 0 <= t1 < WHOLE
    ensures tcenter == (t0 + t1) / 2 < WHOLE
  {
    Midpoint(t0, t1);
    tcenter := t0 / 2 + t1 / 2;
    if t0 % 2 + t1 % 2 == 2 {
      tcenter := tcenter + 1;
    }
  }

  /** The readings of a finished run. */
  function Readings(rounds: seq<Round>): (rs: seq<Reading>)
    ensures |rs| == |rounds|
    ensures forall i :: 0 <= i < |rs| ==> rs[i] == Reading(U64(rounds[i].begin), U64(rounds[i].tm), U64(rounds[i].end))
  {
    seq(|rounds|, i requires 0 <= i < |rounds| => Reading(U64(rounds[i].begin), U64(rounds[i].tm), U64(rounds[i].end)))
  }

  lemma WrapOnce(x: int)
    ensures 0 <= x < WHOLE ==> U64(x) == x
    ensures -(WHOLE / 2) <= x < WHOLE / 2 ==> Signed(x) == x
  {
  }

  lemma Congruent(x: int, y: int)
    ensures U64(x - U64(y)) == U64(x - y)
  {
    var q := y / WHOLE;
    assert U64(y) == y - q * WHOLE;
    assert x - U64(y) == (x - y) + q * WHOLE;
    Shift(x - y, q);
  }

  lemma {:induction false} Shift(x: int, q: int)
    ensures U64(x + q * WHOLE) == U64(x)
    decreases if q < 0 then -q else q
  {
    if q > 0 {
      Shift(x, q - 1);
      assert x + q * WHOLE == (x + (q - 1) * WHOLE) + WHOLE;
    } else if q < 0 {
      Shift(x, q + 1);
      assert x + q * WHOLE == (x + (q + 1) * WHOLE) - WHOLE;
    }
  }

  /** The slave's counter does not wrap around between the two readings. */
  predicate NoWrap(begin: nat, end: nat) {
    begin / WHOLE == end / WHOLE
  }

  lemma Reduced(x: nat)
    ensures U64(x) == x - x / WHOLE * WHOLE
  {
  }

  /** The midpoint of two readings of a counter: right, or off by half the range if the counter wrapped around. */
  lemma MidpointOfReadings(begin: nat, end: nat)
    requires begin <= end < begin + WHOLE
    ensures var q := begin / WHOLE; var mid := (begin + end) / 2;
      (U64(begin) + U64(end)) / 2 == mid - q * WHOLE - (if NoWrap(begin, end) then 0 else WHOLE / 2)
      && U64(U64(end) - U64(begin)) == end - begin
  {
    var q, k := begin / WHOLE, end / WHOLE;
    Reduced(begin);
    Reduced(end);
    OneTurn(begin, end);
    WrapOnce(end - begin);
    hide U64;
    Shift(end - begin, q - k);
  }

  lemma OneTurn(begin: nat, end: nat)
    requires begin <= end < begin + WHOLE
    ensures begin / WHOLE <= end / WHOLE <= begin / WHOLE + 1
  {
  }

  lemma EstimateOf(begin: nat, stamp: nat, end: nat, theta: int)
    requires begin <= stamp <= end < begin + WHOLE
    ensures var r := Reading(U64(begin), U64(stamp + theta), U64(end));
      && Trip(r) == end - begin
      && Estimate(r) == Signed((begin + end) / 2 - stamp - theta - if NoWrap(begin, end) then 0 else WHOLE / 2)
  {
    MidpointOfReadings(begin, end);
    var q, mid := begin / WHOLE, (begin + end) / 2;
    var off := if NoWrap(begin, end) then 0 else WHOLE / 2;
    Congruent(mid - q * WHOLE - off, stamp + theta);
    Shift(mid - off - stamp - theta, -q);
    assert mid - q * WHOLE - off - (stamp + theta) == (mid - off - stamp - theta) + (-q) * WHOLE;
    hide U64, NoWrap;
  }

  /** x and y differ by at most bound on the circle of 64-bit numbers. */
  ghost predicate Near(x: int, y: int, bound: int) {
    -bound <= Signed(x - y) <= bound
  }

  lemma SignedShift(x: int, y: int)
    ensures Signed(Signed(x) - y) == Signed(x - y)
  {
    Shift(x - y, -(x / WHOLE));
    Shift(x - y, -(x / WHOLE) - 1);
    assert x == x / WHOLE * WHOLE + U64(x);
  }

  /** The midpoint of two readings is at most half the trip, rounded up, away from every moment between them. */
  lemma MidpointDistance(begin: nat, stamp: nat, end: nat)
    requires begin <= stamp <= end
    ensures var e, x := (end - begin + 1) / 2, (begin + end) / 2 - stamp; -e <= x <= e && x <= (end - begin) / 2
  {
  }

  /** One exchange: the estimate is within half the round trip, rounded up, of the true offset as long as the slave's
      counter does not wrap around during it, whatever the offset; and, for trips below half the range, only then. */
  lemma EstimateError(begin: nat, stamp: nat, end: nat, theta: int)
    requires begin <= stamp <= end
    ensures var r := Reading(U64(begin), U64(stamp + theta), U64(end));
      && (NoWrap(begin, end) ==> Trip(r) == end - begin && Near(Estimate(r), -theta, (Trip(r) + 1) / 2))
      && (end - begin < WHOLE / 2 - 1 ==>
            Trip(r) == end - begin && (Near(Estimate(r), -theta, (Trip(r) + 1) / 2) <==> NoWrap(begin, end)))
  {
    if end - begin < WHOLE {
      EstimateOf(begin, stamp, end, theta);
      var x := (begin + end) / 2 - stamp;
      var off := if NoWrap(begin, end) then 0 else WHOLE / 2;
      MidpointDistance(begin, stamp, end);
      SignedShift(x - theta - off, -theta);
      assert x - theta - off - -theta == x - off;
      WrapOnce(x);
      FarHalf(x);
    }
    hide U64, Signed;
  }

  /** Half the range away, seen as a signed number. */
  lemma FarHalf(x: int)
    ensures -(WHOLE / 2) < x < WHOLE / 2 ==> Signed(x - WHOLE / 2) == if x >= 0 then x - WHOLE / 2 else x + WHOLE / 2
  {
    WrapOnce(x - WHOLE / 2);
    WrapOnce(x + WHOLE / 2);
    Shift(x - WHOLE / 2, 1);
  }

  /** An exchange of two cycles across the wrap of the slave's counter, without any offset: the estimate is half the
      range off. */
  lemma WrappedExchange()
    ensures var r := Reading(U64(WHOLE - 1), U64(WHOLE - 1), U64(WHOLE + 1));
      Trip(r) == 2 && r.tm != 0 && Estimate(r) == 1 - WHOLE / 2 && !Near(Estimate(r), 0, 1)
  {
    EstimateOf(WHOLE - 1, WHOLE - 1, WHOLE + 1, 0);
  }

  /** In every finished run of the two CPUs, the estimate from the best round is within half its round trip, rounded
      up, of the true offset if the slave's counter did not wrap around during that round; and, for a round below half
      the range, only then. */
  lemma BestRoundError(c: Setup, now: nat, schedule: seq<Event>, k: nat)
    requires var s := Run(c, now, schedule); s.slave.Measured? && IsBest(Readings(s.rounds), k)
    ensures var s := Run(c, now, schedule); var rs := Readings(s.rounds); var r := s.rounds[k]; var rt := Trip(rs[k]);
      && |rs| == c.iters && (forall i :: 0 <= i < |rs| ==> rt <= Trip(rs[i]))
      && (NoWrap(r.begin, r.end) ==> rt == r.end - r.begin && Near(Estimate(rs[k]), -c.theta, (rt + 1) / 2))
      && (r.end - r.begin < WHOLE / 2 - 1 ==>
            (Near(Estimate(rs[k]), -c.theta, (rt + 1) / 2) <==> NoWrap(r.begin, r.end)))
  {
    EveryStampOnce(c, now, schedule);
    var s := Run(c, now, schedule);
    hide Run, NoWrap, Near;
    var r := s.rounds[k];
    WrapOnce(r.tm);
    EstimateError(r.begin, s.stamps[k], r.end, c.theta);
    hide U64, Signed, Trip, Estimate;
  }

  /** The tuned measurement: what get_delta returns for a finished run is within (rt + 1) / 2 of the true offset, rt
      being the smallest round trip seen, if the counter did not wrap around during a round of that length; and, for a
      round below half the range, only then. */
  lemma OffsetWithinHalfTrip(
    c: Setup, now: nat, schedule: seq<Event>, offset: int, rt: int, master: int, delta: int, newOffset: int)
    returns (k: nat)
    requires var s := Run(c, now, schedule); s.slave.Measured? && SomeTrip(Readings(s.rounds))
    requires Returns(Readings(Run(c, now, schedule).rounds), true, offset, rt, master, delta, newOffset)
    ensures var s := Run(c, now, schedule); var rs := Readings(s.rounds);
      && k < |rs| == c.iters && rt == Trip(rs[k]) && (forall i :: 0 <= i < |rs| ==> rt <= Trip(rs[i]))
      && var r := s.rounds[k];
         && (NoWrap(r.begin, r.end) ==> rt == r.end - r.begin && Near(delta, -c.theta, (rt + 1) / 2))
         && (r.end - r.begin < WHOLE / 2 - 1 ==> (Near(delta, -c.theta, (rt + 1) / 2) <==> NoWrap(r.begin, r.end)))
  {
    hide Run, NoWrap, Near, Trip, Estimate, IsBest, SomeTrip, Chosen, AsLong, SmoothLong;
    var rs := Readings(Run(c, now, schedule).rounds);
    var r :| Chosen(rs, r) && Outcome(r, true, offset, rt, master, delta, newOffset);
    k := ChosenRound(rs, r);
    BestRoundError(c, now, schedule, k);
  }

  lemma ChosenRound(rs: seq<Reading>, r: Reading) returns (k: nat)
    ensures SomeTrip(rs) && Chosen(rs, r) ==> k < |rs| && IsBest(rs, k) && rs[k] == r
  {
    k := 0;
    if SomeTrip(rs) && Chosen(rs, r) { k :| IsBest(rs, k) && rs[k] == r; }
  }

  // ---- The smoothing filter ----

  /** Each update lies between the old offset and the measured delta. */
  lemma SmoothBetween(o: int, d: int)
    ensures if o <= d then o <= Smooth(o, d) <= d else d <= Smooth(o, d) <= o
  {
  }

  function Distance(o: int, d: int): nat {
    if o <= d then d - o else o - d
  }

  /** While the distance exceeds 4 every update reduces it; whatever the distance, no update enlarges it. */
  lemma SmoothCloser(o: int, d: int)
    ensures Distance(Smooth(o, d), d) <= Distance(o, d)
    ensures Distance(o, d) > 4 ==> Distance(Smooth(o, d), d) < Distance(o, d)
  {
    SmoothBetween(o, d);
  }

  /** Every update takes a fifth off the distance, up to rounding: the excess over 4 shrinks to four fifths. */
  lemma SmoothContracts(o: int, d: int)
    ensures 5 * (Distance(Smooth(o, d), d) - 4) <= 4 * (Distance(o, d) - 4)
  {
    SmoothBetween(o, d);
  }

  /** n updates with the same measurement. */
  function Settle(o: int, d: int, n: nat): int
    decreases n
  {
    if n == 0 then o else Settle(Smooth(o, d), d, n - 1)
  }

  /** Under a constant delta the offset ends at most 4 away, after at most as many updates as it was away. */
  lemma {:induction false} SmoothSettles(o: int, d: int, n: nat)
    requires n >= Distance(o, d)
    ensures Distance(Settle(o, d, n), d) <= 4
    decreases n
  {
    if n > 0 {
      SmoothCloser(o, d);
      if Distance(o, d) > 4 { SmoothSettles(Smooth(o, d), d, n - 1); } else { StaysNear(o, d, n); }
    }
  }

  lemma {:induction false} StaysNear(o: int, d: int, n: nat)
    requires Distance(o, d) <= 4
    ensures Distance(Settle(o, d, n), d) <= 4
    decreases n
  {
    if n > 0 {
      SmoothCloser(o, d);
      StaysNear(Smooth(o, d), d, n - 1);
    }
  }

  /** The measurement lies between 0 and the offset. */
  predicate TowardZero(o: int, d: int) {
    0 <= d <= o || o <= d <= 0
  }

  /** Truncation helps exactly on the way to zero: there the filter always moves, and keeps to that side; elsewhere it
      never arrives. */
  lemma SmoothSide(o: int, d: int)
    ensures TowardZero(Smooth(o, d), d) <==> TowardZero(o, d)
    ensures TowardZero(o, d) && o != d ==> Distance(Smooth(o, d), d) < Distance(o, d)
  {
    SmoothBetween(o, d);
  }

  /** Under a constant measurement d the offset ends at d if and only if d lies between 0 and the first offset. */
  lemma {:induction false} SettlesExactly(o: int, d: int, n: nat)
    requires n >= Distance(o, d)
    ensures Settle(o, d, n) == d <==> TowardZero(o, d)
    decreases n
  {
    hide Smooth, TruncDiv;
    SmoothSide(o, d);
    if o == d {
      StaysSettled(o, d, n);
    } else if TowardZero(o, d) {
      SettlesExactly(Smooth(o, d), d, n - 1);
    } else {
      NeverArrives(o, d, n);
    }
  }

  lemma {:induction false} StaysSettled(o: int, d: int, n: nat)
    requires o == d
    ensures Settle(o, d, n) == d
    decreases n
  {
    SmoothBetween(o, d);
    if n > 0 { StaysSettled(Smooth(o, d), d, n - 1); }
  }

  lemma {:induction false} NeverArrives(o: int, d: int, n: nat)
    requires !TowardZero(o, d)
    ensures Settle(o, d, n) != d
    decreases n
  {
    SmoothSide(o, d);
    hide Smooth;
    if n > 0 { NeverArrives(Smooth(o, d), d, n - 1); }
  }

  /** The filter over a sequence of measurements. */
  function Filter(o: int, ds: seq<int>): int {
    if ds == [] then o else Smooth(Filter(o, ds[..|ds| - 1]), ds[|ds| - 1])
  }

  /** How far o is from the interval between lo and hi. */
  function Outside(o: int, lo: int, hi: int): nat
    requires lo <= hi
  {
    if o < lo then lo - o else if o > hi then o - hi else 0
  }

  lemma SmoothMonotone(o: int, d: int, e: int)
    requires d <= e
    ensures Smooth(o, d) <= Smooth(o, e)
  {
  }

  lemma OutsideContracts(o: int, d: int, lo: int, hi: int)
    requires lo <= d <= hi
    ensures var x, y := Outside(o, lo, hi), Outside(Smooth(o, d), lo, hi); 5 * (y - 4) <= 4 * (x - 4) || y <= 3
    ensures Outside(o, lo, hi) > 4 ==> Outside(Smooth(o, d), lo, hi) < Outside(o, lo, hi)
    ensures Outside(o, lo, hi) <= 4 ==> Outside(Smooth(o, d), lo, hi) <= 4
  {
    SmoothBetween(o, d);
    SmoothMonotone(o, d, hi);
    SmoothMonotone(o, lo, d);
    SmoothContracts(o, hi);
    SmoothContracts(o, lo);
    SmoothBetween(o, lo);
    SmoothBetween(o, hi);
    SmoothCloser(o, d);
    hide Smooth;
  }

  function Pow(b: nat, n: nat): nat {
    if n == 0 then 1 else b * Pow(b, n - 1)
  }

  /** n updates are enough for an excess of x: x * (4 / 5)^n < 1. */
  predicate Enough(x: int, n: nat) {
    Pow(4, n) * x < Pow(5, n)
  }

  lemma {:induction false} PowPositive(b: nat, n: nat)
    requires b > 0
    ensures Pow(b, n) > 0
  {
    if n > 0 { PowPositive(b, n - 1); }
  }

  /** One more update in the estimate of the excess. */
  lemma ExcessStep(n: nat, x: int, y: int, z: int)
    requires n > 0 && Pow(5, n - 1) * y <= Pow(4, n - 1) * x && 5 * z <= 4 * y
    ensures Pow(5, n) * z <= Pow(4, n) * x
  {
    var p, q := Pow(5, n - 1), Pow(4, n - 1);
    PowPositive(5, n - 1);
    assert Pow(5, n) == 5 * p && Pow(4, n) == 4 * q;
    hide Pow;
    Scale(p, 5 * z, 4 * y);
    Reassociate(p, q, x, y, z);
  }

  lemma Reassociate(p: int, q: int, x: int, y: int, z: int)
    ensures 5 * p * z == p * (5 * z) && p * (4 * y) == 4 * (p * y) && 4 * q * x == 4 * (q * x)
  {
  }

  /** Whatever the measurements, as long as they lie between lo and hi: outside 4 of that interval the excess of the
      offset shrinks by a fifth each time, and once within 4 it stays there. */
  lemma {:induction false} FilterShrinks(o: int, ds: seq<int>, lo: int, hi: int)
    requires lo <= hi && forall i :: 0 <= i < |ds| ==> lo <= ds[i] <= hi
    ensures var x := Outside(Filter(o, ds), lo, hi);
      x <= 4 || (Pow(5, |ds|) * (x - 4) <= Pow(4, |ds|) * (Outside(o, lo, hi) - 4) && x <= Outside(o, lo, hi) - |ds|)
  {
    if ds != [] {
      var n := |ds| - 1;
      FilterShrinks(o, ds[..n], lo, hi);
      var y := Filter(o, ds[..n]);
      OutsideContracts(y, ds[n], lo, hi);
      hide Smooth, Pow;
      var z := Outside(Smooth(y, ds[n]), lo, hi);
      if z > 4 { ExcessStep(n + 1, Outside(o, lo, hi) - 4, Outside(y, lo, hi) - 4, z - 4); }
    }
  }

  /** So after as many updates as the offset was away from the interval, or after a number logarithmic in that, it is
      within 4 of the interval. */
  lemma FilterTracks(o: int, ds: seq<int>, lo: int, hi: int)
    requires lo <= hi && forall i :: 0 <= i < |ds| ==> lo <= ds[i] <= hi
    requires |ds| >= Outside(o, lo, hi) || Enough(Outside(o, lo, hi) - 4, |ds|)
    ensures lo - 4 <= Filter(o, ds) <= hi + 4
  {
    FilterShrinks(o, ds, lo, hi);
    hide Filter;
    var x := Outside(Filter(o, ds), lo, hi);
    if x > 4 {
      PowPositive(5, |ds|);
      Scale(Pow(5, |ds|), 1, x - 4);
    }
  }

  /** The same for a constant measurement. */
  lemma {:induction false} FilterOfConstant(o: int, d: int, n: nat)
    ensures Settle(o, d, n) == Filter(o, seq(n, _ => d))
  {
    if n > 0 {
      SettleLast(o, d, n - 1);
      FilterOfConstant(o, d, n - 1);
      assert seq(n, _ => d)[..n - 1] == seq(n - 1, _ => d);
    }
  }

  lemma {:induction false} SettleLast(o: int, d: int, n: nat)
    ensures Settle(o, d, n + 1) == Smooth(Settle(o, d, n), d)
    decreases n
  {
    hide Smooth;
    if n > 0 { SettleLast(Smooth(o, d), d, n - 1); }
  }

  /** Under a constant delta a logarithmic number of updates is enough to end at most 4 away. */
  lemma SettlesFast(o: int, d: int, n: nat)
    requires Enough(Distance(o, d) - 4, n)
    ensures Distance(Settle(o, d, n), d) <= 4
  {
    FilterOfConstant(o, d, n);
    FilterTracks(o, seq(n, _ => d), d, d);
  }

  lemma EnoughForLess(x: int, y: int, n: nat)
    requires x <= y
    ensures Enough(y, n) ==> Enough(x, n)
  {
    PowPositive(4, n);
    Scale(Pow(4, n), x, y);
  }

  /** The bound 4 is the best possible: from below zero the filter can stop four short of the measurement. */
  lemma SmoothStopsShort()
    ensures Smooth(-6, -10) == -6 && Distance(-6, -10) == 4
  {
  }

  // ---- Repeated measurements ----

  /** One call of rtai_sync_tsc that is not tuned, with what get_delta returned. */
  datatype Measurement = Measurement(now: nat, schedule: seq<Event>, rt: int, master: int, delta: int)

  /** The largest magnitude for which the filter's sum of two values fits a long. */
  const LIMIT := 214748364

  ghost predicate NeverWraps(rounds: seq<Round>) {
    forall i :: 0 <= i < |rounds| ==> NoWrap(rounds[i].begin, rounds[i].end)
  }

  /** m is a finished measurement of round trip below 2 * e that turns ofst[slave] from before into after. */
  ghost predicate Measures(c: Setup, m: Measurement, e: int, before: int, after: int) {
    var s := Run(c, m.now, m.schedule);
    && s.slave.Measured? && NeverWraps(s.rounds) && SomeTrip(Readings(s.rounds)) && (m.rt + 1) / 2 <= e
    && Returns(Readings(s.rounds), false, before, m.rt, m.master, m.delta, after)
  }

  /** The circular distance is the ordinary one when the numbers are small. */
  lemma NearExact(x: int, y: int, bound: int)
    requires Near(Signed(x), y, bound) && 0 <= bound && -LIMIT <= y - bound && y + bound <= LIMIT
    ensures y - bound <= Signed(x) <= y + bound
  {
    var z := Signed(x) - y;
    assert -(WHOLE / 2) <= Signed(x) < WHOLE / 2;
    WrapOnce(z);
    WrapOnce(z + WHOLE);
    WrapOnce(z - WHOLE);
    Shift(z, 1);
    Shift(z, -1);
  }

  /** One untuned measurement filters a value within e of the true offset. */
  lemma MeasuredDelta(c: Setup, m: Measurement, e: int, before: int, after: int) returns (d: int)
    requires Measures(c, m, e, before, after) && -LIMIT <= before <= LIMIT
    requires -LIMIT <= -c.theta - e && -c.theta + e <= LIMIT
    ensures -c.theta - e <= d <= -c.theta + e && after == Smooth(before, d)
  {
    hide Run, NoWrap, Near, Trip, Estimate, IsBest, SomeTrip, Chosen, AsLong, SmoothLong, Smooth;
    var s := Run(c, m.now, m.schedule);
    var rs := Readings(s.rounds);
    var r :| Chosen(rs, r) && Outcome(r, false, before, m.rt, m.master, m.delta, after);
    var k := ChosenRound(rs, r);
    BestRoundError(c, m.now, m.schedule, k);
    d := Estimate(r);
    EstimateWithin(r, -c.theta, e);
    SmoothsExactly(before, d);
  }

  lemma EstimateWithin(r: Reading, y: int, e: int)
    requires Near(Estimate(r), y, (Trip(r) + 1) / 2) && (Trip(r) + 1) / 2 <= e && -LIMIT <= y - e && y + e <= LIMIT
    ensures y - e <= Estimate(r) <= y + e
  {
    NearExact((r.t0 + r.t1) / 2 - r.tm, y, (Trip(r) + 1) / 2);
  }

  lemma SmoothsExactly(o: int, d: int)
    requires -LIMIT <= o <= LIMIT && -LIMIT <= d <= LIMIT
    ensures SmoothLong(o, AsLong(d)) == Smooth(o, d)
  {
    AsLongExact(d);
    SmoothLongExact(o, d);
  }

  /** The successive values of ofst[slave] over a sequence of measurements. */
  ghost predicate MeasuresAll(c: Setup, ms: seq<Measurement>, e: int, offsets: seq<int>) {
    |offsets| == |ms| + 1 && forall i :: 0 <= i < |ms| ==> Measures(c, ms[i], e, offsets[i], offsets[i + 1])
  }

  lemma {:induction false} OffsetsAreFiltered(c: Setup, ms: seq<Measurement>, e: int, offsets: seq<int>)
    returns (ds: seq<int>)
    requires MeasuresAll(c, ms, e, offsets) && -LIMIT <= offsets[0] <= LIMIT
    requires -LIMIT <= -c.theta - e && -c.theta + e <= LIMIT
    ensures |ds| == |ms| && (forall i :: 0 <= i < |ds| ==> -c.theta - e <= ds[i] <= -c.theta + e)
    ensures offsets[|ms|] == Filter(offsets[0], ds) && -LIMIT <= offsets[|ms|] <= LIMIT
    decreases |ms|
  {
    hide Measures, Smooth;
    if ms == [] {
      ds := [];
    } else {
      var n := |ms| - 1;
      assert Measures(c, ms[n], e, offsets[n], offsets[n + 1]);
      ds := OffsetsAreFiltered(c, ms[..n], e, offsets[..n + 1]);
      var d := MeasuredDelta(c, ms[n], e, offsets[n], offsets[n + 1]);
      SmoothBetween(offsets[n], d);
      assert (ds + [d])[..n] == ds;
      ds := ds + [d];
    }
  }

  /** Repeated measurements with round trips below 2 * e bring ofst[slave] within e + 4 of the true offset, after at
      most as many measurements as it was away from it, and after a logarithmic number of them. */
  lemma OffsetsSettle(c: Setup, ms: seq<Measurement>, e: int, offsets: seq<int>)
    requires MeasuresAll(c, ms, e, offsets) && -LIMIT <= offsets[0] <= LIMIT && e >= 0
    requires -LIMIT <= -c.theta - e && -c.theta + e <= LIMIT
    requires |ms| >= Distance(offsets[0], -c.theta) || Enough(Distance(offsets[0], -c.theta) - 4, |ms|)
    ensures Distance(offsets[|ms|], -c.theta) <= e + 4
  {
    var ds := OffsetsAreFiltered(c, ms, e, offsets);
    hide MeasuresAll, Filter;
    var lo, hi := -c.theta - e, -c.theta + e;
    EnoughForLess(Outside(offsets[0], lo, hi) - 4, Distance(offsets[0], -c.theta) - 4, |ms|);
    FilterTracks(offsets[0], ds, lo, hi);
  }
}
