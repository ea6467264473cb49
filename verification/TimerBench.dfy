/** timerbench.c: the sampling loops of the timer benchmark driver. A sample is the lateness dt of the task or timer
    handler against its release date; samples come in batches of samples_per_sec, the first warmup_loops batches are
    discarded, and three histograms (of batch minima, batch maxima and single samples) lie one behind the other in
    one block. Clock readings are parameters; long and long long do not overflow. */
module TimerBench {
  import opened Arithmetic

  const START_MIN := 10000000
  const START_MAX := -10000000

  /** size: buckets per histogram, 0 for none. */
  datatype Config = Config(period: int, warmupLoops: int, samples: int, size: nat, bucket: int)

  predicate Sane(c: Config) {
    c.period > 0 && c.samples > 0 && (c.size > 0 ==> c.bucket > 0)
  }

  /** struct rttst_bench_res; testLoops only where the driver uses it. */
  datatype Result = Result(avg: int, min: int, max: int, overruns: int)

  const EMPTY := Result(0, START_MIN, START_MAX, 0)

  /** struct rt_tmbench_context; count is the position inside the current batch (the loop counter of the task, or
      curr.test_loops of the handler). */
  datatype Context = Context(
    warmup: bool, date: int, count: int, curr: Result, last: Result, overall: Result, testLoops: int, block: seq<int>)

  // ---- Histograms ----

  function Abs(v: int): nat {
    if v >= 0 then v else -v
  }

  function Bucket(c: Config, v: int): (k: nat)
    requires Sane(c) && c.size > 0
    ensures k < c.size
  {
    var k := Abs(v) / c.bucket;
    if k < c.size then k else c.size - 1
  }

  /** Bucket k takes the values whose magnitude lies in its interval; the last one takes all that are larger too. */
  predicate Falls(c: Config, v: int, k: nat) {
    k * c.bucket <= Abs(v) && (k == c.size - 1 || Abs(v) < (k + 1) * c.bucket)
  }

  lemma Interval(x: nat, b: int)
    requires b > 0
    ensures x / b * b <= x < (x / b + 1) * b
  {
    assert x == x / b * b + x % b;
    Distribute(b, x / b, 1);
  }

  lemma Apart(k: nat, j: nat, b: int)
    requires b > 0
    ensures k < j ==> (k + 1) * b <= j * b
  {
    if k < j { Scale(b, k + 1, j); }
  }

  /** A value falls into its bucket and into no other. */
  lemma BucketInterval(c: Config, v: int, k: nat)
    requires Sane(c) && k < c.size
    ensures Bucket(c, v) == k <==> Falls(c, v, k)
    ensures Abs(v) >= c.size * c.bucket ==> Bucket(c, v) == c.size - 1
  {
    var j := Abs(v) / c.bucket;
    Interval(Abs(v), c.bucket);
    Apart(k, j, c.bucket);
    Apart(j, k, c.bucket);
    Apart(c.size - 1, j, c.bucket);
    Apart(j, c.size, c.bucket);
  }

  /** The histogram at offset in the block counts v. */
  function Bump(c: Config, block: seq<int>, offset: nat, v: int): (b: seq<int>)
    requires Sane(c) && c.size > 0 && offset + c.size <= |block|
    ensures |b| == |block|
  {
    var k := offset + Bucket(c, v);
    block[k := block[k] + 1]
  }

  const MIN_PART := 0
  const MAX_PART := 1
  const AVG_PART := 2

  /** Where a histogram begins in the block. */
  function Offset(c: Config, part: nat): nat
    requires part <= 2
  {
    if part == MIN_PART then 0 else if part == MAX_PART then c.size else 2 * c.size
  }

  /** The part of the block holding one histogram. */
  function Part(c: Config, block: seq<int>, part: nat): seq<int>
    requires part <= 2 && |block| == 3 * c.size
  {
    block[Offset(c, part)..Offset(c, part) + c.size]
  }

  /** The histogram a sequence of values gives. */
  function Tally(c: Config, vs: seq<int>): (h: seq<int>)
    requires Sane(c) && c.size > 0
    ensures |h| == c.size
  {
    if vs == [] then seq(c.size, _ => 0) else Bump(c, Tally(c, vs[..|vs| - 1]), 0, vs[|vs| - 1])
  }

  // ---- eval_inner_loop ----

  /** Overruns of one sample: how often a further period fits before dt. */
  function Overruns(dt: int, period: int): nat
    requires period > 0
    decreases if dt > 0 then dt else 0
  {
    if dt > period then 1 + Overruns(dt - period, period) else 0
  }

  function Inner(c: Config, x: Context, dt: int): (y: Context)
    requires Sane(c) && |x.block| == 3 * c.size
    ensures |y.block| == 3 * c.size
  {
    var m := Overruns(dt, c.period);
    var curr := Result(x.curr.avg + dt, if dt < x.curr.min then dt else x.curr.min,
                       if dt > x.curr.max then dt else x.curr.max, x.curr.overruns + m);
    x.(curr := curr, date := x.date + c.period * (1 + m),
       block := if !x.warmup && c.size > 0 then Bump(c, x.block, Offset(c, AVG_PART), dt) else x.block)
  }

  // ---- eval_outer_loop ----

  function Counted(c: Config, x: Context): (y: Context)
    requires Sane(c) && |x.block| == 3 * c.size
    ensures |y.block| == 3 * c.size
  {
    var avg := TruncDiv(x.curr.avg, c.samples);
    x.(block := if c.size == 0 then x.block
                else Bump(c, Bump(c, x.block, Offset(c, MAX_PART), x.curr.max), Offset(c, MIN_PART), x.curr.min),
       last := Result(avg, x.curr.min, x.curr.max, x.last.overruns),
       overall := Result(x.overall.avg + avg,
                         if x.curr.min < x.overall.min then x.curr.min else x.overall.min,
                         if x.curr.max > x.overall.max then x.curr.max else x.overall.max,
                         x.overall.overruns + x.curr.overruns))
  }

  function Outer(c: Config, x: Context): (y: Context)
    requires Sane(c) && |x.block| == 3 * c.size
    ensures |y.block| == 3 * c.size
  {
    var a := if x.warmup then x else Counted(c, x);
    var over := x.warmup && x.testLoops == c.warmupLoops;
    a.(warmup := x.warmup && !over, testLoops := (if over then 0 else x.testLoops) + 1, curr := EMPTY)
  }

  /** One sample taken at clock reading now, and the end of the batch if it is the last one. */
  function Sample(c: Config, x: Context, now: int): (y: Context)
    requires Sane(c) && |x.block| == 3 * c.size
    ensures |y.block| == 3 * c.size
  {
    var a := Inner(c, x, now - x.date);
    if x.count + 1 >= c.samples then Outer(c, a).(count := 0) else a.(count := x.count + 1)
  }

  function Start(c: Config, date: int): Context {
    Context(true, date, 0, EMPTY, EMPTY, EMPTY, 1, seq(3 * c.size, _ => 0))
  }

  /** The average reported by rt_tmbench_stop. */
  function Reported(x: Context): int {
    TruncDiv(x.overall.avg, (if x.testLoops > 1 then x.testLoops else 2) - 1)
  }

  // ---- Runs ----

  /** A run with its history: the completed batches of samples and the overruns of each, the samples of the batch
      under way, and the totals of samples and overruns since the start, warm-up included. */
  datatype Session = Session(
    x: Context, batches: seq<seq<int>>, late: seq<int>, partial: seq<int>, taken: nat, overruns: nat)

  function Take(c: Config, s: Session, now: int): (t: Session)
    requires Sane(c) && |s.x.block| == 3 * c.size
    ensures |t.x.block| == 3 * c.size
  {
    var dt := now - s.x.date;
    var full := s.x.count + 1 >= c.samples;
    Session(Sample(c, s.x, now),
            if full then s.batches + [s.partial + [dt]] else s.batches,
            if full then s.late + [s.x.curr.overruns + Overruns(dt, c.period)] else s.late,
            if full then [] else s.partial + [dt],
            s.taken + 1, s.overruns + Overruns(dt, c.period))
  }

  /** The run over a sequence of clock readings. */
  function Run(c: Config, date: int, nows: seq<int>): (s: Session)
    requires Sane(c)
    ensures |s.x.block| == 3 * c.size
  {
    if nows == [] then Session(Start(c, date), [], [], [], 0, 0)
    else Take(c, Run(c, date, nows[..|nows| - 1]), nows[|nows| - 1])
  }

  // ---- The release grid ----

  lemma {:induction false} OverrunsCover(dt: int, period: int)
    requires period > 0
    ensures var m := Overruns(dt, period); dt <= period * (1 + m) && (m > 0 ==> dt > period * m)
    decreases if dt > 0 then dt else 0
  {
    if dt > period {
      OverrunsCover(dt - period, period);
      var m := Overruns(dt - period, period);
      assert period * (1 + (1 + m)) == period + period * (1 + m) && period * (1 + m) == period + period * m;
    }
  }

  /** After a sample at clock reading now the next date is the least point of the grid date + j * period, j >= 1, that
      is not before now. */
  lemma NextRelease(c: Config, x: Context, now: int, j: int)
    requires Sane(c) && |x.block| == 3 * c.size && j >= 1
    ensures var next := Inner(c, x, now - x.date).date; var m := Overruns(now - x.date, c.period);
      && next == x.date + c.period * (1 + m) && next >= now
      && (x.date + c.period * j >= now ==> next <= x.date + c.period * j)
  {
    var dt, p := now - x.date, c.period;
    OverrunsCover(dt, p);
    var m := Overruns(dt, p);
    if j < 1 + m {
      assert p * j <= p * m by { Scale(p, j, m); }
    } else {
      assert p * (1 + m) <= p * j by { Scale(p, 1 + m, j); }
    }
  }

  /** Over any run the date has advanced by one period for each sample and each overrun. */
  lemma {:induction false} ReleaseGrid(c: Config, date: int, nows: seq<int>)
    requires Sane(c)
    ensures var s := Run(c, date, nows); s.x.date == date + c.period * (s.taken + s.overruns) && s.taken == |nows|
  {
    if nows != [] {
      ReleaseGrid(c, date, nows[..|nows| - 1]);
      var s := Run(c, date, nows[..|nows| - 1]);
      TakeDate(c, s, nows[|nows| - 1]);
      hide Take, Overruns;
      Distribute(c.period, s.taken + s.overruns, 1 + Overruns(nows[|nows| - 1] - s.x.date, c.period));
    }
  }

  lemma TakeDate(c: Config, s: Session, now: int)
    requires Sane(c) && |s.x.block| == 3 * c.size
    ensures var t := Take(c, s, now); var m := Overruns(now - s.x.date, c.period);
      t.x.date == s.x.date + c.period * (1 + m) && t.taken == s.taken + 1 && t.overruns == s.overruns + m
  {
    hide Overruns, Bump;
  }

  lemma Distribute(p: int, a: int, b: int)
    ensures p * (a + b) == p * a + p * b
  {
  }

  // ---- Bookkeeping ----

  /** The least of the values and START_MIN. */
  function MinOf(vs: seq<int>): int {
    if vs == [] then START_MIN
    else if vs[|vs| - 1] < MinOf(vs[..|vs| - 1]) then vs[|vs| - 1] else MinOf(vs[..|vs| - 1])
  }

  /** The greatest of the values and START_MAX. */
  function MaxOf(vs: seq<int>): int {
    if vs == [] then START_MAX
    else if vs[|vs| - 1] > MaxOf(vs[..|vs| - 1]) then vs[|vs| - 1] else MaxOf(vs[..|vs| - 1])
  }

  function Mins(bs: seq<seq<int>>): (r: seq<int>)
    ensures |r| == |bs|
  {
    if bs == [] then [] else Mins(bs[..|bs| - 1]) + [MinOf(bs[|bs| - 1])]
  }

  function Maxs(bs: seq<seq<int>>): (r: seq<int>)
    ensures |r| == |bs|
  {
    if bs == [] then [] else Maxs(bs[..|bs| - 1]) + [MaxOf(bs[|bs| - 1])]
  }

  /** The truncated averages of the batches. */
  function Avgs(n: int, bs: seq<seq<int>>): (r: seq<int>)
    requires n > 0
    ensures |r| == |bs|
  {
    if bs == [] then [] else Avgs(n, bs[..|bs| - 1]) + [TruncDiv(SumOf(bs[|bs| - 1]), n)]
  }

  function Flat(bs: seq<seq<int>>): seq<int> {
    if bs == [] then [] else Flat(bs[..|bs| - 1]) + bs[|bs| - 1]
  }

  /** Still warming up after b batches; with warmup_loops below 1 the warm-up never ends. */
  predicate Warm(c: Config, b: nat) {
    c.warmupLoops < 1 || b < c.warmupLoops
  }

  /** What remains of the batches once the warm-up batches are discarded. */
  function Kept<T>(c: Config, xs: seq<T>): seq<T> {
    if Warm(c, |xs|) then [] else xs[c.warmupLoops..]
  }

  lemma KeptMore<T>(c: Config, xs: seq<T>, x: T)
    ensures Kept(c, xs + [x]) == if Warm(c, |xs|) then [] else Kept(c, xs) + [x]
  {
  }

  ghost predicate CurrOk(curr: Result, partial: seq<int>) {
    curr.avg == SumOf(partial) && curr.min == MinOf(partial) && curr.max == MaxOf(partial)
  }

  ghost predicate TotalsOk(n: int, overall: Result, kept: seq<seq<int>>, late: seq<int>)
    requires n > 0
  {
    && overall.min == MinOf(Mins(kept)) && overall.max == MaxOf(Maxs(kept))
    && overall.avg == SumOf(Avgs(n, kept)) && overall.overruns == SumOf(late)
  }

  ghost predicate BlockOk(c: Config, block: seq<int>, mins: seq<int>, maxs: seq<int>, samples: seq<int>)
    requires Sane(c)
  {
    |block| == 3 * c.size &&
    (c.size > 0 ==> Part(c, block, MIN_PART) == Tally(c, mins) && Part(c, block, MAX_PART) == Tally(c, maxs) &&
                    Part(c, block, AVG_PART) == Tally(c, samples))
  }

  ghost predicate Inv(c: Config, s: Session)
    requires Sane(c)
  {
    var kept := Kept(c, s.batches);
    && |s.x.block| == 3 * c.size && |s.partial| == s.x.count < c.samples && |s.late| == |s.batches|
    && (forall i :: 0 <= i < |s.batches| ==> |s.batches[i]| == c.samples)
    && s.x.warmup == Warm(c, |s.batches|)
    && s.x.testLoops == (if Warm(c, |s.batches|) then |s.batches| + 1 else |s.batches| - c.warmupLoops + 1)
    && CurrOk(s.x.curr, s.partial)
    && TotalsOk(c.samples, s.x.overall, kept, Kept(c, s.late))
    && BlockOk(c, s.x.block, Mins(kept), Maxs(kept), Flat(kept) + if s.x.warmup then [] else s.partial)
  }

  lemma LastOf<T>(xs: seq<T>, x: T)
    ensures (xs + [x])[..|xs|] == xs && (xs + [x])[|xs|] == x
  {
  }

  lemma CurrMore(curr: Result, partial: seq<int>, dt: int, overruns: int)
    requires CurrOk(curr, partial)
    ensures CurrOk(Result(curr.avg + dt, if dt < curr.min then dt else curr.min,
                          if dt > curr.max then dt else curr.max, overruns), partial + [dt])
  {
    LastOf(partial, dt);
  }

  lemma TotalsMore(n: int, overall: Result, kept: seq<seq<int>>, late: seq<int>, curr: Result, b: seq<int>)
    requires n > 0 && TotalsOk(n, overall, kept, late) && CurrOk(curr, b)
    ensures TotalsOk(n, Result(overall.avg + TruncDiv(curr.avg, n),
                               if curr.min < overall.min then curr.min else overall.min,
                               if curr.max > overall.max then curr.max else overall.max,
                               overall.overruns + curr.overruns),
                     kept + [b], late + [curr.overruns])
  {
    LastOf(kept, b);
    LastOf(late, curr.overruns);
    LastOf(Mins(kept), curr.min);
    LastOf(Maxs(kept), curr.max);
    LastOf(Avgs(n, kept), TruncDiv(curr.avg, n));
    hide TruncDiv;
  }

  /** Counting in one histogram leaves the other two alone. */
  lemma BumpPart(c: Config, block: seq<int>, part: nat, v: int, other: nat)
    requires Sane(c) && c.size > 0 && |block| == 3 * c.size && part <= 2 && other <= 2
    ensures var b := Bump(c, block, Offset(c, part), v);
      Part(c, b, other) == if other == part then Bump(c, Part(c, block, part), 0, v) else Part(c, block, other)
  {
    hide Bucket;
    var b := Bump(c, block, Offset(c, part), v);
    if other == part {
      assert Part(c, b, other) == Bump(c, Part(c, block, part), 0, v);
    }
  }

  /** Counting a value adds one to the bucket into whose interval it falls, and nothing to the others. */
  lemma BumpCounts(c: Config, block: seq<int>, part: nat, v: int, k: nat)
    requires Sane(c) && |block| == 3 * c.size && part <= 2 && k < c.size
    ensures var b := Bump(c, block, Offset(c, part), v);
      Part(c, b, part)[k] == Part(c, block, part)[k] + if Falls(c, v, k) then 1 else 0
  {
    BumpPart(c, block, part, v, part);
    BucketInterval(c, v, k);
    hide Part, Bucket, Falls, Offset;
  }

  /** The three histograms lie one behind the other: minima, maxima, samples. */
  lemma Layout(c: Config, block: seq<int>)
    requires |block| == 3 * c.size
    ensures Part(c, block, MIN_PART) == block[..c.size] && Part(c, block, MAX_PART) == block[c.size..2 * c.size]
    ensures Part(c, block, AVG_PART) == block[2 * c.size..]
  {
  }

  lemma TallyMore(c: Config, vs: seq<int>, v: int)
    requires Sane(c) && c.size > 0
    ensures Tally(c, vs + [v]) == Bump(c, Tally(c, vs), 0, v)
  {
    LastOf(vs, v);
  }

  lemma BlockSample(c: Config, block: seq<int>, mins: seq<int>, maxs: seq<int>, samples: seq<int>, dt: int)
    requires Sane(c) && c.size > 0 && BlockOk(c, block, mins, maxs, samples)
    ensures BlockOk(c, Bump(c, block, Offset(c, AVG_PART), dt), mins, maxs, samples + [dt])
  {
    hide Bump, Tally, Part;
    BumpPart(c, block, AVG_PART, dt, MIN_PART);
    BumpPart(c, block, AVG_PART, dt, MAX_PART);
    BumpPart(c, block, AVG_PART, dt, AVG_PART);
    TallyMore(c, samples, dt);
  }

  lemma BlockBatch(c: Config, block: seq<int>, mins: seq<int>, maxs: seq<int>, samples: seq<int>, min: int, max: int)
    requires Sane(c) && c.size > 0 && BlockOk(c, block, mins, maxs, samples)
    ensures BlockOk(c, Bump(c, Bump(c, block, Offset(c, MAX_PART), max), Offset(c, MIN_PART), min),
                    mins + [min], maxs + [max], samples)
  {
    hide Bump, Tally, Part;
    var mid := Bump(c, block, Offset(c, MAX_PART), max);
    BumpPart(c, block, MAX_PART, max, MIN_PART);
    BumpPart(c, block, MAX_PART, max, MAX_PART);
    BumpPart(c, block, MAX_PART, max, AVG_PART);
    BumpPart(c, mid, MIN_PART, min, MIN_PART);
    BumpPart(c, mid, MIN_PART, min, MAX_PART);
    BumpPart(c, mid, MIN_PART, min, AVG_PART);
    TallyMore(c, mins, min);
    TallyMore(c, maxs, max);
  }

  lemma InnerKeeps(c: Config, s: Session, dt: int)
    requires Sane(c) && Inv(c, s)
    ensures var a := Inner(c, s.x, dt); var kept := Kept(c, s.batches); var more := s.partial + [dt];
      && CurrOk(a.curr, more)
      && BlockOk(c, a.block, Mins(kept), Maxs(kept), Flat(kept) + if s.x.warmup then [] else more)
  {
    hide SumOf, MinOf, MaxOf, Mins, Maxs, Flat, Avgs, Kept, Bump, Tally, Part, CurrOk, TotalsOk, Overruns;
    var kept := Kept(c, s.batches);
    CurrMore(s.x.curr, s.partial, dt, s.x.curr.overruns + Overruns(dt, c.period));
    if !s.x.warmup {
      assert Flat(kept) + (s.partial + [dt]) == (Flat(kept) + s.partial) + [dt];
      if c.size > 0 { BlockSample(c, s.x.block, Mins(kept), Maxs(kept), Flat(kept) + s.partial, dt); }
    }
  }

  /** The end of a counted batch b. */
  lemma CountedKeeps(c: Config, x: Context, kept: seq<seq<int>>, late: seq<int>, b: seq<int>)
    requires Sane(c) && CurrOk(x.curr, b) && TotalsOk(c.samples, x.overall, kept, late)
    requires BlockOk(c, x.block, Mins(kept), Maxs(kept), Flat(kept) + b)
    ensures var y := Counted(c, x); var more := kept + [b];
      && TotalsOk(c.samples, y.overall, more, late + [x.curr.overruns])
      && BlockOk(c, y.block, Mins(more), Maxs(more), Flat(more) + [])
  {
    TotalsMore(c.samples, x.overall, kept, late, x.curr, b);
    LastOf(kept, b);
    assert Flat(kept + [b]) + [] == Flat(kept) + b;
    hide SumOf, MinOf, MaxOf, Bump, Tally, Part, TotalsOk, TruncDiv;
    if c.size > 0 { BlockBatch(c, x.block, Mins(kept), Maxs(kept), Flat(kept) + b, x.curr.min, x.curr.max); }
  }

  lemma EmptyOk(n: int)
    requires n > 0
    ensures CurrOk(EMPTY, []) && TotalsOk(n, EMPTY, [], [])
  {
  }

  lemma TakeKeeps(c: Config, s: Session, now: int)
    requires Sane(c) && Inv(c, s)
    ensures Inv(c, Take(c, s, now))
  {
    hide SumOf, MinOf, MaxOf, Mins, Maxs, Flat, Avgs, Kept, Bump, Tally, Part, CurrOk, TotalsOk, BlockOk, Overruns,
      TruncDiv;
    var dt := now - s.x.date;
    InnerKeeps(c, s, dt);
    if s.x.count + 1 >= c.samples {
      BatchEnds(c, s, dt);
    }
  }

  lemma BatchEnds(c: Config, s: Session, dt: int)
    requires Sane(c) && Inv(c, s) && s.x.count + 1 >= c.samples
    ensures var b := s.partial + [dt]; var a := Inner(c, s.x, dt);
      Inv(c, Session(Outer(c, a).(count := 0), s.batches + [b], s.late + [a.curr.overruns], [], s.taken + 1,
                     s.overruns + Overruns(dt, c.period)))
  {
    hide SumOf, MinOf, MaxOf, Mins, Maxs, Avgs, Kept, Bump, Tally, Part, CurrOk, TotalsOk, BlockOk, Overruns, TruncDiv;
    var b, a, kept := s.partial + [dt], Inner(c, s.x, dt), Kept(c, s.batches);
    InnerLeaves(c, s.x, dt);
    CountedLeaves(c, a);
    hide Inner, Counted;
    assert Flat([]) + [] == [];
    InnerKeeps(c, s, dt);
    EmptyOk(c.samples);
    KeptMore(c, s.batches, b);
    KeptMore(c, s.late, a.curr.overruns);
    if !s.x.warmup {
      CountedKeeps(c, a, kept, Kept(c, s.late), b);
    } else {
      NothingKept(c, s.batches);
      NothingKept(c, s.late);
    }
  }

  lemma InnerLeaves(c: Config, x: Context, dt: int)
    requires Sane(c) && |x.block| == 3 * c.size
    ensures var a := Inner(c, x, dt); a.warmup == x.warmup && a.testLoops == x.testLoops && a.overall == x.overall
    ensures x.warmup ==> Inner(c, x, dt).block == x.block
  {
  }

  lemma CountedLeaves(c: Config, x: Context)
    requires Sane(c) && |x.block| == 3 * c.size
    ensures var a := Counted(c, x); a.warmup == x.warmup && a.testLoops == x.testLoops
  {
  }

  lemma NothingKept<T>(c: Config, xs: seq<T>)
    requires Warm(c, |xs|)
    ensures Kept(c, xs) == []
  {
  }

  lemma StartOk(c: Config, date: int)
    requires Sane(c)
    ensures Inv(c, Run(c, date, []))
  {
    EmptyOk(c.samples);
    NothingKeptAtStart(c);
    if c.size > 0 {
      var block := seq(3 * c.size, _ => 0);
      assert Part(c, block, MIN_PART) == Part(c, block, MAX_PART) == Part(c, block, AVG_PART) == Tally(c, []);
    }
  }

  lemma NothingKeptAtStart(c: Config)
    ensures Warm(c, 0) && Kept<seq<int>>(c, []) == [] && Kept<int>(c, []) == []
  {
  }

  lemma {:induction false} RunKeeps(c: Config, date: int, nows: seq<int>)
    requires Sane(c)
    ensures Inv(c, Run(c, date, nows))
  {
    if nows == [] {
      StartOk(c, date);
    } else {
      RunKeeps(c, date, nows[..|nows| - 1]);
      TakeKeeps(c, Run(c, date, nows[..|nows| - 1]), nows[|nows| - 1]);
      hide Inv, Take;
    }
  }

  // ---- What the numbers mean ----

  /** The lateness of each sample against the release date it was due at. */
  function Lateness(c: Config, date: int, nows: seq<int>): seq<int>
    requires Sane(c)
  {
    if nows == [] then []
    else
      var before := nows[..|nows| - 1];
      Lateness(c, date, before) + [nows[|nows| - 1] - Run(c, date, before).x.date]
  }

  /** The batches are the samples in order. */
  lemma {:induction false} HistoryFaithful(c: Config, date: int, nows: seq<int>)
    requires Sane(c)
    ensures var s := Run(c, date, nows); Flat(s.batches) + s.partial == Lateness(c, date, nows)
  {
    if nows != [] {
      var before := nows[..|nows| - 1];
      HistoryFaithful(c, date, before);
      TakeHistory(c, Run(c, date, before), nows[|nows| - 1]);
      hide Take, Flat;
    }
  }

  lemma TakeHistory(c: Config, s: Session, now: int)
    requires Sane(c) && |s.x.block| == 3 * c.size
    ensures var t := Take(c, s, now); Flat(t.batches) + t.partial == (Flat(s.batches) + s.partial) + [now - s.x.date]
  {
    hide Sample, Overruns, Flat;
    FlatMore(s.batches, s.partial, now - s.x.date);
  }

  lemma FlatMore(bs: seq<seq<int>>, partial: seq<int>, dt: int)
    ensures Flat(bs + [partial + [dt]]) + [] == (Flat(bs) + partial) + [dt]
    ensures Flat(bs) + (partial + [dt]) == (Flat(bs) + partial) + [dt]
  {
    LastOf(bs, partial + [dt]);
  }

  /** A histogram totals the values it was given. */
  lemma {:induction false} TallyTotal(c: Config, vs: seq<int>)
    requires Sane(c) && c.size > 0
    ensures SumOf(Tally(c, vs)) == |vs|
  {
    if vs == [] {
      SumZero(c.size);
    } else {
      var h, v := Tally(c, vs[..|vs| - 1]), vs[|vs| - 1];
      TallyTotal(c, vs[..|vs| - 1]);
      SumUpdate(h, Bucket(c, v), h[Bucket(c, v)] + 1);
    }
  }

  /** The positions of the values that fall into bucket k. */
  function InBucket(c: Config, vs: seq<int>, k: nat): set<nat> {
    set i: nat | i < |vs| && Falls(c, vs[i], k)
  }

  /** Each bucket of a histogram counts the values that fall into it. */
  lemma {:induction false} TallyCounts(c: Config, vs: seq<int>, k: nat)
    requires Sane(c) && k < c.size
    ensures Tally(c, vs)[k] == |InBucket(c, vs, k)|
  {
    if vs == [] {
      assert InBucket(c, vs, k) == {};
    } else {
      var n := |vs| - 1;
      TallyCounts(c, vs[..n], k);
      BucketInterval(c, vs[n], k);
      hide Bucket, Falls;
      var before := InBucket(c, vs[..n], k);
      assert InBucket(c, vs, k) == if Falls(c, vs[n], k) then before + {n} else before;
    }
  }

  /** The least value, clipped at the initial one. */
  lemma {:induction false} MinIsLeast(vs: seq<int>)
    ensures MinOf(vs) <= 10000000 && (MinOf(vs) == 10000000 || MinOf(vs) in vs)
    ensures forall i :: 0 <= i < |vs| ==> MinOf(vs) <= vs[i]
  {
    if vs != [] {
      MinIsLeast(vs[..|vs| - 1]);
      assert forall i :: 0 <= i < |vs| - 1 ==> vs[i] == vs[..|vs| - 1][i];
    }
  }

  lemma {:induction false} MaxIsGreatest(vs: seq<int>)
    ensures MaxOf(vs) >= -10000000 && (MaxOf(vs) == -10000000 || MaxOf(vs) in vs)
    ensures forall i :: 0 <= i < |vs| ==> MaxOf(vs) >= vs[i]
  {
    if vs != [] {
      MaxIsGreatest(vs[..|vs| - 1]);
      assert forall i :: 0 <= i < |vs| - 1 ==> vs[i] == vs[..|vs| - 1][i];
    }
  }

  lemma {:induction false} ExtremesOfConcat(a: seq<int>, b: seq<int>)
    ensures MinOf(a + b) == (if MinOf(b) < MinOf(a) then MinOf(b) else MinOf(a))
    ensures MaxOf(a + b) == (if MaxOf(b) > MaxOf(a) then MaxOf(b) else MaxOf(a))
  {
    if b == [] {
      assert a + b == a;
      MinIsLeast(a);
      MaxIsGreatest(a);
    } else {
      var n := |b| - 1;
      ExtremesOfConcat(a, b[..n]);
      assert (a + b)[..|a| + n] == a + b[..n] && (a + b)[|a| + n] == b[n];
    }
  }

  /** The extreme of the batch extremes is the extreme of all samples. */
  lemma {:induction false} ExtremesOfBatches(bs: seq<seq<int>>)
    ensures MinOf(Mins(bs)) == MinOf(Flat(bs)) && MaxOf(Maxs(bs)) == MaxOf(Flat(bs))
  {
    if bs != [] {
      var n := |bs| - 1;
      ExtremesOfBatches(bs[..n]);
      ExtremesOfConcat(Flat(bs[..n]), bs[n]);
      LastOf(Mins(bs[..n]), MinOf(bs[n]));
      LastOf(Maxs(bs[..n]), MaxOf(bs[n]));
    }
  }

  /** Over any run: exactly warmup_loops batches are discarded (all of them if warmup_loops < 1); then the three
      histograms total the counted samples and, twice, the counted batches, none disturbing another; and the overall
      extremes are those of the counted samples, clipped at the initial values. */
  lemma Bookkeeping(c: Config, date: int, nows: seq<int>)
    requires Sane(c)
    ensures var s := Run(c, date, nows); var kept := Kept(c, s.batches);
      && (s.x.warmup <==> c.warmupLoops < 1 || |s.batches| < c.warmupLoops)
      && kept == (if s.x.warmup then [] else s.batches[c.warmupLoops..])
      && (!s.x.warmup ==> s.x.testLoops == |kept| + 1)
      && s.x.overall.min == MinOf(Flat(kept)) && s.x.overall.max == MaxOf(Flat(kept))
      && (c.size > 0 ==>
            var mins, maxs, all := s.x.block[..c.size], s.x.block[c.size..2 * c.size], s.x.block[2 * c.size..];
            && all == Tally(c, Flat(kept) + if s.x.warmup then [] else s.partial)
            && mins == Tally(c, Mins(kept)) && maxs == Tally(c, Maxs(kept))
            && SumOf(all) == |Flat(kept)| + (if s.x.warmup then 0 else |s.partial|)
            && SumOf(mins) == SumOf(maxs) == |kept|)
  {
    RunKeeps(c, date, nows);
    var s := Run(c, date, nows);
    var kept := Kept(c, s.batches);
    Layout(c, s.x.block);
    ExtremesOfBatches(kept);
    if c.size > 0 {
      TallyTotal(c, Flat(kept) + if s.x.warmup then [] else s.partial);
      TallyTotal(c, Mins(kept));
      TallyTotal(c, Maxs(kept));
    }
    hide Run, Tally, Part, SumOf, MinOf, MaxOf, Mins, Maxs, Flat, Avgs, CurrOk;
  }

  /** The overruns of a sequence of samples. */
  function OverrunsOf(c: Config, vs: seq<int>): int
    requires Sane(c)
  {
    if vs == [] then 0 else OverrunsOf(c, vs[..|vs| - 1]) + Overruns(vs[|vs| - 1], c.period)
  }

  /** Batch by batch. */
  function LateOf(c: Config, bs: seq<seq<int>>): (r: seq<int>)
    requires Sane(c)
    ensures |r| == |bs|
  {
    if bs == [] then [] else LateOf(c, bs[..|bs| - 1]) + [OverrunsOf(c, bs[|bs| - 1])]
  }

  /** What the driver has noted beside the totals: overruns, and the result of the last counted batch. */
  ghost predicate NotedOk(c: Config, s: Session)
    requires Sane(c)
  {
    && s.x.curr.overruns == OverrunsOf(c, s.partial) && s.late == LateOf(c, s.batches)
    && LastOk(c.samples, s.x.last, Kept(c, s.batches))
  }

  ghost predicate LastOk(n: int, last: Result, kept: seq<seq<int>>)
    requires n > 0
  {
    if kept == [] then last == EMPTY
    else
      var b := kept[|kept| - 1];
      last.min == MinOf(b) && last.max == MaxOf(b) && last.avg == TruncDiv(SumOf(b), n)
  }

  /** What a sample does to the overruns and to the last result. */
  lemma SampleNotes(c: Config, x: Context, now: int)
    requires Sane(c) && |x.block| == 3 * c.size
    ensures var y, a, full := Sample(c, x, now), Inner(c, x, now - x.date), x.count + 1 >= c.samples;
      && a.curr.overruns == x.curr.overruns + Overruns(now - x.date, c.period)
      && y.curr.overruns == (if full then 0 else a.curr.overruns)
      && y.last == if full && !x.warmup
                   then Result(TruncDiv(a.curr.avg, c.samples), a.curr.min, a.curr.max, x.last.overruns) else x.last
  {
    hide Bump, TruncDiv, Overruns;
  }

  lemma OverrunsMore(c: Config, vs: seq<int>, v: int)
    requires Sane(c)
    ensures OverrunsOf(c, vs + [v]) == OverrunsOf(c, vs) + Overruns(v, c.period) && OverrunsOf(c, []) == 0
  {
    LastOf(vs, v);
  }

  lemma LateMore(c: Config, bs: seq<seq<int>>, b: seq<int>)
    requires Sane(c)
    ensures LateOf(c, bs + [b]) == LateOf(c, bs) + [OverrunsOf(c, b)]
  {
    LastOf(bs, b);
  }

  lemma LastMore(n: int, kept: seq<seq<int>>, b: seq<int>, curr: Result, overruns: int)
    requires n > 0 && CurrOk(curr, b)
    ensures LastOk(n, Result(TruncDiv(curr.avg, n), curr.min, curr.max, overruns), kept + [b])
  {
    LastOf(kept, b);
  }

  lemma TakeNotes(c: Config, s: Session, now: int)
    requires Sane(c) && Inv(c, s) && NotedOk(c, s)
    ensures NotedOk(c, Take(c, s, now))
  {
    hide SumOf, MinOf, MaxOf, TotalsOk, BlockOk, CurrOk, LastOk, TruncDiv, Kept, Overruns, OverrunsOf, LateOf, Sample,
      Inner;
    var dt := now - s.x.date;
    var more := s.partial + [dt];
    SampleNotes(c, s.x, now);
    OverrunsMore(c, s.partial, dt);
    LateMore(c, s.batches, more);
    KeptMore(c, s.batches, more);
    InnerKeeps(c, s, dt);
    if s.x.warmup {
      NothingKept(c, s.batches);
    } else {
      LastMore(c.samples, Kept(c, s.batches), more, Inner(c, s.x, dt).curr, s.x.last.overruns);
    }
  }

  lemma {:induction false} RunNotes(c: Config, date: int, nows: seq<int>)
    requires Sane(c)
    ensures NotedOk(c, Run(c, date, nows))
  {
    if nows == [] {
      NothingKeptAtStart(c);
    } else {
      RunNotes(c, date, nows[..|nows| - 1]);
      RunKeeps(c, date, nows[..|nows| - 1]);
      TakeNotes(c, Run(c, date, nows[..|nows| - 1]), nows[|nows| - 1]);
      hide Inv, Take, NotedOk;
    }
  }

  lemma {:induction false} OverrunsConcat(c: Config, a: seq<int>, b: seq<int>)
    requires Sane(c)
    ensures OverrunsOf(c, a + b) == OverrunsOf(c, a) + OverrunsOf(c, b)
  {
    hide Overruns;
    if b == [] {
      assert a + b == a;
    } else {
      var n := |b| - 1;
      OverrunsConcat(c, a, b[..n]);
      assert (a + b)[..|a| + n] == a + b[..n] && (a + b)[|a| + n] == b[n];
    }
  }

  lemma {:induction false} LateTotal(c: Config, bs: seq<seq<int>>)
    requires Sane(c)
    ensures SumOf(LateOf(c, bs)) == OverrunsOf(c, Flat(bs))
  {
    if bs != [] {
      var n := |bs| - 1;
      LateTotal(c, bs[..n]);
      OverrunsConcat(c, Flat(bs[..n]), bs[n]);
      LastOf(LateOf(c, bs[..n]), OverrunsOf(c, bs[n]));
      hide OverrunsOf;
    }
  }

  lemma {:induction false} LateSuffix(c: Config, bs: seq<seq<int>>, k: nat)
    requires Sane(c) && k <= |bs|
    ensures LateOf(c, bs)[k..] == LateOf(c, bs[k..])
  {
    if k < |bs| {
      var n := |bs| - 1;
      LateSuffix(c, bs[..n], k);
      assert bs[k..][..n - k] == bs[..n][k..];
      hide OverrunsOf;
    }
  }

  /** Over any run the overruns reported are those of all counted samples, and the last result is that of the last
      counted batch: its extremes and its truncated average. */
  lemma LastAndOverruns(c: Config, date: int, nows: seq<int>)
    requires Sane(c)
    ensures var s := Run(c, date, nows); var kept := Kept(c, s.batches);
      s.x.overall.overruns == OverrunsOf(c, Flat(kept)) && LastOk(c.samples, s.x.last, kept)
  {
    RunKeeps(c, date, nows);
    RunNotes(c, date, nows);
    var s := Run(c, date, nows);
    LateTotal(c, Kept(c, s.batches));
    if !Warm(c, |s.batches|) { LateSuffix(c, s.batches, c.warmupLoops); }
    hide Run, BlockOk, CurrOk, LastOk, SumOf, OverrunsOf, LateOf, MinOf, MaxOf, Avgs;
  }

  /** One sample a second and warmup_loops 0: a batch of any lateness is never counted. */
  lemma WarmupNeverEnds(now: int)
    ensures var c := Config(1000000000, 0, 1, 0, 1); var s := Run(c, 0, [now]);
      s.batches == [[now]] && s.x.warmup && s.x.overall == EMPTY && Kept(c, s.batches) == []
  {
    var c := Config(1000000000, 0, 1, 0, 1);
    hide Overruns;
    assert [now][..0] == [] && [] + [now] == [now];
    var s := Run(c, 0, []);
    assert Run(c, 0, [now]) == Take(c, s, now);
    assert s.partial + [now] == [now] && s.batches + [[now]] == [[now]];
  }

  // ---- The reported average ----

  lemma SlldivError(s: int, d: int)
    requires d > 0
    ensures -(d - 1) <= d * TruncDiv(s, d) - s <= d - 1
  {
    var q := TruncDiv(s, d);
    if s >= 0 {
      assert d * (s / d) + s % d == s;
    } else {
      assert d * ((-s) / d) + (-s) % d == -s;
      assert d * q == -(d * ((-s) / d));
    }
  }

  /** First truncation: the batch averages. */
  lemma {:induction false} BatchAverages(n: int, bs: seq<seq<int>>)
    requires n > 0
    ensures -(|bs| * (n - 1)) <= n * SumOf(Avgs(n, bs)) - SumOf(Flat(bs)) <= |bs| * (n - 1)
  {
    if bs != [] {
      var k := |bs| - 1;
      var rest, b := bs[..k], bs[k];
      BatchAverages(n, rest);
      SlldivError(SumOf(b), n);
      SumConcat(Flat(rest), b);
      var q := TruncDiv(SumOf(b), n);
      LastOf(Avgs(n, rest), q);
      assert SumOf(Avgs(n, bs)) == SumOf(Avgs(n, rest)) + q;
      assert SumOf(Flat(bs)) == SumOf(Flat(rest)) + SumOf(b);
      hide *;
      OneMoreError(n, k, SumOf(Avgs(n, rest)), SumOf(Flat(rest)), q, SumOf(b));
    }
  }

  lemma OneMoreError(n: int, k: int, x: int, y: int, q: int, v: int)
    requires -(k * (n - 1)) <= n * x - y <= k * (n - 1) && -(n - 1) <= n * q - v <= n - 1
    ensures -((k + 1) * (n - 1)) <= n * (x + q) - (y + v) <= (k + 1) * (n - 1)
  {
    Distribute(n, x, q);
    Distribute(n - 1, k, 1);
    Commute(n - 1, k);
    Commute(n - 1, k + 1);
  }

  lemma Commute(a: int, b: int)
    ensures a * b == b * a
  {
  }

  /** Second truncation on top of the first: e1 bounds what the batches lost, e2 what the final division lost. */
  lemma TwoTruncations(n: int, b: int, avg: int, total: int, sum: int)
    requires n > 0 && b > 0
    requires -(b * (n - 1)) <= n * total - sum <= b * (n - 1)
    requires -(b - 1) <= b * avg - total <= b - 1
    ensures -(2 * n * b - n - b) <= avg * n * b - sum <= 2 * n * b - n - b
  {
    var e := b * avg - total;
    Reorder(avg, n, b);
    Distribute(n, total, e);
    Scaled(n, e, b - 1);
    Scaled(n, -e, b - 1);
    Distribute(n, b, -1);
    Distribute(b, n, -1);
  }

  lemma Reorder(a: int, n: int, b: int)
    ensures a * n * b == n * (b * a) && 2 * n * b == 2 * (n * b) && b * n == n * b
  {
  }

  lemma Scaled(n: int, a: int, b: int)
    requires n > 0 && a <= b
    ensures n * a <= n * b && n * (-a) == -(n * a)
  {
  }

  /** After B >= 1 counted batches of n samples the reported average A is off by less than two: despite two levels of
      truncation, |A * n * B - sum of all counted samples| <= 2 * n * B - n - B. Before any batch is counted it is 0. */
  lemma AverageBound(c: Config, date: int, nows: seq<int>)
    requires Sane(c)
    ensures var s := Run(c, date, nows); var kept := Kept(c, s.batches);
      var n, b, a := c.samples, |kept|, Reported(s.x);
      if b == 0 then a == 0
      else -(2 * n * b - n - b) <= a * n * b - SumOf(Flat(kept)) <= 2 * n * b - n - b
  {
    RunKeeps(c, date, nows);
    var s := Run(c, date, nows);
    var kept := Kept(c, s.batches);
    if |kept| > 0 {
      BatchAverages(c.samples, kept);
      SlldivError(s.x.overall.avg, |kept|);
      TwoTruncations(c.samples, |kept|, Reported(s.x), s.x.overall.avg, SumOf(Flat(kept)));
    } else {
      assert SumOf(Avgs(c.samples, kept)) == 0;
    }
    hide Run, BlockOk, CurrOk;
  }

  // ---- The driver's functions in their own shape ----

  class Bench {
    const c: Config
    const block: array<int>
    var warmup: bool
    var date: int
    var count: int
    var curr: Result
    var last: Result
    var overall: Result
    var testLoops: int

    ghost predicate Valid()
      reads this
    {
      Sane(c) && block.Length == 3 * c.size
    }

    ghost function Value(): Context
      reads this, block
    {
      Context(warmup, date, count, curr, last, overall, testLoops, block[..])
    }

    /** rt_tmbench_start, with the first release date one millisecond after the clock reading. */
    constructor (config: Config, clock: int)
      requires Sane(config)
      ensures Valid() && c == config && fresh(block) && Value() == Start(config, clock + 1000000)
    {
      c := config;
      block := new int[3 * config.size](_ => 0);
      overall, testLoops, warmup, curr, last, count := EMPTY, 1, true, EMPTY, EMPTY, 0;
      date := clock + 1000000;
      new;
      assert block[..] == seq(3 * c.size, _ => 0);
    }

    method AddHistogram(part: nat, addval: int)
      requires Valid() && c.size > 0 && part <= 2
      modifies block
      ensures Value() == old(Value()).(block := Bump(c, old(block[..]), Offset(c, part), addval))
    {
      var inabs := (if addval >= 0 then addval else -addval) / c.bucket;
      var k := Offset(c, part) + if inabs < c.size then inabs else c.size - 1;
      assert k == Offset(c, part) + Bucket(c, addval);
      block[k] := block[k] + 1;
    }

    method EvalInnerLoop(lateness: int)
      requires Valid()
      modifies this, block
      ensures Valid() && Value() == Inner(c, old(Value()), lateness)
    {
      hide Bump, Overruns;
      var dt := lateness;
      if dt > curr.max {
        curr := curr.(max := dt);
      }
      if dt < curr.min {
        curr := curr.(min := dt);
      }
      curr := curr.(avg := curr.avg + dt);
      date := date + c.period;
      if !warmup && c.size > 0 {
        AddHistogram(AVG_PART, dt);
      }
      CatchUp(dt);
      Distribute(c.period, 1, Overruns(dt, c.period));
    }

    /** The overrun loop at the end of eval_inner_loop. */
    method CatchUp(lateness: int)
      requires Valid()
      modifies this`curr, this`date
      ensures var m := Overruns(lateness, c.period);
        curr == old(curr).(overruns := old(curr).overruns + m) && date == old(date) + c.period * m
    {
      var dt := lateness;
      ghost var m := 0;
      while dt > 0 && dt > c.period
        invariant Valid() && m >= 0 && m + Overruns(dt, c.period) == Overruns(lateness, c.period)
        invariant curr == old(curr).(overruns := old(curr).overruns + m) && date == old(date) + c.period * m
        decreases dt
      {
        curr := curr.(overruns := curr.overruns + 1);
        date := date + c.period;
        dt := dt - c.period;
        Distribute(c.period, m, 1);
        m := m + 1;
      }
    }

    method EvalOuterLoop()
      requires Valid()
      modifies this, block
      ensures Valid() && Value() == Outer(c, old(Value()))
    {
      hide Bump, TruncDiv;
      if !warmup {
        if c.size > 0 {
          AddHistogram(MAX_PART, curr.max);
          AddHistogram(MIN_PART, curr.min);
        }
        last := last.(min := curr.min);
        if curr.min < overall.min {
          overall := overall.(min := curr.min);
        }
        last := last.(max := curr.max);
        if curr.max > overall.max {
          overall := overall.(max := curr.max);
        }
        last := last.(avg := TruncDiv(curr.avg, c.samples));
        overall := overall.(avg := overall.avg + last.avg);
        overall := overall.(overruns := overall.overruns + curr.overruns);
      }
      if warmup && testLoops == c.warmupLoops {
        testLoops := 0;
        warmup := false;
      }
      curr := Result(0, START_MIN, START_MAX, 0);
      testLoops := testLoops + 1;
    }

    /** One pass of timer_proc at clock reading now. */
    method TimerProc(now: int)
      requires Valid()
      modifies this, block
      ensures Valid() && Value() == Sample(c, old(Value()), now)
    {
      hide Inner, Outer;
      EvalInnerLoop(now - date);
      count := count + 1;
      if count >= c.samples {
        OuterIgnoresCount(c, Value(), count - 1);
        EvalOuterLoop();
        count := 0;
      }
      InnerKeepsCount(c, old(Value()), now - old(date));
    }

    /** The body of the inner loop of timer_task_proc, its counter included. */
    method TaskSample(now: int)
      requires Valid()
      modifies this, block
      ensures Valid() && count == old(count) + 1
      ensures count < c.samples ==> Value() == Sample(c, old(Value()), now)
      ensures count >= c.samples ==> Outer(c, Value()).(count := 0) == Sample(c, old(Value()), now)
    {
      hide Inner, Outer;
      EvalInnerLoop(now - date);
      InnerKeepsCount(c, old(Value()), now - old(date));
      count := count + 1;
      OuterIgnoresCount(c, Value(), count - 1);
    }

    /** timer_task_proc from its start, over the clock readings it gets until its sleep fails. */
    method TimerTaskProc(ghost first: int, nows: seq<int>)
      requires Valid() && Value() == Start(c, first)
      modifies this, block
      ensures Valid() && Value() == Run(c, first, nows).x
    {
      var k := 0;
      assert nows[..0] == [] && Run(c, first, []).x == Start(c, first);
      hide Run, Sample, Outer, Start;
      while true
        invariant Valid() && 0 <= k <= |nows| && count == 0 && Value() == Run(c, first, nows[..k]).x
        decreases |nows| - k
      {
        ghost var k0 := k;
        while count < c.samples
          invariant Valid() && k0 <= k <= |nows| && 0 <= count <= c.samples
          invariant (count == 0 ==> k == k0) && (count > 0 ==> k > k0)
          invariant count < c.samples ==> Value() == Run(c, first, nows[..k]).x
          invariant count == c.samples ==> Outer(c, Value()).(count := 0) == Run(c, first, nows[..k]).x
        {
          if k == |nows| {
            assert nows[..k] == nows;
            return;
          }
          RunStep(c, first, nows, k);
          TaskSample(nows[k]);
          k := k + 1;
        }
        EvalOuterLoop();
        count := 0;
      }
    }

    /** The average left by rt_tmbench_stop. */
    method Stop() returns (avg: int)
      requires Valid()
      modifies this
      ensures avg == overall.avg == Reported(old(Value()))
      ensures Value() == old(Value()).(overall := old(overall).(avg := avg))
    {
      overall := overall.(avg := TruncDiv(overall.avg, (if testLoops > 1 then testLoops else 2) - 1));
      avg := overall.avg;
    }
  }

  lemma RunStep(c: Config, date: int, nows: seq<int>, k: nat)
    requires Sane(c) && k < |nows|
    ensures Run(c, date, nows[..k + 1]).x == Sample(c, Run(c, date, nows[..k]).x, nows[k])
  {
    hide Sample;
    assert nows[..k + 1][..k] == nows[..k];
  }

  lemma InnerKeepsCount(c: Config, x: Context, dt: int)
    requires Sane(c) && |x.block| == 3 * c.size
    ensures Inner(c, x, dt).count == x.count
  {
  }

  lemma OuterIgnoresCount(c: Config, x: Context, count: int)
    requires Sane(c) && |x.block| == 3 * c.size
    ensures Outer(c, x.(count := count)).(count := 0) == Outer(c, x).(count := 0)
  {
  }
}
