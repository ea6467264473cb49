/** The counter readings of testscsync.c, read off the schedule: the clock at every reading, summed up from the
    cycles that pass and independently of what the steps store. */
module TscClock {

  import opened TscSync

  /** The slave's counter after a schedule: the cycles that have passed. */
  function Clock(now: nat, schedule: seq<Event>): nat {
    if schedule == [] then now
    else
      var e := schedule[|schedule| - 1];
      Clock(now, schedule[..|schedule| - 1]) + if e.Tick? then e.cycles else 0
  }

  /** t0: the clock at the slave's last step out of ReadT0; begins, ends: at its steps out of ReadT0 and ReadT1,
      iteration by iteration; stamps: at the master's steps out of ReadStamp. */
  datatype Log = Log(t0: nat, begins: seq<nat>, ends: seq<nat>, stamps: seq<nat>)

  function Noted(log: Log, s: State, e: Event, clock: nat): Log {
    if e.SlaveStep? && s.slave.ReadT0? then log.(t0 := clock)
    else if e.SlaveStep? && s.slave.ReadT1? then log.(begins := log.begins + [log.t0], ends := log.ends + [clock])
    else if e.MasterStep? && s.master.ReadStamp? then log.(stamps := log.stamps + [clock])
    else log
  }

  function LogOf(c: Setup, now: nat, schedule: seq<Event>): Log {
    if schedule == [] then Log(now, [], [], [])
    else
      var before := schedule[..|schedule| - 1];
      Noted(LogOf(c, now, before), Run(c, now, before), schedule[|schedule| - 1], Clock(now, before))
  }

  ghost predicate Agrees(s: State, log: Log, clock: nat) {
    && s.now == clock && s.begin == log.t0 && s.stamps == log.stamps
    && |s.rounds| == |log.begins| == |log.ends|
    && forall i :: 0 <= i < |s.rounds| ==> s.rounds[i].begin == log.begins[i] && s.rounds[i].end == log.ends[i]
  }

  lemma StepAgrees(c: Setup, s: State, log: Log, clock: nat, e: Event)
    requires Agrees(s, log, clock)
    ensures Agrees(Step(c, s, e), Noted(log, s, e, clock), clock + if e.Tick? then e.cycles else 0)
  {
    hide U64, Slot;
  }

  /** In every run round i lasts from the clock at which the slave left ReadT0 in that iteration to the clock at
      which it left ReadT1, and the stamps are the master's readings; so each round trip is the time that passed
      in between. */
  lemma {:induction false} TimesAreRead(c: Setup, now: nat, schedule: seq<Event>)
    ensures Agrees(Run(c, now, schedule), LogOf(c, now, schedule), Clock(now, schedule))
  {
    if schedule != [] {
      var before := schedule[..|schedule| - 1];
      TimesAreRead(c, now, before);
      StepAgrees(c, Run(c, now, before), LogOf(c, now, before), Clock(now, before), schedule[|schedule| - 1]);
      hide Step, Noted, Agrees;
    }
  }

  /** The trips get_delta compares are the cycles between its own two readings, reduced to 64 bits. */
  lemma TripsAreTimes(c: Setup, now: nat, schedule: seq<Event>, i: nat)
    requires i < |Run(c, now, schedule).rounds|
    ensures var rs, log := Readings(Run(c, now, schedule).rounds), LogOf(c, now, schedule);
      && |log.begins| == |log.ends| == |rs| && log.begins[i] <= log.ends[i]
      && Trip(rs[i]) == U64(log.ends[i] - log.begins[i])
  {
    TimesAreRead(c, now, schedule);
    EveryStampOnce(c, now, schedule);
    hide Run, LogOf;
    var r := Run(c, now, schedule).rounds[i];
    Congruent(U64(r.end), r.begin);
    Shift(r.end - r.begin, -(r.end / WHOLE));
    assert U64(r.end) - r.begin == (r.end - r.begin) + -(r.end / WHOLE) * WHOLE;
  }
}
