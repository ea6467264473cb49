# Verified models of the RTAI showroom protocols

The repository is a collection of demonstration programs for RTAI, a hard real-time extension of Linux. Small
groups of tasks cooperate through counting semaphores, mailboxes, messages and unprotected shared variables. This
project models the programs whose correctness is least obvious and proves what they promise, for every interleaving
of their tasks and for every input.

| module | models | main results |
|---|---|---|
| `CommandSlot`, `ChronoCommands`, `ChronoLanguage` | the chronometer's command buffer (`kern/sem_clock/cmdcrn.c`) | one token in every run; delivered commands form a prefix of (C m\* E R)\*, m being C or I, although the status is written without a lock, and every such prefix is delivered by some run |
| `ClockCommands`, `ClockLanguage` | the clock's command buffer (`cmdclk.c`) | delivered are exactly the sequences with R and T while running and anything but T while stopped |
| `Hmsh`, `ClockTasks` | time arithmetic, printing and the two clock tasks (`dispclk.c`, `clock.c`) | carries are addition modulo a day; the clock keeps time and the chronometer freezes for exactly 300 counts, in every run of the command protocols; setting the clock; what is printed when |
| `Display` | the two-slot display buffer (`dispclk.c`) | a consumer never misses, always gets the latest chain, never the same put twice; what is put is what was called |
| `Relay`, `RelayFailure`, `RelayCompletion`, `RelayDraws`, `RelayRounds`, `RelayMethods` | sender, agent and receiver around one shared buffer (`user/heaps`) | exclusive access, all checksums right, received is a prefix of written and equal to it at the end: under every schedule exactly when no length drawn is 0; a schedule can still deliver everything exactly when it is clean; rounds hold the words given and have the lengths drawn |
| `TscSync`, `TscClock`, `TscCompletion` | time stamp counter synchronisation of two CPUs (`kern/tscsync`) | every stamp collected once, untorn; the measured offset is within half the shortest round trip exactly when the counter does not wrap; repeated measurements settle within 4 of that, in logarithmic time; the filter's exact limit; a run can finish exactly when no stamp read 0 |
| `NamedTasks`, `NamedCompletion` | token ring and phased barriers (`kern/namedstuff`), for any number of tasks and rounds | the printed names, the barriers, one semaphore used in both directions and never confused, all mail delivered once; everybody can complete exactly when no timed wait took a unit |
| `TimerBench` | the sampling loops of the timer benchmark driver (`user/benchrtdm`) | release grid, warm-up, three histograms in one block, error of the twice truncated average |
| `Scrambler` | encoding of network messages (`share/scrambler`) | round trips; any one changed word is noticed |
| `Arithmetic`, `Counting` | checksums, truncating division, counting tasks at a place | shared by the others |
| `NameId`, `NextRand` | `nam2id` and `next_rand` | when two names share an id; Schrage's form is the minimal standard generator |

## How it is modelled

*Interleavings.* A protocol is a state and a total function `Step` on it. One step is one semaphore operation, one
message or one access to a shared variable (in the relay, one turn of a loop over the buffer's words); a step of a blocked task leaves the state as it is. `Run` folds a schedule,
any sequence of steps of any tasks, over the initial state, so a lemma about `Run` for all schedules speaks about every
interleaving. Histories (`trace`, `stored`, `gets`, `written`, `log`, ...) are part of the state and are never read by
the steps; where a history could hide what a step does, a second one is read off the schedule alone (`RelayRounds`,
`TscClock`, `Display.LogOf`) and proved equal. RTAI's primitives have their textbook meaning: a counting semaphore, a FIFO mailbox, a blocking rpc.

*Sequential code.* The C functions are also given in their own shape, as classes with the static variables as fields
(`CommandChrono`, `CommandClock`, `Hour`, `Screen`, `AgentTask`, `Bench`, `Codec`, `Generator`) and as methods with
loops. Each is proved equal to the function or to the uninterrupted sequence of steps that the lemmas speak about. A
wait on a semaphore returns only once the semaphore is positive; in the sequential methods that is a precondition.

*Numbers.* Integers are unbounded; where the width matters (checksums, time stamps, message words, the cast to `long`
in the offset filter) reduction modulo 2^32 or 2^64 and C's truncating division are written out.

## Where the code does less than it seems to promise

* **Relay.** The sender stores its random length in `shm[0]` before it replaces a 0 by the buffer size, and the agent's
  loop guard reads `shm[0]` without any lock, taking 0 for the end. Then the receiver is told to end while the sender
  still writes a round that nobody will read. `RelayDraws.CorrectIffNoZeroDraw` shows that the relay is correct under
  every schedule if and only if no length drawn is 0. Of one schedule, `RelayCompletion.RelayCorrectIffClean` says
  that all rounds can still be delivered if and only if no guard has read such a 0, and
  `RelayFailure.UncleanBreaks` continues every other schedule to the loss. `RelayFailure.ZeroDrawEndsEarly` is a run of seven steps.
* **Time stamps.** The midpoint of two counter readings is half the range off when the counter wraps around between
  them: `TscSync.EstimateError` shows that the promised error bound holds if and only if it does not, and
  `TscCompletion.WrappedRun` is a run whose exchange of two cycles fails.
* **Stamps of 0.** `get_delta` takes a stamp of 0 for no stamp. `TscCompletion.MeasuresIffNoZero` shows that a run can
  still be finished if and only if its call of the master was not refused and no stamp so far reads 0;
  `TscCompletion.ZeroStamp` is a run that waits for ever.
* **Offset filter.** Under a constant measurement it reaches that measurement if and only if the measurement lies
  between 0 and the first offset (`TscSync.SettlesExactly`); `TscSync.SmoothStopsShort` stops four short. Computed in
  longs it is the filter at all exactly when the weighted sum fits (`TscSync.SmoothLongExact`); the first measurement of
  an offset of 2^30 cycles gives it the wrong sign (`TscSync.SmoothOverflows`).
* **Named tasks.** The timed wait on `prio_sem` is meant to run out. If it finds a unit, that unit is missing for another
  task's first wait: `NamedCompletion.CompletesIffNoneStolen` shows that all can still complete if and only if no timed
  wait has succeeded, and `NamedCompletion.StolenUnit` steals one for any number of tasks from two on.
* **Warm-up.** With `warmup_loops` below 1 the warm-up of the timer benchmark never ends and nothing is ever counted
  (`TimerBench.Bookkeeping`, through `Warm`; `TimerBench.WarmupNeverEnds` is such a run).

## Model

| member | source | states |
|---|---|---|
| `CommandSlot.PutKeepsTokens` | v3.x/kern/sem_clock/cmdcrn.c:41-50 | no step of Put, admitted or rejected, creates or destroys a token |
| `CommandSlot.SoleHolder` | v3.x/kern/sem_clock/cmdcrn.c:43-48 | a task between its wait on notFull and its signal is the only one there, both semaphores being 0 |
| `ChronoCommands.OneTokenInEveryRun` | v3.x/kern/sem_clock/cmdcrn.c:41-94 | in every interleaving notEmpty + notFull + holders + buffered is 1, and the buffer loses, repeats and reorders nothing |
| `ChronoCommands.DeliveredCommands` | v3.x/kern/sem_clock/cmdcrn.c:41-84 | whatever is offered to Put, the commands Get delivers are a beginning of (C m\* E R)\*, m among those offered |
| `ChronoCommands.KeyboardTrace` | v3.x/kern/sem_clock/cmdcrn.c:41-84 | with the keys C, I and E, the commands delivered are a prefix of (C m\* E R)\*, m being C or I, in every interleaving |
| `ChronoCommands.PutKeeps` | v3.x/kern/sem_clock/cmdcrn.c:41-50 | a step of Put keeps the invariant: an admitted command stays admissible until it is fetched |
| `ChronoCommands.GetKeeps` | v3.x/kern/sem_clock/cmdcrn.c:52-84 | a step of Get keeps it, the status write without the token included |
| `ChronoCommands.RunKeeps` | v3.x/kern/sem_clock/cmdcrn.c:41-94 | the invariant holds after every schedule |
| `ChronoLanguage.KeyboardLanguage` | v3.x/kern/sem_clock/cmdcrn.c:41-84 | under the keys C, I and E the command sequences delivered are exactly the prefixes of (C m\* E R)\*, m being C or I |
| `ChronoLanguage.TestAccepts` | v3.x/kern/sem_clock/cmdcrn.c:44-44 | at any moment Put goes on to store a command exactly if the chronometer is stopped and it is C, or running and it is not C |
| `ChronoCommands.PutCallResult` | v3.x/kern/sem_clock/cmdcrn.c:41-50 | the uninterrupted steps of Put store and announce exactly an accepted command, and otherwise leave everything as it was |
| `ChronoCommands.CommandChrono.constructor` | v3.x/kern/sem_clock/cmdcrn.c:86-94 | initialisation gives the initial state of the step model |
| `ChronoCommands.CommandChrono.Put` | v3.x/kern/sem_clock/cmdcrn.c:41-50 | an uninterrupted call equals the sequence of Put steps; the command is stored exactly if the chronometer is stopped and it is C, or running and it is not |
| `ChronoCommands.CommandChrono.Get` | v3.x/kern/sem_clock/cmdcrn.c:52-84 | an uninterrupted call equals the sequence of Get steps and returns the command added to the trace |
| `ClockCommands.DeliveredCommands` | v3.x/kern/sem_clock/cmdclk.c:37-79 | in every interleaving there is one token, the channel is faithful, only R and T are delivered while running and anything but T while stopped |
| `ClockCommands.RunKeeps` | v3.x/kern/sem_clock/cmdclk.c:37-79 | the invariant behind it holds after every schedule |
| `ClockLanguage.ClockTraces` | v3.x/kern/sem_clock/cmdclk.c:37-79 | the command sequences delivered are exactly those with R and T while running and anything but T while stopped |
| `ClockLanguage.TestAccepts` | v3.x/kern/sem_clock/cmdclk.c:40-40 | at any moment Put goes on to store a command exactly if the clock is running and it is T, or stopped and it is not T |
| `ClockCommands.CommandClock.constructor` | v3.x/kern/sem_clock/cmdclk.c:73-79 | initialisation gives the initial state of the step model |
| `ClockCommands.CommandClock.Put` | v3.x/kern/sem_clock/cmdclk.c:37-46 | an uninterrupted call equals the sequence of Put steps; the command is stored exactly if the clock is running and it is T, or stopped and it is not |
| `ClockCommands.CommandClock.Get` | v3.x/kern/sem_clock/cmdclk.c:48-71 | an uninterrupted call equals the sequence of Get steps and returns the command added to the trace |
| `Hmsh.UnitsInjective` | v3.x/kern/sem_clock/dispclk.c:45-51 | hundredths since midnight identify a valid time, so equality of the fields is equality of the numbers |
| `Hmsh.NextSecondAdds` | v3.x/kern/sem_clock/dispclk.c:68-77 | the carries over seconds, minutes and hours add 100 hundredths modulo a day |
| `Hmsh.NextUnitAdds` | v3.x/kern/sem_clock/dispclk.c:87-94 | the four carries add one hundredth modulo a day |
| `Hmsh.SecondsLaterAdds` | v3.x/kern/sem_clock/dispclk.c:79-85 | n calls add 100 n hundredths modulo a day, for any n |
| `Hmsh.ChainReadsBack` | v3.x/kern/sem_clock/dispclk.c:96-113 | reading a printed chain back gives the time, without the hundredths when they are not printed; colons, point and blanks are in their places |
| `Hmsh.Hour.Initialise` | v3.x/kern/sem_clock/dispclk.c:35-38 | midnight |
| `Hmsh.Hour.Reset` | v3.x/kern/sem_clock/dispclk.c:35-38 | midnight, on an existing struct |
| `Hmsh.Hour.InitialiseHundredthes` | v3.x/kern/sem_clock/dispclk.c:40-43 | clears the hundredths and nothing else |
| `Hmsh.Hour.Equal` | v3.x/kern/sem_clock/dispclk.c:45-51 | true exactly when the times are the same |
| `Hmsh.Hour.AdvanceHours` | v3.x/kern/sem_clock/dispclk.c:53-56 | the next hour, 23 turning to 0, nothing else changed |
| `Hmsh.Hour.AdvanceMinutes` | v3.x/kern/sem_clock/dispclk.c:58-61 | the next minute without carry, nothing else changed |
| `Hmsh.Hour.AdvanceSeconds` | v3.x/kern/sem_clock/dispclk.c:63-66 | the next second without carry, nothing else changed |
| `Hmsh.Hour.PlusOneSecond` | v3.x/kern/sem_clock/dispclk.c:68-77 | one second later modulo a day |
| `Hmsh.Hour.PlusNSeconds` | v3.x/kern/sem_clock/dispclk.c:79-85 | n seconds later modulo a day; unchanged for negative n |
| `Hmsh.Hour.PlusOneUnit` | v3.x/kern/sem_clock/dispclk.c:87-94 | one hundredth later modulo a day; reports exactly the full seconds |
| `Hmsh.Hour.Convert` | v3.x/kern/sem_clock/dispclk.c:96-113 | writes the chain of the time in place and keeps its first character |
| `ClockTasks.ClockSwitch` | v3.x/kern/sem_clock/clock.c:138-158 | the switch on the struct does what the model does on hundredths since midnight |
| `ClockTasks.ClockLoop` | v3.x/kern/sem_clock/clock.c:130-163 | the loop over any commands ends at the model's time and has printed exactly the model's displays |
| `ClockTasks.TicksAdd` | v3.x/kern/sem_clock/clock.c:139-142 | a stretch of R commands adds one hundredth each, modulo a day |
| `ClockTasks.ClockKeepsTime` | v3.x/kern/sem_clock/clock.c:135-163 | in every interleaving of the command protocol, from a start R up to the next T the clock reads start plus commands delivered, modulo 8640000 hundredths |
| `ClockTasks.CommandLaws` | v3.x/kern/sem_clock/clock.c:138-158 | on the fields of the time: H, M and S turn one field without carry and print, T clears the hundredths and does not, R counts and prints the full seconds |
| `ClockTasks.Setting` | v3.x/kern/sem_clock/clock.c:147-162 | after any commands H, M, S the clock reads as many hours, minutes and seconds modulo 24, 60, 60, printed once per command |
| `ClockTasks.StopAndRun` | v3.x/kern/sem_clock/clock.c:139-162 | T clears exactly the hundredths and prints nothing, R prints exactly the full seconds |
| `ClockTasks.ChronoSwitch` | v3.x/kern/sem_clock/clock.c:180-208 | the switch on the structs does what the model does on hundredths |
| `ClockTasks.ChronoLoop` | v3.x/kern/sem_clock/clock.c:168-214 | the loop over any commands ends at the model's time and has printed exactly the model's displays |
| `ClockTasks.ChronoReads` | v3.x/kern/sem_clock/clock.c:180-189 | the chronometer reads the number of C commands since the last R, modulo a day |
| `ClockTasks.Freeze` | v3.x/kern/sem_clock/clock.c:187-204 | after an I the next 299 counts print nothing, the 300th prints the time three seconds later, also across midnight |
| `ClockTasks.Thawed` | v3.x/kern/sem_clock/clock.c:190-195 | a freeze that has ended stays ended until the next I |
| `ClockTasks.ChronoPrints` | v3.x/kern/sem_clock/clock.c:180-212 | R and the start print midnight, E and I the time with hundredths, a C outside a freeze the full seconds |
| `ClockTasks.FullSecondsPrint` | v3.x/kern/sem_clock/clock.c:187-212 | in every interleaving a count outside a freeze prints exactly the full seconds, without hundredths |
| `ClockTasks.FreezeInEveryRun` | v3.x/kern/sem_clock/clock.c:178-214 | in every interleaving the display stays frozen after an I for exactly 300 counts unless I, E or R intervenes |
| `Display.FullSlotsAreAnnounced` | v3.x/kern/sem_clock/dispclk.c:120-170 | whenever the mutex is free, notEmpty plus consumers past it is the number of full slots, and every completed Get has delivered |
| `Display.NeverMisses` | v3.x/kern/sem_clock/dispclk.c:146-156 | a consumer past both semaphores finds a full slot |
| `Display.NoPutDeliveredTwice` | v3.x/kern/sem_clock/dispclk.c:120-158 | deliveries from a slot are distinct puts to it, in order, character for character |
| `Display.DeliversLatest` | v3.x/kern/sem_clock/dispclk.c:144-158 | a delivery is the latest put to its slot at that moment, begins with h for the clock and t for the chronometer, and the clock is served only when the chronometer has nothing new |
| `Display.PutsAreCalled` | v3.x/kern/sem_clock/dispclk.c:120-142 | in every interleaving the chains in a slot are those of the calls, in order, with only the first character replaced by h or t |
| `Display.RunKeeps` | v3.x/kern/sem_clock/dispclk.c:120-170 | the invariant holds after every schedule of producers and consumers |
| `Display.Screen.constructor` | v3.x/kern/sem_clock/dispclk.c:160-170 | initialisation gives the initial state of the step model |
| `Display.Screen.PutHour` | v3.x/kern/sem_clock/dispclk.c:120-130 | an uninterrupted call equals the producer's sequence of steps |
| `Display.Screen.PutTimes` | v3.x/kern/sem_clock/dispclk.c:132-142 | an uninterrupted call equals the producer's sequence of steps |
| `Display.Screen.Get` | v3.x/kern/sem_clock/dispclk.c:144-158 | an uninterrupted call equals the consumer's sequence of steps; with both slots empty the caller's variables stay as they were |
| `Relay.AgentTakes` | v3.x/user/heaps/rt_agent.c:83-98 | an agent signalled on agentsem owns the buffer and its checksum test succeeds |
| `RelayRounds.AgentTests` | v3.x/user/heaps/rt_agent.c:90-97 | the agent's test succeeds exactly on a complete round, in any state |
| `RelayRounds.ReceiverTests` | v3.x/user/heaps/receiver.c:65-72 | so does the receiver's |
| `Relay.AgentKeeps` | v3.x/user/heaps/rt_agent.c:73-136 | an agent period keeps the relay's invariant unless its guard reads the 0 of an unfinished draw |
| `Relay.SenderKeeps` | v3.x/user/heaps/sender.c:61-93 | every step of the sender keeps the invariant |
| `Relay.ReceiverKeeps` | v3.x/user/heaps/receiver.c:54-80 | every step of the receiver keeps the invariant |
| `Relay.RunKeeps` | v3.x/user/heaps/rt_agent.c:69-136 | the invariant holds after every clean schedule |
| `Relay.CleanIsGood` | v3.x/user/heaps/rt_agent.c:73-136 | if no guard is read while a drawn 0 stands in shm[0], then all along the schedule no two parties are in the buffer, every checksum test succeeds, and received is a prefix of written, equal to it when the receiver is told to end |
| `Relay.LeavesLast` | v3.x/user/heaps/rt_agent.c:73-136 | in such a run the agent leaves its loop only after the sender's last round |
| `Relay.AtomicChoiceIsCorrect` | v3.x/user/heaps/sender.c:61-93 | if the agent never runs between the two assignments to shm[0], every state of the run is correct |
| `RelayFailure.LeavesEarly` | v3.x/user/heaps/rt_agent.c:73-73 | a guard that reads a drawn 0 leaves the agent out of its loop with a round still to be written and nobody to pass it on |
| `RelayFailure.DoomedForEver` | v3.x/user/heaps/rt_agent.c:128-136 | from there the sender never finishes, whatever happens |
| `RelayFailure.UncleanBreaks` | v3.x/user/heaps/rt_agent.c:73-136 | every schedule that is not clean has a continuation in which the receiver is told to end with one written round unread |
| `RelayCompletion.EveryStepCounts` | v3.x/user/heaps/sender.c:61-93 | in a clean run every step that changes anything decreases a well-founded rank, so the relay cannot go round for ever |
| `RelayCompletion.Finish` | v3.x/user/heaps/receiver.c:54-80 | from every state of a clean run sender, agent and receiver can finish |
| `RelayCompletion.RelayCorrectIffClean` | v3.x/user/heaps/rt_agent.c:73-136 | a schedule is clean if and only if it can still be continued until all count rounds are written and received and all three have finished; along a clean schedule every state is correct |
| `RelayFailure.ZeroDrawEndsEarly` | v3.x/user/heaps/sender.c:71-73 | a schedule on which the receiver is told to end before a word was written |
| `RelayCompletion.NoDeadlock` | v3.x/user/heaps/receiver.c:54-85 | after a clean schedule some step changes the state until all three have finished |
| `RelayDraws.Reach` | v3.x/user/heaps/sender.c:61-87 | whatever is drawn, some schedule completes any number of the rounds |
| `RelayDraws.ZeroDrawFails` | v3.x/user/heaps/sender.c:71-73 | a zero drawn in any round lets some interleaving end the receiver with that round written and never read |
| `RelayDraws.CorrectIffNoZeroDraw` | v3.x/user/heaps/sender.c:61-93 | exclusive access, right checksums and delivery hold under every schedule if and only if no length drawn is 0 |
| `RelayRounds.RoundsAreDrawn` | v3.x/user/heaps/sender.c:71-79 | in every run a completed round is exactly the random words the sender was given for it, as many as drawn |
| `RelayRounds.RoundLengths` | v3.x/user/heaps/sender.c:71-73 | round k has the length drawn for it if that lies in 1..size, else size |
| `RelayMethods.SumRound` | v3.x/user/heaps/receiver.c:65-72 | the summing loop computes the sum of the round modulo 2^32 and accepts exactly complete rounds |
| `RelayMethods.FillWords` | v3.x/user/heaps/sender.c:74-78 | the loop writes the random words and sums them, touching nothing else |
| `RelayMethods.WriteRound` | v3.x/user/heaps/sender.c:71-79 | whatever is drawn, the sender leaves a complete round of the random words and does not touch the buffer beyond it |
| `RelayMethods.AgentTask.constructor` | v3.x/user/heaps/rt_agent.c:69-69 | the agent starts with op 4 and both semaphores 0 |
| `RelayMethods.AgentTask.Period` | v3.x/user/heaps/rt_agent.c:82-121 | the switch with its fall-through does one agent step, answers exactly the waiting rpc and reports exactly the incomplete rounds |
| `TscSync.EveryStampOnce` | v3.x/kern/tscsync/testscsync.c:53-97 | in every interleaving round i holds the i-th stamp, untorn, read by the master between that round's t0 and t1; no stamp is lost or reused |
| `TscSync.RunKeeps` | v3.x/kern/tscsync/testscsync.c:53-131 | the invariant of handshake, lock and 64-bit halves holds after every schedule |
| `TscClock.TimesAreRead` | v3.x/kern/tscsync/testscsync.c:81-97 | in every run round i lasts from the clock at which the slave read t0 in that iteration to the clock at which it read t1, and the stamps are the master's readings |
| `TscClock.TripsAreTimes` | v3.x/kern/tscsync/testscsync.c:94-94 | the trips compared are the cycles that passed in between |
| `TscSync.ChooseBest` | v3.x/kern/tscsync/testscsync.c:77-97 | the loop finds the first of the shortest round trips, or keeps its start values if none is shorter than 2^64 - 1 |
| `TscSync.GetDelta` | v3.x/kern/tscsync/testscsync.c:99-111 | round trip, master stamp and offset of that reading, filtered in wrapping longs unless tuning |
| `TscSync.Midpoint` | v3.x/kern/tscsync/testscsync.c:102-106 | halving first and adding the carry gives the midpoint without overflow |
| `TscSync.AsLongExact` | v3.x/kern/tscsync/testscsync.c:110-110 | the cast to long keeps the estimate exactly when it fits 32 bits |
| `TscSync.SmoothLongExact` | v3.x/kern/tscsync/testscsync.c:110-110 | computed in longs the filter is the intended one exactly when the weighted sum fits |
| `TscSync.SmoothOverflows` | v3.x/kern/tscsync/testscsync.c:110-110 | from offset 0 a measurement of 2^30 gives -214748364 instead of 214748364 |
| `TscSync.EstimateError` | v3.x/kern/tscsync/testscsync.c:99-108 | whatever the offset, one exchange misses it by at most (rt + 1) / 2 if the counter does not wrap around during it, and only then for trips below half the range |
| `TscSync.WrappedExchange` | v3.x/kern/tscsync/testscsync.c:102-108 | an exchange of two cycles across the wrap, with a stamp that is not 0, is half the range off |
| `TscCompletion.WrappedRun` | v3.x/kern/tscsync/testscsync.c:53-108 | such an exchange occurs in a run |
| `TscSync.BestRoundError` | v3.x/kern/tscsync/testscsync.c:53-108 | in every finished run the same holds of the best round, whose trip is the smallest seen |
| `TscSync.OffsetWithinHalfTrip` | v3.x/kern/tscsync/testscsync.c:53-112 | so the delta get_delta returns when tuning is within (rt + 1) / 2 of the true offset, rt being the smallest trip seen |
| `TscSync.SmoothBetween` | v3.x/kern/tscsync/testscsync.c:110-110 | each update lies between the old offset and the measurement |
| `TscSync.SmoothCloser` | v3.x/kern/tscsync/testscsync.c:110-110 | no update enlarges the distance and every one reduces it while it exceeds 4 |
| `TscSync.SmoothSettles` | v3.x/kern/tscsync/testscsync.c:110-110 | under a constant measurement the offset ends at most 4 away |
| `TscSync.FilterTracks` | v3.x/kern/tscsync/testscsync.c:110-110 | under any measurements between lo and hi the offset ends within 4 of that interval, after as many updates as it was away and after a logarithmic number of them |
| `TscSync.SmoothContracts` | v3.x/kern/tscsync/testscsync.c:110-110 | the excess of the distance over 4 shrinks to four fifths with each update |
| `TscSync.SettlesFast` | v3.x/kern/tscsync/testscsync.c:110-110 | so a logarithmic number of updates is enough to end at most 4 away |
| `TscSync.SettlesExactly` | v3.x/kern/tscsync/testscsync.c:110-110 | under a constant measurement d the offset ends at d if and only if d lies between 0 and the first offset |
| `TscSync.OffsetsSettle` | v3.x/kern/tscsync/testscsync.c:107-111 | repeated untuned measurements with trips below 2 e bring ofst[slave] within e + 4 of the true offset, after a logarithmic number of them |
| `TscCompletion.StarvedForEver` | v3.x/kern/tscsync/testscsync.c:85-89 | once a stamp reads 0 the slave never leaves its waiting loop |
| `TscCompletion.Finish` | v3.x/kern/tscsync/testscsync.c:53-97 | otherwise all iterations can be completed, from every state of every run |
| `TscCompletion.MeasuresIffNoZero` | v3.x/kern/tscsync/testscsync.c:53-131 | a run can be continued to the end of get_delta if and only if the call was not refused and no stamp so far reads 0 |
| `TscCompletion.ZeroStamp` | v3.x/kern/tscsync/testscsync.c:69-69 | a run in which the master reads 0 and that can never be finished |
| `TscSync.SmoothStopsShort` | v3.x/kern/tscsync/testscsync.c:110-110 | 4 is the best possible bound |
| `NamedTasks.TokenRing` | v3.x/kern/namedstuff/namedstuff.c:60-71 | for any n and r: one token, the log is a prefix of (0 1 ... n-1)^r and all of it once the last task left the loop, counters differ by at most one |
| `NamedTasks.Newlines` | v3.x/kern/namedstuff/namedstuff.c:65-69 | a newline ends each round of names, before the token is passed on |
| `NamedTasks.Barriers` | v3.x/kern/namedstuff/namedstuff.c:72-103 | no task passes a barrier before all tasks and the starter have reached it |
| `NamedTasks.SignalsNeverConfused` | v3.x/kern/namedstuff/namedstuff.c:123-170 | the starter's waits on sync_sem consume only task signals of their phase, the tasks' last waits only starter signals |
| `NamedTasks.TimedReceiveFindsNothing` | v3.x/kern/namedstuff/namedstuff.c:98-103 | mbx_in is empty whenever a task is at its timed receive |
| `NamedTasks.MailDelivered` | v3.x/kern/namedstuff/namedstuff.c:85-103 | every message sent to mbx_in reaches exactly one task, in order, and when the starter releases the tasks it has received each task's answer exactly once |
| `NamedTasks.MailboxesHaveRoom` | v3.x/kern/namedstuff/namedstuff.c:185-185 | neither mailbox ever holds more than n messages, and a send always finds room |
| `NamedTasks.RunKeepsUnits` | v3.x/kern/namedstuff/namedstuff.c:73-78 | the units of prio_sem plus first waits passed plus timed waits that succeeded are the signals given |
| `NamedCompletion.Pick` | v3.x/kern/namedstuff/namedstuff.c:55-170 | as long as no timed wait took a unit, the starter or some task can go on until all have completed |
| `NamedCompletion.CompletesIffNoneStolen` | v3.x/kern/namedstuff/namedstuff.c:72-108 | a run can be continued until the starter is done and every task complete if and only if no timed wait on prio_sem has succeeded |
| `NamedCompletion.StolenUnit` | v3.x/kern/namedstuff/namedstuff.c:78-78 | with two tasks or more some run lets a timed wait succeed and can then never be completed |
| `NamedTasks.RunKeeps` | v3.x/kern/namedstuff/namedstuff.c:55-176 | ring and phase invariants hold after every schedule |
| `TimerBench.NextRelease` | v3.x/user/benchrtdm/timerbench.c:92-103 | the next date is the least grid point after the old date that is not before the sampling instant |
| `TimerBench.ReleaseGrid` | v3.x/user/benchrtdm/timerbench.c:143-171 | over any run date = first date + period * (samples + overruns) |
| `TimerBench.HistoryFaithful` | v3.x/user/benchrtdm/timerbench.c:154-169 | the batches are the latenesses of all samples in order |
| `TimerBench.Bookkeeping` | v3.x/user/benchrtdm/timerbench.c:106-141 | exactly warmup_loops batches are discarded, the histograms hold and total the counted samples and batches, the overall extremes are those of all counted samples, clipped |
| `TimerBench.BumpPart` | v3.x/user/benchrtdm/timerbench.c:264-271 | counting in one of the three histograms of the block leaves the other two alone |
| `TimerBench.TallyCounts` | v3.x/user/benchrtdm/timerbench.c:62-69 | each bucket holds the number of values whose magnitude lies in its interval, the last one the larger ones too |
| `TimerBench.BucketInterval` | v3.x/user/benchrtdm/timerbench.c:66-68 | a value falls into bucket k exactly if its magnitude lies from k to k + 1 bucket sizes, or from k on for the last |
| `TimerBench.BumpCounts` | v3.x/user/benchrtdm/timerbench.c:62-69 | counting a value adds one to that bucket and nothing to the others |
| `TimerBench.Layout` | v3.x/user/benchrtdm/timerbench.c:265-271 | minima, maxima and samples lie one behind the other |
| `TimerBench.LastAndOverruns` | v3.x/user/benchrtdm/timerbench.c:114-125 | the overruns reported are those of all counted samples, the last result that of the last counted batch |
| `TimerBench.WarmupNeverEnds` | v3.x/user/benchrtdm/timerbench.c:129-133 | with one sample a second and warmup_loops 0 a completed batch is not counted |
| `TimerBench.TallyTotal` | v3.x/user/benchrtdm/timerbench.c:62-69 | a histogram totals the values it was given |
| `TimerBench.ExtremesOfBatches` | v3.x/user/benchrtdm/timerbench.c:114-120 | the extreme of the batch extremes is the extreme of all samples |
| `TimerBench.SlldivError` | v3.x/user/benchrtdm/timerbench.c:71-74 | the division errs by less than its divisor, for either sign |
| `TimerBench.BatchAverages` | v3.x/user/benchrtdm/timerbench.c:122-124 | what the truncated batch averages lose in all |
| `TimerBench.AverageBound` | v3.x/user/benchrtdm/timerbench.c:356-359 | after B counted batches of n samples the reported A keeps A n B within 2 n B - n - B of the sum of all samples, despite two truncations |
| `TimerBench.Bench.constructor` | v3.x/user/benchrtdm/timerbench.c:264-294 | the start of a measurement, first release one millisecond after the clock reading |
| `TimerBench.Bench.AddHistogram` | v3.x/user/benchrtdm/timerbench.c:62-69 | counts the value in its bucket of the given histogram and changes nothing else |
| `TimerBench.Bench.EvalInnerLoop` | v3.x/user/benchrtdm/timerbench.c:76-104 | in place, the sample step of the model |
| `TimerBench.Bench.CatchUp` | v3.x/user/benchrtdm/timerbench.c:99-103 | the overrun loop counts the overruns and moves the date by as many periods |
| `TimerBench.Bench.EvalOuterLoop` | v3.x/user/benchrtdm/timerbench.c:106-141 | in place, the end of a batch of the model |
| `TimerBench.Bench.TimerProc` | v3.x/user/benchrtdm/timerbench.c:179-191 | one pass of the handler is one sample of the model |
| `TimerBench.Bench.TimerTaskProc` | v3.x/user/benchrtdm/timerbench.c:151-170 | the two nested loops over any clock readings are the run of the model |
| `TimerBench.Bench.Stop` | v3.x/user/benchrtdm/timerbench.c:356-359 | leaves the average whose error is bounded, and nothing else changed |
| `Scrambler.XorBack` | v3.x/share/scrambler/scrambler.c:106-112 | exclusive or with the same number twice is the identity |
| `Scrambler.XorOfBits` | v3.x/share/scrambler/scrambler.c:106-112 | a bit of the result is set exactly if the two bits differ |
| `Scrambler.LongsCover` | v3.x/share/scrambler/scrambler.c:98-98 | a size takes just as many longs as hold it |
| `Scrambler.SumDiffers` | v3.x/share/scrambler/scrambler.c:117-127 | one changed word always changes the checksum |
| `Scrambler.ReplyRoundTrip` | v3.x/share/scrambler/scrambler.c:132-191 | for any key, payload and size a decoded reply has no checksum error, its size and every payload word |
| `Scrambler.RequestRoundTrip` | v3.x/share/scrambler/scrambler.c:172-260 | a request is restored likewise except word 4, which is rewritten unless it calls a function of the module |
| `Scrambler.PortRoundTrip` | v3.x/share/scrambler/scrambler.c:140-182 | a port message is restored up to its checksum word |
| `Scrambler.RpcOnTheNet` | v3.x/share/scrambler/scrambler.c:146-166 | payload, size and checksum go over the net xored with the key, nothing behind them is touched |
| `Scrambler.PortOnTheNet` | v3.x/share/scrambler/scrambler.c:140-166 | a port message likewise, its last word giving way to the checksum |
| `Scrambler.RpcDetection` | v3.x/share/scrambler/scrambler.c:178-191 | changing any one transmitted word of an rpc message, size and checksum included, is noticed |
| `Scrambler.PortDetection` | v3.x/share/scrambler/scrambler.c:178-191 | the same for port messages |
| `Scrambler.Codec.Memfrob` | v3.x/share/scrambler/scrambler.c:106-112 | in place, the first words xored with the key and the rest unchanged |
| `Scrambler.Codec.Chksum` | v3.x/share/scrambler/scrambler.c:117-127 | in place, the checksum behind the words, and what stood there before |
| `Scrambler.Codec.Encode` | v3.x/share/scrambler/scrambler.c:132-167 | in place, the encoded message of the round trips, its size, and the function index remembered |
| `Scrambler.Codec.Decode` | v3.x/share/scrambler/scrambler.c:172-261 | in place, the decoded message of the round trips, its size, and an error exactly for a damaged message |
| `NameId.Nam2Id` | v3.x/user/fusion/lxrt.h:381-404 | the loop computes the base-39 number of the first six characters plus 2 |
| `NameId.CodeIsPosition` | v3.x/user/fusion/lxrt.h:389-397 | a character's digit is its place in 0-9, a-z, _ from 1 on, case ignored, and 38 for all others |
| `NameId.SixCharacters` | v3.x/user/fusion/lxrt.h:386-401 | the id of six characters as a weighted sum of their digits plus 2 |
| `NameId.IdRange` | v3.x/user/fusion/lxrt.h:400-403 | ids of non-empty names lie in 3..39^6+1, fit 32 bits and never equal the id of the empty name |
| `NameId.SameId` | v3.x/user/fusion/lxrt.h:386-399 | two non-empty names share an id exactly when their first six characters agree after folding case and merging other symbols |
| `NameId.ValueInjective` | v3.x/user/fusion/lxrt.h:389-398 | the packing determines length and folded characters |
| `NextRand.Schrage` | v3.x/user/scb/params.h:9-25 | for every seed in 1..2^31-2 the result is 16807 seed mod 2^31-1, again a seed, and every intermediate fits 32 bits |
| `NextRand.Next` | v3.x/user/scb/params.h:16-24 | the code returns that value |
| `NextRand.NeverZero` | v3.x/user/scb/params.h:20-23 | no seed is mapped to 0 |
| `NextRand.StepInverse` | v3.x/user/scb/params.h:9-25 | a step can be undone, so the generator permutes its seeds |
| `NextRand.RunIsPower` | v3.x/user/scb/params.h:31-34 | along any run the seed is the first one times a power of 16807, modulo 2^31-1 |
| `NextRand.Generator.Randu` | v3.x/user/scb/params.h:28-36 | advances the static seed and returns a number below the range |

## Left out

- RTAI itself: priorities, priority inheritance, the scheduler, failing waits and deleted semaphores. Semaphores,
  mailboxes and messages are atomic steps; every interleaving is allowed, whatever the priorities.
- Real time and liveness: no claim depends on durations; a timeout may come at any moment. What is claimed is that
  the relay, the handshake and the named tasks can come to their end, not that a scheduler is fair.
- `clock.c`: the keyboard, writing and hiding tasks, pause and shutdown; the sleep of one hundredth per count.
- The message based clocks (`kern/msg_clock`, `user/msg_clock`): their status is read without any token.
- Relay: one agent period is one step, so the agent's reads of the buffer do not interleave with the others inside a period;
  the heap calls, displays and the wait for the other two tasks before the loop. Lengths drawn are not negative.
- `RelayMethods.AgentTask.Period`: the tail behind the loop (rt_agent.c:129-136) is in the step model (`AgentGo`) only.
- Time stamps: go[MASTER] only takes the values 0 and 1 and is written in one step; the correction by `ofst` in
  `readtsc` is part of the constant offset between the counters.
- `TscSync.EstimateError`: the "only then" is stated for round trips below 2^63 - 1 cycles; for a longer one the two halves of
  the circle meet and the wrapped estimate can be near by accident.
- `TscSync.OffsetsSettle`: asks for offsets and errors up to 214748364, the range in which the filter's sum fits a long.
- `TscSync.GetDelta`: a sum that does not fit a long wraps around, where C leaves it undefined.
- `NamedTasks`: modelled on values as a step relation, without a class, because its loops only make sense interleaved;
  printing sections are one step each, mailbox messages are whole (their number stands for the text); the failure
  branches of send and receive are not modelled, nor the order in which tasks pass the priority semaphore.
- Timer benchmark: the tracing branch, ioctl and copying, locking, allocation failure, overflow of `long` and
  `long long`; `period`, `samples_per_sec` and, with histograms, the bucket size are positive and `histogram_size` is not negative.
- Scrambler: the `reterr` table, the error function and the saved function pointer, and error handling that is commented
  out in the source; a long has 32 bits.
- `NextRand.Generator.Randu`: the floating point variant; `rtai_imuldiv` is taken as the exact product divided, rounded down.
- Latency tests, cyclictest and preempt keep minima, maxima and histograms as the timer benchmark does, in a simpler
  form; `user/rt_agent` is the relay again; `kern/netrpc` and `kern/hnetrpc` are the token ring across nodes.
- comedi, rtdm, rtnet and fifo programs mostly pass data to libraries that are not part of this model; the floating point
  examples are about rounding.
