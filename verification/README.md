# Verified models of the laptop bring-up code

The repository brings Linux up on an ARM64 laptop. Beside its notes it keeps the kernel code that decides
whether that works, and tools of its own. This project models the parts of that code that carry protocols and
round trips, and proves what they promise. Where a promise turns out to be false of the code, the code is kept,
the failing input is given, and the exact condition under which the promise holds is proved.

`dafny verify dfyconfig.toml` checks everything.

## What is modelled

**Deferred probing** (`ProbeLists`, `DeferredProbe`, `DeferredProbeSafety`, `DeferredProbeTheorems`,
`DeferredProbeSettles`, `DeferredProbeLeast`, `DeferredProbeTurns`, `DeferredProbeOutcome`, `DeferredProbeOrder`,
`DeferredProbeWalk`, `DeferredProbeWitnesses`, `DeferredWorker`). A step system interleaves any number of probing
threads, the trigger calls, the retry worker, the power-management thread that blocks probing, the late initcall,
match callbacks, detaching and the end of devices. A step is what the code does between two points where another
thread may get in: a critical section of deferred_probe_mutex, one atomic operation, or one read of a flag. A device
may match several drivers, each with suppliers of its own; the worker walks along the drivers and breaks off where the
source does. Pieces of history belong to the model and not to the code: the counter when a match callback missed its
supplier, which match-time deferrals put a device on a list and which of them came late, which deferrals there were
since a device was listed, and which have had no answer yet. The theorems are about every run from start-up.
`DeferredWorker` is the same code run by the worker alone, as a class, with termination and the least fixed point.

**EFI early console** (`Arith`, `EfiConsole`, `EfiScroll`, `EfiText`, `EfiChunks`, `EfiEarlycon`, `EfiSplit`).
`EfiConsole` is a reference console that takes one byte at a time; `EfiEarlycon` is the driver, drawing in place into a
two-dimensional framebuffer; `EfiScroll` compares scrolling by the longest recorded line with scrolling by the whole
text width; `EfiText` says what the screen shows, in terms of lines of text and the font.

**TLMM pin controller** (`RegBits`, `TlmmConfig`, `TlmmMux`, `TlmmRequests`, `TlmmIrq`, `TlmmIrqChip`,
`TlmmDualEdge`). Registers are 32 bits; a pin group is any layout of disjoint fields. Dual-edge arming runs against a
line that may change between any two register accesses.

**CPU frequency** (`CpufreqThrottle`, `CpufreqLut`). The throttle interrupt, its thread, the polling work and the
hotplug callbacks as a step system and as a class over its fields; the lookup table decoded in place.

**Bus references** (`BusRefs`), **init tables** (`Optional`, `InitEnv`, `InitTables`), **newc archives** (`Newc`,
`NewcWriters`), **LT8911EXB bridge** (`Lt8911`, `Lt8911Timing`).

## What is false of the code

- A device deferred by a match callback can be left pending with every supplier bound, because that path adds without
  looking at the counter again (`DeferredProbeWitnesses.MatchDeferralStrands`). It takes a splice between the
  callback's miss and its add: without one every pending device at rest misses a supplier
  (`DeferredProbeTheorems.EveryPendingWaits`).
- 2^32 triggers inside one probe defeat the re-check (`DeferredProbeWitnesses.WrappedCounterStrands`).
- device_block_probing can return while a callback runs, if it was entered through device_driver_attach
  (`DeferredProbeWitnesses.ManualAttachOutlivesBlock`).
- A device with several drivers can rest on the pending list although one of them would bind it: the others are tried
  only after the next splice (`DeferredProbeWitnesses.ReadyDriverNotTried`; exactly when, in
  `DeferredProbeOutcome.EveryScheduleBindsLeast`).
- The spare slot of the line-length ring is needed (`EfiScroll.SpareSlotNeeded`), and a write may not be split between
  a full line and its line feed (`EfiSplit.SplitHarmlessExactly`, `EfiSplit.PartedSplitFeedsTwice`).
- Pull up is not reported as requested on keeper hardware without an i2c pull bit, and a strong pull up is refused
  unless the pull field starts at bit 0 (`TlmmConfig.PullUpReadsBackExactly`,
  `TlmmConfig.StrongPullUpAcceptedExactly`).
- The relative polarity flip arms the wrong edge, for example, on a steady low line; exactly when it arms the right one
  is given for any line and any number of rounds (`TlmmIrq.BothArmsExactly`, `TlmmIrq.AckArmsExactly`).
- Taking a CPU offline while a poll is under way leaves its throttle interrupt disabled for good
  (`CpufreqThrottle.LossIsReached`, `CpufreqThrottle.CycleLosesExactly`, `CpufreqThrottle.LostForGood`).
- bind and unbind keep a reference when the bus is unregistered meanwhile (`BusRefs.Bus.BindOrUnbind`,
  `BusRefs.OvertakenAreLost`).
- An argument in the last usable slot survives init= (`InitTables.StaleArgumentSurvives`; the exact condition is in
  `InitTables.Tables.Parse`), and setting again a variable that stands in the last usable slot panics although it needs
  no room (`InitTables.SettingAgainPanics`).
- A chunked write across the bank selector does not read back (`Lt8911.ReadBackExactly`), and the two banks keep
  different sync widths (`Lt8911Timing.Bridge.ProgramAndDecode`).
- The comment above driver_probe_device says that only errors of the probe callback come back positive and lists the
  other results; a deferral by the device-link check or by a block comes back negative and so ends the walk along the
  drivers. The model follows the code.

## Model

| member | source | states |
|---|---|---|
| `DeferredProbeTheorems.NoLostDependency` | research/peripherals/initcall-debug/linux-driver-core-dd-v6.18.c:825-845 | in every interleaving whose probes do not span 2^32 triggers, once nothing is in flight, deferral is enabled and probing is not blocked: the active list is empty, and every (driver, device) pair whose probe or match callback deferred since the device was listed still misses a supplier; apart are only devices listed by match callbacks alone, each behind a splice since its miss |
| `DeferredProbeTheorems.NoLostDevice` | research/peripherals/initcall-debug/linux-driver-core-dd-v6.18.c:82-130 | in every interleaving, at rest, a device whose probe by some driver deferred and was answered neither by that driver, nor by a bind, nor by a retry that broke off, nor by the end of the device, is on the pending list |
| `DeferredProbeTheorems.ExemptOnlyLate` | research/peripherals/initcall-debug/linux-driver-core-dd-v6.18.c:933-941 | a run in which no match callback adds its device behind a counter that has moved since its miss leaves no device exempt |
| `DeferredProbeTheorems.EveryPendingWaits` | research/peripherals/initcall-debug/linux-driver-core-dd-v6.18.c:1177-1185 | in such a run every device that rests on the pending list misses a supplier, whether a probe or a match callback put it there |
| `DeferredProbeTheorems.ListsAndWorker` | research/peripherals/initcall-debug/linux-driver-core-dd-v6.18.c:133-155 | in every interleaving a device is on at most one deferral list, at most once; off both once driver_bound has deleted it (match-time deferral apart); and a nonempty active list has the worker up, work queued, or a trigger between its splice and queue_work |
| `DeferredProbeTheorems.BlockedMeansQuiet` | research/peripherals/initcall-debug/linux-driver-core-dd-v6.18.c:204-221 | from the return of device_block_probing until device_unblock_probing begins no callback is running, and nothing is being bound, except through device_driver_attach |
| `DeferredProbeTheorems.FlushReturnsExactly` | research/peripherals/initcall-debug/linux-driver-core-dd-v6.18.c:769-777 | from the moment probing is blocked, the wait for the work ends if and only if the work has come to its end once for the run going on then and once for the run queued then |
| `DeferredProbeTheorems.BlockWaitsForWork` | research/peripherals/initcall-debug/linux-driver-core-dd-v6.18.c:204-209 | so device_block_probing does not go on while a run of the work that was queued or going on is still to end |
| `DeferredProbeWalk.WalkGoesOnExactly` | research/peripherals/initcall-debug/linux-driver-core-dd-v6.18.c:922-961 | whatever happens meanwhile, a retry that drops the device lock leaves the walk its remaining drivers if the callback failed or deferred, and ends it if the device was bound, rejected, blocked, held back by a device link or given up around the callback |
| `DeferredProbeWalk.MatchDeferralEndsWalk` | research/peripherals/initcall-debug/linux-driver-core-dd-v6.18.c:929-941 | a match callback that defers ends the walk and lists its device |
| `DeferredProbeWalk.Freedoms` | research/peripherals/initcall-debug/linux-driver-core-dd-v6.18.c:825-845 | what is free to happen at any time: probing, attaching, detaching, the end of a device, a missed supplier in a match callback |
| `DeferredProbeWalk.BlockAndUnblock` | research/peripherals/initcall-debug/linux-driver-core-dd-v6.18.c:204-221 | blocking takes effect at once, and unblocking clears it and triggers a retry |
| `DeferredProbeWitnesses.MatchDeferralStrands` | research/peripherals/initcall-debug/linux-driver-core-dd-v6.18.c:1177-1185 | a run after which a device deferred at match time, behind a splice it has not seen, rests on the pending list with every supplier bound: the add has no re-check |
| `DeferredProbeWitnesses.ManualAttachOutlivesBlock` | research/peripherals/initcall-debug/linux-driver-core-dd-v6.18.c:1123-1137 | a run in which device_block_probing has returned while a callback entered through device_driver_attach is running |
| `DeferredProbeWitnesses.WrappedCounterStrands` | research/peripherals/initcall-debug/linux-driver-core-dd-v6.18.c:827-841 | a run of 2^32 triggers inside one probe after which the re-check sees no change and the device rests with every supplier bound: the counter assumption of NoLostDependency cannot be dropped |
| `DeferredProbeSettles.EveryScheduleServes` | research/peripherals/initcall-debug/linux-driver-core-dd-v6.18.c:82-197 | whatever has happened, let the threads under way run in any order until none can go on: then everything is at rest, the active list is empty, every driver whose probe deferred a device still pending misses a supplier, and no unanswered device is off the pending list |
| `DeferredProbeSettles.NoEndlessRetry` | research/peripherals/initcall-debug/linux-driver-core-dd-v6.18.c:825-845 | no schedule of the threads under way goes on for ever: an endless one has, again and again, a step that begins something new, so re-triggers wake each other only finitely often |
| `DeferredProbeSettles.SomeoneCanMove` | research/peripherals/initcall-debug/linux-driver-core-dd-v6.18.c:769-777 | no deadlock: in every reachable state in which something is in flight, some thread under way can take its next step without a callback failing; device_block_probing waits neither for a run of the work nor for a probe that waits for it |
| `DeferredProbeSettles.RestIsReached` | research/peripherals/initcall-debug/linux-driver-core-dd-v6.18.c:82-130 | from every reachable state with deferral enabled and probing not blocked the threads under way can come to rest by themselves |
| `DeferredProbeSettles.StepLowers` | research/peripherals/initcall-debug/linux-driver-core-dd-v6.18.c:82-197 | every step of a thread under way leaves less to come in a seven-fold lexicographic order: devices to bind, match deferrals, splices, active list, work asked for, drivers ahead, footwork |
| `DeferredProbeSettles.SpliceLowers` | research/peripherals/initcall-debug/linux-driver-core-dd-v6.18.c:186-197 | a splice uses up one of the splices to come, and can make at most one retry trigger again |
| `DeferredProbeSettles.CallMade` | research/peripherals/initcall-debug/linux-driver-core-dd-v6.18.c:835-841 | a trigger call counts for less than the attempt that was going to make it |
| `DeferredProbeOutcome.EveryScheduleBindsLeast` | research/peripherals/initcall-debug/linux-driver-core-dd-v6.18.c:82-130 | with any number of drivers per device and no detaching, removal, manual attach, match deferral or failing callback: every schedule of the threads under way, run until none can go on, ends with the least closed set bound over the devices in play if and only if, at the start, a splice is ahead, or a driver whose turn is to come has its suppliers bound, or nothing can be bound; otherwise it ends with nothing more bound |
| `DeferredProbeOutcome.OutcomeIsUnique` | research/peripherals/initcall-debug/linux-driver-core-dd-v6.18.c:82-130 | so any two schedules from one state end with the same devices bound, whatever the interleaving |
| `DeferredProbeOutcome.OneDriverBindsLeast` | research/peripherals/initcall-debug/linux-driver-core-dd-v6.18.c:82-130 | with one driver per device every schedule ends with the least closed set, with nothing asked of the state or of the device links |
| `DeferredProbeTurns.ComingAlong` | research/peripherals/initcall-debug/linux-driver-core-dd-v6.18.c:922-961 | no driver loses its turn: along any schedule without failures one that is still to be tried, or that deferred the device, stays so until the device is bound, also when a device link cuts the walk short |
| `DeferredProbeTurns.RetriedAlong` | research/peripherals/initcall-debug/linux-driver-core-dd-v6.18.c:186-197 | a splice or a bind gives every driver of every device in play its turn, and that lasts to the end of the schedule |
| `DeferredProbeTurns.FirstBound` | research/peripherals/initcall-debug/linux-driver-core-dd-v6.18.c:82-130 | when nobody is about to splice, the first device bound was ready at the start and its driver had its turn to come |
| `DeferredProbeTurns.CoveredBack` | research/peripherals/initcall-debug/linux-driver-core-dd-v6.18.c:98-130 | without a splice no step gives a driver a turn that it did not have to come |
| `DeferredProbeWitnesses.ReadyDriverNotTried` | research/peripherals/initcall-debug/linux-driver-core-dd-v6.18.c:1157-1219 | a reachable state in which a driver that needs nothing will never be tried, because only its rival is probing and nothing will splice |
| `DeferredProbeLeast.RunBelow` | research/peripherals/initcall-debug/linux-driver-core-dd-v6.18.c:605-728 | no schedule binds a device outside every closed set above what was bound |
| `DeferredProbeLeast.PairAlong` | research/peripherals/initcall-debug/linux-driver-core-dd-v6.18.c:825-845 | a device in play stays in hand along any schedule without failures until it is bound |
| `DeferredProbeOrder.FirstComeFirstServed` | research/peripherals/initcall-debug/linux-driver-core-dd-v6.18.c:133-197 | of two devices that stay listed the one listed first stays ahead of the other, through any triggers and whatever comes and goes |
| `DeferredProbeOrder.QueueStep` | research/peripherals/initcall-debug/linux-driver-core-dd-v6.18.c:98-197 | the active list followed by the pending list is one queue: every step leaves it, appends one device, deletes one device, or hands its head to the worker, and a splice leaves it as it is |
| `DeferredProbeSafety.FullAlong` | research/peripherals/initcall-debug/linux-driver-core-dd-v6.18.c:825-845 | all the invariants, the wake-up invariant included, hold along every run without a wrapped re-check |
| `DeferredProbeSafety.InvAlong` | research/peripherals/initcall-debug/linux-driver-core-dd-v6.18.c:133-197 | the list, worker, count, gate, asker, retry and owed-answer invariants hold along every run, wrapped or not |
| `DeferredProbeSafety.WakeStep` | research/peripherals/initcall-debug/linux-driver-core-dd-v6.18.c:835-841 | one step keeps: a pending pair misses a supplier or someone is going to splice; a deferring probe misses a supplier, or its snapshot is behind the counter, or someone is going to splice |
| `DeferredProbeSafety.WillSpliceStep` | research/peripherals/initcall-debug/linux-driver-core-dd-v6.18.c:176-197 | a splice that is coming stays coming until it happens: through the test of the enable flag, blocking, unblocking and the committed thread |
| `DeferredProbeSafety.CommittedMove` | research/peripherals/initcall-debug/linux-driver-core-dd-v6.18.c:835-841 | a thread that is bound, or has added its device behind a counter that moved, keeps its commitment or makes the trigger call |
| `DeferredProbeSafety.LateAdd` | research/peripherals/initcall-debug/linux-driver-core-dd-v6.18.c:835-841 | a device added after a trigger that its snapshot has not seen is going to be re-triggered |
| `DeferredProbeSafety.BoundStep` | research/peripherals/initcall-debug/linux-driver-core-dd-v6.18.c:399-419 | the only step that makes a supplier bound leaves its thread committed to a trigger |
| `DeferredProbeSafety.DeferringOrigin` | research/peripherals/initcall-debug/linux-driver-core-dd-v6.18.c:605-625 | a probe is deferring only because all probes are deferred, or a supplier its driver needs was not bound at that moment, and a splice meanwhile puts its snapshot behind the counter |
| `DeferredProbeSafety.WakePending` | research/peripherals/initcall-debug/linux-driver-core-dd-v6.18.c:133-144 | a pair that is pending and asked for after a step misses a supplier or is going to be spliced |
| `DeferredProbeSafety.MissStep` | research/peripherals/initcall-debug/linux-driver-core-dd-v6.18.c:933-941 | every step keeps: a match callback on its way to the pending list misses a supplier, or a splice has come since its miss, or one is coming |
| `DeferredProbeSafety.FlushStep` | research/peripherals/initcall-debug/linux-driver-core-dd-v6.18.c:769-777 | flush_work waits for no more runs of the work than there are |
| `DeferredProbeSafety.ListStep` | research/peripherals/initcall-debug/linux-driver-core-dd-v6.18.c:133-155 | every step keeps the two lists free of duplicates and disjoint, and a bound device on a list only while its driver_bound is about to delete it |
| `DeferredProbeSafety.WorkerStep` | research/peripherals/initcall-debug/linux-driver-core-dd-v6.18.c:186-197 | every step keeps someone coming for a nonempty active list |
| `DeferredProbeSafety.CountStep` | research/peripherals/initcall-debug/linux-driver-core-dd-v6.18.c:825-845 | probe_count is at every step the number of counted probes between their increment and their decrement |
| `DeferredProbeSafety.CountedAfter` | research/peripherals/initcall-debug/linux-driver-core-dd-v6.18.c:825-845 | a change of one attempt changes the number of counted probes by that attempt alone |
| `DeferredProbeSafety.GateStep` | research/peripherals/initcall-debug/linux-driver-core-dd-v6.18.c:204-221 | every step keeps: after the wait for probe_count to reach zero no counted probe is in its callback or in driver_bound while probing is blocked |
| `DeferredProbeSafety.AskedStep` | research/peripherals/initcall-debug/linux-driver-core-dd-v6.18.c:133-155 | every step keeps: a listed device that no match callback put there has a driver whose probe deferred it, and only listed devices have one |
| `DeferredProbeSafety.RetryStep` | research/peripherals/initcall-debug/linux-driver-core-dd-v6.18.c:98-129 | a retry in progress belongs to the worker and to the device the worker has popped |
| `DeferredProbeSafety.OwedStep` | research/peripherals/initcall-debug/linux-driver-core-dd-v6.18.c:82-130 | every step keeps: a deferral that has had no answer is in hand, because its device is listed, or its driver is still ahead in the worker's walk, or is being probed |
| `DeferredProbeSafety.PairWork` | research/peripherals/initcall-debug/linux-driver-core-dd-v6.18.c:98-129 | popping a device hands every driver that owes it an answer to the walk, and the walk drops none of them unanswered |
| `DeferredProbeSafety.TriggersKept` | research/peripherals/initcall-debug/linux-driver-core-dd-v6.18.c:176-197 | a probing thread leaves every trigger call in progress where it is |
| `DeferredWorker.LeastIsUnique` | research/peripherals/initcall-debug/linux-driver-core-dd-v6.18.c:82-130 | the least set closed under "all suppliers bound" is unique, so the result of the worker does not depend on list order |
| `DeferredWorker.Core.Add` | research/peripherals/initcall-debug/linux-driver-core-dd-v6.18.c:133-144 | any device, appended at the tail unless listed already |
| `DeferredWorker.Core.Del` | research/peripherals/initcall-debug/linux-driver-core-dd-v6.18.c:146-155 | removed from whichever list it is on, the order of the others kept |
| `DeferredWorker.Core.Trigger` | research/peripherals/initcall-debug/linux-driver-core-dd-v6.18.c:176-197 | splices pending behind active, counts in 32 bits and queues the work, or does nothing while deferral is disabled |
| `DeferredWorker.Core.ProbeDevice` | research/peripherals/initcall-debug/linux-driver-core-dd-v6.18.c:825-845 | for any device at any time: binds exactly when it is not bound, nothing is blocked, all suppliers are bound and the callback succeeds, and then leaves both lists and triggers; a missing supplier or a block puts an unlisted device on the pending list; a bound device changes nothing |
| `DeferredWorker.Core.WorkFunc` | research/peripherals/initcall-debug/linux-driver-core-dd-v6.18.c:82-130 | from any lists, run alone, the retry loop terminates; it binds the least closed set over the listed devices and leaves pending exactly what misses a supplier if it binds anything or nothing pending was ready, and otherwise nothing active could be bound; while probing is blocked everything unbound is deferred again |
| `DeferredWorker.Core.RetryFirst` | research/peripherals/initcall-debug/linux-driver-core-dd-v6.18.c:98-128 | one round keeps all of that true so far, and binds something or shortens the active list |
| `DeferredWorker.Core.EnableAndFlush` | research/peripherals/initcall-debug/linux-driver-core-dd-v6.18.c:345-375 | enabling deferral and flushing the work binds the least closed set over everything listed, whatever was ready before |
| `ProbeLists.NoDupConcat` | research/peripherals/initcall-debug/linux-driver-core-dd-v6.18.c:133-155 | one place on one list is the same as no repetition in the two lists laid end to end |
| `ProbeLists.WithoutKeepsNoDup` | research/peripherals/initcall-debug/linux-driver-core-dd-v6.18.c:146-155 | deletion keeps the lists free of duplicates |
| `EfiScroll.PartialScrollIsFullScroll` | research/linux-efi-earlycon.c:89-122 | from setup on, whatever the firmware left on screen and whatever is written, the console that copies only the longest recorded line equals, in every pixel and in all its state, one that copies the whole text width |
| `EfiText.ScreenShowsText` | research/linux-efi-earlycon.c:124-217 | after setup and any writes the text rows show the last lines of the text, the newest at the bottom, pixel by pixel as the font draws them and black behind their ends |
| `EfiText.PutShows` | research/linux-efi-earlycon.c:147-217 | one write: what is typed line by line is what the screen shows afterwards, full lines and swallowed line feeds included |
| `EfiText.FeedShows` | research/linux-efi-earlycon.c:204-215 | ending a line moves every line up one text row and leaves the last row black |
| `EfiText.DrawShows` | research/linux-efi-earlycon.c:166-184 | a glyph appears in its own columns of the last text row and nowhere else |
| `EfiText.GlyphLit` | research/linux-efi-earlycon.c:124-145 | a pixel of a glyph is white if and only if its bit is set in the font, glyphs in order, scanlines of whole bytes, the most significant bit leftmost |
| `EfiScroll.SpareSlotNeeded` | research/linux-efi-earlycon.c:259-269 | with one ring slot per text row and none to spare two line feeds leave firmware pixels behind |
| `EfiScroll.PutAgrees` | research/linux-efi-earlycon.c:147-217 | one write keeps the two consoles equal and the black parts of every row recorded |
| `EfiScroll.FeedAgrees` | research/linux-efi-earlycon.c:89-122 | one line feed copies enough: partial and full scroll give the same framebuffer |
| `EfiScroll.WidthCovers` | research/linux-efi-earlycon.c:96-101 | the copied width is the whole text width while the ring still holds setup values, and later at least the extent of every row on screen |
| `EfiScroll.PartialCopyIsWhole` | research/linux-efi-earlycon.c:106-121 | a scanline that is black from the copied width on moves whole |
| `EfiScroll.ExtentMoves` | research/linux-efi-earlycon.c:204-215 | a feed moves every row's recorded extent up with the row |
| `EfiScroll.FeedClean` | research/linux-efi-earlycon.c:204-215 | after a feed every row is black from its recorded extent on |
| `EfiScroll.DrawClean` | research/linux-efi-earlycon.c:124-145 | a glyph stays inside the extent of the last row |
| `EfiConsole.PutReady` | research/linux-efi-earlycon.c:147-217 | after every byte the cursor is a multiple of the font width with room for one glyph on the last text row |
| `EfiConsole.Longest` | research/linux-efi-earlycon.c:96-101 | an upper bound of the recorded lengths that one of them attains |
| `EfiConsole.TextFits` | research/linux-efi-earlycon.c:259-267 | the last text row lies inside the framebuffer, less than a text row above its bottom, and at least one glyph fits a line |
| `EfiChunks.RoundIsPut` | research/linux-efi-earlycon.c:158-216 | a round of the write loop, on a run of bytes, does what a console that takes the same bytes one at a time does, and consumes at least one |
| `EfiChunks.DrawRunScanline` | research/linux-efi-earlycon.c:166-184 | drawing scanline by scanline across a run leaves what drawing glyph by glyph leaves |
| `EfiChunks.PutFullLine` | research/linux-efi-earlycon.c:186-202 | a run that fills the line ends it and takes the line feed right behind it along |
| `EfiChunks.PutRun` | research/linux-efi-earlycon.c:158-188 | a run that leaves room for a glyph can be drawn at once |
| `EfiEarlycon.Earlycon.Write` | research/linux-efi-earlycon.c:147-217 | terminates, consumes every byte, stays inside framebuffer and ring, and leaves the console the byte-at-a-time reference leaves; at each loop head the cursor is on the last row, at a multiple of the font width, with room for a glyph |
| `EfiEarlycon.Earlycon.WriteRun` | research/linux-efi-earlycon.c:158-216 | one round of the loop, equal to the reference round |
| `EfiEarlycon.Earlycon.EndLine` | research/linux-efi-earlycon.c:204-215 | the length is recorded, the ring advanced, the screen scrolled and the last row cleared, as the reference line feed does |
| `EfiEarlycon.Earlycon.ScrollUp` | research/linux-efi-earlycon.c:89-122 | in place and upwards, each scanline copied before it is overwritten: the framebuffer is the scrolled old framebuffer |
| `EfiEarlycon.Earlycon.LongestBytes` | research/linux-efi-earlycon.c:96-101 | a byte count in 16 bits that never wraps: four times the longest recorded length |
| `EfiEarlycon.Earlycon.CopyScanline` | research/linux-efi-earlycon.c:106-121 | the first pixels of one scanline copied to another, every other pixel kept |
| `EfiEarlycon.Earlycon.ClearScanline` | research/linux-efi-earlycon.c:75-87 | one scanline black, the others kept |
| `EfiEarlycon.Earlycon.WriteChar` | research/linux-efi-earlycon.c:124-145 | one scanline of a glyph, bit by bit from the font, and no other pixel |
| `EfiEarlycon.Earlycon.DrawScanline` | research/linux-efi-earlycon.c:166-184 | the glyphs of a run side by side on one scanline |
| `EfiEarlycon.Earlycon.DrawText` | research/linux-efi-earlycon.c:166-184 | all scanlines of a run: what drawing glyph by glyph leaves |
| `EfiEarlycon.Earlycon.ClearText` | research/linux-efi-earlycon.c:213-214 | the scanlines of the last text row black |
| `EfiEarlycon.Earlycon.Setup` | research/linux-efi-earlycon.c:227-274 | refuses anything but a 32-bit EFI framebuffer with a font for it and leaves it untouched; otherwise the ring is full of the text width and the firmware's picture has moved up one text row |
| `EfiEarlycon.RunLength` | research/linux-efi-earlycon.c:162-164 | the bytes before the next line feed, or all that are left |
| `EfiEarlycon.SetupNumbers` | research/linux-efi-earlycon.c:259-269 | the divisions of setup give the text width, the last row, the number of rows and exactly one scroll |
| `EfiSplit.SplitHarmlessExactly` | research/linux-efi-earlycon.c:190-202 | two writes do what one write of the joined text does if and only if the split does not part a full line from the line feed behind it |
| `EfiSplit.PartedSplitFeedsTwice` | research/linux-efi-earlycon.c:190-202 | a glyph that fills the line in one write and its line feed in the next: the two writes do not do what one does |
| `EfiSplit.SplitAgrees` | research/linux-efi-earlycon.c:147-217 | what two writes do in both cases: the parted line feed feeds a second time |
| `TlmmConfig.LastRequestReadsBack` | research/peripherals/tlmm-reserved/pinctrl-msm-v6.18.c:409-533 | after any list of mux and configuration requests each field holds what the last request that succeeded on it wrote, and a field no request wrote holds what it held at the start |
| `TlmmConfig.ServeField` | research/peripherals/tlmm-reserved/pinctrl-msm-v6.18.c:409-533 | a request changes the field it writes, to the value it writes, and no other field |
| `TlmmConfig.ReadBack` | research/peripherals/tlmm-reserved/pinctrl-msm-v6.18.c:323-407 | no bias, pull down, bus hold and drive strength are reported as they were last requested |
| `TlmmConfig.MuxReadsBack` | research/peripherals/tlmm-reserved/pinctrl-msm-v6.18.c:169-228 | the mux field reads as the index of the last function selected |
| `TlmmConfig.PullUpReadsBackExactly` | research/peripherals/tlmm-reserved/pinctrl-msm-v6.18.c:369-378 | pull up is reported as requested if and only if the hardware has no keepers or the group has an i2c pull bit |
| `TlmmConfig.PullDownReportedAsPullUp` | research/peripherals/tlmm-reserved/pinctrl-msm-v6.18.c:369-378 | without an i2c pull bit a pulled-down pin is reported as strongly pulled up |
| `TlmmConfig.StrongPullUpAcceptedExactly` | research/peripherals/tlmm-reserved/pinctrl-msm-v6.18.c:425-532 | the strong pull up is accepted if and only if the pull field starts at bit 0, because the mask is shifted and the argument is not |
| `TlmmConfig.DriveReadsBack` | research/peripherals/tlmm-reserved/pinctrl-msm-v6.18.c:318-321 | the drive strengths 2, 4, .. 16 survive the conversion both ways; the all-ones value of a refused one fails the range check |
| `TlmmConfig.Order` | research/peripherals/tlmm-reserved/pinctrl-msm-v6.18.c:154-228 | the least width whose power of two covers the number of functions |
| `TlmmRequests.AcceptedExactly` | research/peripherals/tlmm-reserved/pinctrl-msm-v6.18.c:425-532 | which requests are accepted, and which of the two errors the others get |
| `TlmmRequests.OthersKept` | research/peripherals/tlmm-reserved/pinctrl-msm-v6.18.c:503-533 | a request touches the control bits it concerns and no others, and a refused one none |
| `TlmmRequests.BiasBits` | research/peripherals/tlmm-reserved/pinctrl-msm-v6.18.c:434-455 | the two pull bits and the i2c bit after each bias request |
| `TlmmRequests.DriveBits` | research/peripherals/tlmm-reserved/pinctrl-msm-v6.18.c:456-465 | the drive field after a drive strength, in steps of two from zero |
| `TlmmRequests.SingleBits` | research/peripherals/tlmm-reserved/pinctrl-msm-v6.18.c:459-502 | open drain is set; the output bit is set by a level or an enabled output and cleared by an input or a disabled one |
| `TlmmRequests.LevelBits` | research/peripherals/tlmm-reserved/pinctrl-msm-v6.18.c:466-479 | the level asked for is driven, and no other request touches the data register |
| `TlmmRequests.QueryBits` | research/peripherals/tlmm-reserved/pinctrl-msm-v6.18.c:323-407 | what the bits must be for each query to be answered, and the answer |
| `TlmmRequests.PullUpQuery` | research/peripherals/tlmm-reserved/pinctrl-msm-v6.18.c:369-378 | the pull-up query on hardware with keepers, bit by bit |
| `TlmmRequests.OutputFollowsLastLevel` | research/peripherals/tlmm-reserved/pinctrl-msm-v6.18.c:466-479 | over any list of requests the output bit is what the last level request asked for |
| `TlmmRequests.OutputEnabledAsAsked` | research/peripherals/tlmm-reserved/pinctrl-msm-v6.18.c:480-502 | over any list the output is enabled exactly as the last request about it asked |
| `TlmmRequests.OpenDrainStays` | research/peripherals/tlmm-reserved/pinctrl-msm-v6.18.c:456-458 | open drain is on if and only if it was or some request asked for it: nothing takes it back |
| `TlmmRequests.MuxBits` | research/peripherals/tlmm-reserved/pinctrl-msm-v6.18.c:212-229 | the mux field and the egpio enable bit after a change to any function, and every other bit kept |
| `RegBits.FieldOfWithField` | research/peripherals/tlmm-reserved/pinctrl-msm-v6.18.c:518-529 | a value inside a mask written into a field reads back |
| `RegBits.OtherFieldKept` | research/peripherals/tlmm-reserved/pinctrl-msm-v6.18.c:518-529 | writing a field keeps every field apart from it |
| `RegBits.ValueOfDigits` | research/peripherals/tlmm-reserved/pinctrl-msm-v6.18.c:318-321 | a number written at a bit position reads back as that number |
| `TlmmMux.MuxBalance` | research/peripherals/tlmm-reserved/pinctrl-msm-v6.18.c:190-244 | over any mux changes and interrupt mappings set_mux has disabled an interrupt once more than it has enabled it exactly while its disabled_for_mux bit is set, and equally often otherwise |
| `TlmmMux.StaleStateCleared` | research/peripherals/tlmm-reserved/pinctrl-msm-v6.18.c:232-244 | every re-enable comes right behind a clearing of that interrupt's pending state |
| `TlmmMux.NoGlitch` | research/peripherals/tlmm-reserved/pinctrl-msm-v6.18.c:198-215 | a driving pin that becomes a gpio goes on driving the level read on it, and only the output bit changes |
| `TlmmMux.MuxKeepsLevel` | research/peripherals/tlmm-reserved/pinctrl-msm-v6.18.c:191-211 | a driving pin that becomes a gpio for the first time goes on driving the level read on it, and no other mux change touches the data register |
| `TlmmMux.SetAllServes` | research/peripherals/tlmm-reserved/pinctrl-msm-v6.18.c:409-533 | a configuration call is a run of the single requests before its first failure |
| `TlmmMux.Controller.SetMux` | research/peripherals/tlmm-reserved/pinctrl-msm-v6.18.c:154-247 | an unknown function changes nothing; a known one writes the pin's registers, notes the first gpio use, and disables or clears and re-enables the interrupt, in step with the bitmap |
| `TlmmMux.Controller.WriteMux` | research/peripherals/tlmm-reserved/pinctrl-msm-v6.18.c:194-230 | the register half, other pins untouched |
| `TlmmMux.Controller.MuxAway` | research/peripherals/tlmm-reserved/pinctrl-msm-v6.18.c:190-192 | disables only on the first step away |
| `TlmmMux.Controller.MuxBack` | research/peripherals/tlmm-reserved/pinctrl-msm-v6.18.c:232-244 | clears, then enables, only if this driver had disabled |
| `TlmmMux.Controller.ConfigGroupSet` | research/peripherals/tlmm-reserved/pinctrl-msm-v6.18.c:409-533 | the configurations in order up to the first that fails, on one pin only |
| `TlmmMux.Controller.ConfigGroupGet` | research/peripherals/tlmm-reserved/pinctrl-msm-v6.18.c:323-407 | a line the chip does not expose is an error, any other query reports the field |
| `TlmmMux.FindFunction` | research/peripherals/tlmm-reserved/pinctrl-msm-v6.18.c:172-178 | the first position of the function in the group's list, or its length |
| `TlmmIrq.AgreesExactly` | research/peripherals/tlmm-reserved/pinctrl-msm-v6.18.c:797-897 | after any run of interrupt operations enabled_irqs agrees with a pin's enable bit if and only if it did at the start or the run masked or unmasked that pin |
| `TlmmIrq.BitmapScanIsRegisterScan` | research/peripherals/tlmm-reserved/pinctrl-msm-v6.18.c:1303-1333 | from clear enable bits, after any run, a scan of the bitmap with the status bits finds exactly the pins whose enable and status bits are set |
| `TlmmIrq.OpAgrees` | research/peripherals/tlmm-reserved/pinctrl-msm-v6.18.c:821-897 | which operations make bitmap and register agree, and that no other changes whether they do |
| `TlmmIrq.OwnPin` | research/peripherals/tlmm-reserved/pinctrl-msm-v6.18.c:797-1176 | an operation leaves every other pin's registers, status and bitmap bit alone |
| `TlmmIrq.LatchedExactly` | research/peripherals/tlmm-reserved/pinctrl-msm-v6.18.c:973-996 | after any run of operations a status bit is set if and only if it was set at the start or latched in the run and nothing has dropped that since: no acknowledgement and no type that changes the configuration |
| `TlmmIrq.AckedIsNotFound` | research/peripherals/tlmm-reserved/pinctrl-msm-v6.18.c:973-996 | a pin that has been acknowledged and has not latched since is not found again, whatever else has been done |
| `TlmmIrq.MaskBits` | research/peripherals/tlmm-reserved/pinctrl-msm-v6.18.c:821-897 | the bits and the bitmap after masking and after unmasking |
| `TlmmIrq.EnabledAsLast` | research/peripherals/tlmm-reserved/pinctrl-msm-v6.18.c:821-897 | after any run an interrupt is enabled, in the register and in the bitmap, exactly as the last mask or unmask of it left it |
| `TlmmIrq.DualAsLast` | research/peripherals/tlmm-reserved/pinctrl-msm-v6.18.c:1046-1071 | after any run a pin is in dual_edge_irqs if and only if the last type asked of it was both edges and its hardware, or its parent, sees one edge at a time |
| `TlmmIrq.WakeBits` | research/peripherals/tlmm-reserved/pinctrl-msm-v6.18.c:1195-1270 | the wakeup bit follows the request where the pin has one and its parent handles it |
| `TlmmIrq.TypesTellApart` | research/peripherals/tlmm-reserved/pinctrl-msm-v6.18.c:1105-1153 | two trigger types configure the hardware alike exactly when both are the low level or, on one-edge hardware, both arm the rising edge |
| `TlmmIrq.TypedBits` | research/peripherals/tlmm-reserved/pinctrl-msm-v6.18.c:1105-1153 | detection, polarity and raw status bits as the type asks, every other bit as before |
| `TlmmIrq.BothArmsExactly` | research/peripherals/tlmm-reserved/pinctrl-msm-v6.18.c:797-819 | asking for both edges on one-edge hardware, for any readings in any number of rounds up to the loop limit: the edge away from the level last read is armed if and only if the line was high at first, corrected by the parity of changes between rounds and by a change in the last round |
| `TlmmIrq.AckArmsExactly` | research/peripherals/tlmm-reserved/pinctrl-msm-v6.18.c:973-996 | the same for an acknowledgement, against the edge armed before |
| `TlmmIrq.FlipArms` | research/peripherals/tlmm-reserved/pinctrl-msm-v6.18.c:797-819 | the parity argument for any register: what the whole loop of flips leaves armed against the level last read |
| `TlmmIrq.LastLevel` | research/peripherals/tlmm-reserved/pinctrl-msm-v6.18.c:797-819 | the level last read in terms of the first, the number of rounds and the changes no round saw |
| `TlmmIrq.BothOnWatchedLine` | research/peripherals/tlmm-reserved/pinctrl-msm-v6.18.c:797-819 | when the rounds see every change and the last sees the line hold still, both edges arm the right one if and only if the line was high at first, after any number of rounds |
| `TlmmIrq.AckOnWatchedLine` | research/peripherals/tlmm-reserved/pinctrl-msm-v6.18.c:973-996 | then an acknowledgement re-arms the right edge if and only if the edge armed before led to the first level |
| `TlmmIrq.BothOnSteadyLine` | research/peripherals/tlmm-reserved/pinctrl-msm-v6.18.c:797-819 | on a line that holds still both edges arm the right one if and only if it is high |
| `TlmmIrq.AckOnSteadyLine` | research/peripherals/tlmm-reserved/pinctrl-msm-v6.18.c:973-996 | on a line that holds still an acknowledged edge re-arms the right one if and only if the edge armed before led to its level |
| `TlmmIrq.FlippedBits` | research/peripherals/tlmm-reserved/pinctrl-msm-v6.18.c:797-819 | any number of flips changes the polarity bit by parity and nothing else |
| `TlmmIrqChip.IrqChip.Handler` | research/peripherals/tlmm-reserved/pinctrl-msm-v6.18.c:1303-1333 | while any pins latch, are masked, unmasked, retyped or acknowledged around and between the visits: dispatches once each and in order exactly the pins whose enable bit is set when the scan reaches them and whose status bit is set when it is read, and reports a bad interrupt when there are none |
| `TlmmIrqChip.FoundOnEntry` | research/peripherals/tlmm-reserved/pinctrl-msm-v6.18.c:1303-1333 | if flow handlers keep to their own pins and nothing else happens, those are exactly the pins enabled and latched on entry |
| `TlmmIrqChip.IrqChip.VisitPin` | research/peripherals/tlmm-reserved/pinctrl-msm-v6.18.c:1319-1326 | one round of the scan: found exactly if enabled at the bitmap test and latched at the status read |
| `TlmmIrqChip.IrqChip.MaskIrq` | research/peripherals/tlmm-reserved/pinctrl-msm-v6.18.c:821-869 | the enable bit, the raw bit for a level interrupt and the bitmap move together |
| `TlmmIrqChip.IrqChip.UnmaskIrq` | research/peripherals/tlmm-reserved/pinctrl-msm-v6.18.c:871-897 | raw and enable bit set, bitmap bit set |
| `TlmmIrqChip.IrqChip.UpdateDualEdgePos` | research/peripherals/tlmm-reserved/pinctrl-msm-v6.18.c:797-819 | the polarity is flipped until the line holds still or an edge is caught, at most 101 times |
| `TlmmIrqChip.IrqChip.AckIrq` | research/peripherals/tlmm-reserved/pinctrl-msm-v6.18.c:973-996 | the status is cleared and a dual-edge pin primed again |
| `TlmmIrqChip.IrqChip.SetTypeIrq` | research/peripherals/tlmm-reserved/pinctrl-msm-v6.18.c:1036-1176 | the registers and bitmaps of the type, the stale status cleared where the source clears it, a dual edge primed; the parent asked for the type unless it needs the workaround; the interrupt routed to the application processor unless the parent handles the pin or the secure call fails; and the flow handler that fits the type and who handles the pin |
| `TlmmIrq.RoutedReads` | research/peripherals/tlmm-reserved/pinctrl-msm-v6.18.c:1073-1098 | the target field reads as the application processor and fields apart from it as before |
| `TlmmIrq.RoutedBits` | research/peripherals/tlmm-reserved/pinctrl-msm-v6.18.c:1073-1098 | the target bits one by one, three of them where the group gives no width |
| `TlmmIrqChip.FlowMeans` | research/peripherals/tlmm-reserved/pinctrl-msm-v6.18.c:1046-1175 | which flow handler each type and each way of handling the pin gets |
| `TlmmIrqChip.VisitMeans` | research/peripherals/tlmm-reserved/pinctrl-msm-v6.18.c:1303-1333 | a flow handler runs only for a pin whose enable bit and then whose status bit were read as set |
| `TlmmIrqChip.IrqChip.SetWakeup` | research/peripherals/tlmm-reserved/pinctrl-msm-v6.18.c:1195-1278 | the wakeup bit on request and release, nothing else |
| `TlmmIrqChip.IrqChip.PerformAll` | research/peripherals/tlmm-reserved/pinctrl-msm-v6.18.c:1303-1333 | any stretch of operations on any pins keeps the bitmap equal to the enable bits |
| `TlmmIrqChip.RunOwnPin` | research/peripherals/tlmm-reserved/pinctrl-msm-v6.18.c:1303-1333 | a whole run on one pin leaves every other pin alone |
| `TlmmDualEdge.UpdateDualEdgeParent` | research/peripherals/tlmm-reserved/pinctrl-msm-v6.18.c:936-971 | for any line and any timing of the register steps: succeeds exactly when two successive reads within the loop limit agree, and then the armed edge is the one away from the level last read, so every later first change is caught; otherwise the wrong edge is armed |
| `TlmmDualEdge.CompleteExactly` | research/peripherals/tlmm-reserved/pinctrl-msm-v6.18.c:936-971 | an armed edge catches every next change if and only if it leads away from the present level, or the line never changes again |
| `TlmmDualEdge.EdgeMeans` | research/peripherals/tlmm-reserved/pinctrl-msm-v6.18.c:938-971 | which change of the line is which edge |
| `CpufreqThrottle.BatonHeldOnce` | research/peripherals/cpufreq-probe/qcom-cpufreq-hw-v6.18.c:326-398 | in every run, while the CPU is up, exactly one of interrupt enabled, handler on its way, poll queued, poll undecided holds unless the baton is lost, and lost means disabled with nobody to enable it |
| `CpufreqThrottle.EpochKeepsBaton` | research/peripherals/cpufreq-probe/qcom-cpufreq-hw-v6.18.c:326-398 | an up epoch that begins with the baton keeps it to its end |
| `CpufreqThrottle.EnabledExactly` | research/peripherals/cpufreq-probe/qcom-cpufreq-hw-v6.18.c:326-398 | inside an up epoch the interrupt is enabled if and only if a poll that found the requested frequency allowed came after the last time its thread disabled it |
| `CpufreqThrottle.PollsOnExactly` | research/peripherals/cpufreq-probe/qcom-cpufreq-hw-v6.18.c:355-372 | a poll goes on polling, with the interrupt disabled, if and only if the hardware allows less than was requested |
| `CpufreqThrottle.ReadyEnablesExactly` | research/peripherals/cpufreq-probe/qcom-cpufreq-hw-v6.18.c:584-590 | ready enables the interrupt if and only if no earlier baton was lost and nothing of an earlier epoch is under way |
| `CpufreqThrottle.LostExactly` | research/peripherals/cpufreq-probe/qcom-cpufreq-hw-v6.18.c:486-502 | the baton is lost exactly by dropping a poll while cancel_throttle is set |
| `CpufreqThrottle.LostForGood` | research/peripherals/cpufreq-probe/qcom-cpufreq-hw-v6.18.c:465-502 | once lost, through any number of later epochs, the interrupt is never enabled and nothing polls |
| `CpufreqThrottle.CycleLosesExactly` | research/peripherals/cpufreq-probe/qcom-cpufreq-hw-v6.18.c:465-502 | over a whole way down and up, in any interleaving: the next epoch is without interrupt for good if and only if a poll or interrupt thread was under way when offline began or the interrupt fired on the way down, and it was over before online |
| `CpufreqThrottle.CancelledLosesExactly` | research/peripherals/cpufreq-probe/qcom-cpufreq-hw-v6.18.c:486-502 | the same at every moment between the setting of cancel_throttle and the next online |
| `CpufreqThrottle.OfflineWhilePollingLosesBaton` | research/peripherals/cpufreq-probe/qcom-cpufreq-hw-v6.18.c:486-502 | the shortest such cycle from an idle handler loses the baton if and only if a poll was queued |
| `CpufreqThrottle.LossIsReached` | research/peripherals/cpufreq-probe/qcom-cpufreq-hw-v6.18.c:465-502 | a run from initialisation after which the CPU is up, the baton is lost, and whatever follows the interrupt is never enabled |
| `CpufreqThrottle.QuietWhileCancelled` | research/peripherals/cpufreq-probe/qcom-cpufreq-hw-v6.18.c:486-502 | from offline setting cancel until online clears it no poll enables the interrupt or queues itself |
| `CpufreqThrottle.Throttle.Notify` | research/peripherals/cpufreq-probe/qcom-cpufreq-hw-v6.18.c:326-375 | the decision of a poll: queue again, or enable the interrupt its own disable left, or neither when cancelled |
| `CpufreqThrottle.Throttle.HandleIrq` | research/peripherals/cpufreq-probe/qcom-cpufreq-hw-v6.18.c:385-398 | disable, then hand the baton to the poll |
| `CpufreqThrottle.Throttle.GoOnline` | research/peripherals/cpufreq-probe/qcom-cpufreq-hw-v6.18.c:465-484 | clears cancel_throttle, keeping the invariant |
| `CpufreqThrottle.Throttle.GoOffline` | research/peripherals/cpufreq-probe/qcom-cpufreq-hw-v6.18.c:486-502 | sets cancel_throttle, lets a running poll end, drops a queued one and disables the interrupt once |
| `CpufreqThrottle.Throttle.BecomeReady` | research/peripherals/cpufreq-probe/qcom-cpufreq-hw-v6.18.c:584-590 | answers one disable, never one too many |
| `CpufreqLut.TableMeans` | research/peripherals/cpufreq-probe/qcom-cpufreq-hw-v6.18.c:239-297 | for any plausible LUT an entry the core uses at index i has the frequency of hardware row i, the table ends where the LUT first repeats itself, and only the entry before the end can be a boost |
| `CpufreqLut.RowFromFields` | research/peripherals/cpufreq-probe/qcom-cpufreq-hw-v6.18.c:238-253 | the frequency, voltage and turbo flag of a register pair, from its bit fields |
| `CpufreqLut.UsableExactly` | research/peripherals/cpufreq-probe/qcom-cpufreq-hw-v6.18.c:255-296 | an entry is usable, refused or the boost, from its row and the OPP answers alone |
| `CpufreqLut.UpdatesMean` | research/peripherals/cpufreq-probe/qcom-cpufreq-hw-v6.18.c:255-264 | the OPP updates are those of the rows for all cores, each with its own frequency and voltage |
| `CpufreqLut.AllCoreRowsMean` | research/peripherals/cpufreq-probe/qcom-cpufreq-hw-v6.18.c:255-264 | and those rows are all of them, in order |
| `CpufreqLut.AllUpdatesMean` | research/peripherals/cpufreq-probe/qcom-cpufreq-hw-v6.18.c:276-292 | behind them, where it is tried, the boost with the voltage of the row that repeats it |
| `CpufreqLut.ZeroFirstRow` | research/peripherals/cpufreq-probe/qcom-cpufreq-hw-v6.18.c:255-270 | a first row with frequency zero is neither listed nor refused |
| `CpufreqLut.ReadLut` | research/peripherals/cpufreq-probe/qcom-cpufreq-hw-v6.18.c:202-301 | for any 40 register pairs and any outcome of the OPP updates the table holds what each row means, the end marker at or before index 40, and the OPP updates are exactly the announced rows in order |
| `CpufreqLut.EnterRow` | research/peripherals/cpufreq-probe/qcom-cpufreq-hw-v6.18.c:250-267 | one row: its entry, and the OPP update it makes or not |
| `CpufreqLut.MarkBoost` | research/peripherals/cpufreq-probe/qcom-cpufreq-hw-v6.18.c:273-291 | the entry before a repetition, if it was refused, becomes the boost exactly when its OPP update succeeds |
| `CpufreqLut.EndFrom` | research/peripherals/cpufreq-probe/qcom-cpufreq-hw-v6.18.c:239-297 | the first row that repeats its predecessor, with no repetition before it |
| `CpufreqLut.Domain.SelectThenGet` | research/peripherals/cpufreq-probe/qcom-cpufreq-hw-v6.18.c:113-162 | selecting any usable index and asking for the frequency gives the frequency of that hardware row |
| `CpufreqLut.Domain.Select` | research/peripherals/cpufreq-probe/qcom-cpufreq-hw-v6.18.c:113-131 | the index goes to the first core's register, and to every core's when states are per core |
| `CpufreqLut.Domain.FastSwitch` | research/peripherals/cpufreq-probe/qcom-cpufreq-hw-v6.18.c:184-200 | the index it was resolved to, and that entry's frequency |
| `CpufreqLut.Domain.GetFreq` | research/peripherals/cpufreq-probe/qcom-cpufreq-hw-v6.18.c:146-162 | the entry of the register's index, capped at the last row |
| `BusRefs.RunOps` | research/peripherals/manual-probe/linux-bus-v6.18.c:60-103 | after any sequence of operations, failing ones, binds that overlap others and unregistering included, the bus has exactly the members the operations left it, and the count is one while the bus is registered, plus the members, plus what calls and binds in progress hold, plus what is lost |
| `BusRefs.OvertakenAreLost` | research/peripherals/manual-probe/linux-bus-v6.18.c:96-103 | what is lost, exactly: nothing while the bus is registered, and afterwards the binds that were in progress when it was unregistered and have ended since |
| `BusRefs.Bus.BindStart` | research/peripherals/manual-probe/linux-bus-v6.18.c:235-262 | the first half of a bind or unbind takes a reference exactly on a registered bus |
| `BusRefs.Bus.BusToSubsys` | research/peripherals/manual-probe/linux-bus-v6.18.c:60-85 | a registered bus is found, and found with a reference |
| `BusRefs.Bus.SubsysPut` | research/peripherals/manual-probe/linux-bus-v6.18.c:60-85 | drops the caller's reference, and frees the bus only when nobody owns one |
| `BusRefs.Bus.Unregister` | research/peripherals/manual-probe/linux-bus-v6.18.c:943-964 | drops the registration's reference and keeps everyone else's |
| `BusRefs.Bus.AddDevice` | research/peripherals/manual-probe/linux-bus-v6.18.c:477-520 | a reference stays with the device exactly when all three sysfs steps succeed |
| `BusRefs.Bus.RemoveDevice` | research/peripherals/manual-probe/linux-bus-v6.18.c:557-588 | drops the device's reference and its own |
| `BusRefs.Bus.Walk` | research/peripherals/manual-probe/linux-bus-v6.18.c:356-414 | an iteration leaves the count as it was |
| `BusRefs.Bus.AddDriver` | research/peripherals/manual-probe/linux-bus-v6.18.c:647-723 | a reference stays with the driver exactly when every step succeeds, and a driver listed before a late failure is off the list again |
| `BusRefs.Bus.RemoveDriver` | research/peripherals/manual-probe/linux-bus-v6.18.c:733-758 | drops the driver's reference and its own |
| `BusRefs.Bus.InterfaceRegister` | research/peripherals/manual-probe/linux-bus-v6.18.c:1141-1170 | the reference found stays with the interface |
| `BusRefs.Bus.InterfaceUnregister` | research/peripherals/manual-probe/linux-bus-v6.18.c:1173-1203 | drops the interface's reference and its own |
| `BusRefs.Bus.BusPut` | research/peripherals/manual-probe/linux-bus-v6.18.c:96-103 | drops one reference, or none once the bus is unregistered |
| `BusRefs.Bus.BindOrUnbind` | research/peripherals/manual-probe/linux-bus-v6.18.c:235-276 | leaves the count as it was, except that it keeps one reference for good exactly when the bus is unregistered meanwhile |
| `InitEnv.OneEntryPerName` | research/peripherals/initcall-debug/linux-init-main-v6.18.c:544-602 | after any assignments there is one entry per name, in the order in which names first appeared, each with its latest value |
| `InitEnv.LatestValue` | research/peripherals/initcall-debug/linux-init-main-v6.18.c:544-602 | each entry has the latest value of its name |
| `InitEnv.SetVarNames` | research/peripherals/initcall-debug/linux-init-main-v6.18.c:544-602 | one assignment adds a new name at the end and keeps the place of an old one |
| `InitTables.Tables.Parse` | research/peripherals/initcall-debug/linux-init-main-v6.18.c:504-631 | over any command line all scans and stores stay inside the tables; it ends in panic_later if and only if some event finds no room; otherwise the environment table holds all the assignments, the argument table what came after the last init=, and init is handed exactly that if and only if it does not run into an argument that stood in the last usable slot before init= |
| `InitTables.Tables.SetEnv` | research/peripherals/initcall-debug/linux-init-main-v6.18.c:578-589 | stores where the name stands or at the first null; panics exactly when the table is full and the name is new or stands in the last usable slot |
| `InitTables.Tables.SetArg` | research/peripherals/initcall-debug/linux-init-main-v6.18.c:590-600 | appends an argument; panics exactly when no slot is left |
| `InitTables.Tables.SetInitArg` | research/peripherals/initcall-debug/linux-init-main-v6.18.c:519-538 | the same, and keeps the last slot null |
| `InitTables.Tables.UnknownBootoption` | research/peripherals/initcall-debug/linux-init-main-v6.18.c:544-602 | which options reach init, and in which table |
| `InitTables.Tables.InitSetup` | research/peripherals/initcall-debug/linux-init-main-v6.18.c:604-631 | drops the arguments so far, except one in the last usable slot |
| `InitTables.HandedExactly` | research/peripherals/initcall-debug/linux-init-main-v6.18.c:604-631 | what init is handed, from the table alone |
| `InitTables.StaleArgumentSurvives` | research/peripherals/initcall-debug/linux-init-main-v6.18.c:604-631 | for every table size a command line that the parser can bring, with everything behind -- last, and without overflow, after which init is handed an argument from before init= |
| `InitTables.SettingAgainPanics` | research/peripherals/initcall-debug/linux-init-main-v6.18.c:578-589 | for every table size variables that just fit on such a command line, and the last of them set again panics although it needs no room |
| `InitTables.StaleStep` | research/peripherals/initcall-debug/linux-init-main-v6.18.c:604-631 | what each option does to the argument left in the last usable slot |
| `InitTables.SameNameExactly` | research/peripherals/initcall-debug/linux-init-main-v6.18.c:581-588 | comparing one character more than the name compares names |
| `InitTables.StrnEqExactly` | research/peripherals/initcall-debug/linux-init-main-v6.18.c:581-588 | the comparison of any two strings up to a length |
| `InitTables.OptionGoes` | research/peripherals/initcall-debug/linux-init-main-v6.18.c:544-602 | which options reach neither table, and which table the others reach |
| `InitTables.EnvStop` | research/peripherals/initcall-debug/linux-init-main-v6.18.c:581-589 | the loop stops where the name stands, or at the end, and storing there is the assignment |
| `InitTables.ArgStop` | research/peripherals/initcall-debug/linux-init-main-v6.18.c:529-536 | the scan stops at the last slot exactly when no room is left |
| `InitTables.RepairEnvString` | research/peripherals/initcall-debug/linux-init-main-v6.18.c:504-516 | the string that parse_args split in place is name=value again, quoted or not, and nothing outside it changes |
| `InitTables.JoinQuoted` | research/peripherals/initcall-debug/linux-init-main-v6.18.c:504-516 | the quoted form: the value moves up one place |
| `InitTables.JoinPlain` | research/peripherals/initcall-debug/linux-init-main-v6.18.c:504-516 | the plain form: one character changes |
| `Newc.RoundTrip` | tools/qcom_dpp.py:106-114 | reading an archive by the newc layout gives back exactly the entries written, whatever follows the trailer |
| `Newc.EntryReads` | tools/qcom_dpp.py:106-114 | one entry behind any whole number of words reads back, and reading goes on right behind it |
| `Newc.HeaderReads` | tools/qcom_dpp.py:106-114 | the thirteen fields of a header read back, each from its own eight digits |
| `Newc.HeaderLayout` | tools/qcom_dpp.py:106-114 | every header field at its offset, and the name behind the header |
| `Newc.DigitsExactly` | tools/qcom_dpp.py:108-109 | which bytes are hexadecimal digits, and their values |
| `Newc.HexReadsBack` | tools/qcom_dpp.py:106-114 | any number reads back from its hexadecimal digits, and takes eight of them if and only if it is below 2^32 |
| `Newc.PaddingsAgree` | research/peripherals/ubuntu-base/build-initramfs.py:12-21 | padding against the entry and padding against the archive give the same bytes |
| `NewcWriters.NewcEntry` | tools/qcom_dpp.py:106-114 | the bytes of one entry with the writer's fixed fields |
| `NewcWriters.WrittenFields` | tools/qcom_dpp.py:108-110 | inode, mode, link count, sizes and device numbers read back from where the format puts them |
| `NewcWriters.EarlyNames` | tools/qcom_dpp.py:120-131 | the four names of the early archive |
| `NewcWriters.EarlyMeans` | tools/qcom_dpp.py:120-131 | their modes, inodes and contents |
| `NewcWriters.BuildEarlyCpio` | tools/qcom_dpp.py:117-135 | whole blocks of 512 bytes that read back as the three directories and the table |
| `NewcWriters.FirstsMean` | research/peripherals/ubuntu-base/build-initramfs.py:12-21 | suppressing repeated names keeps every name once, with its earliest entry |
| `NewcWriters.Initramfs.Add` | research/peripherals/ubuntu-base/build-initramfs.py:12-21 | a repeated name adds no bytes, any other adds its entry |
| `NewcWriters.Initramfs.Append` | research/peripherals/ubuntu-base/build-initramfs.py:12-21 | the entry padded against the archive |
| `NewcWriters.Initramfs.Finish` | research/peripherals/ubuntu-base/build-initramfs.py:37-38 | what is written reads back as the first entry of each name |
| `Lt8911.ReadBackExactly` | research/lt8911exb.c:62-122 | a run of up to 256 bytes reads back on every device in a bank if and only if the bank selector, where the run meets it behind its first byte, is sent that bank |
| `Lt8911.RunMeans` | research/lt8911exb.c:62-122 | each register of a run holds what it was sent, and no other register of any bank changes |
| `Lt8911.RunAscends` | research/lt8911exb.c:62-122 | byte by byte in ascending registers, the registers around the run kept |
| `Lt8911.Resend` | research/lt8911exb.c:96-105 | a message that was cut off and is sent again leaves what sending it once leaves |
| `Lt8911.RunConcat` | research/lt8911exb.c:86-114 | a run is the run of its chunks |
| `Lt8911.BehindSelector` | research/lt8911exb.c:62-122 | bytes behind the selector are in the bank it was sent |
| `Lt8911.BeforeSelector` | research/lt8911exb.c:62-122 | bytes before the selector are in the bank the device was in |
| `Lt8911.Client.I2cWrite` | research/lt8911exb.c:62-122 | for any chunk limit and any failures, with or without effect: succeeds if they are transient, and success means the device took the whole run, or, where the run selects another bank on its way, that every byte is in the bank it was meant for and no other address was touched |
| `Lt8911.Client.I2cRead` | research/lt8911exb.c:136-205 | for any chunk limit and any failures: succeeds if they are transient, and success returns the registers |
| `Lt8911.Client.WriteAndReadBack` | research/lt8911exb.c:62-205 | for any run: a chunked write and a chunked read return the same bytes through any transient failures unless the run sends the selector another bank on its way |
| `Lt8911.Client.SendWithRetries` | research/lt8911exb.c:96-113 | succeeds exactly when one of the allowed attempts goes through, and then every byte is in place whatever the failed attempts did |
| `Lt8911.SentOn` | research/lt8911exb.c:86-114 | messages one behind the other do what one message does, across the selector and with failures that had effect |
| `Lt8911.AttemptStops` | research/lt8911exb.c:96-105 | an attempt that stops anywhere leaves the device where a later one can finish the message |
| `Lt8911.Client.WriteReg` | research/lt8911exb.c:207-215 | one register, or the bank selector |
| `Lt8911Timing.Bridge.ProgramAndDecode` | research/lt8911exb.c:510-552 | each bank decodes to the timing programmed if and only if totals fit 16 bits and the sync widths it stores in one register fit 8 |
| `Lt8911Timing.Bridge.Program` | research/lt8911exb.c:510-552 | the register list behind a bank selection, through transient failures |
| `Lt8911Timing.MipiDecodes` | research/peripherals/graphics-probe/decode-timing.py:8-14 | what the two axes read out of bank d0 as |
| `Lt8911Timing.EdpDecodes` | research/peripherals/graphics-probe/decode-timing.py:15-20 | what the two axes read out of bank a8 as |
| `Lt8911Timing.MipiRegisters` | research/lt8911exb.c:510-529 | the registers of bank d0 one by one |
| `Lt8911Timing.EdpRegisters` | research/lt8911exb.c:531-552 | the registers of bank a8 one by one, the mode register included |
| `Lt8911Timing.MipiAxisExactly` | research/peripherals/graphics-probe/decode-timing.py:8-14 | an axis decodes from bank d0 if and only if its total fits 16 bits and its sync width 8 |
| `Lt8911Timing.EdpAxesExactly` | research/peripherals/graphics-probe/decode-timing.py:15-20 | from bank a8 the horizontal axis needs a total of 16 bits, the vertical one also a sync width of 8 |
| `Lt8911Timing.ScriptMeans` | research/lt8911exb.c:510-552 | after a list of distinct registers each holds what it was sent and no other bank changes |
| `Lt8911Timing.BankSurvives` | research/lt8911exb.c:531-552 | programming bank a8 leaves bank d0 as it was |

## Left out

- Weak memory: steps are sequentially consistent; real time, delays and timeouts are not modelled, nor failures to map memory.
- Asynchronous probing: the worker's walk probes every matching driver itself; drivers that ask for asynchronous probing are probed by other threads only as direct probes.
- Matching: which drivers match a device is fixed for a run; a match callback that fails with an error other than deferral is not modelled, and wait_for_device_probe's async_synchronize_full has nothing to wait for.
- Device links in best-effort mode, where any callback error counts as a deferral, and the sysfs, runtime power, devres and uevent calls around a probe, which are represented by their outcomes.
- DeferredProbeTheorems.NoLostDependency: assumes that no single probe spans a multiple of 2^32 triggers, and exempts devices that only match-time deferrals behind an unseen splice listed; both are shown to be necessary.
- DeferredProbeSettles.NoEndlessRetry: says nothing of schedules in which new probes keep beginning, because those can trigger each other without end.
- DeferredProbeOutcome.EveryScheduleBindsLeast: assumes that the supplier at the other end of a device link is needed by every driver of the device, which is how the code checks links, and that no driver has failed in the walk under way, because whether such a driver is tried again depends on whether a splice comes before or after the device is put back.
- DeferredWorker.Core.WorkFunc: requires deferral to be enabled, since the work is queued only behind that test.
- EfiEarlycon.Earlycon.Write: assumes a font no larger than the screen, at most 1023 text rows and a scanline of at most 65535 bytes; with more rows the ring of 1024 would be overrun.
- The EFI framebuffer's own mapping, unmapping and pixel padding policy between text width and pitch beyond what scrolling and clearing touch.
- TlmmConfig.LastRequestReadsBack: assumes that a group's fields fit the register and do not overlap, which the static tables provide.
- Pin direction calls, debug output, valid-mask set-up and power-off handling of the pin controller: single branches.
- CpufreqLut.TableMeans: assumes frequencies that are positive and below the end marker, since 0 and the marker are the table's own sentinels.
- Bandwidth voting, OPP framework internals and the release of the CPU data; OPP updates are an arbitrary oracle of success and failure.
- BusRefs.RunOps: removals are made only of what was added, and ends only of binds that started.
- Uevents, attribute files, probing and notifier chains of the bus code; each is a step that may fail.
- InitTables.Tables.Parse: option names contain no equals sign, which is how parse_args splits them; the verdicts of sysctl_is_alias and obsolete_checksetup are inputs.
- The gzip compression, directory walk and file contents of the initramfs script, and the partition reader and ASL templates of the firmware tool: input and output.
- Lt8911Timing.Bridge.ProgramAndDecode: assumes transient failures only, since the timing functions ignore the result of a write.
- The header file of the LT8911EXB driver is not part of this model: the chunk limit, the retry limit and the panel values are parameters.
- PLL set-up, link training, DPCD access and resets of the bridge: fixed register scripts for undocumented hardware.
- Clock, interconnect, PHY and pin tables, the FDT and memory stubs and the remaining platform glue: constants or single branches.
