# Boot-stage tracker

A Dafny model of the boot profiler's ingestion core in `main.py`. The
profiler follows a boot log and looks for four marker lines: the power-on
reset, "Starting kernel ...", the distribution banner and the login prompt.
From these it records when each of the three boot stages (Bootloader,
Kernel, Rootfs) starts and ends. Every line goes into a bounded log of the
newest 1000 lines. The display side turns the recorded intervals into
per-stage durations.

The model has these parts:

- `Markers` (`markers.dfy`): the four marker patterns. They are regular
  expressions whose only special characters are escaped, so a search is
  substring containment. `Contains` is proved equal to "occurs at some
  index".
- `Timeline` (`timeline.dfy`): stages, `{start, end}` intervals and the
  timeline map, which starts with every stage unset. `ComputeDurations`
  computes the per-stage durations.
- `LogBuffer` (`log_buffer.dfy`): the `deque(maxlen=1000)` as a ring buffer
  class `BoundedLog` over an array. It is proved to keep exactly the newest
  1000 entries (`Appended`).
- `BootTracker` (`boot_tracker.dfy`): the line handler.
  - `Classify` picks the branch a line fires. `Step` is one line and `Run`
    is a sequence of lines.
  - The class `Tracker` holds the handler's `start_time`, `current_stage`,
    timeline and log as fields. Its `ProcessLine` updates them in place and
    is proved to follow `Step`.
- `TrackerProperties` (`tracker_properties.dfy`): what one line does in each
  branch, and what whole runs keep.
- `BootScenario` (`boot_scenario.dfy`): the test generator's seven-message
  boot sequence replayed through the handler.

The time of arrival of a line (`time.time()` in the source) is a parameter:
each line reaches the handler as a `LogEntry(time, text)`. Timestamps are
`real`. Only equality, comparison and subtraction are applied to them.

Where the handler's behaviour is surprising, the model follows the code:

- The "Starting kernel" branch is guarded only by "a reset has been seen
  at some time" and "the tracked stage is not Kernel". So it fires again
  after a completed boot.
- A reset reopens Bootloader but clears neither its old end nor the Kernel
  and Rootfs intervals.
- `compute_durations` tests `start and end` with Python truthiness, so a
  timestamp of `0.0` counts as unset.
- `compute_durations` reads an open stage as 0, not as the time elapsed so
  far.
- `compute_durations` does not clamp: a reset after a completed boot makes
  the Bootloader duration negative until the next kernel marker
  (`StaleEndAfterReset`).
- The marker texts are fixed constants (`BootMarkers`). Stages and markers
  cannot be configured, duplicate lines are not suppressed, and a reset does
  not clear the timeline.

## Model

| member | source | states |
|---|---|---|
| Markers.Contains | main.py:61 | a pattern search succeeds exactly when the pattern occurs in the line at some index |
| Markers.AbsentCharacter | main.py:14-19 | a line lacking some character of a pattern does not match that pattern |
| Markers.ContainsSuffix | main.py:14-19 | a line ending in a pattern's text matches that pattern |
| Markers.PowerOnCharacters | main.py:15 | scenario helper, no behaviour of its own: the reset pattern's text contains an 'N', which tells its lines apart in `BootScenario` |
| Markers.KernelStartCharacters | main.py:16 | scenario helper: the kernel pattern's text has an 'S' and no 'N' |
| Markers.BannerCharacters | main.py:17 | scenario helper: the banner pattern's text has no 'N' |
| Markers.LoginCharacters | main.py:18 | scenario helper: the login pattern's text has an 'l' and neither 'N' nor 'S' |
| Timeline.EmptyTimeline | main.py:274 | the initial timeline has exactly the three stages, each with start and end unset |
| Timeline.ComputeDurations | main.py:90-99 | exactly one entry per stage; end minus start when both are set and nonzero, otherwise 0.0; no clamping |
| Timeline.OpenStageReadsZero | main.py:96 | a stage with no recorded end reads 0, not the elapsed time |
| Timeline.OrderedStageNonNegative | main.py:96 | a stage whose end is not before its start never reads negative |
| Timeline.DurationIsPerStage | main.py:92-96 | a stage's duration depends only on that stage's interval |
| LogBuffer.Appended | main.py:59 | appending one entry puts it at the newest end; under 1000 entries the log grows by one, at 1000 the oldest is evicted |
| LogBuffer.NewestOfNewest | main.py:273 | trimming to the newest n and then appending keeps the same window as appending first |
| LogBuffer.NewestSnoc | main.py:273 | the window after k + 1 lines is the window after k lines with the next line appended |
| LogBuffer.BoundedLog.constructor | main.py:273 | a fresh bounded log is empty |
| LogBuffer.BoundedLog.Append | main.py:59 | the ring buffer's contents become exactly `Appended` of the old contents, which keeps the newest 1000 |
| LogBuffer.BoundedLog.Lines | main.py:249 | the snapshot lists the buffered entries oldest first |
| BootTracker.Initial | main.py:53-54 | at start-up no reset has been seen, no stage is tracked, the log is empty and the timeline is the empty timeline |
| BootTracker.Step | main.py:56-86 | one line keeps the timeline's key set exactly {Bootloader, Kernel, Rootfs} |
| BootTracker.Run | main.py:45 | a sequence of lines keeps the timeline's key set |
| BootTracker.RunPrefix | main.py:45 | the lines are handled one after another, each on the state left by the previous one |
| BootTracker.Tracker.constructor | main.py:53-54 | the tracker starts in the start-up state with the profiler's four markers |
| BootTracker.Tracker.ProcessLine | main.py:56-86 | handling a line in place leaves the parser state, timeline and log exactly as `Step` describes |
| BootTracker.Tracker.Follow | main.py:45 | handling a feed line by line leaves exactly the state `Run` describes |
| BootTracker.Tracker.Durations | main.py:205-206 | the durations read from the tracker's timeline are `ComputeDurations` of it, one per stage |
| BootTracker.Tracker.LogLines | main.py:249 | the log snapshot is the tracker's log and holds at most 1000 entries |
| TrackerProperties.EveryLineLogged | main.py:59 | every line is logged once at the newest end, whether or not a branch fires |
| TrackerProperties.PowerOnResetStep | main.py:61-66 | the reset branch fires if and only if the line contains the reset text; a reset line sets the start time and the tracked stage to Bootloader, and sets the Bootloader start; it keeps the old Bootloader end and the Kernel and Rootfs intervals |
| TrackerProperties.KernelStartingStep | main.py:68-73 | the kernel marker fires if and only if no reset is in the line, a start time is set and the stage is not Kernel; Bootloader's end and Kernel's start are then the same time, the stage becomes Kernel, Rootfs is untouched |
| TrackerProperties.WelcomeStep | main.py:75-80 | the banner fires if and only if no reset is in the line and the stage is Kernel; Kernel's end and Rootfs's start are then the same time, the stage becomes Rootfs |
| TrackerProperties.LoginStep | main.py:82-86 | the login prompt fires if and only if no earlier branch fires and the stage is Rootfs; it then sets Rootfs's end and stops tracking |
| TrackerProperties.InertStep | main.py:56-86 | a line that fires no branch changes nothing but the log |
| TrackerProperties.DormantUntilReset | main.py:53-54 | until a reset line arrives, no line changes the start time, the tracked stage or the timeline |
| TrackerProperties.StartTimeSticky | main.py:62 | once set, the start time is never cleared |
| TrackerProperties.LogWindow | main.py:273 | after any run the log is exactly the newest 1000 entries of everything logged, oldest first, and never longer than 1000 |
| TrackerProperties.RunLogStep | main.py:59 | each further line adds exactly one log entry |
| TrackerProperties.StepKeepsCoherent | main.py:61-86 | one line keeps these facts: a tracked stage always has a start time; while Bootloader is tracked, its start is the run's start time; no stage has an end without a start; once a reset has been seen, Bootloader has a start |
| TrackerProperties.RunKeepsCoherent | main.py:56-86 | every run from such a state keeps it |
| TrackerProperties.InitialCoherent | main.py:53-54 | the start-up state satisfies it |
| TrackerProperties.NoEndWithoutStart | main.py:53-54 | from start-up, whatever lines arrive, no stage ever has an end recorded without a start, so durations never meet an end-only interval; after a reset, Bootloader has a start |
| TrackerProperties.StaleEndAfterReset | main.py:61-66 | after a reset that follows a completed Bootloader stage, the Bootloader duration reads negative |
| BootScenario.MessagesAreMarkers | test/test.py:19-27 | the generator's four marker messages are exactly the profiler's pattern texts |
| BootScenario.BootFeed | test/test.py:57-60 | each generated line is its time tag, a space, then the message |
| BootScenario.TaggedLineMisses | test/test.py:57-60 | a tagged line lacking a pattern's character does not match that pattern |
| BootScenario.TaggedLineMatches | test/test.py:57-60 | a tagged line matches the message it carries |
| BootScenario.BootSequence | test/test.py:19-27 | the seven messages, fed in order from any state, record Bootloader over [t0, t1], Kernel over [t1, t2] and Rootfs over [t2, t6], and leave no stage tracked |
| BootScenario.BootDurations | main.py:90-99 | with increasing positive times that run's durations are t1 - t0, t2 - t1 and t6 - t2, all positive |

## Left out

- Following the log file (`tail_file`, main.py:28-50) is not modelled: the existence polling, sleeps, seeking to the end and reopening after rotation are file I/O. The model starts from the lines it delivers, with their trailing whitespace already stripped. `Tracker.Follow` is that delivery loop.
- Threads and the lock (main.py:64, 69, 76, 83, 205, 275-280) are not modelled. Each locked block is one atomic update of the tracker. The display reads the timeline without the lock (main.py:221-222); that race is out of scope.
- The clock and time formatting (`time.time`, `time.strftime`, main.py:58-59) are not modelled. The arrival time is a parameter. A log entry is the pair (arrival time, line), not the formatted "HH:MM:SS - line" string.
- The regular-expression engine is not modelled. The four patterns are literal texts, so a search is substring containment.
- Rendering (`gui_thread`, `draw_vertical_stack`, `draw_horizontal_bars`, `get_content_region_avail_safe`, main.py:101-270) is not modelled. It is imgui/glfw drawing with floating-point geometry. Only its two reads of the core are modelled: `Tracker.Durations` and `Tracker.LogLines`.
- The generator in test/test.py (random gaps, file writes, key capture) is I/O and randomness. Only its message list and its line format are used, as scenario data. The arrival times are arbitrary parameters rather than its random gaps.
- `Timeline.ComputeDurations`: timestamps are exact `real` numbers, not Python floats, so the rounding of `end - start` (main.py:96) is not modelled. None of the proved properties depends on that rounding.
- `Timeline.ComputeDurations`: the source's `try/except` fallback to 0.0 is not modelled. The only operation it guards is subtracting two numbers, which cannot fail on timestamps.
