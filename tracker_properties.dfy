/**
 * What the line handler guarantees, one line at a time and over whole runs.
 */
module TrackerProperties {
  import opened Wrappers
  import opened Markers
  import opened Timeline
  import opened LogBuffer
  import opened BootTracker

  /** Every line is logged, whatever it says and whichever branch fires. */
  lemma EveryLineLogged(m: MarkerTable, s: TrackerState, e: LogEntry)
    requires Complete(s.timeline)
    ensures Step(m, s, e).log == Appended(s.log, e)
  {
  }

  /**
   * A power-on reset line: the run restarts at `now` and the Bootloader
   * stage reopens, but nothing else is cleared: the old Bootloader end and
   * the Kernel and Rootfs intervals stay as they were.
   */
  lemma PowerOnResetStep(m: MarkerTable, s: TrackerState, e: LogEntry)
    requires Complete(s.timeline)
    ensures Classify(m, s.startTime, s.current, e.text) == Some(PowerOn) <==> Contains(e.text, m.powerOn)
    ensures Contains(e.text, m.powerOn) ==>
      var r := Step(m, s, e);
      && r.startTime == Some(e.time) && r.current == Some(Bootloader)
      && r.timeline[Bootloader] == Interval(Some(e.time), s.timeline[Bootloader].end)
      && r.timeline[Kernel] == s.timeline[Kernel]
      && r.timeline[Rootfs] == s.timeline[Rootfs]
  {
  }

  /**
   * "Starting kernel ..." fires exactly when no reset is in the line, a reset
   * has been seen at some time and the tracked stage is not Kernel (so also
   * after a completed boot); it closes Bootloader and opens Kernel at the
   * same instant and leaves everything else alone.
   */
  lemma KernelStartingStep(m: MarkerTable, s: TrackerState, e: LogEntry)
    requires Complete(s.timeline)
    ensures Classify(m, s.startTime, s.current, e.text) == Some(KernelStarting) <==>
      && !Contains(e.text, m.powerOn) && Contains(e.text, m.kernelStart)
      && s.startTime.Some? && s.current != Some(Kernel)
    ensures Classify(m, s.startTime, s.current, e.text) == Some(KernelStarting) ==>
      var r := Step(m, s, e);
      && r.timeline[Bootloader] == Interval(s.timeline[Bootloader].start, Some(e.time))
      && r.timeline[Kernel] == Interval(Some(e.time), s.timeline[Kernel].end)
      && r.timeline[Rootfs] == s.timeline[Rootfs]
      && r.current == Some(Kernel) && r.startTime == s.startTime
  {
  }

  /**
   * The distribution banner fires exactly when no earlier marker does and
   * Kernel is the tracked stage; it closes Kernel and opens Rootfs at the
   * same instant.
   */
  lemma WelcomeStep(m: MarkerTable, s: TrackerState, e: LogEntry)
    requires Complete(s.timeline)
    ensures Classify(m, s.startTime, s.current, e.text) == Some(WelcomeSeen) <==>
      && !Contains(e.text, m.powerOn) && Contains(e.text, m.banner)
      && s.current == Some(Kernel)
    ensures Classify(m, s.startTime, s.current, e.text) == Some(WelcomeSeen) ==>
      var r := Step(m, s, e);
      && r.timeline[Bootloader] == s.timeline[Bootloader]
      && r.timeline[Kernel] == Interval(s.timeline[Kernel].start, Some(e.time))
      && r.timeline[Rootfs] == Interval(Some(e.time), s.timeline[Rootfs].end)
      && r.current == Some(Rootfs) && r.startTime == s.startTime
  {
  }

  /**
   * The login prompt fires exactly when no earlier marker does and Rootfs is
   * the tracked stage; it closes Rootfs and stops tracking any stage.
   */
  lemma LoginStep(m: MarkerTable, s: TrackerState, e: LogEntry)
    requires Complete(s.timeline)
    ensures Classify(m, s.startTime, s.current, e.text) == Some(LoginSeen) <==>
      && !Contains(e.text, m.powerOn)
      && !(Contains(e.text, m.kernelStart) && s.startTime.Some?)
      && Contains(e.text, m.login) && s.current == Some(Rootfs)
    ensures Classify(m, s.startTime, s.current, e.text) == Some(LoginSeen) ==>
      var r := Step(m, s, e);
      && r.timeline[Bootloader] == s.timeline[Bootloader]
      && r.timeline[Kernel] == s.timeline[Kernel]
      && r.timeline[Rootfs] == Interval(s.timeline[Rootfs].start, Some(e.time))
      && r.current == None && r.startTime == s.startTime
  {
  }

  /** A line that fires no branch changes nothing but the log. */
  lemma InertStep(m: MarkerTable, s: TrackerState, e: LogEntry)
    requires Complete(s.timeline) && Classify(m, s.startTime, s.current, e.text) == None
    ensures Step(m, s, e) == s.(log := Appended(s.log, e))
  {
  }

  /**
   * Before any reset line, nothing but the log changes: with no start time
   * the kernel marker is blocked, and with no tracked stage the banner and
   * login markers are blocked.
   */
  lemma {:induction false} DormantUntilReset(m: MarkerTable, s: TrackerState, feed: seq<LogEntry>)
    requires Complete(s.timeline) && s.startTime == None && s.current == None
    requires forall k | 0 <= k < |feed| :: !Contains(feed[k].text, m.powerOn)
    ensures var r := Run(m, s, feed);
      r.startTime == None && r.current == None && r.timeline == s.timeline
  {
    if feed != [] {
      DormantUntilReset(m, s, feed[..|feed| - 1]);
    }
  }

  /** Once a reset has been seen, the start time is never cleared again. */
  lemma {:induction false} StartTimeSticky(m: MarkerTable, s: TrackerState, feed: seq<LogEntry>)
    requires Complete(s.timeline) && s.startTime.Some?
    ensures Run(m, s, feed).startTime.Some?
  {
    if feed != [] {
      StartTimeSticky(m, s, feed[..|feed| - 1]);
    }
  }

  /** The log holds exactly the newest `MaxLines` of everything ever logged, oldest first. */
  lemma {:induction false} LogWindow(m: MarkerTable, s: TrackerState, feed: seq<LogEntry>)
    requires Complete(s.timeline) && |s.log| <= MaxLines
    ensures Run(m, s, feed).log == Newest(s.log + feed, MaxLines)
    ensures |Run(m, s, feed).log| <= MaxLines
  {
    if feed == [] {
      assert s.log + feed == s.log;
    } else {
      var n := |feed| - 1;
      LogWindow(m, s, feed[..n]);
      RunLogStep(m, s, feed, n);
      assert feed[..n + 1] == feed;
      LogBuffer.NewestSnoc(s.log, feed, n);
    }
  }

  /** One more line of the feed adds one entry to the log, whatever it matches. */
  lemma RunLogStep(m: MarkerTable, s: TrackerState, feed: seq<LogEntry>, k: nat)
    requires Complete(s.timeline) && k < |feed|
    ensures Run(m, s, feed[..k + 1]).log == Appended(Run(m, s, feed[..k]).log, feed[k])
  {
    RunPrefix(m, s, feed, k);
    EveryLineLogged(m, Run(m, s, feed[..k]), feed[k]);
  }

  /**
   * The stage being tracked has been started, and a reset has been seen;
   * while Bootloader is tracked its start is the run's start time; no
   * interval has an end without a start; once a reset has been seen,
   * Bootloader has a start.
   */
  ghost predicate Coherent(s: TrackerState)
    requires Complete(s.timeline)
  {
    && (s.current.Some? ==> s.startTime.Some? && s.timeline[s.current.value].start.Some?)
    && (s.current == Some(Bootloader) ==> s.timeline[Bootloader].start == s.startTime)
    && (forall st: Stage :: s.timeline[st].end.Some? ==> s.timeline[st].start.Some?)
    && (s.startTime.Some? ==> s.timeline[Bootloader].start.Some?)
  }

  lemma StepKeepsCoherent(m: MarkerTable, s: TrackerState, e: LogEntry)
    requires Complete(s.timeline) && Coherent(s)
    ensures Coherent(Step(m, s, e))
  {
  }

  /** Every run from a coherent state (the start-up state is one) stays coherent. */
  lemma {:induction false} RunKeepsCoherent(m: MarkerTable, s: TrackerState, feed: seq<LogEntry>)
    requires Complete(s.timeline) && Coherent(s)
    ensures Coherent(Run(m, s, feed))
  {
    if feed != [] {
      RunKeepsCoherent(m, s, feed[..|feed| - 1]);
      StepKeepsCoherent(m, Run(m, s, feed[..|feed| - 1]), feed[|feed| - 1]);
    }
  }

  /** The start-up state is coherent. */
  lemma InitialCoherent()
    ensures Coherent(Initial())
  {
  }

  /**
   * From start-up, whatever lines arrive, no stage ever has an end without
   * a start, so durations never see an end-only interval; and once a reset
   * has been seen, Bootloader has a start.
   */
  lemma NoEndWithoutStart(m: MarkerTable, feed: seq<LogEntry>)
    ensures var r := Run(m, Initial(), feed);
      && (forall st: Stage :: r.timeline[st].end.Some? ==> r.timeline[st].start.Some?)
      && (r.startTime.Some? ==> r.timeline[Bootloader].start.Some?)
  {
    InitialCoherent();
    RunKeepsCoherent(m, Initial(), feed);
  }

  /**
   * A reset after a completed boot leaves the old Bootloader end in place,
   * so the Bootloader duration reads negative until the kernel marker
   * arrives: durations are not clamped at zero.
   */
  lemma StaleEndAfterReset(m: MarkerTable, s: TrackerState, e: LogEntry)
    requires Complete(s.timeline) && Contains(e.text, m.powerOn)
    requires s.timeline[Bootloader].end.Some? && 0.0 < s.timeline[Bootloader].end.value < e.time
    ensures ComputeDurations(Step(m, s, e).timeline)[Bootloader] < 0.0
  {
    PowerOnResetStep(m, s, e);
  }
}
