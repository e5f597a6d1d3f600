/**
 * The per-line boot-stage state machine and the store it updates.
 *
 * `TrackerState` is the abstract value of everything the ingestion side
 * owns: the parser's `start_time` and `current_stage`, the timeline and
 * the bounded log. `Step` says what one line does to it and `Run` folds
 * `Step` over a sequence of lines; the `Tracker` class updates the same
 * state in place and is proved to follow `Step`. Both take the marker
 * table as a parameter; the tracker is built with `BootMarkers`.
 */
module BootTracker {
  import opened Wrappers
  import opened Markers
  import opened Timeline
  import opened LogBuffer

  datatype TrackerState = TrackerState(
    startTime: Option<Timestamp>,
    current: Option<Stage>,
    timeline: Timeline,
    log: seq<LogEntry>)

  /** The state right after start-up: no reset seen, no stage tracked, nothing recorded. */
  function Initial(): (s: TrackerState)
    ensures s.startTime == None && s.current == None && s.log == []
    ensures Complete(s.timeline) && s.timeline == EmptyTimeline()
  {
    TrackerState(None, None, EmptyTimeline(), [])
  }

  /** The four branches of the line handler, named after the marker that fires them. */
  datatype Transition =
    | PowerOn         // power-on reset: a boot begins
    | KernelStarting  // "Starting kernel ...": Bootloader ends, Kernel starts
    | WelcomeSeen     // the distribution banner: Kernel ends, Rootfs starts
    | LoginSeen       // the login prompt: Rootfs ends

  /**
   * The branch a line fires, if any: markers are tried in the order reset,
   * kernel, banner, login; the first whose pattern and guard both hold wins.
   */
  function Classify(m: MarkerTable, startTime: Option<Timestamp>, current: Option<Stage>, line: string): Option<Transition> {
    if Contains(line, m.powerOn) then Some(PowerOn)
    else if Contains(line, m.kernelStart) && startTime.Some? && current != Some(Kernel) then Some(KernelStarting)
    else if Contains(line, m.banner) && current == Some(Kernel) then Some(WelcomeSeen)
    else if Contains(line, m.login) && current == Some(Rootfs) then Some(LoginSeen)
    else None
  }

  /** `t` with the start of stage `s` set to `now`. */
  function SetStart(t: Timeline, s: Stage, now: Timestamp): Timeline
    requires Complete(t)
  {
    t[s := t[s].(start := Some(now))]
  }

  /** `t` with the end of stage `s` set to `now`. */
  function SetEnd(t: Timeline, s: Stage, now: Timestamp): Timeline
    requires Complete(t)
  {
    t[s := t[s].(end := Some(now))]
  }

  /** The parser and timeline writes of one fired branch, all at the same `now`. */
  function Fire(s: TrackerState, tr: Transition, now: Timestamp): TrackerState
    requires Complete(s.timeline)
  {
    match tr
    case PowerOn =>
      s.(startTime := Some(now), current := Some(Bootloader),
         timeline := SetStart(s.timeline, Bootloader, now))
    case KernelStarting =>
      s.(current := Some(Kernel),
         timeline := SetStart(SetEnd(s.timeline, Bootloader, now), Kernel, now))
    case WelcomeSeen =>
      s.(current := Some(Rootfs),
         timeline := SetStart(SetEnd(s.timeline, Kernel, now), Rootfs, now))
    case LoginSeen =>
      s.(current := None, timeline := SetEnd(s.timeline, Rootfs, now))
  }

  /**
   * One ingested line arriving at `e.time`: it is always logged, then at
   * most one branch fires. The timeline keeps its stages.
   */
  function Step(m: MarkerTable, s: TrackerState, e: LogEntry): (r: TrackerState)
    requires Complete(s.timeline)
    ensures r.timeline.Keys == s.timeline.Keys && Complete(r.timeline)
  {
    var logged := s.(log := Appended(s.log, e));
    match Classify(m, s.startTime, s.current, e.text)
    case None => logged
    case Some(tr) => Fire(logged, tr, e.time)
  }

  /** The lines of `feed`, oldest first, handled one after another from `s`. */
  function Run(m: MarkerTable, s: TrackerState, feed: seq<LogEntry>): (r: TrackerState)
    requires Complete(s.timeline)
    ensures r.timeline.Keys == s.timeline.Keys && Complete(r.timeline)
    decreases |feed|
  {
    if feed == [] then s else Step(m, Run(m, s, feed[..|feed| - 1]), feed[|feed| - 1])
  }

  /** The run over the first `k + 1` lines is one step past the run over the first `k`. */
  lemma {:induction false} RunPrefix(m: MarkerTable, s: TrackerState, feed: seq<LogEntry>, k: nat)
    requires Complete(s.timeline) && k < |feed|
    ensures Run(m, s, feed[..k + 1]) == Step(m, Run(m, s, feed[..k]), feed[k])
  {
    assert feed[..k + 1][..k] == feed[..k];
  }

  /**
   * The ingestion side's state: the line handler's `start_time` and
   * `current_stage`, the shared timeline and the shared bounded log.
   */
  class Tracker {
    var startTime: Option<Timestamp>
    var current: Option<Stage>
    var timeline: Timeline
    const markers: MarkerTable
    const log: BoundedLog
    ghost var Repr: set<object>

    ghost predicate Valid()
      reads this, Repr
      ensures Valid() ==> this in Repr
    {
      && this in Repr && log in Repr && log.Repr <= Repr && this !in log.Repr
      && Repr == {this} + log.Repr
      && log.Valid()
      && Complete(timeline)
    }

    ghost function State(): TrackerState
      reads this, log
    {
      TrackerState(startTime, current, timeline, log.Contents)
    }

    /** Start-up: an empty log of capacity `MaxLines`, an empty timeline, no parser state. */
    constructor ()
      ensures Valid() && fresh(Repr)
      ensures State() == Initial() && markers == BootMarkers
    {
      markers := BootMarkers;
      startTime, current := None, None;
      timeline := EmptyTimeline();
      log := new BoundedLog();
      new;
      Repr := {this} + log.Repr;
    }

    /** Handles one line that arrived at `now`: log it, then fire at most one branch. */
    method ProcessLine(line: string, now: Timestamp)
      requires Valid()
      modifies Repr
      ensures Valid() && Repr == old(Repr)
      ensures State() == Step(markers, old(State()), LogEntry(now, line))
    {
      log.Append(LogEntry(now, line));

      if Contains(line, markers.powerOn) {
        startTime := Some(now);
        current := Some(Bootloader);
        timeline := timeline[Bootloader := timeline[Bootloader].(start := Some(now))];
        return;
      }

      if Contains(line, markers.kernelStart) && startTime.Some? && current != Some(Kernel) {
        timeline := timeline[Bootloader := timeline[Bootloader].(end := Some(now))];
        timeline := timeline[Kernel := timeline[Kernel].(start := Some(now))];
        current := Some(Kernel);
        return;
      }

      if Contains(line, markers.banner) && current == Some(Kernel) {
        timeline := timeline[Kernel := timeline[Kernel].(end := Some(now))];
        timeline := timeline[Rootfs := timeline[Rootfs].(start := Some(now))];
        current := Some(Rootfs);
        return;
      }

      if Contains(line, markers.login) && current == Some(Rootfs) {
        timeline := timeline[Rootfs := timeline[Rootfs].(end := Some(now))];
        current := None;
        return;
      }
    }

    /** Delivers the lines of `feed` one at a time, oldest first, as the file follower does. */
    method Follow(feed: seq<LogEntry>)
      requires Valid()
      modifies Repr
      ensures Valid() && Repr == old(Repr)
      ensures State() == Run(markers, old(State()), feed)
    {
      var i := 0;
      while i < |feed|
        invariant 0 <= i <= |feed|
        invariant Valid() && Repr == old(Repr)
        invariant State() == Run(markers, old(State()), feed[..i])
      {
        ProcessLine(feed[i].text, feed[i].time);
        RunPrefix(markers, old(State()), feed, i);
        i := i + 1;
      }
      assert feed[..i] == feed;
    }

    /** The per-stage durations of the current timeline, as the summary view reads them. */
    method Durations() returns (d: map<Stage, Timestamp>)
      requires Valid()
      ensures d == ComputeDurations(timeline)
      ensures d.Keys == {Bootloader, Kernel, Rootfs}
    {
      d := ComputeDurations(timeline);
    }

    /** The logged entries, oldest first, as the log view lists them. */
    method LogLines() returns (lines: seq<LogEntry>)
      requires Valid()
      ensures lines == State().log && |lines| <= MaxLines
    {
      lines := log.Lines();
    }
  }
}
