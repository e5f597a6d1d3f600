/**
 * The timeline store: one `{start, end}` interval per boot stage, and the
 * per-stage durations the summary view derives from it.
 */
module Timeline {
  import opened Wrappers

  /** The three stages, in boot order. */
  datatype Stage = Bootloader | Kernel | Rootfs

  const Stages: seq<Stage> := [Bootloader, Kernel, Rootfs]

  /** Seconds since the epoch, as returned by the wall clock. */
  type Timestamp = real

  /** The recorded bounds of one stage; either may still be unset. */
  datatype Interval = Interval(start: Option<Timestamp>, end: Option<Timestamp>)

  type Timeline = map<Stage, Interval>

  /** Every stage has an entry (the dictionary is indexed without a default). */
  predicate Complete(t: Timeline) {
    forall s: Stage :: s in t
  }

  /** A timeline keyed by exactly the three stages has every stage. */
  lemma ThreeKeysComplete(t: Timeline)
    requires t.Keys == {Bootloader, Kernel, Rootfs}
    ensures Complete(t)
  {
    forall s: Stage ensures s in t {
      match s
      case Bootloader =>
      case Kernel =>
      case Rootfs =>
    }
  }

  /** The timeline as it is created at start-up: every stage present, nothing recorded. */
  function EmptyTimeline(): (t: Timeline)
    ensures Complete(t) && t.Keys == {Bootloader, Kernel, Rootfs}
    ensures forall s | s in t :: t[s].start == None && t[s].end == None
  {
    var t := map[Bootloader := Interval(None, None), Kernel := Interval(None, None), Rootfs := Interval(None, None)];
    ThreeKeysComplete(t);
    t
  }

  /** Python truthiness of an optional timestamp: `None` and `0.0` are both false. */
  predicate Truthy(v: Option<Timestamp>) {
    v.Some? && v.value != 0.0
  }

  /** The duration of one interval: `end - start` when both are truthy, `0.0` otherwise. */
  function StageDuration(i: Interval): Timestamp {
    if Truthy(i.start) && Truthy(i.end) then i.end.value - i.start.value else 0.0
  }

  /**
   * The per-stage durations: one entry per stage, the recorded span of a
   * closed stage, zero for any stage with a bound missing (an open stage
   * reads zero, not the time elapsed so far), and no clamping of a negative
   * span.
   */
  function ComputeDurations(t: Timeline): (d: map<Stage, Timestamp>)
    requires Complete(t)
    ensures d.Keys == {Bootloader, Kernel, Rootfs}
    ensures forall s | s in d && Truthy(t[s].start) && Truthy(t[s].end) ::
              d[s] == t[s].end.value - t[s].start.value
    ensures forall s | s in d && !(Truthy(t[s].start) && Truthy(t[s].end)) :: d[s] == 0.0
  {
    map[Bootloader := StageDuration(t[Bootloader]),
        Kernel := StageDuration(t[Kernel]),
        Rootfs := StageDuration(t[Rootfs])]
  }

  /** A stage whose end is not yet recorded reads zero, however long it has been open. */
  lemma OpenStageReadsZero(t: Timeline, s: Stage)
    requires Complete(t) && t[s].end == None
    ensures ComputeDurations(t)[s] == 0.0
  {
  }

  /** A closed stage whose end is not before its start never reads negative. */
  lemma OrderedStageNonNegative(t: Timeline, s: Stage)
    requires Complete(t)
    requires t[s].start.Some? && t[s].end.Some? && t[s].start.value <= t[s].end.value
    ensures ComputeDurations(t)[s] >= 0.0
  {
  }

  /** The durations depend on nothing but the intervals: equal timelines, equal durations per stage. */
  lemma DurationIsPerStage(t: Timeline, u: Timeline, s: Stage)
    requires Complete(t) && Complete(u) && t[s] == u[s]
    ensures ComputeDurations(t)[s] == ComputeDurations(u)[s]
  {
  }
}
