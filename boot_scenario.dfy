/**
 * The boot sequence the test generator writes: seven messages, each line
 * prefixed with a "[HH:MM:SS]" wall-clock tag and a space.
 */
module BootScenario {
  import opened Wrappers
  import opened Markers
  import opened Timeline
  import opened LogBuffer
  import opened BootTracker
  import opened TrackerProperties

  /** The generator's messages, in the order it writes them. */
  const Messages: seq<string> := [
    "NOTICE:  Reset status: Power-On Reset",
    "Starting kernel ...",
    "Welcome to Auto Linux BSP 42.0 (kirkstone)!",
    "Rootfs start2",
    "Rootfs start3",
    "Rootfs start4",
    "s32g399ardb3 login:"
  ]

  /** The same messages written in terms of a marker table: its four patterns and three fillers. */
  function MessagesFor(m: MarkerTable): seq<string> {
    [m.powerOn, m.kernelStart, m.banner, "Rootfs start2", "Rootfs start3", "Rootfs start4", m.login]
  }

  /** Each marker message of the generator is exactly the tracker's pattern text. */
  lemma MessagesAreMarkers()
    ensures Messages == MessagesFor(BootMarkers)
  {
  }

  /** The characters a "[HH:MM:SS]" tag is made of. */
  const TagAlphabet: string := "[]:0123456789"

  predicate IsTimeTag(tag: string) {
    forall i | 0 <= i < |tag| :: tag[i] in TagAlphabet
  }

  /** A message as the generator writes it: its tag, a space, the message. */
  function Tagged(tag: string, msg: string): string {
    tag + " " + msg
  }

  /** The lines as they reach the handler, each arriving at its own time. */
  function BootFeed(m: MarkerTable, tags: seq<string>, t: seq<Timestamp>): (feed: seq<LogEntry>)
    requires |tags| == 7 && |t| == 7
    ensures |feed| == 7
    ensures forall k | 0 <= k < 7 :: feed[k] == LogEntry(t[k], Tagged(tags[k], MessagesFor(m)[k]))
  {
    seq(7, k requires 0 <= k < 7 => LogEntry(t[k], Tagged(tags[k], MessagesFor(m)[k])))
  }

  /**
   * The characters that tell the generator's lines apart: the reset
   * pattern's 'N' is in no other message, the kernel pattern's 'S' is not in
   * the login prompt, the login prompt has an 'l', and none of the three
   * occurs in a filler line, a space or a time tag.
   */
  ghost predicate Distinguishable(m: MarkerTable) {
    && 'N' in m.powerOn && 'N' !in m.kernelStart && 'N' !in m.banner && 'N' !in m.login
    && 'S' in m.kernelStart && 'S' !in m.login
    && 'l' in m.login
  }

  /** The tracker's own markers are told apart by those characters. */
  lemma BootMarkersDistinguishable()
    ensures Distinguishable(BootMarkers)
  {
    PowerOnCharacters();
    KernelStartCharacters();
    BannerCharacters();
    LoginCharacters();
  }

  /** A tagged line lacking a character of the pattern does not match it. */
  lemma TaggedLineMisses(tag: string, msg: string, pattern: string, c: char)
    requires IsTimeTag(tag) && c !in TagAlphabet && c != ' ' && c !in msg && c in pattern
    ensures !Contains(Tagged(tag, msg), pattern)
  {
    forall i | 0 <= i < |tag| ensures tag[i] != c {
      assert tag[i] in TagAlphabet;
    }
    assert c !in tag;
    AbsentCharacter(tag + " " + msg, pattern, c);
  }

  /** A tagged line matches the message it carries. */
  lemma TaggedLineMatches(tag: string, msg: string)
    ensures Contains(Tagged(tag, msg), msg)
  {
    ContainsSuffix(tag + " ", msg);
  }

  /** A filler line lacks the reset, kernel and login characters. */
  lemma FillerCharacters(k: int)
    requires 3 <= k < 6
    ensures var msg := ["Rootfs start2", "Rootfs start3", "Rootfs start4"][k - 3];
      'N' !in msg && 'S' !in msg && 'l' !in msg
  {
  }

  /**
   * The markers a seven-line boot feed carries: reset, kernel, banner and
   * login on lines 0, 1, 2 and 6, no reset after line 0, no kernel marker
   * after line 2 and no login marker on the three filler lines.
   */
  ghost predicate CarriesBootMarkers(m: MarkerTable, feed: seq<LogEntry>) {
    && |feed| == 7
    && Contains(feed[0].text, m.powerOn)
    && Contains(feed[1].text, m.kernelStart)
    && Contains(feed[2].text, m.banner)
    && Contains(feed[6].text, m.login)
    && (forall k | 1 <= k < 7 :: !Contains(feed[k].text, m.powerOn))
    && (forall k | 3 <= k < 7 :: !Contains(feed[k].text, m.kernelStart))
    && (forall k | 3 <= k < 6 :: !Contains(feed[k].text, m.login))
  }

  /** Each marker line matches its own pattern. */
  lemma FeedMatches(m: MarkerTable, tags: seq<string>, t: seq<Timestamp>)
    requires |tags| == 7 && |t| == 7
    ensures var feed := BootFeed(m, tags, t);
      && Contains(feed[0].text, m.powerOn)
      && Contains(feed[1].text, m.kernelStart)
      && Contains(feed[2].text, m.banner)
      && Contains(feed[6].text, m.login)
  {
    TaggedLineMatches(tags[0], m.powerOn);
    TaggedLineMatches(tags[1], m.kernelStart);
    TaggedLineMatches(tags[2], m.banner);
    TaggedLineMatches(tags[6], m.login);
  }

  /** No line after the first carries the reset pattern. */
  lemma FeedMissesReset(m: MarkerTable, tags: seq<string>, t: seq<Timestamp>)
    requires |tags| == 7 && |t| == 7 && Distinguishable(m)
    requires forall k | 0 <= k < 7 :: IsTimeTag(tags[k])
    ensures var feed := BootFeed(m, tags, t);
      forall k | 1 <= k < 7 :: !Contains(feed[k].text, m.powerOn)
  {
    var msgs := MessagesFor(m);
    forall k | 1 <= k < 7 ensures !Contains(Tagged(tags[k], msgs[k]), m.powerOn) {
      if 3 <= k < 6 { FillerCharacters(k); }
      TaggedLineMisses(tags[k], msgs[k], m.powerOn, 'N');
    }
  }

  /** No line after the banner carries the kernel pattern. */
  lemma FeedMissesKernel(m: MarkerTable, tags: seq<string>, t: seq<Timestamp>)
    requires |tags| == 7 && |t| == 7 && Distinguishable(m)
    requires forall k | 0 <= k < 7 :: IsTimeTag(tags[k])
    ensures var feed := BootFeed(m, tags, t);
      forall k | 3 <= k < 7 :: !Contains(feed[k].text, m.kernelStart)
  {
    var msgs := MessagesFor(m);
    forall k | 3 <= k < 7 ensures !Contains(Tagged(tags[k], msgs[k]), m.kernelStart) {
      if k < 6 { FillerCharacters(k); }
      TaggedLineMisses(tags[k], msgs[k], m.kernelStart, 'S');
    }
  }

  /** No filler line carries the login pattern. */
  lemma FeedMissesLogin(m: MarkerTable, tags: seq<string>, t: seq<Timestamp>)
    requires |tags| == 7 && |t| == 7 && Distinguishable(m)
    requires forall k | 0 <= k < 7 :: IsTimeTag(tags[k])
    ensures var feed := BootFeed(m, tags, t);
      forall k | 3 <= k < 6 :: !Contains(feed[k].text, m.login)
  {
    var msgs := MessagesFor(m);
    forall k | 3 <= k < 6 ensures !Contains(Tagged(tags[k], msgs[k]), m.login) {
      FillerCharacters(k);
      TaggedLineMisses(tags[k], msgs[k], m.login, 'l');
    }
  }

  /** The tagged feed carries the boot markers where the messages put them. */
  lemma FeedMarkers(m: MarkerTable, tags: seq<string>, t: seq<Timestamp>)
    requires |tags| == 7 && |t| == 7 && Distinguishable(m)
    requires forall k | 0 <= k < 7 :: IsTimeTag(tags[k])
    ensures CarriesBootMarkers(m, BootFeed(m, tags, t))
  {
    FeedMatches(m, tags, t);
    FeedMissesReset(m, tags, t);
    FeedMissesKernel(m, tags, t);
    FeedMissesLogin(m, tags, t);
  }

  /** After the reset line: a run started and Bootloader open. */
  lemma AfterReset(m: MarkerTable, s: TrackerState, feed: seq<LogEntry>)
    requires Complete(s.timeline) && CarriesBootMarkers(m, feed)
    ensures var r := Run(m, s, feed[..1]);
      && r.timeline[Bootloader].start == Some(feed[0].time)
      && r.startTime == Some(feed[0].time) && r.current == Some(Bootloader)
  {
    assert feed[..0] == [];
    RunPrefix(m, s, feed, 0);
    PowerOnResetStep(m, s, feed[0]);
  }

  /** After the kernel line: Bootloader closed, Kernel open. */
  lemma AfterKernel(m: MarkerTable, s: TrackerState, feed: seq<LogEntry>)
    requires Complete(s.timeline) && CarriesBootMarkers(m, feed)
    ensures var r := Run(m, s, feed[..2]);
      && r.timeline[Bootloader] == Interval(Some(feed[0].time), Some(feed[1].time))
      && r.timeline[Kernel].start == Some(feed[1].time)
      && r.startTime == Some(feed[0].time) && r.current == Some(Kernel)
  {
    AfterReset(m, s, feed);
    RunPrefix(m, s, feed, 1);
    KernelStartingStep(m, Run(m, s, feed[..1]), feed[1]);
  }

  /** After the banner line: Kernel closed, Rootfs open. */
  lemma AfterBanner(m: MarkerTable, s: TrackerState, feed: seq<LogEntry>)
    requires Complete(s.timeline) && CarriesBootMarkers(m, feed)
    ensures var r := Run(m, s, feed[..3]);
      && r.timeline[Bootloader] == Interval(Some(feed[0].time), Some(feed[1].time))
      && r.timeline[Kernel] == Interval(Some(feed[1].time), Some(feed[2].time))
      && r.timeline[Rootfs].start == Some(feed[2].time)
      && r.startTime == Some(feed[0].time) && r.current == Some(Rootfs)
  {
    AfterKernel(m, s, feed);
    RunPrefix(m, s, feed, 2);
    WelcomeStep(m, Run(m, s, feed[..2]), feed[2]);
  }

  /** A filler line while Rootfs is tracked changes nothing but the log. */
  lemma AfterFiller(m: MarkerTable, s: TrackerState, feed: seq<LogEntry>, k: nat)
    requires Complete(s.timeline) && CarriesBootMarkers(m, feed) && 3 <= k < 6
    requires Run(m, s, feed[..k]).current == Some(Rootfs)
    ensures var r, r' := Run(m, s, feed[..k]), Run(m, s, feed[..k + 1]);
      r'.timeline == r.timeline && r'.startTime == r.startTime && r'.current == r.current
  {
    RunPrefix(m, s, feed, k);
    InertStep(m, Run(m, s, feed[..k]), feed[k]);
  }

  /** After the three filler lines: as after the banner. */
  lemma AfterFillers(m: MarkerTable, s: TrackerState, feed: seq<LogEntry>)
    requires Complete(s.timeline) && CarriesBootMarkers(m, feed)
    ensures var r := Run(m, s, feed[..6]);
      && r.timeline[Bootloader] == Interval(Some(feed[0].time), Some(feed[1].time))
      && r.timeline[Kernel] == Interval(Some(feed[1].time), Some(feed[2].time))
      && r.timeline[Rootfs].start == Some(feed[2].time)
      && r.startTime == Some(feed[0].time) && r.current == Some(Rootfs)
  {
    AfterBanner(m, s, feed);
    AfterFiller(m, s, feed, 3);
    AfterFiller(m, s, feed, 4);
    AfterFiller(m, s, feed, 5);
  }

  /**
   * Replaying a boot feed from any state records Bootloader from the reset
   * to the kernel line, Kernel from there to the banner and Rootfs from the
   * banner to the login prompt, and leaves no stage tracked.
   */
  lemma ReplayBoot(m: MarkerTable, s: TrackerState, feed: seq<LogEntry>)
    requires Complete(s.timeline) && CarriesBootMarkers(m, feed)
    ensures var r := Run(m, s, feed);
      && r.timeline[Bootloader] == Interval(Some(feed[0].time), Some(feed[1].time))
      && r.timeline[Kernel] == Interval(Some(feed[1].time), Some(feed[2].time))
      && r.timeline[Rootfs] == Interval(Some(feed[2].time), Some(feed[6].time))
      && r.startTime == Some(feed[0].time) && r.current == None
  {
    AfterFillers(m, s, feed);
    RunPrefix(m, s, feed, 6);
    LoginStep(m, Run(m, s, feed[..6]), feed[6]);
    assert feed[..7] == feed;
  }

  /**
   * Feeding the generator's seven messages from any state records Bootloader
   * over [t0, t1], Kernel over [t1, t2] and Rootfs over [t2, t6]; the three
   * filler lines change nothing and no stage is tracked afterwards. Every
   * field is overwritten, so a stale earlier run leaves no trace.
   */
  lemma BootSequence(s: TrackerState, tags: seq<string>, t: seq<Timestamp>)
    requires Complete(s.timeline)
    requires |tags| == |Messages| && |t| == |Messages|
    requires forall k | 0 <= k < |tags| :: IsTimeTag(tags[k])
    ensures var r := Run(BootMarkers, s, BootFeed(BootMarkers, tags, t));
      && r.timeline[Bootloader] == Interval(Some(t[0]), Some(t[1]))
      && r.timeline[Kernel] == Interval(Some(t[1]), Some(t[2]))
      && r.timeline[Rootfs] == Interval(Some(t[2]), Some(t[6]))
      && r.startTime == Some(t[0]) && r.current == None
  {
    BootMarkersDistinguishable();
    FeedMarkers(BootMarkers, tags, t);
    ReplayBoot(BootMarkers, s, BootFeed(BootMarkers, tags, t));
  }

  /**
   * With increasing, positive arrival times the three durations are the
   * three gaps between markers, and all positive.
   */
  lemma BootDurations(s: TrackerState, tags: seq<string>, t: seq<Timestamp>)
    requires Complete(s.timeline)
    requires |tags| == |Messages| && |t| == |Messages|
    requires forall k | 0 <= k < |tags| :: IsTimeTag(tags[k])
    requires 0.0 < t[0] < t[1] < t[2] < t[3] < t[4] < t[5] < t[6]
    ensures var d := ComputeDurations(Run(BootMarkers, s, BootFeed(BootMarkers, tags, t)).timeline);
      && d[Bootloader] == t[1] - t[0] > 0.0
      && d[Kernel] == t[2] - t[1] > 0.0
      && d[Rootfs] == t[6] - t[2] > 0.0
  {
    BootSequence(s, tags, t);
  }
}
