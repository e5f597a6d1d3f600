/**
 * The bounded log of ingested lines: a ring buffer of the newest 1000
 * entries, each an arrival time paired with the line's text. Appending to a
 * full buffer evicts the oldest entry.
 */
module LogBuffer {

  /** One logged line and the wall-clock time at which it arrived. */
  datatype LogEntry = LogEntry(time: real, text: string)

  /** The buffer's capacity (the deque's `maxlen`). */
  const MaxLines: nat := 1000

  /** The newest `n` elements of `s`, oldest first; all of `s` when it is no longer than `n`. */
  function Newest<T>(s: seq<T>, n: nat): seq<T> {
    if |s| <= n then s else s[|s| - n..]
  }

  /**
   * The log after one append: never longer than the capacity, the new entry
   * at the newest end, nothing evicted while there is room, and exactly the
   * oldest entry evicted when full.
   */
  function Appended(log: seq<LogEntry>, e: LogEntry): (r: seq<LogEntry>)
    ensures |r| == if |log| < MaxLines then |log| + 1 else MaxLines
    ensures r[|r| - 1] == e
    ensures |log| < MaxLines ==> r == log + [e]
    ensures |log| == MaxLines ==> r == log[1..] + [e]
  {
    Newest(log + [e], MaxLines)
  }

  /** Trimming to the newest `n` and then appending keeps the same window as appending first. */
  lemma {:induction false} NewestOfNewest<T>(a: seq<T>, b: seq<T>, n: nat)
    ensures Newest(Newest(a, n) + b, n) == Newest(a + b, n)
  {
    if |a| > n {
      var k := |a| - n;
      assert a + b == a[..k] + (a[k..] + b);
      assert (a + b)[k..] == a[k..] + b;
      if |a[k..] + b| > n {
        assert (a[k..] + b)[|a[k..] + b| - n..] == (a + b)[|a + b| - n..];
      }
    }
  }

  /** Appending the next line of a feed to the window of its first `k` lines gives the window of `k + 1`. */
  lemma NewestSnoc(log: seq<LogEntry>, feed: seq<LogEntry>, k: nat)
    requires k < |feed|
    ensures Appended(Newest(log + feed[..k], MaxLines), feed[k]) == Newest(log + feed[..k + 1], MaxLines)
  {
    NewestOfNewest(log + feed[..k], [feed[k]], MaxLines);
    assert log + feed[..k + 1] == (log + feed[..k]) + [feed[k]];
  }

  /** Index `i` positions after `start` in a ring of `MaxLines` slots. */
  function Slot(start: nat, i: nat): nat
    requires start < MaxLines && i <= MaxLines
  {
    if start + i < MaxLines then start + i else start + i - MaxLines
  }

  class BoundedLog {
    /** The entries held, oldest first. */
    ghost var Contents: seq<LogEntry>
    ghost var Repr: set<object>

    var data: array<LogEntry>
    var start: nat
    var len: nat

    ghost predicate Valid()
      reads this, Repr
      ensures Valid() ==> this in Repr
    {
      && this in Repr && data in Repr && Repr == {this, data}
      && data.Length == MaxLines && start < MaxLines && len <= MaxLines
      && |Contents| == len
      && forall i :: 0 <= i < len ==> Contents[i] == data[Slot(start, i)]
    }

    /** An empty buffer of capacity `MaxLines`. */
    constructor ()
      ensures Valid() && fresh(Repr)
      ensures Contents == []
    {
      data := new LogEntry[MaxLines];
      start, len := 0, 0;
      Contents := [];
      Repr := {this, data};
    }

    /** Appends `e` at the newest end, evicting the oldest entry when full. */
    method Append(e: LogEntry)
      requires Valid()
      modifies Repr
      ensures Valid() && Repr == old(Repr)
      ensures Contents == Appended(old(Contents), e)
    {
      if len < MaxLines {
        data[Slot(start, len)] := e;
        len := len + 1;
      } else {
        data[start] := e;
        start := Slot(start, 1);
      }
      Contents := Appended(Contents, e);
    }

    /** The entries, oldest first, as the log view iterates them. */
    method Lines() returns (lines: seq<LogEntry>)
      requires Valid()
      ensures lines == Contents
    {
      lines := [];
      var i := 0;
      while i < len
        invariant 0 <= i <= len
        invariant lines == Contents[..i]
      {
        lines := lines + [data[Slot(start, i)]];
        i := i + 1;
      }
    }
  }
}
