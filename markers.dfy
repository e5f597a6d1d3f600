/**
 * The four boot markers and the search that finds them in a log line.
 *
 * Every marker is a regular expression whose only special characters are
 * escaped (`\.`, `\(`, `\)`), so searching for it anywhere in a line is
 * plain substring containment.
 */
module Markers {

  /**
   * The four boot patterns, one per branch of the line handler, named by
   * what they mark.
   */
  datatype MarkerTable = MarkerTable(
    powerOn: string,      // power-on reset: a boot begins and Bootloader opens
    kernelStart: string,  // closes Bootloader and opens Kernel
    banner: string,       // closes Kernel and opens Rootfs
    login: string)        // closes Rootfs

  /** The patterns the tracker is built with. */
  const BootMarkers: MarkerTable := MarkerTable(
    "NOTICE:  Reset status: Power-On Reset",
    "Starting kernel ...",
    "Welcome to Auto Linux BSP 42.0 (kirkstone)!",
    "s32g399ardb3 login:")

  /**
   * Characters that tell the patterns apart: only the reset pattern has an
   * 'N', the login prompt has no 'S' and has an 'l'. One lemma per pattern
   * keeps each literal in a proof of its own.
   */
  lemma PowerOnCharacters()
    ensures 'N' in BootMarkers.powerOn
  {
    var powerOn := "NOTICE:  Reset status: Power-On Reset";
    assert BootMarkers.powerOn == powerOn;
    assert powerOn[0] == 'N';
  }

  lemma KernelStartCharacters()
    ensures 'N' !in BootMarkers.kernelStart && 'S' in BootMarkers.kernelStart
  {
    var kernelStart := "Starting kernel ...";
    assert BootMarkers.kernelStart == kernelStart;
    assert kernelStart[0] == 'S';
    forall i | 0 <= i < |kernelStart| ensures kernelStart[i] != 'N' { }
  }

  lemma BannerCharacters()
    ensures 'N' !in BootMarkers.banner
  {
    var banner := "Welcome to Auto Linux BSP 42.0 (kirkstone)!";
    assert BootMarkers.banner == banner;
    forall i | 0 <= i < |banner| ensures banner[i] != 'N' { }
  }

  lemma LoginCharacters()
    ensures 'N' !in BootMarkers.login && 'S' !in BootMarkers.login && 'l' in BootMarkers.login
  {
    var login := "s32g399ardb3 login:";
    assert BootMarkers.login == login;
    assert login[13] == 'l';
    forall i | 0 <= i < |login| ensures login[i] != 'N' && login[i] != 'S' { }
  }

  /** `pattern` occurs in `line` starting at index `i`. */
  ghost predicate OccursAt(line: string, pattern: string, i: int) {
    0 <= i && i + |pattern| <= |line| && line[i..i + |pattern|] == pattern
  }

  /** An occurrence after the first character is an occurrence in the tail. */
  lemma OccursInTail(line: string, pattern: string, i: int)
    requires |line| > 0 && i >= 1
    ensures OccursAt(line, pattern, i) <==> OccursAt(line[1..], pattern, i - 1)
  {
    if i + |pattern| <= |line| {
      assert line[1..][i - 1..i - 1 + |pattern|] == line[i..i + |pattern|];
    }
  }

  /** An occurrence is either at the very start or somewhere in the tail. */
  lemma OccursHeadOrTail(line: string, pattern: string)
    ensures (exists i :: OccursAt(line, pattern, i)) <==>
            (pattern <= line || (|line| > 0 && exists j :: OccursAt(line[1..], pattern, j)))
  {
    if pattern <= line {
      assert OccursAt(line, pattern, 0);
    }
    if |line| > 0 && exists j :: OccursAt(line[1..], pattern, j) {
      var j :| OccursAt(line[1..], pattern, j);
      OccursInTail(line, pattern, j + 1);
    }
    if i :| OccursAt(line, pattern, i) {
      if i == 0 {
        assert pattern <= line;
      } else {
        OccursInTail(line, pattern, i);
      }
    }
  }

  /** `re.search` of a literal pattern: does `pattern` occur anywhere in `line`? */
  function Contains(line: string, pattern: string): (found: bool)
    ensures found <==> exists i :: OccursAt(line, pattern, i)
    decreases |line|
  {
    OccursHeadOrTail(line, pattern);
    if pattern <= line then true
    else if |line| == 0 then false
    else Contains(line[1..], pattern)
  }

  /** A line that lacks one of the pattern's characters cannot contain it. */
  lemma AbsentCharacter(line: string, pattern: string, c: char)
    requires c in pattern && c !in line
    ensures !Contains(line, pattern)
  {
    var k :| 0 <= k < |pattern| && pattern[k] == c;
    forall i | 0 <= i && i + |pattern| <= |line| ensures !OccursAt(line, pattern, i) {
      assert line[i..i + |pattern|][k] == line[i + k];
      assert line[i + k] in line;
    }
  }

  /** A line ending with the pattern contains it. */
  lemma ContainsSuffix(prefix: string, pattern: string)
    ensures Contains(prefix + pattern, pattern)
  {
    assert OccursAt(prefix + pattern, pattern, |prefix|);
  }
}
