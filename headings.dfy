/** The three patterns the document body is cut with in `src/harp.ts`, as
    explicit string functions:
    - the section heading `^## (\S+?):\s*(.+)$`, with no `m` flag, so that it
      is anchored to the start and the end of the whole chunk;
    - the chunk split `(?=^## )` with the `m` flag, an empty match before
      every line that starts with `## `;
    - the metadata block `<!-- harp:meta\n([\s\S]*?)-->`. */
module Headings {
  import opened Wrappers
  import opened Strings

  // ---------------------------------------------------------------------------
  // The heading pattern

  /** The two capture groups of a heading match and the length of the match. */
  datatype Heading = Heading(sectionType: string, title: string, length: nat)

  predicate AllSpace(s: string) {
    forall i :: 0 <= i < |s| ==> IsSpace(s[i])
  }

  /** Where `(.+)$` starts after `\s*` in `after`: the white-space run is
      greedy but must leave `.+` at least one character. */
  function TitleStart(after: string): (k: nat)
    requires |after| > 0
    ensures k < |after|
  {
    var w := LeadingSpaces(after);
    if w < |after| then w else |after| - 1
  }

  /** `\s*(.+)$` against `after`: white space, then a non-empty title that
      runs to the end without a line terminator. Only the longest white-space
      run needs trying: a shorter one leaves a longer rest that still holds
      the line terminator (see `TitleOfComplete`). */
  function TitleOf(after: string): (r: Option<string>)
    ensures r.Some? ==> |r.value| > 0 && NoLineTerminator(r.value) && EndsWith(after, r.value)
  {
    if |after| == 0 then None
    else
      var title := after[TitleStart(after)..];
      if LineLength(title) == |title| then Some(title) else None
  }

  /** What the title part skips is white space. */
  lemma TitleOfSkipsSpace(after: string)
    requires TitleOf(after).Some?
    ensures AllSpace(after[..|after| - |TitleOf(after).value|])
  {
    var k := TitleStart(after);
    forall i | 0 <= i < k
      ensures IsSpace(after[..k][i])
    {
      assert after[..k][i] == after[i];
    }
  }

  /** When the title part fails, no split of `after` into white space and a
      non-empty one-line rest exists: the greedy choice loses no match. */
  lemma TitleOfComplete(after: string, k: nat)
    requires TitleOf(after).None?
    requires k < |after| && AllSpace(after[..k])
    ensures !NoLineTerminator(after[k..])
  {
    forall i | 0 <= i < k
      ensures IsSpace(after[i])
    {
      assert after[..k][i] == after[i];
    }
    LeadingSpacesAtLeast(after, k);
    var start := TitleStart(after);
    var title := after[start..];
    if NoLineTerminator(title) {
      LineLengthOfLine(title);
    }
    var m :| 0 <= m < |title| && IsLineTerminator(title[m]);
    assert after[k..][m + start - k] == title[m];
  }

  /** The title part fails when a line terminator follows a character that is
      not white space. */
  lemma TitleOfNone(after: string, q: nat, m: nat)
    requires q < m < |after| && !IsSpace(after[q]) && IsLineTerminator(after[m])
    ensures TitleOf(after).None?
  {
    LeadingSpacesAtMost(after, q);
    var start := TitleStart(after);
    assert after[start..][m - start] == after[m];
    LineLengthAtMost(after[start..], m - start);
  }

  /** A title that follows exactly one space. */
  lemma TitleAfterSpace(title: string)
    requires |title| > 0 && NoLineTerminator(title) && !IsSpace(title[0])
    ensures TitleOf(" " + title) == Some(title)
  {
    var s := " " + title;
    assert s[1..] == title;
    assert LeadingSpaces(title) == 0;
    assert LeadingSpaces(s) == 1;
    LineLengthOfLine(title);
  }

  /** The length of the run of characters other than white space at the
      start of `s`. */
  function NonSpaceRun(s: string): (k: nat)
    ensures k <= |s|
    ensures forall i :: 0 <= i < k ==> !IsSpace(s[i])
  {
    if |s| == 0 || IsSpace(s[0]) then 0 else 1 + NonSpaceRun(s[1..])
  }

  lemma {:induction false} NonSpaceRunAtMost(s: string, q: nat)
    requires q < |s| && IsSpace(s[q])
    ensures NonSpaceRun(s) <= q
  {
    if q > 0 && !IsSpace(s[0]) {
      NonSpaceRunAtMost(s[1..], q - 1);
    }
  }

  lemma {:induction false} NonSpaceRunAtLeast(s: string, k: nat)
    requires k <= |s| && forall i :: 0 <= i < k ==> !IsSpace(s[i])
    ensures k <= NonSpaceRun(s)
  {
    if k > 0 {
      assert !IsSpace(s[0]);
      assert forall i :: 0 <= i < k - 1 ==> s[1..][i] == s[i + 1];
      NonSpaceRunAtLeast(s[1..], k - 1);
    }
  }

  /** The lazy `(\S+?):` scan: tries `rest[..j]` as the type for j = 1, 2, ...
      while those characters are not white space, and returns the first j at
      which a colon follows and the title part matches. */
  function ColonFrom(rest: string, j: nat): (r: Option<nat>)
    requires 1 <= j
    decreases |rest| - j
    ensures r.Some? ==> j <= r.value <= NonSpaceRun(rest) && r.value < |rest| && rest[r.value] == ':'
  {
    if |rest| <= j || NonSpaceRun(rest) < j then None
    else if rest[j] == ':' && TitleOf(rest[j + 1..]).Some? then Some(j)
    else ColonFrom(rest, j + 1)
  }

  /** `chunk.match(SECTION_HEADING_REGEX)`. Without the `m` flag the match is
      the whole chunk, so `length` is always `|chunk|`. */
  function HeadingMatch(chunk: string): (r: Option<Heading>)
    ensures r.Some? ==> r.value.length == |chunk|
  {
    if !StartsWith(chunk, "## ") then None
    else
      var rest := chunk[3..];
      match ColonFrom(rest, 1)
      case None => None
      case Some(n) =>
        match TitleOf(rest[n + 1..])
        case None => None
        case Some(title) => Some(Heading(rest[..n], title, |chunk|))
  }

  /** A chunk that does not start with `## ` is no heading. */
  lemma NotHeadingStart(chunk: string)
    requires !StartsWith(chunk, "## ")
    ensures HeadingMatch(chunk).None?
  {
  }

  /** What a match says about the chunk: `## `, a type with no white space,
      a colon, white space and a one-line title that ends the chunk. */
  predicate HeadingShaped(chunk: string, sectionType: string, title: string) {
    && |sectionType| > 0 && NoSpace(sectionType)
    && StartsWith(chunk, "## " + sectionType + ":")
    && |title| > 0 && NoLineTerminator(title) && EndsWith(chunk, title)
    && 4 + |sectionType| + |title| <= |chunk|
    && AllSpace(chunk[4 + |sectionType|..|chunk| - |title|])
  }

  lemma HeadingShape(chunk: string)
    requires HeadingMatch(chunk).Some?
    ensures HeadingShaped(chunk, HeadingMatch(chunk).value.sectionType, HeadingMatch(chunk).value.title)
  {
    var h := HeadingMatch(chunk).value;
    var rest, n, after := HeadingPieces(chunk);
    ShapeFacts(chunk, rest, n, after, h.sectionType, h.title);
  }

  /** The cases of a match: no `## `, no colon, no title, or a heading. */
  lemma MatchCases(chunk: string)
    ensures !StartsWith(chunk, "## ") ==> HeadingMatch(chunk).None?
    ensures StartsWith(chunk, "## ") && ColonFrom(chunk[3..], 1).None? ==> HeadingMatch(chunk).None?
    ensures StartsWith(chunk, "## ") && ColonFrom(chunk[3..], 1).Some? ==>
      var n := ColonFrom(chunk[3..], 1).value;
      match TitleOf(chunk[3..][n + 1..])
      case None => HeadingMatch(chunk).None?
      case Some(title) => HeadingMatch(chunk) == Some(Heading(chunk[3..][..n], title, |chunk|))
  {
  }

  /** The pieces a match is assembled from. */
  lemma HeadingPieces(chunk: string) returns (rest: string, n: nat, after: string)
    requires HeadingMatch(chunk).Some?
    ensures StartsWith(chunk, "## ") && rest == chunk[3..]
    ensures 1 <= n < |rest| && rest[n] == ':' && after == rest[n + 1..]
    ensures HeadingMatch(chunk).value.sectionType == rest[..n]
    ensures forall i :: 0 <= i < n ==> !IsSpace(rest[i])
    ensures TitleOf(after) == Some(HeadingMatch(chunk).value.title)
  {
    MatchCases(chunk);
    var h := HeadingMatch(chunk).value;
    rest := chunk[3..];
    var colon := ColonFrom(rest, 1);
    n := colon.value;
    after := rest[n + 1..];
    var title := TitleOf(after);
    assert title == Some(h.title);
  }

  lemma ShapeFacts(chunk: string, rest: string, n: nat, after: string, t: string, title: string)
    requires StartsWith(chunk, "## ") && rest == chunk[3..]
    requires 1 <= n < |rest| && rest[n] == ':' && after == rest[n + 1..] && t == rest[..n]
    requires forall i :: 0 <= i < n ==> !IsSpace(rest[i])
    requires TitleOf(after) == Some(title)
    ensures HeadingShaped(chunk, t, title)
  {
    TitleOfSkipsSpace(after);
    assert after == chunk[4 + n..];
    assert NoSpace(t);
    assert chunk[..4 + n] == "## " + t + ":";
    assert chunk[4 + n..|chunk| - |title|] == after[..|after| - |title|];
    assert chunk[|chunk| - |title|..] == after[|after| - |title|..];
  }

  /** A heading line as `serializeSection` writes it matches with the type
      and the title it was written from, provided the type has no white space
      or colon and the title is one line that does not start with white space. */
  lemma HeadingOfSerialized(sectionType: string, title: string)
    requires |sectionType| > 0 && NoSpace(sectionType) && ':' !in sectionType
    requires |title| > 0 && NoLineTerminator(title) && !IsSpace(title[0])
    ensures HeadingMatch("## " + sectionType + ": " + title)
      == Some(Heading(sectionType, title, 5 + |sectionType| + |title|))
  {
    var chunk := "## " + sectionType + ": " + title;
    var rest := sectionType + ": " + title;
    var n := |sectionType|;
    assert chunk[..3] == "## " && chunk[3..] == rest;
    assert rest[n + 1..] == " " + title;
    TitleAfterSpace(title);
    assert forall i :: 0 <= i < n ==> rest[i] == sectionType[i];
    NonSpaceRunAtLeast(rest, n);
    ScanToColon(rest, n, 1);
    assert rest[..n] == sectionType;
  }

  lemma {:induction false} ScanToColon(rest: string, n: nat, j: nat)
    requires 1 <= j <= n <= NonSpaceRun(rest) && n < |rest|
    requires rest[n] == ':' && TitleOf(rest[n + 1..]).Some?
    requires forall i :: 0 <= i < n ==> rest[i] != ':'
    decreases n - j
    ensures ColonFrom(rest, j) == Some(n)
  {
    if j < n {
      ScanToColon(rest, n, j + 1);
      ColonFromSkips(rest, j);
    }
  }

  /** A character other than a colon does not end the scan. */
  lemma ColonFromSkips(rest: string, j: nat)
    requires 1 <= j <= NonSpaceRun(rest) && j < |rest| && rest[j] != ':'
    ensures ColonFrom(rest, j) == ColonFrom(rest, j + 1)
  {
  }

  /** A heading line followed by a line break and anything at all is not a
      heading: the title part of the pattern may not cross a line. This is
      why a section with content or metadata is read back as preamble. */
  lemma HeadingThenMoreIsNotHeading(sectionType: string, title: string, more: string)
    requires |title| > 0 && !IsSpace(title[0])
    ensures HeadingMatch("## " + sectionType + ": " + title + "\n" + more).None?
  {
    var chunk := "## " + sectionType + ": " + title + "\n" + more;
    var rest := sectionType + ": " + title + "\n" + more;
    var t := |sectionType|;
    assert chunk[..3] == "## " && chunk[3..] == rest;
    assert rest[t + 1] == ' ';
    assert rest[t + 2] == title[0];
    assert rest[t + 2 + |title|] == '\n';
    NonSpaceRunAtMost(rest, t + 1);
    ScanStopsAtLine(rest, t + 1, t + 2, t + 2 + |title|, 1);
  }

  /** The scan stops at the white space at `sp`; every colon before it leaves
      a title part that holds the character at `q`, which is not white space,
      and the line terminator at `m` after it. */
  lemma {:induction false} ScanStopsAtLine(rest: string, sp: nat, q: nat, m: nat, j: nat)
    requires sp < q < m < |rest| && NonSpaceRun(rest) <= sp && !IsSpace(rest[q]) && IsLineTerminator(rest[m])
    requires 1 <= j
    decreases |rest| - j
    ensures ColonFrom(rest, j).None?
  {
    if j <= NonSpaceRun(rest) {
      var after := rest[j + 1..];
      assert after[q - (j + 1)] == rest[q];
      assert after[m - (j + 1)] == rest[m];
      TitleOfNone(after, q - (j + 1), m - (j + 1));
      ScanStopsAtLine(rest, sp, q, m, j + 1);
    }
  }

  // ---------------------------------------------------------------------------
  // The chunk split

  /** `(?=^## )` with the `m` flag matches at `q`: `q` starts a line and the
      line starts with `## `. */
  predicate IsBoundary(s: string, q: nat) {
    0 < q <= |s| && IsLineTerminator(s[q - 1]) && OccursAt(s, "## ", q)
  }

  /** The first split point at or after `from`. */
  function NextBoundary(s: string, from: nat): (r: Option<nat>)
    requires 0 < from
    decreases |s| - from
    ensures r.Some? ==> from <= r.value < |s| && IsBoundary(s, r.value)
    ensures r.Some? ==> forall q :: from <= q < r.value ==> !IsBoundary(s, q)
    ensures r.None? ==> forall q :: from <= q ==> !IsBoundary(s, q)
  {
    if |s| <= from then None
    else if IsBoundary(s, from) then Some(from)
    else NextBoundary(s, from + 1)
  }

  /** `s.split(/(?=^## )/m)`: the empty match at position 0 never splits. */
  function SplitChunks(s: string): (r: seq<string>)
    decreases |s|
    ensures |r| >= 1
  {
    match NextBoundary(s, 1)
    case None => [s]
    case Some(q) => [s[..q]] + SplitChunks(s[q..])
  }

  /** A chunk that ends in two line breaks and has no split point before them
      is cut off whole when a `## ` line follows. */
  lemma SplitChunksCons(c: string, rest: string)
    requires |c| >= 2 && c[|c| - 1] == '\n' && c[|c| - 2] == '\n'
    requires forall q :: 0 < q < |c| - 2 ==> !IsBoundary(c, q)
    requires StartsWith(rest, "## ")
    ensures SplitChunks(c + rest) == [c] + SplitChunks(rest)
  {
    var s := c + rest;
    forall q | 0 < q < |c|
      ensures !IsBoundary(s, q)
    {
      if q < |c| - 2 {
        BoundaryInPrefix(c, rest, q);
      } else {
        assert s[q] == c[q] == '\n';
        NoBoundaryAt(s, q);
      }
    }
    assert s[|c| - 1] == '\n';
    assert s[|c|..|c| + 3] == rest[..3];
    assert IsBoundary(s, |c|);
    assert NextBoundary(s, 1) == Some(|c|);
    assert s[..|c|] == c && s[|c|..] == rest;
  }

  lemma BoundaryInPrefix(c: string, rest: string, q: nat)
    requires 0 < q && q + 3 <= |c|
    ensures IsBoundary(c + rest, q) == IsBoundary(c, q)
  {
    var s := c + rest;
    assert s[q - 1] == c[q - 1];
    assert s[q..q + 3] == c[q..q + 3];
  }

  lemma NoBoundaryAt(s: string, q: nat)
    requires q < |s| && s[q] != '#'
    ensures !IsBoundary(s, q)
  {
    if q + 3 <= |s| {
      assert s[q..q + 3][0] == s[q];
    }
  }

  /** A text with no split point is one chunk. */
  lemma SplitChunksSingle(s: string)
    requires forall q :: 0 < q < |s| ==> !IsBoundary(s, q)
    ensures SplitChunks(s) == [s]
  {
  }

  // ---------------------------------------------------------------------------
  // The metadata block

  const MetaOpen := "<!-- harp:meta\n"
  const MetaClose := "-->"

  /** The first `<!-- harp:meta\n` and the first `-->` after it, as the start
      of the match and the start of the closing marker. When the first opener
      has no closer after it, no later opener has one either, so there is no
      match at all. */
  function FindMetaBlock(s: string): (r: Option<(nat, nat)>)
    ensures r.Some? ==> (OccursAt(s, MetaOpen, r.value.0) && r.value.0 + |MetaOpen| <= r.value.1
      && OccursAt(s, MetaClose, r.value.1))
    ensures r.Some? ==> forall j :: 0 <= j < r.value.0 ==> !OccursAt(s, MetaOpen, j)
    ensures r.Some? ==> forall j :: r.value.0 + |MetaOpen| <= j < r.value.1 ==> !OccursAt(s, MetaClose, j)
    ensures r.None? ==> forall o, c :: 0 <= o && o + |MetaOpen| <= c && OccursAt(s, MetaOpen, o) ==> !OccursAt(s, MetaClose, c)
  {
    match IndexOf(s, MetaOpen)
    case None => None
    case Some(o) =>
      match IndexOfFrom(s, MetaClose, o + |MetaOpen|)
      case None => None
      case Some(c) => Some((o, c))
  }

  /** The captured YAML text of the first metadata block. */
  function MetaYaml(s: string): (r: Option<string>)
    ensures r.Some? <==> FindMetaBlock(s).Some?
    ensures r.Some? ==> r.value == s[FindMetaBlock(s).value.0 + |MetaOpen|..FindMetaBlock(s).value.1]
  {
    match FindMetaBlock(s)
    case None => None
    case Some((o, c)) => Some(s[o + |MetaOpen|..c])
  }

  /** `s.replace(META_BLOCK_REGEX, "")`: the first block is cut out. */
  function RemoveMetaBlock(s: string): (r: string)
    ensures FindMetaBlock(s).None? ==> r == s
    ensures FindMetaBlock(s).Some? ==>
      r == s[..FindMetaBlock(s).value.0] + s[FindMetaBlock(s).value.1 + |MetaClose|..]
  {
    match FindMetaBlock(s)
    case None => s
    case Some((o, c)) => s[..o] + s[c + |MetaClose|..]
  }

  /** The closer cannot start before the end of a YAML text with no `>`:
      its `>` would fall inside that text or on the closer's own dashes. */
  lemma NoCloserInside(yaml: string, tail: string, j: nat)
    requires '>' !in yaml
    requires |MetaOpen| <= j < |MetaOpen| + |yaml|
    ensures !OccursAt(MetaOpen + yaml + MetaClose + tail, MetaClose, j)
  {
    var s := MetaOpen + yaml + MetaClose + tail;
    var c := |MetaOpen| + |yaml|;
    if j + 3 <= |s| {
      assert s[j..j + 3][2] == s[j + 2];
      if j + 2 < c {
        assert s[j + 2] == yaml[j + 2 - |MetaOpen|];
        assert yaml[j + 2 - |MetaOpen|] in yaml;
      } else {
        assert s[j + 2] == MetaClose[j + 2 - c];
      }
    }
  }

  /** A block that opens a text with no `>` before its closer is found whole. */
  lemma MetaBlockAtStart(yaml: string, tail: string)
    requires '>' !in yaml
    ensures FindMetaBlock(MetaOpen + yaml + MetaClose + tail) == Some((0, |MetaOpen| + |yaml|))
  {
    var s := MetaOpen + yaml + MetaClose + tail;
    assert s[..|MetaOpen|] == MetaOpen;
    var c := |MetaOpen| + |yaml|;
    assert s[c..c + 3] == MetaClose;
    forall j | |MetaOpen| <= j < c
      ensures !OccursAt(s, MetaClose, j)
    {
      NoCloserInside(yaml, tail, j);
    }
    IndexOfFromIs(s, MetaOpen, 0, 0);
    IndexOfFromIs(s, MetaClose, |MetaOpen|, c);
  }
}
