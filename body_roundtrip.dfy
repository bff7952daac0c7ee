/** What `parseDocument` reads back from the body `serializeDocument` writes.
    A section without metadata and content is written as its heading line, and
    reading the body back gives the same sections, with the heading line as
    their `raw` text. The preamble comes back with the `---` rule the writer
    put after it. */
module BodyRoundTrip {
  import opened Wrappers
  import opened Strings
  import opened Types
  import opened Headings
  import opened Parse
  import opened Serialize

  /** A section type the heading pattern reads back whole: no white space and
      no colon. */
  predicate GoodType(t: string) {
    |t| > 0 && NoSpace(t) && ':' !in t
  }

  /** A title the heading pattern reads back whole: one line, not padded. */
  predicate GoodTitle(t: string) {
    |t| > 0 && NoLineTerminator(t) && !IsSpace(t[0]) && !IsSpace(t[|t| - 1])
  }

  /** A section with a heading only. */
  predicate BareSection(s: Section) {
    s.meta.None? && s.content == "" && GoodType(s.sectionType) && GoodTitle(s.title)
  }

  predicate AllBare(ss: seq<Section>) {
    forall i :: 0 <= i < |ss| ==> BareSection(ss[i])
  }

  /** A preamble that reads back as one chunk of preamble text: unpadded, not
      starting with `## ` and with no later line starting with `## `. */
  predicate GoodPreamble(p: string) {
    p == "" || (!IsSpace(p[0]) && !IsSpace(p[|p| - 1]) && !StartsWith(p, "## ")
                && forall q :: 0 < q < |p| ==> !IsBoundary(p, q))
  }

  function Heading(s: Section): string {
    HeadingLine(s.sectionType, s.title)
  }

  /** The sections as `parseDocument` returns them: `raw` is the heading. */
  function WithRaw(ss: seq<Section>): (r: seq<Section>)
    ensures |r| == |ss|
  {
    seq(|ss|, i requires 0 <= i < |ss| => ss[i].(raw := Heading(ss[i])))
  }

  lemma WithRawCons(ss: seq<Section>)
    requires |ss| > 0
    ensures WithRaw(ss) == [ss[0].(raw := Heading(ss[0]))] + WithRaw(ss[1..])
  {
    var a, b := WithRaw(ss), [ss[0].(raw := Heading(ss[0]))] + WithRaw(ss[1..]);
    forall i | 0 <= i < |ss|
      ensures a[i] == b[i]
    {
      if i > 0 {
        assert b[i] == WithRaw(ss[1..])[i - 1];
        assert ss[1..][i - 1] == ss[i];
      }
    }
  }

  /** The preamble as `parseDocument` returns it. */
  function ReadPreamble(p: string): string {
    if p == "" then "" else Ruled(p)
  }

  /** A preamble followed by the `---` rule `serializeDocument` puts after it. */
  function Ruled(p: string): string {
    p + "\n\n" + Delimiter
  }

  // ---------------------------------------------------------------------------
  // The heading line

  lemma HeadingFacts(s: Section)
    requires BareSection(s)
    ensures var h := Heading(s);
      |h| > 3 && StartsWith(h, "## ") && Unpadded(h) && NoLineTerminator(h)
  {
    var h := Heading(s);
    assert h == "## " + s.sectionType + ": " + s.title;
    assert h[|h| - 1] == s.title[|s.title| - 1];
    forall i | 0 <= i < |h|
      ensures !IsLineTerminator(h[i])
    {
      if i < 3 {
      } else if i < 3 + |s.sectionType| {
        assert h[i] == s.sectionType[i - 3];
      } else if i < 5 + |s.sectionType| {
      } else {
        assert h[i] == s.title[i - 5 - |s.sectionType|];
      }
    }
  }

  /** A heading line followed by line breaks is a section chunk. */
  lemma HeadingChunk(s: Section, w: string)
    requires BareSection(s)
    requires |w| > 0 && forall i :: 0 <= i < |w| ==> w[i] == '\n'
    ensures ChunkSection(Heading(s) + w) == Some(s.(raw := Heading(s)))
    ensures ChunkPreamble(Heading(s) + w) == ""
  {
    var h := Heading(s);
    HeadingFacts(s);
    TrimPadded(h, w);
    HeadingOfSerialized(s.sectionType, s.title);
  }

  // ---------------------------------------------------------------------------
  // The stacked headings

  /** The headings of sections, each pair separated by three line breaks. */
  function Stacked(ss: seq<Section>): string
    requires |ss| > 0
  {
    if |ss| == 1 then Heading(ss[0]) else Heading(ss[0]) + "\n\n\n" + Stacked(ss[1..])
  }

  /** The chunks of the stacked headings and a final line break. */
  function StackedChunks(ss: seq<Section>): seq<string>
    requires |ss| > 0
  {
    if |ss| == 1 then [Heading(ss[0]) + "\n"] else [Heading(ss[0]) + "\n\n\n"] + StackedChunks(ss[1..])
  }

  lemma {:induction false} StackedFacts(ss: seq<Section>)
    requires |ss| > 0 && AllBare(ss)
    ensures var t := Stacked(ss);
      |t| > 3 && StartsWith(t, "## ") && Unpadded(t)
  {
    HeadingFacts(ss[0]);
    if |ss| > 1 {
      StackedFacts(ss[1..]);
      var t := Stacked(ss);
      var rest := Stacked(ss[1..]);
      assert t == Heading(ss[0]) + "\n\n\n" + rest;
      assert t[|t| - 1] == rest[|rest| - 1];
      assert t[..3] == Heading(ss[0])[..3];
    }
  }

  lemma {:induction false} StackedSnoc(ss: seq<Section>, x: Section)
    requires |ss| > 0
    ensures Stacked(ss + [x]) == Stacked(ss) + "\n\n\n" + Heading(x)
  {
    assert (ss + [x])[0] == ss[0];
    if |ss| > 1 {
      assert (ss + [x])[1..] == ss[1..] + [x];
      StackedSnoc(ss[1..], x);
    } else {
      assert (ss + [x])[1..] == [x];
    }
  }

  /** Splitting the stacked headings cuts before each heading. */
  lemma {:induction false} SplitStacked(ss: seq<Section>)
    requires |ss| > 0 && AllBare(ss)
    ensures SplitChunks(Stacked(ss) + "\n") == StackedChunks(ss)
  {
    var h := Heading(ss[0]);
    HeadingFacts(ss[0]);
    if |ss| == 1 {
      var s := h + "\n";
      forall q | 0 < q < |s|
        ensures !IsBoundary(s, q)
      {
        assert s[q - 1] == h[q - 1];
      }
      SplitChunksSingle(s);
    } else {
      var c := h + "\n\n\n";
      var rest := Stacked(ss[1..]) + "\n";
      StackedFacts(ss[1..]);
      assert rest[..3] == Stacked(ss[1..])[..3];
      forall q | 0 < q < |c| - 2
        ensures !IsBoundary(c, q)
      {
        assert c[q - 1] == h[q - 1];
      }
      SplitChunksCons(c, rest);
      assert Stacked(ss) + "\n" == c + rest;
      SplitStacked(ss[1..]);
    }
  }

  /** The first chunk of the stacked headings reads back as the first section. */
  lemma ReadStackedHead(ss: seq<Section>)
    requires |ss| > 0 && AllBare(ss)
    ensures var rest: seq<string> := if |ss| == 1 then [] else StackedChunks(ss[1..]);
      SectionsOf(StackedChunks(ss)) == [ss[0].(raw := Heading(ss[0]))] + SectionsOf(rest)
      && PreambleOf(StackedChunks(ss)) == PreambleOf(rest)
  {
    var w := if |ss| == 1 then "\n" else "\n\n\n";
    var c := Heading(ss[0]) + w;
    HeadingChunk(ss[0], w);
    var rest: seq<string> := if |ss| == 1 then [] else StackedChunks(ss[1..]);
    assert StackedChunks(ss) == [c] + rest;
    SectionsOfCons(c, rest);
    PreambleOfCons(c, rest);
  }

  /** Each chunk of the stacked headings reads back as its section. */
  lemma {:induction false} ReadStacked(ss: seq<Section>)
    requires |ss| > 0 && AllBare(ss)
    ensures SectionsOf(StackedChunks(ss)) == WithRaw(ss)
    ensures PreambleOf(StackedChunks(ss)) == ""
  {
    ReadStackedHead(ss);
    if |ss| > 1 {
      ReadStacked(ss[1..]);
    }
    WithRawCons(ss);
  }

  // ---------------------------------------------------------------------------
  // The body text

  lemma {:induction false} SectionsFromAppend(parts: seq<string>, ss: seq<Section>)
    ensures SectionsFrom(parts, ss) == parts + SectionsFrom([], ss)
  {
    if |ss| > 0 {
      SectionsFromAppend(parts, ss[..|ss| - 1]);
    }
  }

  lemma {:induction false} JoinConcat(a: seq<string>, b: seq<string>, sep: string)
    requires |a| > 0 && |b| > 0
    ensures Join(a + b, sep) == Join(a, sep) + sep + Join(b, sep)
  {
    if |a| == 1 {
      JoinCons(a[0], b, sep);
      assert a + b == [a[0]] + b;
    } else {
      assert (a + b)[1..] == a[1..] + b;
      JoinConcat(a[1..], b, sep);
    }
  }

  lemma RegroupStack(front: string, h: string)
    ensures ((front + "\n\n") + "\n" + (h + "\n")) + "\n" + "" == (front + "\n\n\n" + h) + "\n\n"
  {
  }

  lemma JoinLast(t: string)
    ensures Join([t, ""], "\n") == t + "\n"
  {
    assert [t, ""][1..] == [""];
    assert Join([""], "\n") == "";
  }

  lemma SnocPair(front: seq<string>, a: string, b: string)
    ensures front + [a, b] == (front + [a]) + [b]
  {
  }

  lemma SectionsFromSnoc(ss: seq<Section>)
    requires |ss| > 0
    ensures SectionsFrom([], ss) == (SectionsFrom([], ss[..|ss| - 1]) + [SectionText(ss[|ss| - 1])]) + [""]
  {
    SnocPair(SectionsFrom([], ss[..|ss| - 1]), SectionText(ss[|ss| - 1]), "");
  }

  /** The joined section parts of bare sections. */
  lemma {:induction false} JoinBareSections(ss: seq<Section>)
    requires |ss| > 0 && AllBare(ss)
    ensures Join(SectionsFrom([], ss), "\n") == Stacked(ss) + "\n\n"
  {
    var n := |ss|;
    var init, x := ss[..n - 1], ss[n - 1];
    var h, t := Heading(x), SectionText(x);
    BareSectionText(x);
    assert t == h + "\n";
    if n == 1 {
      assert SectionsFrom([], ss) == [t, ""];
      JoinLast(t);
      assert Stacked(ss) == h;
    } else {
      var front := SectionsFrom([], init);
      JoinBareSections(init);
      SectionsFromSnoc(ss);
      JoinAppend(front + [t], "", "\n");
      JoinAppend(front, t, "\n");
      assert ss == init + [x];
      StackedSnoc(init, x);
      RegroupStack(Stacked(init), h);
    }
  }

  /** `BodyText` of a preamble and bare sections, written out. */
  function ExpectedBody(p: string, ss: seq<Section>): string
    requires AllBare(ss)
  {
    if p == "" && |ss| == 0 then ""
    else if p == "" then Stacked(ss)
    else if |ss| == 0 then Ruled(p)
    else (Ruled(p) + "\n\n") + Stacked(ss)
  }

  lemma PreamblePartsJoin(p: string)
    requires p != ""
    ensures Join(PreambleParts(p), "\n") == Ruled(p) + "\n"
  {
    var pre := [p, "", Delimiter, ""];
    assert PreambleParts(p) == pre;
    assert pre[1..] == ["", Delimiter, ""];
    assert ["", Delimiter, ""][1..] == [Delimiter, ""];
    assert [Delimiter, ""][1..] == [""];
    assert Join([""], "\n") == "";
    assert Join([Delimiter, ""], "\n") == Delimiter + "\n";
    assert Join(["", Delimiter, ""], "\n") == "\n" + Delimiter + "\n";
  }

  lemma RuledFacts(p: string)
    requires GoodPreamble(p) && p != ""
    ensures var r := Ruled(p);
      |r| == |p| + 5 && r[..|p|] == p && r[|p|] == '\n'
      && (forall i :: |p| <= i < |r| ==> r[i] != '#')
      && Unpadded(r)
    ensures HeadingMatch(Ruled(p)).None?
  {
    var r := Ruled(p);
    assert r == p + "\n\n---";
    assert forall i :: |p| <= i < |r| ==> r[i] == "\n\n---"[i - |p|];
    RuledStart(p);
    NotHeadingStart(r);
  }

  lemma RuledStart(p: string)
    requires p != "" && !StartsWith(p, "## ")
    ensures !StartsWith(Ruled(p), "## ")
  {
    var r := Ruled(p);
    if |p| >= 3 {
      assert r[..3] == p[..3];
    } else {
      assert r[|p|] == '\n';
    }
  }

  lemma BodySectionsOnly(ss: seq<Section>)
    requires |ss| > 0 && AllBare(ss)
    ensures BodyText("", ss) == Stacked(ss)
  {
    assert PreambleParts("") == [];
    JoinBareSections(ss);
    StackedFacts(ss);
    TrimBreaks(Stacked(ss), "\n\n");
  }

  lemma BodyPreambleOnly(p: string)
    requires GoodPreamble(p) && p != ""
    ensures BodyText(p, []) == Ruled(p)
  {
    assert SectionsFrom(PreambleParts(p), []) == PreambleParts(p);
    PreamblePartsJoin(p);
    RuledFacts(p);
    TrimBreaks(Ruled(p), "\n");
  }

  lemma Regroup(r: string, s: string)
    ensures (r + "\n") + "\n" + (s + "\n\n") == ((r + "\n\n") + s) + "\n\n"
  {
  }

  lemma JoinBoth(p: string, ss: seq<Section>)
    requires p != "" && |ss| > 0 && AllBare(ss)
    ensures Join(SectionsFrom(PreambleParts(p), ss), "\n") == ((Ruled(p) + "\n\n") + Stacked(ss)) + "\n\n"
  {
    SectionsFromAppend(PreambleParts(p), ss);
    PreamblePartsJoin(p);
    JoinBareSections(ss);
    JoinConcat(PreambleParts(p), SectionsFrom([], ss), "\n");
    Regroup(Ruled(p), Stacked(ss));
  }

  lemma BodyBoth(p: string, ss: seq<Section>)
    requires GoodPreamble(p) && p != "" && |ss| > 0 && AllBare(ss)
    ensures BodyText(p, ss) == (Ruled(p) + "\n\n") + Stacked(ss)
  {
    JoinBoth(p, ss);
    StackedFacts(ss);
    RuledFacts(p);
    UnpaddedAround(Ruled(p), "\n\n", Stacked(ss));
    TrimBreaks((Ruled(p) + "\n\n") + Stacked(ss), "\n\n");
  }

  lemma BodyOfBare(p: string, ss: seq<Section>)
    requires GoodPreamble(p) && AllBare(ss)
    ensures BodyText(p, ss) == ExpectedBody(p, ss)
  {
    if p == "" && |ss| == 0 {
      assert SectionsFrom(PreambleParts(p), ss) == [];
    } else if p == "" {
      BodySectionsOnly(ss);
    } else if |ss| == 0 {
      BodyPreambleOnly(p);
    } else {
      BodyBoth(p, ss);
    }
  }

  // ---------------------------------------------------------------------------
  // Reading the body back

  /** No `## ` line starts after the preamble, and none inside it. */
  lemma RuledNoBoundary(p: string, w: string)
    requires GoodPreamble(p) && p != ""
    requires forall i :: 0 <= i < |w| ==> w[i] == '\n'
    ensures forall q :: 0 < q < |Ruled(p) + w| ==> !IsBoundary(Ruled(p) + w, q)
  {
    RuledFacts(p);
    var r := Ruled(p);
    var s := r + w;
    forall q | 0 < q < |s|
      ensures !IsBoundary(s, q)
    {
      if q < |p| {
        assert s[q - 1] == p[q - 1];
        if q + 3 <= |p| {
          assert s[q..q + 3] == p[q..q + 3];
          assert !IsBoundary(p, q);
        } else if q + 3 <= |s| {
          assert s[q..q + 3][|p| - q] == s[|p|] == '\n';
        }
      } else if q == |p| {
        assert s[q - 1] == p[|p| - 1];
      } else if q + 3 <= |s| {
        assert s[q..q + 3][0] == s[q];
        if q < |r| {
          assert s[q] == r[q];
        } else {
          assert s[q] == w[q - |r|];
        }
      }
    }
  }

  /** The preamble chunk reads back as preamble text. */
  lemma RuledChunk(p: string, w: string)
    requires GoodPreamble(p) && p != ""
    requires |w| > 0 && forall i :: 0 <= i < |w| ==> w[i] == '\n'
    ensures ChunkSection(Ruled(p) + w).None?
    ensures ChunkPreamble(Ruled(p) + w) == Ruled(p) + "\n"
  {
    RuledFacts(p);
    TrimPadded(Ruled(p), w);
  }

  /** The text `parseDocument` reads the body from, when there is a body. */
  lemma ReadFrom(body: string)
    requires |body| > 0 && !IsSpace(body[0])
    ensures TrimStart("\n\n" + body + "\n") == body + "\n"
  {
    TrimStartDropsLeadingSpace("\n\n", body + "\n");
    assert "\n\n" + body + "\n" == "\n\n" + (body + "\n");
  }

  lemma ReadEmpty()
    ensures ParseBody(TrimStart("\n\n" + "" + "\n")) == ([], "")
  {
    var read := "\n\n" + "" + "\n";
    TrimStartDropsLeadingSpace(read, "");
    assert read + "" == read;
    SplitChunksSingle("");
    assert [""][1..] == [];
  }

  lemma ReadSectionsOnly(ss: seq<Section>)
    requires |ss| > 0 && AllBare(ss)
    ensures ParseBody(Stacked(ss) + "\n") == (WithRaw(ss), "")
  {
    SplitStacked(ss);
    ReadStacked(ss);
  }

  lemma ReadPreambleOnly(p: string)
    requires GoodPreamble(p) && p != ""
    ensures ParseBody(Ruled(p) + "\n") == ([], Ruled(p))
  {
    var d := Ruled(p) + "\n";
    RuledNoBoundary(p, "\n");
    SplitChunksSingle(d);
    RuledChunk(p, "\n");
    SectionsOfCons(d, []);
    PreambleOfCons(d, []);
    assert [d] + [] == [d];
    assert SectionsOf([d]) == [];
    assert PreambleOf([d]) == Ruled(p) + "\n" + "";
    assert Ruled(p) + "\n" + "" == Ruled(p) + "\n";
    RuledFacts(p);
    TrimPadded(Ruled(p), "\n");
  }

  lemma ChunksBoth(p: string, ss: seq<Section>)
    requires GoodPreamble(p) && p != "" && |ss| > 0 && AllBare(ss)
    ensures SplitChunks(((Ruled(p) + "\n\n") + Stacked(ss)) + "\n") == [Ruled(p) + "\n\n"] + StackedChunks(ss)
  {
    var c := Ruled(p) + "\n\n";
    var t := Stacked(ss);
    RuledNoBoundary(p, "\n\n");
    StackedFacts(ss);
    StartsWithAppend(t, "\n", "## ");
    SplitChunksCons(c, t + "\n");
    AppendAssoc(c, t, "\n");
    SplitStacked(ss);
  }

  /** A preamble chunk in front of chunks that hold no preamble. */
  lemma ReadPreambleChunk(c: string, pre: string, rest: seq<string>, secs: seq<Section>)
    requires ChunkSection(c).None? && ChunkPreamble(c) == pre
    requires SectionsOf(rest) == secs && PreambleOf(rest) == ""
    ensures SectionsOf([c] + rest) == secs && PreambleOf([c] + rest) == pre
  {
    SectionsOfCons(c, rest);
    PreambleOfCons(c, rest);
    assert ChunkSections(c) == [];
  }

  lemma ReadChunksBoth(p: string, ss: seq<Section>)
    requires GoodPreamble(p) && p != "" && |ss| > 0 && AllBare(ss)
    ensures SectionsOf([Ruled(p) + "\n\n"] + StackedChunks(ss)) == WithRaw(ss)
    ensures PreambleOf([Ruled(p) + "\n\n"] + StackedChunks(ss)) == Ruled(p) + "\n"
  {
    var c, rest := Ruled(p) + "\n\n", StackedChunks(ss);
    RuledChunk(p, "\n\n");
    ReadStacked(ss);
    ReadPreambleChunk(c, Ruled(p) + "\n", rest, WithRaw(ss));
  }

  lemma ReadBoth(p: string, ss: seq<Section>)
    requires GoodPreamble(p) && p != "" && |ss| > 0 && AllBare(ss)
    ensures ParseBody(((Ruled(p) + "\n\n") + Stacked(ss)) + "\n") == (WithRaw(ss), Ruled(p))
  {
    ChunksBoth(p, ss);
    ReadChunksBoth(p, ss);
    RuledFacts(p);
    TrimBreaks(Ruled(p), "\n");
    ParseBodyFrom(((Ruled(p) + "\n\n") + Stacked(ss)) + "\n", [Ruled(p) + "\n\n"] + StackedChunks(ss), WithRaw(ss), Ruled(p));
  }

  /** Reading back the body `serializeDocument` writes for a preamble and bare
      sections gives the sections, with their headings as `raw`, and the
      preamble followed by the `---` rule. */
  lemma BodyRoundTrip(p: string, ss: seq<Section>)
    requires GoodPreamble(p) && AllBare(ss)
    ensures ParseBody(TrimStart("\n\n" + BodyText(p, ss) + "\n")) == (WithRaw(ss), ReadPreamble(p))
  {
    BodyOfBare(p, ss);
    var body := ExpectedBody(p, ss);
    if p == "" && |ss| == 0 {
      ReadEmpty();
    } else {
      if p == "" {
        StackedFacts(ss);
      } else {
        RuledFacts(p);
      }
      ReadFrom(body);
      if p == "" {
        ReadSectionsOnly(ss);
      } else if |ss| == 0 {
        ReadPreambleOnly(p);
      } else {
        ReadBoth(p, ss);
      }
    }
  }
}
