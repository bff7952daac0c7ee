/** What a whole written document gives back: splitting `serializeDocument`'s
    text on the `---` delimiter finds the body again, so the checksum
    `createDocument` stores is the one it writes, and `parseDocument` reads
    the body's sections and preamble back. Both need the frontmatter lines to
    be free of the delimiter: a `---` inside a name or an id would move the
    split. */
module DocRoundTrip {
  import opened Wrappers
  import opened Strings
  import opened Types
  import opened Serialize
  import opened Parse
  import opened Documents
  import opened Identity
  import opened BodyRoundTrip
  import Yaml
  import YamlLines
  import FrontmatterRead

  predicate DelimiterFree(lines: seq<string>) {
    forall i :: 0 <= i < |lines| ==> !Contains(lines[i], Delimiter)
  }

  /** The frontmatter's own lines, apart from the opening delimiter and the
      checksum line, hold no delimiter. */
  predicate FrontmatterFree(fm: Frontmatter) {
    && DelimiterFree(EntitiesFrom(HeaderLines(fm), fm.entities)[1..])
    && DelimiterFree(SignatureBlock([], fm.signatures))
  }

  lemma Absent(s: string, pat: string, j: nat)
    requires !Contains(s, pat)
    ensures !OccursAt(s, pat, j)
  {
  }

  /** A delimiter cannot run across a line break. */
  lemma NoDelimiterAcrossBreak(a: string, b: string)
    requires !Contains(a, Delimiter) && !Contains(b, Delimiter)
    ensures !Contains(a + "\n" + b, Delimiter)
  {
    var s := a + "\n" + b;
    forall j | 0 <= j
      ensures !OccursAt(s, Delimiter, j)
    {
      if j + 3 > |s| {
      } else if j + 3 <= |a| {
        Absent(a, Delimiter, j);
        assert s[j..j + 3] == a[j..j + 3];
      } else if j > |a| {
        Absent(b, Delimiter, j - |a| - 1);
        assert s[j..j + 3] == b[j - |a| - 1..j - |a| + 2];
      } else {
        assert s[j..j + 3][|a| - j] == s[|a|] == '\n';
      }
    }
    NotContains(s, Delimiter);
  }

  /** Lines free of the delimiter, joined by line breaks, are free of it. */
  lemma {:induction false} JoinFree(lines: seq<string>)
    requires DelimiterFree(lines)
    ensures !Contains(Join(lines, "\n"), Delimiter)
  {
    if |lines| > 1 {
      JoinFree(lines[1..]);
      NoDelimiterAcrossBreak(lines[0], Join(lines[1..], "\n"));
    }
  }

  /** A text without a dash holds no delimiter. */
  lemma NoDashFree(s: string)
    requires forall i :: 0 <= i < |s| ==> s[i] != '-'
    ensures !Contains(s, Delimiter)
  {
    forall j | 0 <= j
      ensures !OccursAt(s, Delimiter, j)
    {
      if j + 3 <= |s| {
        assert s[j..j + 3][0] == s[j];
      }
    }
    NotContains(s, Delimiter);
  }

  /** The checksum line is `sha256:` and hex digits in quotes: no dash. */
  lemma ChecksumLineFree(hash: Hasher, body: string)
    ensures !Contains("checksum: " + Quoted(ComputeChecksum(hash, body)), Delimiter)
  {
    var c := ComputeChecksum(hash, body);
    var s := "checksum: " + Quoted(c);
    forall i | 0 <= i < |s|
      ensures s[i] != '-'
    {
      if 11 <= i < 18 {
        assert s[i] == c[..7][i - 11];
      } else if 18 <= i < 82 {
        assert s[i] == c[7..][i - 18];
        assert IsLowerHexDigit(c[7..][i - 18]);
      }
    }
    NoDashFree(s);
  }

  lemma {:induction false} EntitiesKeepPrefix(lines: seq<string>, es: seq<EntityEntry>)
    ensures |EntitiesFrom(lines, es)| >= |lines| && EntitiesFrom(lines, es)[..|lines|] == lines
  {
    if |es| > 0 {
      EntitiesKeepPrefix(lines, es[..|es| - 1]);
    }
  }

  lemma {:induction false} SignaturesShift(lines: seq<string>, rest: seq<string>, ss: seq<SignatureEntry>)
    ensures SignaturesFrom(lines + rest, ss) == lines + SignaturesFrom(rest, ss)
  {
    if |ss| > 0 {
      SignaturesShift(lines, rest, ss[..|ss| - 1]);
    }
  }

  /** Lines that open with the delimiter, then the checksum line and the
      signature block, then the closing delimiter. */
  lemma BlockShape(e: seq<string>, ck: string, signatures: Option<seq<SignatureEntry>>)
    requires |e| > 0 && e[0] == Delimiter
    ensures SignatureBlock(e + [ck], signatures) + [Delimiter]
         == [Delimiter] + (e[1..] + [ck] + SignatureBlock([], signatures)) + [Delimiter]
  {
    var sigs := SignatureBlock([], signatures);
    if signatures.Some? && |signatures.value| > 0 {
      SignaturesShift(e + [ck], ["signatures:"], signatures.value);
      assert [] + ["signatures:"] == ["signatures:"];
    }
    assert SignatureBlock(e + [ck], signatures) == (e + [ck]) + sigs;
    assert e == [Delimiter] + e[1..];
  }

  /** The frontmatter lines: the opening delimiter, the lines between, and
      the closing delimiter. */
  lemma FrontmatterShape(fm: Frontmatter, checksum: string)
    ensures var inner := EntitiesFrom(HeaderLines(fm), fm.entities)[1..] + ["checksum: " + Quoted(checksum)]
                         + SignatureBlock([], fm.signatures);
      FrontmatterLines(fm, checksum) == [Delimiter] + inner + [Delimiter]
  {
    var e := EntitiesFrom(HeaderLines(fm), fm.entities);
    EntitiesKeepPrefix(HeaderLines(fm), fm.entities);
    assert e[0] == HeaderLines(fm)[0];
    BlockShape(e, "checksum: " + Quoted(checksum), fm.signatures);
  }

  /** Lines between two frame lines, joined. */
  lemma JoinFramed(d: string, inner: seq<string>, sep: string)
    requires |inner| > 0
    ensures Join([d] + inner + [d], sep) == d + sep + Join(inner, sep) + sep + d
  {
    var j := Join(inner, sep);
    JoinAppend(inner, d, sep);
    JoinCons(d, inner + [d], sep);
    assert [d] + inner + [d] == [d] + (inner + [d]);
    assert d + sep + (j + sep + d) == d + sep + j + sep + d;
  }

  lemma FreeAround(front: seq<string>, line: string, back: seq<string>)
    requires DelimiterFree(front) && !Contains(line, Delimiter) && DelimiterFree(back)
    ensures DelimiterFree(front + [line] + back)
  {
  }

  /** A separator without line breaks cannot start inside a text that ends
      with one and holds no separator itself. */
  lemma NoEarlyOccurrence(d: string, x: string, y: string, i: nat)
    requires |d| > 0 && '\n' !in d
    requires !Contains(x, d) && |x| > 0 && x[|x| - 1] == '\n'
    requires i < |x|
    ensures !OccursAt(x + d + y, d, i)
  {
    var s := x + d + y;
    if i + |d| <= |x| {
      Absent(x, d, i);
      assert s[i..i + |d|] == x[i..i + |d|];
    } else if i + |d| <= |s| {
      assert s[i..i + |d|][|x| - 1 - i] == '\n';
      assert d[|x| - 1 - i] in d;
    }
  }

  /** A text that opens with a separator and then holds it again only after
      a line break splits at those two places first. */
  lemma SplitAfterFrame(d: string, x: string, y: string)
    requires |d| > 0 && '\n' !in d
    requires !Contains(x, d) && |x| > 0 && x[|x| - 1] == '\n'
    ensures Split(d + x + d + y, d) == ["", x] + Split(y, d)
  {
    var s := x + d + y;
    assert d + x + d + y == "" + d + s;
    SplitAtFirst("", d, s);
    forall i | 0 <= i < |x|
      ensures !OccursAt(s, d, i)
    {
      NoEarlyOccurrence(d, x, y, i);
    }
    SplitAtFirst(x, d, y);
  }

  /** The frontmatter's lines between its two delimiter lines, joined. */
  function FrontmatterInner(fm: Frontmatter, checksum: string): string {
    Join(EntitiesFrom(HeaderLines(fm), fm.entities)[1..] + ["checksum: " + Quoted(checksum)]
         + SignatureBlock([], fm.signatures), "\n")
  }

  /** The written frontmatter is the inner text framed by delimiter lines,
      and the inner text, with its surrounding line breaks, holds no
      delimiter. */
  lemma FramedFrontmatter(fm: Frontmatter, hash: Hasher, body: string)
    requires FrontmatterFree(fm)
    ensures var c := ComputeChecksum(hash, body);
      && Join(FrontmatterLines(fm, c), "\n") == Delimiter + "\n" + FrontmatterInner(fm, c) + "\n" + Delimiter
      && !Contains("\n" + FrontmatterInner(fm, c) + "\n", Delimiter)
  {
    var c := ComputeChecksum(hash, body);
    var line := "checksum: " + Quoted(c);
    var front := EntitiesFrom(HeaderLines(fm), fm.entities)[1..];
    var back := SignatureBlock([], fm.signatures);
    var inner := front + [line] + back;
    FrontmatterShape(fm, c);
    ChecksumLineFree(hash, body);
    FreeAround(front, line, back);
    JoinFree(inner);
    var j := Join(inner, "\n");
    JoinFramed(Delimiter, inner, "\n");
    NoDelimiterAcrossBreak("", j);
    assert "" + "\n" + j == "\n" + j;
    NoDelimiterAcrossBreak("\n" + j, "");
    assert "\n" + j + "\n" + "" == "\n" + j + "\n";
  }

  /** A framed head followed by a body splits at the two frame lines. */
  lemma PiecesOf(d: string, head: string, j: string, body: string)
    requires |d| > 0 && '\n' !in d
    requires head == d + "\n" + j + "\n" + d && !Contains("\n" + j + "\n", d)
    ensures Split(head + "\n\n" + body + "\n", d) == ["", "\n" + j + "\n"] + Split("\n\n" + body + "\n", d)
  {
    var x := "\n" + j + "\n";
    var y := "\n\n" + body + "\n";
    assert head + "\n\n" + body + "\n" == d + x + d + y;
    SplitAfterFrame(d, x, y);
  }

  /** The written text cut at its first two delimiters: an empty piece, the
      frontmatter between them, and the line breaks around the body. */
  lemma DocumentPieces(doc: Document, hash: Hasher)
    requires FrontmatterFree(doc.frontmatter)
    ensures var body := BodyText(doc.preamble, doc.sections);
      var inner := FrontmatterInner(doc.frontmatter, ComputeChecksum(hash, body));
      Split(DocumentText(doc, hash), Delimiter) == ["", "\n" + inner + "\n"] + Split("\n\n" + body + "\n", Delimiter)
  {
    var body := BodyText(doc.preamble, doc.sections);
    var c := ComputeChecksum(hash, body);
    FramedFrontmatter(doc.frontmatter, hash, body);
    PiecesOf(Delimiter, Join(FrontmatterLines(doc.frontmatter, c), "\n"), FrontmatterInner(doc.frontmatter, c), body);
  }

  /** Trimming the line breaks `serializeDocument` puts around the body
      gives the body back. */
  lemma TrimAroundBody(body: string)
    requires body == [] || (!IsSpace(body[0]) && !IsSpace(body[|body| - 1]))
    ensures Trim("\n\n" + body + "\n") == body
  {
    if body == [] {
      assert "\n\n" + body + "\n" == "\n\n\n" + body;
      TrimStartDropsLeadingSpace("\n\n\n", body);
      TrimEndOfUnpadded(body);
    } else {
      assert "\n\n" + body + "\n" == "\n\n" + (body + "\n");
      TrimStartDropsLeadingSpace("\n\n", body + "\n");
      TrimEndDropsTrailingSpace(body, "\n");
    }
  }

  /** The text `createDocument` takes the checksum of is the body
      `serializeDocument` writes. */
  lemma ChecksummedBodyIsBody(doc: Document, hash: Hasher)
    requires FrontmatterFree(doc.frontmatter)
    ensures ChecksummedBody(DocumentText(doc, hash)) == BodyText(doc.preamble, doc.sections)
  {
    var body := BodyText(doc.preamble, doc.sections);
    var y := "\n\n" + body + "\n";
    DocumentPieces(doc, hash);
    var x := "\n" + FrontmatterInner(doc.frontmatter, ComputeChecksum(hash, body)) + "\n";
    assert (["", x] + Split(y, Delimiter))[2..] == Split(y, Delimiter);
    JoinSplit(y, Delimiter);
    TrimAroundBody(body);
  }

  /** `createDocument` stores the checksum its own text carries: the one of
      the body. */
  lemma CreatedChecksumIsWritten(hash: Hasher, a: EntityDescriptor, b: EntityDescriptor, layer: Layer,
                                 preamble: Option<string>, now: string)
    requires CreateDocumentSpec(hash, a, b, layer, preamble, now).Success?
    requires FrontmatterFree(CreateDocumentSpec(hash, a, b, layer, preamble, now).value.frontmatter)
    ensures var doc := CreateDocumentSpec(hash, a, b, layer, preamble, now).value;
      doc.frontmatter.checksum == ComputeChecksum(hash, BodyText(doc.preamble, doc.sections))
  {
    var doc := CreateDocumentSpec(hash, a, b, layer, preamble, now).value;
    var genesis := Genesis(ComputeDyadId(a.id, b.id).value, a, b, layer, preamble, now);
    assert doc.frontmatter == genesis.frontmatter.(checksum := doc.frontmatter.checksum);
    ChecksummedBodyIsBody(genesis, hash);
  }

  /** The body `parseDocument` reads from a written document is the written
      body behind its leading line breaks. */
  lemma BodyPartOfDocument(doc: Document, hash: Hasher)
    requires FrontmatterFree(doc.frontmatter)
    ensures var parts := Split(DocumentText(doc, hash), Delimiter);
      && |parts| >= 3
      && BodyOfParts(parts) == TrimStart("\n\n" + BodyText(doc.preamble, doc.sections) + "\n")
  {
    var body := BodyText(doc.preamble, doc.sections);
    var y := "\n\n" + body + "\n";
    DocumentPieces(doc, hash);
    var x := "\n" + FrontmatterInner(doc.frontmatter, ComputeChecksum(hash, body)) + "\n";
    var parts := ["", x] + Split(y, Delimiter);
    assert parts[2..] == Split(y, Delimiter);
    JoinSplit(y, Delimiter);
  }

  // ---------------------------------------------------------------------------
  // The frontmatter read back

  predicate BreakFree(lines: seq<string>) {
    forall i :: 0 <= i < |lines| ==> '\n' !in lines[i]
  }

  /** The frontmatter's own lines, apart from the opening delimiter and the
      checksum line, hold no line break: no written field holds one. */
  predicate FrontmatterOneLine(fm: Frontmatter) {
    && BreakFree(EntitiesFrom(HeaderLines(fm), fm.entities)[1..])
    && BreakFree(SignatureBlock([], fm.signatures))
  }

  /** The checksum line is `sha256:` and hex digits in quotes: no line break. */
  lemma ChecksumLineOneLine(hash: Hasher, body: string)
    ensures '\n' !in "checksum: " + Quoted(ComputeChecksum(hash, body))
  {
    var c := ComputeChecksum(hash, body);
    var s := "checksum: " + Quoted(c);
    forall i | 0 <= i < |s|
      ensures s[i] != '\n'
    {
      if 11 <= i < 18 {
        assert s[i] == c[..7][i - 11];
      } else if 18 <= i < 82 {
        assert s[i] == c[7..][i - 18];
        assert IsLowerHexDigit(c[7..][i - 18]);
      }
    }
  }

  lemma EntityItemShift(p: seq<string>, q: seq<string>, e: EntityEntry)
    ensures EntityItem(p + q, e) == p + EntityItem(q, e)
  {
  }

  /** The entity lines follow whatever lines come before them. */
  lemma {:induction false} EntitiesShift(p: seq<string>, q: seq<string>, es: seq<EntityEntry>)
    ensures EntitiesFrom(p + q, es) == p + EntitiesFrom(q, es)
  {
    if |es| > 0 {
      var init := es[..|es| - 1];
      EntitiesShift(p, q, init);
      EntityItemShift(p, EntitiesFrom(q, init), es[|es| - 1]);
    }
  }

  /** The signature block follows whatever lines come before it. */
  lemma SignatureBlockShift(lines: seq<string>, signatures: Option<seq<SignatureEntry>>)
    ensures SignatureBlock(lines, signatures) == lines + SignatureBlock([], signatures)
  {
    if signatures.Some? && |signatures.value| > 0 {
      SignaturesShift(lines, ["signatures:"], signatures.value);
      assert [] + ["signatures:"] == ["signatures:"];
    }
  }

  /** The lines the reader sees are the inner lines between two empty ones. */
  lemma ReadLinesFramed(fm: Frontmatter, checksum: string)
    ensures FrontmatterRead.ReadLines(fm, checksum)
         == [""] + (EntitiesFrom(HeaderLines(fm), fm.entities)[1..] + ["checksum: " + Quoted(checksum)]
                    + SignatureBlock([], fm.signatures)) + [""]
  {
    var h := HeaderLines(fm);
    var ck := "checksum: " + Quoted(checksum);
    var e := EntitiesFrom(h, fm.entities)[1..];
    var sb := SignatureBlock([], fm.signatures);
    EntitiesTail(h, fm.entities);
    SignatureBlockShift([""] + e + [ck], fm.signatures);
    assert [""] + e + [ck] + sb + [""] == [""] + (e + [ck] + sb) + [""];
  }

  /** Replacing the first header line by an empty one. */
  lemma EntitiesTail(h: seq<string>, es: seq<EntityEntry>)
    requires |h| > 0
    ensures EntitiesFrom([""] + h[1..], es) == [""] + EntitiesFrom(h, es)[1..]
  {
    EntitiesShift([""], h[1..], es);
    EntitiesShift([h[0]], h[1..], es);
    assert h == [h[0]] + h[1..];
  }

  /** Splitting the text between the delimiters on line breaks gives the
      lines the reader sees. */
  lemma FrontmatterSplit(fm: Frontmatter, hash: Hasher, body: string)
    requires FrontmatterOneLine(fm)
    ensures var c := ComputeChecksum(hash, body);
      Split("\n" + FrontmatterInner(fm, c) + "\n", "\n") == FrontmatterRead.ReadLines(fm, c)
  {
    var c := ComputeChecksum(hash, body);
    var ck := "checksum: " + Quoted(c);
    var front := EntitiesFrom(HeaderLines(fm), fm.entities)[1..];
    var back := SignatureBlock([], fm.signatures);
    var inner := front + [ck] + back;
    var lines := [""] + inner + [""];
    ChecksumLineOneLine(hash, body);
    assert BreakFree(lines) by {
      forall i | 0 <= i < |lines|
        ensures '\n' !in lines[i]
      {
        if 1 <= i < 1 + |front| {
          assert lines[i] == front[i - 1];
        } else if i == 1 + |front| {
          assert lines[i] == ck;
        } else if 1 + |front| < i < |lines| - 1 {
          assert lines[i] == back[i - 2 - |front|];
        }
      }
    }
    YamlLines.SplitJoinLines(lines);
    JoinFramed("", inner, "\n");
    assert "" + "\n" + Join(inner, "\n") + "\n" + "" == "\n" + Join(inner, "\n") + "\n";
    ReadLinesFramed(fm, c);
  }

  /** The frontmatter lines `parseDocument` splits from a written document. */
  lemma FrontmatterPartOfDocument(doc: Document, hash: Hasher)
    requires FrontmatterFree(doc.frontmatter) && FrontmatterOneLine(doc.frontmatter)
    ensures var parts := Split(DocumentText(doc, hash), Delimiter);
      var c := ComputeChecksum(hash, BodyText(doc.preamble, doc.sections));
      |parts| >= 3 && Split(parts[1], "\n") == FrontmatterRead.ReadLines(doc.frontmatter, c)
  {
    var body := BodyText(doc.preamble, doc.sections);
    DocumentPieces(doc, hash);
    FrontmatterSplit(doc.frontmatter, hash, body);
  }

  /** A text whose second piece splits into the written frontmatter lines
      parses, with the written frontmatter's scalar fields. */
  lemma ParsedFrontmatter(raw: string, fm: Frontmatter, checksum: string)
    requires |Split(raw, Delimiter)| >= 3
    requires Split(Split(raw, Delimiter)[1], "\n") == FrontmatterRead.ReadLines(fm, checksum)
    ensures var r := ParseDocumentSpec(raw);
      && r.Success?
      && r.value.frontmatter.harp == fm.harp && r.value.frontmatter.dyad == fm.dyad
      && r.value.frontmatter.epoch == fm.epoch && r.value.frontmatter.layer == fm.layer
      && r.value.frontmatter.created == fm.created && r.value.frontmatter.updated == fm.updated
      && r.value.frontmatter.previous == (if Given(fm.previous) then fm.previous else None)
      && r.value.frontmatter.checksum == checksum
  {
    FrontmatterRead.FrontmatterReadsBack(fm, checksum);
  }

  /** Reading back a written document: the text always has the three parts
      `parseDocument` needs, and when its frontmatter reads, the sections
      come back with their headings as `raw`, and the preamble with its
      rule. */
  lemma DocumentRoundTrip(doc: Document, hash: Hasher)
    requires FrontmatterFree(doc.frontmatter)
    requires GoodPreamble(doc.preamble) && AllBare(doc.sections)
    ensures |Split(DocumentText(doc, hash), Delimiter)| >= 3
    ensures var r := ParseDocumentSpec(DocumentText(doc, hash));
      r.Success? ==> r.value.sections == WithRaw(doc.sections) && r.value.preamble == ReadPreamble(doc.preamble)
    ensures FrontmatterOneLine(doc.frontmatter) ==>
      var r := ParseDocumentSpec(DocumentText(doc, hash));
      var fm := doc.frontmatter;
      && r.Success?
      && r.value.frontmatter.harp == fm.harp && r.value.frontmatter.dyad == fm.dyad
      && r.value.frontmatter.epoch == fm.epoch && r.value.frontmatter.layer == fm.layer
      && r.value.frontmatter.created == fm.created && r.value.frontmatter.updated == fm.updated
      && r.value.frontmatter.previous == (if Given(fm.previous) then fm.previous else None)
      && r.value.frontmatter.checksum == ComputeChecksum(hash, BodyText(doc.preamble, doc.sections))
  {
    BodyPartOfDocument(doc, hash);
    BodyRoundTrip.BodyRoundTrip(doc.preamble, doc.sections);
    if FrontmatterOneLine(doc.frontmatter) {
      var c := ComputeChecksum(hash, BodyText(doc.preamble, doc.sections));
      FrontmatterPartOfDocument(doc, hash);
      ParsedFrontmatter(DocumentText(doc, hash), doc.frontmatter, c);
    }
  }
}
