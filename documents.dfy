/** The document operations of `src/harp.ts`: `createDocument`,
    `createNextEpoch`, `addSection`, `createSection` and `filterSections`.
    Timestamps come in as `now`; the date parser of the queries comes in as a
    function. */
module Documents {
  import opened Wrappers
  import opened Strings
  import opened Types
  import opened Identity
  import opened Serialize
  import opened Headings
  import BodyRoundTrip

  // ---------------------------------------------------------------------------
  // createDocument

  /** The two descriptors in the order `createDocument` stores them: by their
      ids as given, not by their normal forms. */
  function EntityOrder(a: EntityDescriptor, b: EntityDescriptor): (r: seq<EntityEntry>)
    ensures |r| == 2 && multiset(r) == multiset{Described(a), Described(b)}
    ensures r[0].Described? && r[1].Described?
    ensures a.id != b.id ==> LexLess(r[0].descriptor.id, r[1].descriptor.id)
  {
    if LexLess(a.id, b.id) then [Described(a), Described(b)]
    else if a.id == b.id then [Described(b), Described(a)]
    else
      LexLessTotal(a.id, b.id);
      [Described(b), Described(a)]
  }

  /** The epoch-1 document before its text is written. */
  function Genesis(dyadId: string, a: EntityDescriptor, b: EntityDescriptor, layer: Layer,
                   preamble: Option<string>, now: string): Document
  {
    Document(
      Frontmatter(HarpVersion, dyadId, 1, now, now, None, layer, EntityOrder(a, b), "", None),
      preamble.GetOr(""), [], "")
  }

  /** `raw.split("---").slice(2).join("---").trim()`: what `createDocument`
      takes the checksum of. */
  function ChecksummedBody(raw: string): string {
    var parts := Split(raw, Delimiter);
    Trim(Join(if |parts| >= 2 then parts[2..] else [], Delimiter))
  }

  /** What `createDocument` returns or throws. */
  function CreateDocumentSpec(hash: Hasher, a: EntityDescriptor, b: EntityDescriptor, layer: Layer,
                              preamble: Option<string>, now: string): (r: Result<Document, HarpError>)
    ensures r.Success? <==> ComputeDyadId(a.id, b.id).Success?
    ensures r.Failure? ==> r == ComputeDyadId(a.id, b.id).PropagateFailure()
    ensures r.Success? ==>
      var fm := r.value.frontmatter;
      && fm.dyad == ComputeDyadId(a.id, b.id).value && fm.harp == HarpVersion
      && fm.epoch == 1 && fm.previous.None? && fm.created == now && fm.updated == now
      && fm.layer == layer && fm.signatures.None?
      && |fm.entities| == 2 && fm.entities[0].Described? && fm.entities[1].Described?
      && LexLess(fm.entities[0].descriptor.id, fm.entities[1].descriptor.id)
      && multiset(fm.entities) == multiset{Described(a), Described(b)}
      && r.value.sections == [] && r.value.preamble == preamble.GetOr("")
      && r.value.raw == DocumentText(r.value, hash)
      && StartsWith(fm.checksum, "sha256:")
  {
    var dyadId :- ComputeDyadId(a.id, b.id);
    DegenerateIds(a.id, b.id);
    var doc := Genesis(dyadId, a, b, layer, preamble, now);
    var raw := DocumentText(doc, hash);
    var checksum := ComputeChecksum(hash, ChecksummedBody(raw));
    DocumentTextIgnoresStoredChecksum(doc, hash, checksum, raw);
    Success(doc.(raw := raw, frontmatter := doc.frontmatter.(checksum := checksum)))
  }

  /** Equal ids normalise equally, so a dyad id needs two different ids. */
  lemma DegenerateIds(a: string, b: string)
    ensures ComputeDyadId(a, b).Success? ==> a != b
  {
    if a == b && NormalizeEntityId(a).Success? {
      DegenerateDyadRejected(a, b);
    }
  }

  /** `createDocument`: the text is written first, then the checksum of its
      body is stored. */
  method CreateDocument(hash: Hasher, a: EntityDescriptor, b: EntityDescriptor, layer: Layer,
                        preamble: Option<string>, now: string) returns (r: Result<Document, HarpError>)
    ensures r == CreateDocumentSpec(hash, a, b, layer, preamble, now)
  {
    var dyadId :- ComputeDyadId(a.id, b.id);
    var doc := Genesis(dyadId, a, b, layer, preamble, now);
    var raw := SerializeDocument(doc, hash);
    doc := doc.(raw := raw);
    var checksum := ComputeChecksum(hash, ChecksummedBody(raw));
    doc := doc.(frontmatter := doc.frontmatter.(checksum := checksum));
    return Success(doc);
  }

  /** The stored entity order follows the ids as given, while the dyad id
      orders the normal forms, and the two can disagree: `eth:B` comes before
      `eth:a`, but their normal forms are `eth:b` and `eth:a`. */
  lemma EntityOrderMayDisagree()
    ensures var a := EntityDescriptor("eth:B", Agent, None, None);
      var b := EntityDescriptor("eth:a", Agent, None, None);
      && ComputeDyadId(a.id, b.id) == Success("harp:eth:a:eth:b")
      && EntityOrder(a, b) == [Described(a), Described(b)]
  {
    var a := EntityDescriptor("eth:B", Agent, None, None);
    var b := EntityDescriptor("eth:a", Agent, None, None);
    assert ToLower("B") == "b" by {
      assert ToLower("B")[0] == LowerChar('B') == 'b';
    }
    assert ToLower("a") == "a" by {
      assert ToLower("a")[0] == LowerChar('a') == 'a';
    }
    assert a.id == "eth:" + "B" && b.id == "eth:" + "a";
    EthPrefixed("B");
    EthPrefixed("a");
    assert a.id[4..] == "B" && b.id[4..] == "a";
    assert NamespaceOf(a.id) == Some(Eth) && NamespaceOf(b.id) == Some(Eth);
    assert "eth:" + "b" == "eth:b" && "eth:" + "a" == "eth:a";
    assert NormalizeEntityId(a.id) == Success("eth:b");
    assert NormalizeEntityId(b.id) == Success("eth:a");
    assert LexLess("eth:B", "eth:a") by {
      assert "eth:B"[1..] == "th:B" && "eth:a"[1..] == "th:a";
      assert "th:B"[1..] == "h:B" && "th:a"[1..] == "h:a";
      assert "h:B"[1..] == ":B" && "h:a"[1..] == ":a";
      assert ":B"[1..] == "B" && ":a"[1..] == "a";
    }
    assert LexLess("eth:a", "eth:b") by {
      assert "eth:a"[1..] == "th:a" && "eth:b"[1..] == "th:b";
      assert "th:a"[1..] == "h:a" && "th:b"[1..] == "h:b";
      assert "h:a"[1..] == ":a" && "h:b"[1..] == ":b";
      assert ":a"[1..] == "a" && ":b"[1..] == "b";
    }
    LexLessAsymmetric("eth:a", "eth:b");
    assert Ordered("eth:b", "eth:a") == ("eth:a", "eth:b");
    assert "harp:" + "eth:a" + ":" + "eth:b" == "harp:eth:a:eth:b";
    assert ComputeDyadId(a.id, b.id) == Success("harp:eth:a:eth:b");
    assert EntityOrder(a, b) == [Described(a), Described(b)];
  }

  // ---------------------------------------------------------------------------
  // createNextEpoch and addSection

  /** `createNextEpoch`: the next epoch points back at the content id of the
      current one; the checksum and the text are cleared until the next
      serialisation. */
  function CreateNextEpoch(doc: Document, previousCid: string, now: string): (r: Document)
    ensures r.frontmatter.epoch == doc.frontmatter.epoch + 1
    ensures r.frontmatter.previous == Some(previousCid) && r.frontmatter.updated == now
    ensures r.frontmatter.checksum == "" && r.raw == ""
    ensures r.sections == doc.sections && r.preamble == doc.preamble
    ensures r.frontmatter.(epoch := doc.frontmatter.epoch, updated := doc.frontmatter.updated,
                           previous := doc.frontmatter.previous, checksum := doc.frontmatter.checksum)
            == doc.frontmatter
  {
    doc.(frontmatter := doc.frontmatter.(epoch := doc.frontmatter.epoch + 1, updated := now,
                                         previous := Some(previousCid), checksum := ""),
         raw := "")
  }

  /** `addSection`: one section more at the end; the text is stale. */
  function AddSection(doc: Document, section: Section): (r: Document)
    ensures r.sections == doc.sections + [section] && r.raw == ""
    ensures r.frontmatter == doc.frontmatter && r.preamble == doc.preamble
  {
    doc.(sections := doc.sections + [section], raw := "")
  }

  /** The documents of successive epochs, when each epoch adds one section and
      points back at the content id of the one before. */
  function History(first: Document, added: seq<Section>, cids: seq<string>, times: seq<string>): (r: seq<Document>)
    requires |added| == |cids| == |times|
    ensures |r| == |added| + 1 && r[0] == first
    decreases |added|
  {
    if |added| == 0 then [first]
    else
      var n := |added| - 1;
      var before := History(first, added[..n], cids[..n], times[..n]);
      before + [CreateNextEpoch(AddSection(before[n], added[n]), cids[n], times[n])]
  }

  /** The `i`-th epoch of a history: its epoch number, its sections, the
      content id it points back at, and the fields that never change. */
  lemma {:induction false} HistoryAt(first: Document, added: seq<Section>, cids: seq<string>, times: seq<string>, i: nat)
    requires |added| == |cids| == |times| && i <= |added|
    ensures var d := History(first, added, cids, times)[i];
      && d.frontmatter.epoch == first.frontmatter.epoch + i
      && d.sections == first.sections + added[..i]
      && (i > 0 ==> d.frontmatter.previous == Some(cids[i - 1]))
      && d.frontmatter.dyad == first.frontmatter.dyad
      && d.frontmatter.layer == first.frontmatter.layer
      && d.frontmatter.created == first.frontmatter.created
    decreases |added|
  {
    if |added| > 0 {
      var m := |added| - 1;
      var before := History(first, added[..m], cids[..m], times[..m]);
      assert History(first, added, cids, times) ==
        before + [CreateNextEpoch(AddSection(before[m], added[m]), cids[m], times[m])];
      if i <= m {
        HistoryAt(first, added[..m], cids[..m], times[..m], i);
        assert added[..m][..i] == added[..i];
        if i > 0 {
          assert cids[..m][i - 1] == cids[i - 1];
        }
      } else {
        HistoryAt(first, added[..m], cids[..m], times[..m], m);
        assert added[..m] + [added[m]] == added[..i];
      }
    }
  }

  /** Along a history the epoch goes up by one at each step, each epoch
      points back at the content id of the one before, and the sections grow
      by the added ones, in order. */
  lemma HistoryChain(first: Document, added: seq<Section>, cids: seq<string>, times: seq<string>)
    requires |added| == |cids| == |times|
    ensures var h := History(first, added, cids, times);
      && (forall i :: 0 <= i < |h| ==> h[i].frontmatter.epoch == first.frontmatter.epoch + i)
      && (forall i :: 0 <= i < |h| ==> h[i].sections == first.sections + added[..i])
      && (forall i :: 0 < i < |h| ==> h[i].frontmatter.previous == Some(cids[i - 1]))
      && (forall i :: 0 <= i < |h| ==>
            h[i].frontmatter.dyad == first.frontmatter.dyad
            && h[i].frontmatter.layer == first.frontmatter.layer
            && h[i].frontmatter.created == first.frontmatter.created)
  {
    var h := History(first, added, cids, times);
    forall i | 0 <= i < |h|
      ensures h[i].frontmatter.epoch == first.frontmatter.epoch + i
      ensures h[i].sections == first.sections + added[..i]
      ensures i > 0 ==> h[i].frontmatter.previous == Some(cids[i - 1])
      ensures h[i].frontmatter.dyad == first.frontmatter.dyad
      ensures h[i].frontmatter.layer == first.frontmatter.layer
      ensures h[i].frontmatter.created == first.frontmatter.created
    {
      HistoryAt(first, added, cids, times, i);
    }
  }

  /** A history that starts at a new document: epoch 1 has no previous
      epoch, and epoch `i + 1` is the `i`-th document. */
  lemma GenesisHistory(hash: Hasher, a: EntityDescriptor, b: EntityDescriptor, layer: Layer, preamble: Option<string>,
                       now: string, first: Document, added: seq<Section>, cids: seq<string>, times: seq<string>)
    requires CreateDocumentSpec(hash, a, b, layer, preamble, now) == Success(first)
    requires |added| == |cids| == |times|
    ensures var h := History(first, added, cids, times);
      && h[0].frontmatter.previous.None?
      && (forall i :: 0 <= i < |h| ==> h[i].frontmatter.epoch == i + 1 && h[i].sections == added[..i])
  {
    HistoryChain(first, added, cids, times);
  }

  // ---------------------------------------------------------------------------
  // createSection

  /** The `Partial<SectionMeta>` argument of `createSection`. */
  datatype MetaInput = MetaInput(
    timestamp: Option<string>,
    author: Option<string>,
    tags: Option<seq<string>>,
    references: Option<seq<Reference>>,
    evidence: Option<seq<Evidence>>,
    demonstratedIn: Option<seq<string>>,
    acknowledgedBy: Option<string>,
    status: Option<TensionStatus>,
    resolution: Option<string>,
    x402: Option<Payment>,
    platform: Option<string>)

  /** `{ timestamp: meta.timestamp ?? now, author: meta.author ?? "", ...meta }` */
  function CompleteMeta(m: MetaInput, now: string): (r: SectionMeta)
    ensures r.timestamp == m.timestamp.GetOr(now) && r.author == m.author.GetOr("")
    ensures r.tags == m.tags && r.references == m.references && r.evidence == m.evidence
    ensures r.status == m.status && r.resolution == m.resolution && r.x402 == m.x402
    ensures r.demonstratedIn == m.demonstratedIn && r.acknowledgedBy == m.acknowledgedBy && r.platform == m.platform
  {
    SectionMeta(m.timestamp.GetOr(now), m.author.GetOr(""), m.tags, m.references, m.evidence,
                m.demonstratedIn, m.acknowledgedBy, m.status, m.resolution, m.x402, m.platform)
  }

  /** `createSection`: the section with its serialised text as `raw`. */
  function CreateSection(sectionType: string, title: string, content: string, meta: Option<MetaInput>,
                         now: string): (r: Section)
    ensures r.sectionType == sectionType && r.title == title && r.content == content
    ensures r.meta.Some? <==> meta.Some?
    ensures meta.Some? ==> r.meta.value == CompleteMeta(meta.value, now)
    ensures r.raw == SectionText(r)
  {
    var full := if meta.Some? then Some(CompleteMeta(meta.value, now)) else None;
    var section := Section(sectionType, title, full, content, "");
    section.(raw := SectionText(section))
  }

  /** A section created with a heading only is written as its heading line,
      which reads back as the type and title it was created with. */
  lemma CreatedBareSectionReadsBack(sectionType: string, title: string, now: string)
    requires BodyRoundTrip.GoodType(sectionType) && BodyRoundTrip.GoodTitle(title)
    ensures var r := CreateSection(sectionType, title, "", None, now);
      HeadingMatch(Trim(r.raw)) == Some(Heading(sectionType, title, 5 + |sectionType| + |title|))
  {
    var r := CreateSection(sectionType, title, "", None, now);
    BareSectionText(r);
    var h := HeadingLine(sectionType, title);
    assert h[0] == '#' && h[|h| - 1] == title[|title| - 1];
    TrimBreaks(h, "\n");
    HeadingOfSerialized(sectionType, title);
  }

  /** A section created with content is written as its heading, a blank line
      and the content: the trimmed text is not a heading, so the parser reads
      it as preamble. */
  lemma CreatedContentSectionIsNotHeading(sectionType: string, title: string, content: string, now: string)
    requires BodyRoundTrip.GoodTitle(title) && content != "" && !IsSpace(content[|content| - 1])
    ensures HeadingMatch(Trim(CreateSection(sectionType, title, content, None, now).raw)).None?
  {
    var r := CreateSection(sectionType, title, content, None, now);
    var h := HeadingLine(sectionType, title);
    assert SectionLines(r) == [h, "", content];
    assert Join([h, "", content], "\n") == h + "\n" + ("" + "\n" + content) by {
      assert [h, "", content] == [h] + ["", content];
      JoinCons(h, ["", content], "\n");
      assert ["", content] == [""] + [content];
      JoinCons("", [content], "\n");
    }
    var more := "\n" + content;
    assert r.raw == h + "\n" + more;
    assert r.raw[0] == '#' && r.raw[|r.raw| - 1] == content[|content| - 1];
    TrimOfUnpadded(r.raw);
    HeadingThenMoreIsNotHeading(sectionType, title, more);
  }

  // ---------------------------------------------------------------------------
  // filterSections

  /** `new Date(s).getTime()`, with `None` for an unreadable date (NaN). */
  type DateParser = string -> Option<int>

  /** `Array.prototype.filter`. */
  function Keep(ss: seq<Section>, p: Section -> bool): (r: seq<Section>)
    ensures |r| <= |ss|
    ensures forall i :: 0 <= i < |r| ==> p(r[i])
  {
    if |ss| == 0 then [] else (if p(ss[0]) then [ss[0]] else []) + Keep(ss[1..], p)
  }

  /** `Array.prototype.slice(0, n)`: a negative `n` counts from the end. */
  function SliceTo(ss: seq<Section>, n: int): (r: seq<Section>)
    ensures 0 <= n ==> |r| == Min(n, |ss|)
    ensures |r| <= |ss| && r == ss[..|r|]
  {
    if 0 <= n then ss[..Min(n, |ss|)]
    else if |ss| + n <= 0 then []
    else ss[..|ss| + n]
  }

  function Min(a: int, b: int): int {
    if a < b then a else b
  }

  /** A list argument that is set and not empty. */
  predicate NonEmpty<T>(o: Option<seq<T>>) {
    o.Some? && |o.value| > 0
  }

  predicate TypeMatches(f: SectionFilter, s: Section) {
    f.types.Some? && s.sectionType in f.types.value
  }

  predicate AuthorMatches(f: SectionFilter, s: Section) {
    f.author.Some? && s.meta.Some? && s.meta.value.author == f.author.value
  }

  /** `s.meta?.timestamp && new Date(s.meta.timestamp).getTime() > after`:
      an unreadable date on either side compares false. */
  predicate IsAfter(f: SectionFilter, parse: DateParser, s: Section) {
    && f.after.Some?
    && s.meta.Some? && s.meta.value.timestamp != ""
    && parse(s.meta.value.timestamp).Some? && parse(f.after.value).Some?
    && parse(s.meta.value.timestamp).value > parse(f.after.value).value
  }

  predicate IsBefore(f: SectionFilter, parse: DateParser, s: Section) {
    && f.before.Some?
    && s.meta.Some? && s.meta.value.timestamp != ""
    && parse(s.meta.value.timestamp).Some? && parse(f.before.value).Some?
    && parse(s.meta.value.timestamp).value < parse(f.before.value).value
  }

  predicate SharesTag(f: SectionFilter, s: Section) {
    f.tags.Some? && s.meta.Some? && s.meta.value.tags.Some? && exists t :: t in f.tags.value && t in s.meta.value.tags.value
  }

  /** `filterSections`: each criterion that is given narrows the list; a
      `limit` of 0 is no limit. */
  function FilterSections(doc: Document, f: SectionFilter, parse: DateParser): seq<Section> {
    var s1 := if NonEmpty(f.types) then Keep(doc.sections, s => TypeMatches(f, s)) else doc.sections;
    var s2 := if Given(f.author) then Keep(s1, s => AuthorMatches(f, s)) else s1;
    var s3 := if Given(f.after) then Keep(s2, s => IsAfter(f, parse, s)) else s2;
    var s4 := if Given(f.before) then Keep(s3, s => IsBefore(f, parse, s)) else s3;
    var s5 := if NonEmpty(f.tags) then Keep(s4, s => SharesTag(f, s)) else s4;
    if f.limit.Some? && f.limit.value != 0 then SliceTo(s5, f.limit.value) else s5
  }

  /** A section passes a filter when it meets every criterion that is given. */
  predicate Passes(f: SectionFilter, parse: DateParser, s: Section) {
    && (NonEmpty(f.types) ==> TypeMatches(f, s))
    && (Given(f.author) ==> AuthorMatches(f, s))
    && (Given(f.after) ==> IsAfter(f, parse, s))
    && (Given(f.before) ==> IsBefore(f, parse, s))
    && (NonEmpty(f.tags) ==> SharesTag(f, s))
  }

  /** Filtering twice is filtering once by both predicates. */
  lemma {:induction false} KeepKeep(ss: seq<Section>, p: Section -> bool, q: Section -> bool, pq: Section -> bool)
    requires forall s :: pq(s) == (p(s) && q(s))
    ensures Keep(Keep(ss, p), q) == Keep(ss, pq)
  {
    if |ss| > 0 {
      KeepKeep(ss[1..], p, q, pq);
      var head := if p(ss[0]) then [ss[0]] else [];
      KeepAppend(head, Keep(ss[1..], p), q);
      if p(ss[0]) {
        assert Keep(head, q) == (if q(ss[0]) then [ss[0]] else []) by {
          assert head[1..] == [];
        }
      }
    }
  }

  lemma {:induction false} KeepAppend(a: seq<Section>, b: seq<Section>, p: Section -> bool)
    ensures Keep(a + b, p) == Keep(a, p) + Keep(b, p)
  {
    if |a| > 0 {
      assert (a + b)[1..] == a[1..] + b;
      KeepAppend(a[1..], b, p);
    } else {
      assert a + b == b;
    }
  }

  /** Filtering by a predicate every element meets changes nothing. */
  lemma {:induction false} KeepAll(ss: seq<Section>, p: Section -> bool)
    requires forall s :: p(s)
    ensures Keep(ss, p) == ss
  {
    if |ss| > 0 {
      KeepAll(ss[1..], p);
    }
  }

  /** The chained filters are one filter by `Passes`, capped by the limit. */
  lemma FilterSectionsIsOneFilter(doc: Document, f: SectionFilter, parse: DateParser)
    ensures var all := Keep(doc.sections, s => Passes(f, parse, s));
      FilterSections(doc, f, parse) == if f.limit.Some? && f.limit.value != 0 then SliceTo(all, f.limit.value) else all
  {
    var ss := doc.sections;
    var p1 := s => NonEmpty(f.types) ==> TypeMatches(f, s);
    var p2 := s => p1(s) && (Given(f.author) ==> AuthorMatches(f, s));
    var p3 := s => p2(s) && (Given(f.after) ==> IsAfter(f, parse, s));
    var p4 := s => p3(s) && (Given(f.before) ==> IsBefore(f, parse, s));
    var p5 := s => p4(s) && (NonEmpty(f.tags) ==> SharesTag(f, s));
    KeepAll(ss, s => true);
    KeepStage(ss, ss, s => true, NonEmpty(f.types), s => TypeMatches(f, s), p1);
    var s1 := if NonEmpty(f.types) then Keep(ss, s => TypeMatches(f, s)) else ss;
    KeepStage(ss, s1, p1, Given(f.author), s => AuthorMatches(f, s), p2);
    var s2 := if Given(f.author) then Keep(s1, s => AuthorMatches(f, s)) else s1;
    KeepStage(ss, s2, p2, Given(f.after), s => IsAfter(f, parse, s), p3);
    var s3 := if Given(f.after) then Keep(s2, s => IsAfter(f, parse, s)) else s2;
    KeepStage(ss, s3, p3, Given(f.before), s => IsBefore(f, parse, s), p4);
    var s4 := if Given(f.before) then Keep(s3, s => IsBefore(f, parse, s)) else s3;
    KeepStage(ss, s4, p4, NonEmpty(f.tags), s => SharesTag(f, s), p5);
    KeepSame(ss, p5, s => Passes(f, parse, s));
  }

  /** One stage of the chain: filtering the result of `p` by `q`, when the
      stage applies, is filtering by both. */
  lemma KeepStage(ss: seq<Section>, s: seq<Section>, p: Section -> bool, applies: bool, q: Section -> bool,
                  pq: Section -> bool)
    requires s == Keep(ss, p)
    requires forall x :: pq(x) == (p(x) && (applies ==> q(x)))
    ensures (if applies then Keep(s, q) else s) == Keep(ss, pq)
  {
    if applies {
      KeepKeep(ss, p, q, pq);
    } else {
      KeepSame(ss, p, pq);
    }
  }

  /** Two predicates that agree everywhere filter alike. */
  lemma {:induction false} KeepSame(ss: seq<Section>, p: Section -> bool, q: Section -> bool)
    requires forall s :: p(s) == q(s)
    ensures Keep(ss, p) == Keep(ss, q)
  {
    if |ss| > 0 {
      KeepSame(ss[1..], p, q);
    }
  }

  /** `a` is `b` with some elements left out, the rest in the same order. */
  predicate IsSubsequence(a: seq<Section>, b: seq<Section>)
    decreases |b|
  {
    if |a| == 0 then true
    else if |b| == 0 then false
    else if a[0] == b[0] then IsSubsequence(a[1..], b[1..])
    else IsSubsequence(a, b[1..])
  }

  lemma {:induction false} KeepIsSubsequence(ss: seq<Section>, p: Section -> bool)
    ensures IsSubsequence(Keep(ss, p), ss)
  {
    if |ss| > 0 {
      KeepIsSubsequence(ss[1..], p);
      var r := Keep(ss, p);
      if p(ss[0]) {
        assert r[0] == ss[0] && r[1..] == Keep(ss[1..], p);
      } else {
        assert r == Keep(ss[1..], p);
        DropFirst(r, ss);
      }
    }
  }

  /** A subsequence of the tail is a subsequence of the whole. */
  lemma {:induction false} DropFirst(a: seq<Section>, b: seq<Section>)
    requires |b| > 0 && IsSubsequence(a, b[1..])
    ensures IsSubsequence(a, b)
    decreases 2 * |b|
  {
    if |a| > 0 && a[0] == b[0] {
      SubsequenceTail(a, b[1..]);
    }
  }

  /** Leaving out the first element keeps a subsequence. */
  lemma {:induction false} SubsequenceTail(a: seq<Section>, b: seq<Section>)
    requires |a| > 0 && IsSubsequence(a, b)
    ensures IsSubsequence(a[1..], b)
    decreases 2 * |b| + 1
  {
    if a[0] == b[0] {
      DropFirst(a[1..], b);
    } else {
      SubsequenceTail(a, b[1..]);
      DropFirst(a[1..], b);
    }
  }

  /** A prefix of a subsequence is a subsequence. */
  lemma {:induction false} PrefixIsSubsequence(a: seq<Section>, b: seq<Section>, k: nat)
    requires k <= |a| && IsSubsequence(a, b)
    ensures IsSubsequence(a[..k], b)
    decreases |b|
  {
    if k > 0 {
      if a[0] == b[0] {
        PrefixIsSubsequence(a[1..], b[1..], k - 1);
        assert a[..k][1..] == a[1..][..k - 1];
      } else {
        PrefixIsSubsequence(a, b[1..], k);
        DropFirst(a[..k], b);
      }
    }
  }

  /** What `filterSections` promises: the sections it returns come from the
      document in their order, each meets every given criterion (so a section
      without a readable timestamp never passes `after` or `before`, and one
      without tags never passes `tags`), and a positive `limit` caps the
      count. Without a limit every section that meets the criteria is kept. */
  lemma FilterSectionsProperties(doc: Document, f: SectionFilter, parse: DateParser)
    ensures var r := FilterSections(doc, f, parse);
      && IsSubsequence(r, doc.sections)
      && (forall i :: 0 <= i < |r| ==> Passes(f, parse, r[i]))
      && (f.limit.Some? && f.limit.value > 0 ==> |r| <= f.limit.value)
      && ((f.limit.None? || f.limit.value == 0) ==>
            forall s :: s in doc.sections && Passes(f, parse, s) ==> s in r)
  {
    FilterSectionsIsOneFilter(doc, f, parse);
    var all := Keep(doc.sections, s => Passes(f, parse, s));
    var r := FilterSections(doc, f, parse);
    KeepIsSubsequence(doc.sections, s => Passes(f, parse, s));
    PrefixIsSubsequence(all, doc.sections, |r|);
    assert r == all[..|r|];
    forall s | s in doc.sections && Passes(f, parse, s)
      ensures s in all
    {
      KeepKeeps(doc.sections, s => Passes(f, parse, s), s);
    }
  }

  lemma {:induction false} KeepKeeps(ss: seq<Section>, p: Section -> bool, x: Section)
    requires x in ss && p(x)
    ensures x in Keep(ss, p)
  {
    if ss[0] != x {
      KeepKeeps(ss[1..], p, x);
    }
  }
}
