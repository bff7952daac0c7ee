/** Reading back what `serializeSectionMeta` writes (src/harp.ts:275-314)
    with `parseSectionMeta` (src/harp.ts:175-186). The one-line fields and
    `demonstrated_in` come back as they were written. `tags` is written as a
    flow list `["a", "b"]`, which the reader's value decoder keeps as text, so
    the record read back has no tags. The reference and evidence lists are
    read as items the record does not keep. */
module MetaRoundTrip {
  import opened Wrappers
  import opened Strings
  import opened Yaml
  import opened YamlLines
  import opened Types
  import opened Serialize
  import opened Parse
  import opened Headings
  import FrontmatterRead

  // ---------------------------------------------------------------------------
  // The lines between the opener and the closer

  /** The lines the writer puts between `<!-- harp:meta` and `-->`. */
  function MetaInner(m: SectionMeta): seq<string> {
    ListMetaLines(ScalarMetaLines([], m), m)
  }

  /** Pushing `x` when `c` holds, after `p + q`. */
  function PushIf(lines: seq<string>, c: bool, x: string): seq<string> {
    if c then lines + [x] else lines
  }

  lemma PushIfShift(p: seq<string>, q: seq<string>, c: bool, x: string)
    ensures PushIf(p + q, c, x) == p + PushIf(q, c, x)
  {
    if c {
      assert (p + q) + [x] == p + (q + [x]);
    }
  }

  lemma ScalarShift(p: seq<string>, m: SectionMeta)
    ensures ScalarMetaLines(p, m) == p + ScalarMetaLines([], m)
  {
    var x1, c1 := "timestamp: " + Quoted(m.timestamp), m.timestamp != "";
    var x2, c2 := "author: " + Quoted(m.author), m.author != "";
    var x3, c3 := "tags: [" + Join(QuotedItems(if m.tags.Some? then m.tags.value else []), ", ") + "]",
      m.tags.Some? && |m.tags.value| > 0;
    var x4, c4 := "status: " + Quoted(if m.status.Some? then StatusName(m.status.value) else ""), m.status.Some?;
    var x5, c5 := "resolution: " + Quoted(if m.resolution.Some? then m.resolution.value else ""), Given(m.resolution);
    var x6, c6 := "acknowledged_by: " + Quoted(if m.acknowledgedBy.Some? then m.acknowledgedBy.value else ""),
      Given(m.acknowledgedBy);
    var e: seq<string> := [];
    var q1 := PushIf(e, c1, x1);
    var q2 := PushIf(q1, c2, x2);
    var q3 := PushIf(q2, c3, x3);
    var q4 := PushIf(q3, c4, x4);
    var q5 := PushIf(q4, c5, x5);
    assert ScalarMetaLines([], m) == PushIf(q5, c6, x6);
    assert p + e == p;
    PushIfShift(p, e, c1, x1);
    PushIfShift(p, q1, c2, x2);
    PushIfShift(p, q2, c3, x3);
    PushIfShift(p, q3, c4, x4);
    PushIfShift(p, q4, c5, x5);
    PushIfShift(p, q5, c6, x6);
    assert ScalarMetaLines(p, m)
        == PushIf(PushIf(PushIf(PushIf(PushIf(PushIf(p + e, c1, x1), c2, x2), c3, x3), c4, x4), c5, x5), c6, x6);
  }

  lemma {:induction false} DemonstratedShift(p: seq<string>, q: seq<string>, refs: seq<string>)
    ensures DemonstratedFrom(p + q, refs) == p + DemonstratedFrom(q, refs)
  {
    if |refs| > 0 {
      DemonstratedShift(p, q, refs[..|refs| - 1]);
    }
  }

  lemma {:induction false} ReferencesShift(p: seq<string>, q: seq<string>, refs: seq<Reference>)
    ensures ReferencesFrom(p + q, refs) == p + ReferencesFrom(q, refs)
  {
    if |refs| > 0 {
      ReferencesShift(p, q, refs[..|refs| - 1]);
    }
  }

  lemma {:induction false} EvidenceShift(p: seq<string>, q: seq<string>, evs: seq<Evidence>)
    ensures EvidenceFrom(p + q, evs) == p + EvidenceFrom(q, evs)
  {
    if |evs| > 0 {
      EvidenceShift(p, q, evs[..|evs| - 1]);
    }
  }

  lemma ListShift(p: seq<string>, q: seq<string>, m: SectionMeta)
    ensures ListMetaLines(p + q, m) == p + ListMetaLines(q, m)
  {
    if m.demonstratedIn.Some? && |m.demonstratedIn.value| > 0 {
      assert (p + q) + ["demonstrated_in:"] == p + (q + ["demonstrated_in:"]);
      DemonstratedShift(p, q + ["demonstrated_in:"], m.demonstratedIn.value);
    }
    var l1 := if m.demonstratedIn.Some? && |m.demonstratedIn.value| > 0
      then DemonstratedFrom(q + ["demonstrated_in:"], m.demonstratedIn.value) else q;
    if m.references.Some? && |m.references.value| > 0 {
      assert (p + l1) + ["references:"] == p + (l1 + ["references:"]);
      ReferencesShift(p, l1 + ["references:"], m.references.value);
    }
    var l2 := if m.references.Some? && |m.references.value| > 0
      then ReferencesFrom(l1 + ["references:"], m.references.value) else l1;
    if m.evidence.Some? && |m.evidence.value| > 0 {
      assert (p + l2) + ["evidence:"] == p + (l2 + ["evidence:"]);
      EvidenceShift(p, l2 + ["evidence:"], m.evidence.value);
    }
  }

  lemma MetaLinesFramed(m: SectionMeta)
    ensures MetaLines(m) == ["<!-- harp:meta"] + MetaInner(m) + ["-->"]
  {
    ScalarShift(["<!-- harp:meta"], m);
    ListShift(["<!-- harp:meta"], ScalarMetaLines([], m), m);
  }

  /** The text between the opener `<!-- harp:meta\n` and the closer `-->`:
      each inner line followed by a line break. */
  function MetaYamlText(m: SectionMeta): string {
    if |MetaInner(m)| == 0 then "" else Join(MetaInner(m), "\n") + "\n"
  }

  /** The comment block is the opener, the inner lines and the closer. */
  lemma MetaTextFramed(m: SectionMeta)
    ensures SectionMetaText(m) == MetaOpen + MetaYamlText(m) + MetaClose
  {
    MetaLinesFramed(m);
    var inner := MetaInner(m);
    var head := "<!-- harp:meta";
    if |inner| == 0 {
      assert MetaLines(m) == [head] + ["-->"];
      JoinCons(head, ["-->"], "\n");
    } else {
      assert MetaLines(m) == [head] + (inner + ["-->"]);
      JoinCons(head, inner + ["-->"], "\n");
      JoinAppend(inner, "-->", "\n");
    }
  }

  /** No inner line holds a line break or a `>`, so the lines split back
      apart and the first `-->` is the closer. */
  predicate MetaPlain(m: SectionMeta) {
    forall i :: 0 <= i < |MetaInner(m)| ==> '\n' !in MetaInner(m)[i] && '>' !in MetaInner(m)[i]
  }

  lemma {:induction false} NoCharInJoin(lines: seq<string>, c: char)
    requires c != '\n'
    requires forall i :: 0 <= i < |lines| ==> c !in lines[i]
    ensures c !in Join(lines, "\n")
    decreases |lines|
  {
    if |lines| > 1 {
      NoCharInJoin(lines[1..], c);
      assert lines[0] in lines;
    }
  }

  lemma MetaYamlLines(m: SectionMeta)
    requires MetaPlain(m)
    ensures Split(MetaYamlText(m), "\n") == MetaInner(m) + [""]
    ensures '>' !in MetaYamlText(m)
  {
    var inner := MetaInner(m);
    assert "\n" == ['\n'];
    if |inner| == 0 {
      SplitNoChar("", '\n');
    } else {
      var lines := inner + [""];
      forall i | 0 <= i < |lines|
        ensures '\n' !in lines[i]
      {
        if i < |inner| {
          assert lines[i] == inner[i];
        }
      }
      SplitJoinLines(lines);
      JoinAppend(inner, "", "\n");
      assert Join(inner, "\n") + "\n" + "" == MetaYamlText(m);
      NoCharInJoin(inner, '>');
    }
  }

  /** The reader finds the block the writer wrote, whatever follows it, and
      decodes the inner lines and an empty last line. */
  lemma MetaBlockFound(m: SectionMeta, tail: string)
    requires MetaPlain(m)
    ensures ParseSectionMeta(SectionMetaText(m) + tail) == Some(ParseLines(MetaInner(m) + [""]).result)
  {
    MetaTextFramed(m);
    MetaYamlLines(m);
    var y := MetaYamlText(m);
    MetaBlockAtStart(y, tail);
    var s := MetaOpen + y + MetaClose + tail;
    assert s[|MetaOpen|..|MetaOpen| + |y|] == y;
  }

  // ---------------------------------------------------------------------------
  // What the reader stores

  /** The keys the record is read from, none of them stored yet. */
  const MetaStart: Knowledge := map[
    "timestamp" := None, "author" := None, "tags" := None, "status" := None,
    "resolution" := None, "acknowledged_by" := None, "demonstrated_in" := None, "platform" := None]

  /** The text of the `tags` line after `tags: `. */
  function TagsText(tags: seq<string>): string {
    "[" + Join(QuotedItems(tags), ", ") + "]"
  }

  predicate HasTags(m: SectionMeta) {
    m.tags.Some? && |m.tags.value| > 0
  }

  predicate HasDemonstrated(m: SectionMeta) {
    m.demonstratedIn.Some? && |m.demonstratedIn.value| > 0
  }

  function TimestampValue(m: SectionMeta): Option<YamlValue> {
    if m.timestamp != "" then Some(YStr(m.timestamp)) else None
  }

  function AuthorValue(m: SectionMeta): Option<YamlValue> {
    if m.author != "" then Some(YStr(m.author)) else None
  }

  function TagsValue(m: SectionMeta): Option<YamlValue> {
    if HasTags(m) then Some(YStr(TagsText(m.tags.value))) else None
  }

  function StatusValue(m: SectionMeta): Option<YamlValue> {
    if m.status.Some? then Some(YStr(StatusName(m.status.value))) else None
  }

  function ResolutionValue(m: SectionMeta): Option<YamlValue> {
    if Given(m.resolution) then Some(YStr(m.resolution.value)) else None
  }

  function AcknowledgedValue(m: SectionMeta): Option<YamlValue> {
    if Given(m.acknowledgedBy) then Some(YStr(m.acknowledgedBy.value)) else None
  }

  function YStrs(ss: seq<string>): (r: seq<YamlValue>)
    ensures |r| == |ss|
  {
    seq(|ss|, i requires 0 <= i < |ss| => YStr(ss[i]))
  }

  function DemonstratedValue(m: SectionMeta): Option<YamlValue> {
    if HasDemonstrated(m) then Some(YList(YStrs(m.demonstratedIn.value))) else None
  }

  /** What is stored after the one-line fields, in the order they are written. */
  function ScalarKnown(m: SectionMeta): Knowledge {
    MetaStart["timestamp" := TimestampValue(m)]["author" := AuthorValue(m)]["tags" := TagsValue(m)]
      ["status" := StatusValue(m)]["resolution" := ResolutionValue(m)]["acknowledged_by" := AcknowledgedValue(m)]
  }

  /** What is stored once `demonstrated_in` has been read. */
  function MetaKnown(m: SectionMeta): Knowledge {
    if HasDemonstrated(m)
    then (ScalarKnown(m) - {"demonstrated_in"})["demonstrated_in" := DemonstratedValue(m)]
    else ScalarKnown(m)
  }

  /** Each one-line field's key is still unset when its line comes. */
  lemma ScalarFresh(m: SectionMeta)
    ensures var k0 := MetaStart;
      var k1 := k0["timestamp" := TimestampValue(m)];
      var k2 := k1["author" := AuthorValue(m)];
      var k3 := k2["tags" := TagsValue(m)];
      var k4 := k3["status" := StatusValue(m)];
      var k5 := k4["resolution" := ResolutionValue(m)];
      && "timestamp" in k0 && k0["timestamp"].None?
      && "author" in k1 && k1["author"].None?
      && "tags" in k2 && k2["tags"].None?
      && "status" in k3 && k3["status"].None?
      && "resolution" in k4 && k4["resolution"].None?
      && "acknowledged_by" in k5 && k5["acknowledged_by"].None?
  {
  }

  /** The keys of the lists the record does not keep, and of their items'
      fields, are never among those tracked. */
  lemma MetaKeys(m: SectionMeta)
    ensures "references" !in MetaKnown(m) && "evidence" !in MetaKnown(m)
    ensures "id" !in MetaKnown(m) && "tx" !in MetaKnown(m)
    ensures "demonstrated_in" in ScalarKnown(m)
  {
  }

  // ---------------------------------------------------------------------------
  // The one-line fields

  /** A quoted text is one value: unpadded, not a block marker, decoded back
      to the text. */
  lemma QuotedValue(s: string)
    ensures Unpadded(Quoted(s)) && Quoted(s) != "|" && ParseYamlValue(Quoted(s)) == YStr(s)
  {
    FrontmatterRead.QuotedUnpadded(s);
    QuotedScalar(s);
  }

  lemma TimestampSpelled(v: string)
    requires Unpadded(v)
    ensures KeyShape("timestamp: " + v, "", "timestamp", v)
  {
  }

  lemma AuthorSpelled(v: string)
    requires Unpadded(v)
    ensures KeyShape("author: " + v, "", "author", v)
  {
  }

  lemma StatusSpelled(v: string)
    requires Unpadded(v)
    ensures KeyShape("status: " + v, "", "status", v)
  {
  }

  lemma ResolutionSpelled(v: string)
    requires Unpadded(v)
    ensures KeyShape("resolution: " + v, "", "resolution", v)
  {
  }

  lemma AcknowledgedSpelled(v: string)
    requires Unpadded(v)
    ensures KeyShape("acknowledged_by: " + v, "", "acknowledged_by", v)
  {
  }

  lemma TagsSpelled(tags: seq<string>)
    ensures KeyShape("tags: [" + Join(QuotedItems(tags), ", ") + "]", "", "tags", TagsText(tags))
    ensures TagsText(tags) != "|" && ParseYamlValue(TagsText(tags)) == YStr(TagsText(tags))
  {
    var t := TagsText(tags);
    assert t[0] == '[' && t[|t| - 1] == ']';
    BareScalar(t);
  }

  lemma TimestampRead(pre: seq<string>, m: SectionMeta, known: Knowledge)
    requires Known(ParseLines(pre), known) && "timestamp" in known && known["timestamp"].None?
    ensures Known(ParseLines(if m.timestamp != "" then pre + ["timestamp: " + Quoted(m.timestamp)] else pre),
                  known["timestamp" := TimestampValue(m)])
  {
    QuotedValue(m.timestamp);
    TimestampSpelled(Quoted(m.timestamp));
    MaybeSetLine(pre, m.timestamp != "", "timestamp: " + Quoted(m.timestamp), "timestamp", Quoted(m.timestamp),
                 TimestampValue(m), known);
  }

  lemma AuthorRead(pre: seq<string>, m: SectionMeta, known: Knowledge)
    requires Known(ParseLines(pre), known) && "author" in known && known["author"].None?
    ensures Known(ParseLines(if m.author != "" then pre + ["author: " + Quoted(m.author)] else pre),
                  known["author" := AuthorValue(m)])
  {
    QuotedValue(m.author);
    AuthorSpelled(Quoted(m.author));
    MaybeSetLine(pre, m.author != "", "author: " + Quoted(m.author), "author", Quoted(m.author),
                 AuthorValue(m), known);
  }

  lemma TagsRead(pre: seq<string>, m: SectionMeta, known: Knowledge)
    requires Known(ParseLines(pre), known) && "tags" in known && known["tags"].None?
    ensures HasTags(m) ==>
      Known(ParseLines(pre + ["tags: [" + Join(QuotedItems(m.tags.value), ", ") + "]"]), known["tags" := TagsValue(m)])
    ensures !HasTags(m) ==> Known(ParseLines(pre), known["tags" := TagsValue(m)])
  {
    var tags := if m.tags.Some? then m.tags.value else [];
    TagsSpelled(tags);
    MaybeSetLine(pre, HasTags(m), "tags: [" + Join(QuotedItems(tags), ", ") + "]", "tags", TagsText(tags),
                 TagsValue(m), known);
  }

  lemma StatusRead(pre: seq<string>, m: SectionMeta, known: Knowledge)
    requires Known(ParseLines(pre), known) && "status" in known && known["status"].None?
    ensures m.status.Some? ==>
      Known(ParseLines(pre + ["status: " + Quoted(StatusName(m.status.value))]), known["status" := StatusValue(m)])
    ensures m.status.None? ==> Known(ParseLines(pre), known["status" := StatusValue(m)])
  {
    var name := if m.status.Some? then StatusName(m.status.value) else "";
    QuotedValue(name);
    StatusSpelled(Quoted(name));
    MaybeSetLine(pre, m.status.Some?, "status: " + Quoted(name), "status", Quoted(name), StatusValue(m), known);
  }

  lemma ResolutionRead(pre: seq<string>, m: SectionMeta, known: Knowledge)
    requires Known(ParseLines(pre), known) && "resolution" in known && known["resolution"].None?
    ensures Given(m.resolution) ==>
      Known(ParseLines(pre + ["resolution: " + Quoted(m.resolution.value)]), known["resolution" := ResolutionValue(m)])
    ensures !Given(m.resolution) ==> Known(ParseLines(pre), known["resolution" := ResolutionValue(m)])
  {
    var r := if m.resolution.Some? then m.resolution.value else "";
    QuotedValue(r);
    ResolutionSpelled(Quoted(r));
    MaybeSetLine(pre, Given(m.resolution), "resolution: " + Quoted(r), "resolution", Quoted(r),
                 ResolutionValue(m), known);
  }

  lemma AcknowledgedRead(pre: seq<string>, m: SectionMeta, known: Knowledge)
    requires Known(ParseLines(pre), known) && "acknowledged_by" in known && known["acknowledged_by"].None?
    ensures Given(m.acknowledgedBy) ==>
      Known(ParseLines(pre + ["acknowledged_by: " + Quoted(m.acknowledgedBy.value)]),
            known["acknowledged_by" := AcknowledgedValue(m)])
    ensures !Given(m.acknowledgedBy) ==> Known(ParseLines(pre), known["acknowledged_by" := AcknowledgedValue(m)])
  {
    var a := if m.acknowledgedBy.Some? then m.acknowledgedBy.value else "";
    QuotedValue(a);
    AcknowledgedSpelled(Quoted(a));
    MaybeSetLine(pre, Given(m.acknowledgedBy), "acknowledged_by: " + Quoted(a), "acknowledged_by", Quoted(a),
                 AcknowledgedValue(m), known);
  }

  /** After the one-line fields, each of them that was written is stored as
      the text it was written from, and the others are absent. */
  lemma ScalarsRead(m: SectionMeta)
    ensures Known(ParseLines(ScalarMetaLines([], m)), ScalarKnown(m))
  {
    var l0: seq<string> := [];
    assert ParseLines(l0) == Start;
    KnownAtStart();
    ScalarFresh(m);
    var k0 := MetaStart;
    var k1 := k0["timestamp" := TimestampValue(m)];
    var k2 := k1["author" := AuthorValue(m)];
    var k3 := k2["tags" := TagsValue(m)];
    var k4 := k3["status" := StatusValue(m)];
    var k5 := k4["resolution" := ResolutionValue(m)];
    assert Known(Start, k0);
    TimestampRead(l0, m, k0);
    var l1 := if m.timestamp != "" then l0 + ["timestamp: " + Quoted(m.timestamp)] else l0;
    AuthorRead(l1, m, k1);
    var l2 := if m.author != "" then l1 + ["author: " + Quoted(m.author)] else l1;
    TagsRead(l2, m, k2);
    var l3 := if m.tags.Some? && |m.tags.value| > 0
      then l2 + ["tags: [" + Join(QuotedItems(m.tags.value), ", ") + "]"] else l2;
    StatusRead(l3, m, k3);
    var l4 := if m.status.Some? then l3 + ["status: " + Quoted(StatusName(m.status.value))] else l3;
    ResolutionRead(l4, m, k4);
    var l5 := if Given(m.resolution) then l4 + ["resolution: " + Quoted(m.resolution.value)] else l4;
    AcknowledgedRead(l5, m, k5);
  }

  // ---------------------------------------------------------------------------
  // The lists

  lemma EntrySpelled(v: string)
    requires Unpadded(v)
    ensures ItemShape("  - " + v, "  ", v)
  {
  }

  lemma ListKeysSpelled()
    ensures OpenShape("demonstrated_in:", "", "demonstrated_in")
    ensures OpenShape("references:", "", "references") && OpenShape("evidence:", "", "evidence")
  {
  }

  lemma TypeSpelled(v: string)
    requires Unpadded(v)
    ensures ItemShape("  - type: " + v, "  ", "type: " + v)
  {
  }

  lemma InteractionSpelled(v: string)
    requires Unpadded(v)
    ensures ItemShape("  - interaction_ref: " + v, "  ", "interaction_ref: " + v)
  {
  }

  lemma IdSpelled(v: string)
    requires Unpadded(v)
    ensures KeyShape("    id: " + v, "    ", "id", v)
  {
  }

  lemma TxSpelled(v: string)
    requires Unpadded(v)
    ensures KeyShape("    tx: " + v, "    ", "tx", v)
  {
  }

  lemma YStrsSnoc(ss: seq<string>)
    requires |ss| > 0
    ensures YStrs(ss) == YStrs(ss[..|ss| - 1]) + [YStr(ss[|ss| - 1])]
  {
  }

  /** One `demonstrated_in` entry is added to the open list as its text. */
  lemma DemonstratedItemRead(pre: seq<string>, r: string, items: seq<YamlValue>, known: Knowledge)
    requires Listing(ParseLines(pre), "demonstrated_in", items, known)
    ensures Listing(ParseLines(pre + ["  - " + Quoted(r)]), "demonstrated_in", items + [YStr(r)], known)
  {
    QuotedValue(r);
    EntrySpelled(Quoted(r));
    ListItemLine(pre, "  - " + Quoted(r), "  ", Quoted(r), "demonstrated_in", items, known);
  }

  /** Each `demonstrated_in` entry is added to the open list as its text. */
  lemma {:induction false} DemonstratedRead(pre: seq<string>, refs: seq<string>, known: Knowledge)
    requires Listing(ParseLines(pre), "demonstrated_in", [], known)
    ensures Listing(ParseLines(DemonstratedFrom(pre, refs)), "demonstrated_in", YStrs(refs), known)
  {
    if |refs| == 0 {
      assert YStrs(refs) == [];
    } else {
      var init := refs[..|refs| - 1];
      DemonstratedRead(pre, init, known);
      DemonstratedItemRead(DemonstratedFrom(pre, init), refs[|refs| - 1], YStrs(init), known);
      YStrsSnoc(refs);
    }
  }

  /** The `demonstrated_in` block stores the list of its entries. */
  lemma DemonstratedListRead(pre: seq<string>, refs: seq<string>, known: Knowledge)
    requires Known(ParseLines(pre), known) && "demonstrated_in" !in known
    ensures Known(ParseLines(DemonstratedFrom(pre + ["demonstrated_in:"], refs)),
                  known["demonstrated_in" := Some(YList(YStrs(refs)))])
  {
    ListKeysSpelled();
    ListOpenLine(pre, "demonstrated_in:", "demonstrated_in", known);
    DemonstratedRead(pre + ["demonstrated_in:"], refs, known);
    ListClose(ParseLines(DemonstratedFrom(pre + ["demonstrated_in:"], refs)), "demonstrated_in", YStrs(refs), known);
  }

  lemma DemonstratedBlockRead(pre: seq<string>, m: SectionMeta)
    requires Known(ParseLines(pre), ScalarKnown(m))
    ensures Known(ParseLines(if HasDemonstrated(m)
                             then DemonstratedFrom(pre + ["demonstrated_in:"], m.demonstratedIn.value) else pre),
                  MetaKnown(m))
  {
    if HasDemonstrated(m) {
      KnownLess(ParseLines(pre), ScalarKnown(m), "demonstrated_in");
      DemonstratedListRead(pre, m.demonstratedIn.value, ScalarKnown(m) - {"demonstrated_in"});
    }
  }

  lemma ReferenceSpelled(ref: Reference)
    ensures ItemShape("  - type: " + Quoted(ref.refType), "  ", "type: " + Quoted(ref.refType))
    ensures Given(ref.id) ==> KeyShape("    id: " + Quoted(ref.id.value), "    ", "id", Quoted(ref.id.value))
    ensures Given(ref.tx) ==> KeyShape("    tx: " + Quoted(ref.tx.value), "    ", "tx", Quoted(ref.tx.value))
  {
    QuotedValue(ref.refType);
    TypeSpelled(Quoted(ref.refType));
    if ref.id.Some? {
      QuotedValue(ref.id.value);
      IdSpelled(Quoted(ref.id.value));
    }
    if ref.tx.Some? {
      QuotedValue(ref.tx.value);
      TxSpelled(Quoted(ref.tx.value));
    }
  }

  /** A reference's lines change nothing that is tracked. */
  lemma ReferenceItemRead(pre: seq<string>, ref: Reference, known: Knowledge)
    requires Reads(ParseLines(pre), known) && "id" !in known && "tx" !in known
    ensures Reads(ParseLines(ReferenceItem(pre, ref)), known)
  {
    ReferenceSpelled(ref);
    var l1 := pre + ["  - type: " + Quoted(ref.refType)];
    ItemOf(pre, "  - type: " + Quoted(ref.refType), "  ", "type: " + Quoted(ref.refType), known);
    if Given(ref.id) {
      OtherLine(l1, "    id: " + Quoted(ref.id.value), "    ", "id", Quoted(ref.id.value), known);
    }
    var l2 := if Given(ref.id) then l1 + ["    id: " + Quoted(ref.id.value)] else l1;
    if Given(ref.tx) {
      OtherLine(l2, "    tx: " + Quoted(ref.tx.value), "    ", "tx", Quoted(ref.tx.value), known);
    }
  }

  lemma {:induction false} ReferencesRead(pre: seq<string>, refs: seq<Reference>, known: Knowledge)
    requires Reads(ParseLines(pre), known) && "id" !in known && "tx" !in known
    ensures Reads(ParseLines(ReferencesFrom(pre, refs)), known)
  {
    if |refs| > 0 {
      ReferencesRead(pre, refs[..|refs| - 1], known);
      ReferenceItemRead(ReferencesFrom(pre, refs[..|refs| - 1]), refs[|refs| - 1], known);
    }
  }

  lemma EvidenceSpelled(ev: Evidence)
    ensures ev.InteractionRef? ==>
      ItemShape("  - interaction_ref: " + Quoted(ev.interactionRef), "  ", "interaction_ref: " + Quoted(ev.interactionRef))
    ensures ev.EvidenceRef? ==>
      ItemShape("  - type: " + Quoted(ev.reference.refType), "  ", "type: " + Quoted(ev.reference.refType))
    ensures ev.EvidenceRef? && Given(ev.reference.id) ==>
      KeyShape("    id: " + Quoted(ev.reference.id.value), "    ", "id", Quoted(ev.reference.id.value))
  {
    match ev
    case InteractionRef(r) =>
      QuotedValue(r);
      InteractionSpelled(Quoted(r));
    case EvidenceRef(ref) =>
      ReferenceSpelled(ref);
  }

  /** An evidence entry's lines change nothing that is tracked. */
  lemma EvidenceItemRead(pre: seq<string>, ev: Evidence, known: Knowledge)
    requires Reads(ParseLines(pre), known) && "id" !in known
    ensures Reads(ParseLines(EvidenceItem(pre, ev)), known)
  {
    EvidenceSpelled(ev);
    match ev
    case InteractionRef(r) =>
      ItemOf(pre, "  - interaction_ref: " + Quoted(r), "  ", "interaction_ref: " + Quoted(r), known);
    case EvidenceRef(ref) =>
      var l1 := pre + ["  - type: " + Quoted(ref.refType)];
      ItemOf(pre, "  - type: " + Quoted(ref.refType), "  ", "type: " + Quoted(ref.refType), known);
      if Given(ref.id) {
        OtherLine(l1, "    id: " + Quoted(ref.id.value), "    ", "id", Quoted(ref.id.value), known);
      }
  }

  lemma {:induction false} EvidenceRead(pre: seq<string>, evs: seq<Evidence>, known: Knowledge)
    requires Reads(ParseLines(pre), known) && "id" !in known
    ensures Reads(ParseLines(EvidenceFrom(pre, evs)), known)
  {
    if |evs| > 0 {
      EvidenceRead(pre, evs[..|evs| - 1], known);
      EvidenceItemRead(EvidenceFrom(pre, evs[..|evs| - 1]), evs[|evs| - 1], known);
    }
  }

  /** The reference and evidence blocks change nothing that is tracked. */
  lemma RefBlocksRead(pre: seq<string>, m: SectionMeta, known: Knowledge)
    requires Known(ParseLines(pre), known)
    requires "references" !in known && "evidence" !in known && "id" !in known && "tx" !in known
    ensures var l2 := if m.references.Some? && |m.references.value| > 0
              then ReferencesFrom(pre + ["references:"], m.references.value) else pre;
      Known(ParseLines(if m.evidence.Some? && |m.evidence.value| > 0
                       then EvidenceFrom(l2 + ["evidence:"], m.evidence.value) else l2), known)
  {
    ListKeysSpelled();
    if m.references.Some? && |m.references.value| > 0 {
      OpenKeyLine(pre, "references:", "", "references", known);
      ReferencesRead(pre + ["references:"], m.references.value, known);
    }
    var l2 := if m.references.Some? && |m.references.value| > 0
      then ReferencesFrom(pre + ["references:"], m.references.value) else pre;
    if m.evidence.Some? && |m.evidence.value| > 0 {
      OpenKeyLine(l2, "evidence:", "", "evidence", known);
      EvidenceRead(l2 + ["evidence:"], m.evidence.value, known);
    }
  }

  /** After every inner line and the empty last line, the tracked keys hold
      what `MetaKnown` says. */
  lemma MetaLinesRead(m: SectionMeta)
    ensures Known(ParseLines(MetaInner(m) + [""]), MetaKnown(m))
  {
    var s := ScalarMetaLines([], m);
    ScalarsRead(m);
    DemonstratedBlockRead(s, m);
    var l1 := if HasDemonstrated(m) then DemonstratedFrom(s + ["demonstrated_in:"], m.demonstratedIn.value) else s;
    MetaKeys(m);
    RefBlocksRead(l1, m, MetaKnown(m));
    EmptyLast(MetaInner(m), MetaKnown(m));
  }

  // ---------------------------------------------------------------------------
  // The record read back

  /** `key` holds `v` when it is given and is absent otherwise. */
  predicate Holds(y: map<string, YamlValue>, key: string, v: Option<YamlValue>) {
    if v.Some? then key in y && y[key] == v.value else key !in y
  }

  lemma KnownHolds(st: ParserState, known: Knowledge, key: string)
    requires Known(st, known) && key in known
    ensures Holds(st.result, key, known[key])
  {
  }

  lemma MetaKnownValues(m: SectionMeta)
    ensures "timestamp" in MetaKnown(m) && MetaKnown(m)["timestamp"] == TimestampValue(m)
    ensures "author" in MetaKnown(m) && MetaKnown(m)["author"] == AuthorValue(m)
    ensures "tags" in MetaKnown(m) && MetaKnown(m)["tags"] == TagsValue(m)
    ensures "status" in MetaKnown(m) && MetaKnown(m)["status"] == StatusValue(m)
    ensures "resolution" in MetaKnown(m) && MetaKnown(m)["resolution"] == ResolutionValue(m)
    ensures "acknowledged_by" in MetaKnown(m) && MetaKnown(m)["acknowledged_by"] == AcknowledgedValue(m)
    ensures "demonstrated_in" in MetaKnown(m) && MetaKnown(m)["demonstrated_in"] == DemonstratedValue(m)
    ensures "platform" in MetaKnown(m) && MetaKnown(m)["platform"] == None
  {
  }

  /** The decoded map holds each field as the text it was written from. */
  lemma MetaStored(st: ParserState, m: SectionMeta)
    requires Known(st, MetaKnown(m))
    ensures Holds(st.result, "timestamp", TimestampValue(m)) && Holds(st.result, "author", AuthorValue(m))
    ensures Holds(st.result, "tags", TagsValue(m)) && Holds(st.result, "status", StatusValue(m))
    ensures Holds(st.result, "resolution", ResolutionValue(m))
    ensures Holds(st.result, "acknowledged_by", AcknowledgedValue(m))
    ensures Holds(st.result, "demonstrated_in", DemonstratedValue(m)) && Holds(st.result, "platform", None)
  {
    MetaKnownValues(m);
    var k := MetaKnown(m);
    KnownHolds(st, k, "timestamp");
    KnownHolds(st, k, "author");
    KnownHolds(st, k, "tags");
    KnownHolds(st, k, "status");
    KnownHolds(st, k, "resolution");
    KnownHolds(st, k, "acknowledged_by");
    KnownHolds(st, k, "demonstrated_in");
    KnownHolds(st, k, "platform");
  }

  /** A status's name reads back as the status. */
  lemma StatusReadsBack(s: TensionStatus)
    ensures StatusOf(StatusName(s)) == Some(s)
  {
  }

  lemma StringsReadBack(ss: seq<string>)
    ensures StringItems(YStrs(ss)) == ss
  {
  }

  /** The record cast from a map holding what the writer wrote. */
  lemma MetaOfStored(y: map<string, YamlValue>, m: SectionMeta)
    requires Holds(y, "timestamp", TimestampValue(m)) && Holds(y, "author", AuthorValue(m))
    requires Holds(y, "tags", TagsValue(m)) && Holds(y, "status", StatusValue(m))
    requires Holds(y, "resolution", ResolutionValue(m)) && Holds(y, "acknowledged_by", AcknowledgedValue(m))
    requires Holds(y, "demonstrated_in", DemonstratedValue(m)) && Holds(y, "platform", None)
    ensures var back := MetaFromYaml(y);
      && back.timestamp == m.timestamp && back.author == m.author && back.status == m.status
      && back.resolution == (if Given(m.resolution) then m.resolution else None)
      && back.acknowledgedBy == (if Given(m.acknowledgedBy) then m.acknowledgedBy else None)
      && back.demonstratedIn == (if HasDemonstrated(m) then m.demonstratedIn else None)
      && back.tags.None? && back.references.None? && back.evidence.None?
      && back.x402.None? && back.platform.None?
  {
    if m.status.Some? {
      StatusReadsBack(m.status.value);
    }
    if HasDemonstrated(m) {
      StringsReadBack(m.demonstratedIn.value);
    }
  }

  /** `parseSectionMeta(serializeSectionMeta(meta) + tail)` finds the block
      and reads back its one-line fields and `demonstrated_in`. Empty
      fields, which the writer skips, come back absent; `tags` comes back
      only as the text of the flow list, which the record cast does not keep
      as a list. */
  lemma MetaRoundTrip(m: SectionMeta, tail: string)
    requires MetaPlain(m)
    ensures var r := ParseSectionMeta(SectionMetaText(m) + tail);
      && r.Some?
      && var back := MetaFromYaml(r.value);
      && back.timestamp == m.timestamp && back.author == m.author && back.status == m.status
      && back.resolution == (if Given(m.resolution) then m.resolution else None)
      && back.acknowledgedBy == (if Given(m.acknowledgedBy) then m.acknowledgedBy else None)
      && back.demonstratedIn == (if HasDemonstrated(m) then m.demonstratedIn else None)
      && back.tags.None? && back.platform.None?
      && ("tags" in r.value <==> HasTags(m))
      && (HasTags(m) ==> r.value["tags"] == YStr(TagsText(m.tags.value)))
  {
    MetaBlockFound(m, tail);
    var st := ParseLines(MetaInner(m) + [""]);
    MetaLinesRead(m);
    MetaStored(st, m);
    MetaOfStored(st.result, m);
  }
}
