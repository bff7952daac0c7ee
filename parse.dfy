/** Reading a HARP document: `parseSectionMeta` and `parseDocument` of
    `src/harp.ts`. The text is split on every `---`, the second part is the
    frontmatter and the rest, joined again, is the body; the body is cut into
    chunks before each `## ` line, and a chunk becomes a section only when the
    whole trimmed chunk matches the heading pattern. */
module Parse {
  import opened Wrappers
  import opened Strings
  import opened Yaml
  import opened Types
  import opened Headings

  // ---------------------------------------------------------------------------
  // Section metadata

  /** `parseSectionMeta`: the decoded YAML of the first metadata block, if the
      text has one. */
  function ParseSectionMeta(raw: string): (r: Option<map<string, YamlValue>>)
    ensures r.Some? <==> FindMetaBlock(raw).Some?
    ensures !Contains(raw, MetaOpen) ==> r.None?
  {
    match MetaYaml(raw)
    case None => None
    case Some(yaml) => Some(ParseYaml(yaml))
  }

  /** The decoded record read as section metadata. The source only casts the
      record; the model keeps the fields whose decoded form fits. */
  function MetaFromYaml(m: map<string, YamlValue>): SectionMeta {
    SectionMeta(
      timestamp := if "timestamp" in m then JsString(m["timestamp"]) else "",
      author := if "author" in m then JsString(m["author"]) else "",
      tags := if "tags" in m && m["tags"].YList? then Some(StringItems(m["tags"].items)) else None,
      references := None,
      evidence := None,
      demonstratedIn := if "demonstrated_in" in m && m["demonstrated_in"].YList? then Some(StringItems(m["demonstrated_in"].items)) else None,
      acknowledgedBy := if "acknowledged_by" in m then Some(JsString(m["acknowledged_by"])) else None,
      status := if "status" in m then StatusOf(JsString(m["status"])) else None,
      resolution := if "resolution" in m then Some(JsString(m["resolution"])) else None,
      x402 := None,
      platform := if "platform" in m then Some(JsString(m["platform"])) else None)
  }

  function StringItems(items: seq<YamlValue>): seq<string> {
    seq(|items|, i requires 0 <= i < |items| => JsString(items[i]))
  }

  function StatusOf(s: string): Option<TensionStatus> {
    if s == "resolved" then Some(Resolved)
    else if s == "ongoing" then Some(Ongoing)
    else if s == "escalated" then Some(Escalated)
    else None
  }

  // ---------------------------------------------------------------------------
  // Sections and preamble

  /** One iteration of the chunk loop, when it produces a section. The match
      always spans the whole trimmed chunk, so nothing follows the heading: a
      parsed section never has metadata or content. */
  function ChunkSection(chunk: string): (r: Option<Section>)
    ensures r.Some? <==> Trim(chunk) != "" && HeadingMatch(Trim(chunk)).Some?
    ensures r.Some? ==> r.value.meta.None? && r.value.content == "" && r.value.raw == Trim(chunk)
    ensures r.Some? ==>
      r.value.sectionType == HeadingMatch(Trim(chunk)).value.sectionType && r.value.title == HeadingMatch(Trim(chunk)).value.title
  {
    var trimmed := Trim(chunk);
    if trimmed == "" then None
    else
      match HeadingMatch(trimmed)
      case None => None
      case Some(h) => Some(Section(h.sectionType, h.title, None, "", trimmed))
  }

  /** The rest of the chunk loop once the heading has matched: the text after
      the match, its metadata block and the content without the block. */
  function SectionAfterMatch(h: Heading, trimmed: string): Section
    requires h.length <= |trimmed|
  {
    var afterHeading := Trim(trimmed[h.length..]);
    match ParseSectionMeta(afterHeading)
    case None => Section(h.sectionType, h.title, None, afterHeading, trimmed)
    case Some(m) => Section(h.sectionType, h.title, Some(MetaFromYaml(m)), Trim(RemoveMetaBlock(afterHeading)), trimmed)
  }

  /** The heading match spans the whole trimmed chunk, so nothing is left after
      it: the metadata and the content of a parsed section are always empty. */
  lemma MatchedSectionIsBare(trimmed: string)
    requires HeadingMatch(trimmed).Some?
    ensures var h := HeadingMatch(trimmed).value;
      SectionAfterMatch(h, trimmed) == Section(h.sectionType, h.title, None, "", trimmed)
  {
    var h := HeadingMatch(trimmed).value;
    assert trimmed[h.length..] == "";
    assert Trim("") == "";
    assert ParseSectionMeta("").None?;
  }

  /** What one chunk adds to the preamble: the trimmed chunk and a line break,
      when it is not empty and not a heading. */
  function ChunkPreamble(chunk: string): (r: string)
    ensures r != "" <==> Trim(chunk) != "" && HeadingMatch(Trim(chunk)).None?
  {
    var trimmed := Trim(chunk);
    if trimmed != "" && HeadingMatch(trimmed).None? then trimmed + "\n" else ""
  }

  function ChunkSections(chunk: string): seq<Section> {
    match ChunkSection(chunk)
    case None => []
    case Some(s) => [s]
  }

  /** The sections of a list of chunks, in order. */
  function SectionsOf(chunks: seq<string>): seq<Section> {
    if |chunks| == 0 then [] else ChunkSections(chunks[0]) + SectionsOf(chunks[1..])
  }

  /** The preamble text accumulated from a list of chunks, before the final
      trim. */
  function PreambleOf(chunks: seq<string>): string {
    if |chunks| == 0 then "" else ChunkPreamble(chunks[0]) + PreambleOf(chunks[1..])
  }

  lemma SectionsOfCons(c: string, rest: seq<string>)
    ensures SectionsOf([c] + rest) == ChunkSections(c) + SectionsOf(rest)
  {
    assert ([c] + rest)[1..] == rest;
  }

  lemma PreambleOfCons(c: string, rest: seq<string>)
    ensures PreambleOf([c] + rest) == ChunkPreamble(c) + PreambleOf(rest)
  {
    assert ([c] + rest)[1..] == rest;
  }

  lemma {:induction false} SectionsOfSnoc(chunks: seq<string>, c: string)
    ensures SectionsOf(chunks + [c]) == SectionsOf(chunks) + ChunkSections(c)
  {
    if |chunks| > 0 {
      var rest := chunks[1..];
      assert chunks + [c] == [chunks[0]] + (rest + [c]);
      assert chunks == [chunks[0]] + rest;
      SectionsOfCons(chunks[0], rest + [c]);
      SectionsOfCons(chunks[0], rest);
      SectionsOfSnoc(rest, c);
    } else {
      SectionsOfCons(c, []);
      assert [c] + [] == [c];
    }
  }

  lemma {:induction false} PreambleOfSnoc(chunks: seq<string>, c: string)
    ensures PreambleOf(chunks + [c]) == PreambleOf(chunks) + ChunkPreamble(c)
  {
    if |chunks| > 0 {
      var rest := chunks[1..];
      assert chunks + [c] == [chunks[0]] + (rest + [c]);
      assert chunks == [chunks[0]] + rest;
      PreambleOfCons(chunks[0], rest + [c]);
      PreambleOfCons(chunks[0], rest);
      PreambleOfSnoc(rest, c);
      AppendAssoc(ChunkPreamble(chunks[0]), PreambleOf(rest), ChunkPreamble(c));
    } else {
      PreambleOfCons(c, []);
      assert [c] + [] == [c];
    }
  }

  /** Both folds over one more chunk of a list. */
  lemma ChunksPrefix(chunks: seq<string>, i: nat)
    requires i < |chunks|
    ensures SectionsOf(chunks[..i + 1]) == SectionsOf(chunks[..i]) + ChunkSections(chunks[i])
    ensures PreambleOf(chunks[..i + 1]) == PreambleOf(chunks[..i]) + ChunkPreamble(chunks[i])
  {
    assert chunks[..i + 1] == chunks[..i] + [chunks[i]];
    SectionsOfSnoc(chunks[..i], chunks[i]);
    PreambleOfSnoc(chunks[..i], chunks[i]);
  }

  /** The sections and the trimmed preamble of a body. */
  function ParseBody(body: string): (seq<Section>, string) {
    var chunks := SplitChunks(body);
    (SectionsOf(chunks), Trim(PreambleOf(chunks)))
  }

  /** `ParseBody` from what its two folds give. */
  lemma ParseBodyFrom(body: string, chunks: seq<string>, sections: seq<Section>, preamble: string)
    requires SplitChunks(body) == chunks && SectionsOf(chunks) == sections && Trim(PreambleOf(chunks)) == preamble
    ensures ParseBody(body) == (sections, preamble)
  {
  }

  // ---------------------------------------------------------------------------
  // Frontmatter coercions

  /** `String(fm[key] ?? default)`. */
  function StringField(fm: map<string, YamlValue>, key: string, default: string): string {
    if key in fm && !fm[key].YNull? then JsString(fm[key]) else default
  }

  /** `Number(s)` for a string, when the result is an integer: surrounding
      white space is ignored, the empty string is 0, and a decimal point may be
      followed by zeros only. Other numerals are not modelled (`None`). */
  function NumberOf(s: string): (r: Option<int>)
    ensures AllDigits(s) && |s| > 0 ==> r == Some(DigitsValue(s) as int)
  {
    var t := Trim(s);
    if t == "" then Some(0)
    else
      var negative := t[0] == '-';
      var body := if t[0] == '-' || t[0] == '+' then t[1..] else t;
      var k := LeadingDigits(body);
      if k == 0 then None
      else
        var fraction := body[k..];
        if fraction == "" || (fraction[0] == '.' && forall i :: 1 <= i < |fraction| ==> fraction[i] == '0') then
          var v := DigitsValue(body[..k]);
          assert AllDigits(s) && |s| > 0 ==> t == s && body == s && k == |s| && body[..k] == s by {
            if AllDigits(s) && |s| > 0 {
              assert !IsSpace(s[0]) && !IsSpace(s[|s| - 1]);
              TrimOfUnpadded(s);
              assert s[..|s|] == s;
            }
          }
          Some(if negative then -(v as int) else v as int)
        else None
  }

  /** `Number(v)` for a decoded value. */
  function NumberOfValue(v: YamlValue): Option<int> {
    match v
    case YNull => Some(0)
    case YBool(b) => Some(if b then 1 else 0)
    case YInt(n) => Some(n)
    case _ => NumberOf(JsString(v))
  }

  /** `Number(fm.epoch ?? 1)`. */
  function EpochField(fm: map<string, YamlValue>): Option<int> {
    if "epoch" in fm && !fm["epoch"].YNull? then NumberOfValue(fm["epoch"]) else Some(1)
  }

  /** `(fm.layer as Layer) ?? "public"`, when the value is a layer name. */
  function LayerField(fm: map<string, YamlValue>): Option<Layer> {
    if "layer" in fm && !fm["layer"].YNull? then
      if fm["layer"].YStr? then LayerOf(fm["layer"].s) else None
    else Some(Public)
  }

  /** `fm.entities ?? []`: a decoded list, or the characters of a string,
      which is what iterating it later visits. */
  function EntitiesField(fm: map<string, YamlValue>): seq<EntityEntry> {
    if "entities" !in fm then []
    else
      match fm["entities"]
      case YList(items) => seq(|items|, i requires 0 <= i < |items| => Undescribed(items[i]))
      case YStr(s) => seq(|s|, i requires 0 <= i < |s| => Undescribed(YStr([s[i]])))
      case _ => []
  }

  /** `fm.signatures`: absent stays absent; a value without a length counts as
      an empty list. */
  function SignaturesField(fm: map<string, YamlValue>): Option<seq<SignatureEntry>> {
    if "signatures" !in fm then None
    else
      match fm["signatures"]
      case YNull => None
      case YList(items) => Some(seq(|items|, i requires 0 <= i < |items| => Unsigned(items[i])))
      case YStr(s) => Some(seq(|s|, i requires 0 <= i < |s| => Unsigned(YStr([s[i]]))))
      case _ => Some([])
  }

  /** The frontmatter record `parseDocument` builds from the decoded map. */
  function FrontmatterFromYaml(fm: map<string, YamlValue>): (r: Result<Frontmatter, HarpError>)
    ensures r.Success? <==> EpochField(fm).Some? && LayerField(fm).Some?
    ensures r.Success? ==> r.value.epoch == EpochField(fm).value && r.value.layer == LayerField(fm).value
    ensures r.Success? ==> (r.value.previous.Some? <==> "previous" in fm && Truthy(fm["previous"]))
    ensures r.Success? ==> r.value.checksum == StringField(fm, "checksum", "")
  {
    match (EpochField(fm), LayerField(fm))
    case (None, _) => Failure(MalformedFrontmatter("epoch is not an integer"))
    case (_, None) => Failure(MalformedFrontmatter("layer is not a layer name"))
    case (Some(epoch), Some(layer)) =>
      Success(Frontmatter(
        harp := StringField(fm, "harp", HarpVersion),
        dyad := StringField(fm, "dyad", ""),
        epoch := epoch,
        created := StringField(fm, "created", ""),
        updated := StringField(fm, "updated", ""),
        previous := if "previous" in fm && Truthy(fm["previous"]) then Some(JsString(fm["previous"])) else None,
        layer := layer,
        entities := EntitiesField(fm),
        checksum := StringField(fm, "checksum", ""),
        signatures := SignaturesField(fm)))
  }

  // ---------------------------------------------------------------------------
  // parseDocument

  /** The body as `parseDocument` reconstructs it from the split parts. */
  function BodyOfParts(parts: seq<string>): string
    requires |parts| >= 3
  {
    TrimStart(Join(parts[2..], Delimiter))
  }

  /** What `parseDocument(raw)` returns or throws. */
  function ParseDocumentSpec(raw: string): (r: Result<Document, HarpError>)
    ensures |Split(raw, Delimiter)| < 3 ==> r.Failure?
    ensures |Split(raw, Delimiter)| >= 3 ==>
      (r.Failure? <==> FrontmatterFromYaml(ParseYaml(Split(raw, Delimiter)[1])).Failure?)
    ensures r.Success? ==> r.value.frontmatter == FrontmatterFromYaml(ParseYaml(Split(raw, Delimiter)[1])).value
    ensures r.Success? ==>
      r.value.raw == raw && (r.value.sections, r.value.preamble) == ParseBody(BodyOfParts(Split(raw, Delimiter)))
  {
    var parts := Split(raw, Delimiter);
    if |parts| < 3 then Failure(MalformedFrontmatter("missing frontmatter delimiters"))
    else
      var frontmatter :- FrontmatterFromYaml(ParseYaml(parts[1]));
      var (sections, preamble) := ParseBody(BodyOfParts(parts));
      Success(Document(frontmatter, preamble, sections, raw))
  }

  /** The chunk loop of `parseDocument`: sections in order, and the
      preamble text before its final trim. */
  method ParseChunks(sectionChunks: seq<string>) returns (sections: seq<Section>, preamble: string)
    ensures sections == SectionsOf(sectionChunks) && preamble == PreambleOf(sectionChunks)
  {
    sections := [];
    preamble := "";
    for i := 0 to |sectionChunks|
      invariant sections == SectionsOf(sectionChunks[..i])
      invariant preamble == PreambleOf(sectionChunks[..i])
    {
      var chunk := sectionChunks[i];
      ChunksPrefix(sectionChunks, i);
      var trimmed := Trim(chunk);
      if trimmed == "" {
        assert ChunkSections(chunk) == [] && ChunkPreamble(chunk) == "";
        continue;
      }
      var headingMatch := HeadingMatch(trimmed);
      if headingMatch.None? {
        assert ChunkSections(chunk) == [] && ChunkPreamble(chunk) == trimmed + "\n";
        preamble := preamble + trimmed + "\n";
        continue;
      }
      assert ChunkPreamble(chunk) == "";
      var h := headingMatch.value;
      var afterHeading := Trim(trimmed[h.length..]);
      var meta := ParseSectionMeta(afterHeading);
      var content := afterHeading;
      var sectionMeta: Option<SectionMeta> := None;
      match meta {
        case Some(m) =>
          content := Trim(RemoveMetaBlock(content));
          sectionMeta := Some(MetaFromYaml(m));
        case None =>
      }
      var section := Section(h.sectionType, h.title, sectionMeta, content, trimmed);
      assert section == SectionAfterMatch(h, trimmed);
      MatchedSectionIsBare(trimmed);
      assert ChunkSections(chunk) == [section];
      sections := sections + [section];
    }
    assert sectionChunks[..|sectionChunks|] == sectionChunks;
  }

  /** `parseDocument`. */
  method ParseDocument(raw: string) returns (r: Result<Document, HarpError>)
    ensures r == ParseDocumentSpec(raw)
  {
    var parts := Split(raw, Delimiter);
    if |parts| < 3 {
      return Failure(MalformedFrontmatter("missing frontmatter delimiters"));
    }
    var frontmatterYaml := parts[1];
    var body := TrimStart(Join(parts[2..], Delimiter));

    var fm := ParseFrontmatterYaml(frontmatterYaml);
    var frontmatter :- FrontmatterFromYaml(fm);

    var sections, preamble := ParseChunks(SplitChunks(body));
    return Success(Document(frontmatter, Trim(preamble), sections, raw));
  }
}
