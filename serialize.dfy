/** Writing a HARP document: `computeChecksum`, `serializeSectionMeta`,
    `serializeSection` and `serializeDocument` of `src/harp.ts`. Each writer
    pushes lines onto an array and joins them with line breaks; the functions
    here give the list of lines, and the methods build it the way the source
    does. */
module Serialize {
  import opened Wrappers
  import opened Strings
  import opened Yaml
  import opened Types

  /** A value written between double quotes, without escaping. */
  function Quoted(s: string): string {
    "\"" + s + "\""
  }

  /** JavaScript truthiness of an optional string field. */
  predicate Given(o: Option<string>) {
    o.Some? && o.value != ""
  }

  // ---------------------------------------------------------------------------
  // computeChecksum

  /** `computeChecksum`: `sha256:` and the digest of the content in hex. */
  function ComputeChecksum(hash: Hasher, content: string): (r: string)
    ensures |r| == 71 && StartsWith(r, "sha256:") && IsLowerHex(r[7..])
    ensures r[7..] == HexDigest(hash, content)
  {
    var digest := HexDigest(hash, content);
    assert ("sha256:" + digest)[7..] == digest;
    "sha256:" + digest
  }

  // ---------------------------------------------------------------------------
  // serializeSectionMeta

  /** The quoted items of a list, as `map((t) => '"' + t + '"')` builds them. */
  function QuotedItems(items: seq<string>): (r: seq<string>)
    ensures |r| == |items|
  {
    seq(|items|, i requires 0 <= i < |items| => Quoted(items[i]))
  }

  /** The one-line fields, each pushed when it is set and not empty. */
  function ScalarMetaLines(lines: seq<string>, meta: SectionMeta): seq<string> {
    var l1 := if meta.timestamp != "" then lines + ["timestamp: " + Quoted(meta.timestamp)] else lines;
    var l2 := if meta.author != "" then l1 + ["author: " + Quoted(meta.author)] else l1;
    var l3 := if meta.tags.Some? && |meta.tags.value| > 0
      then l2 + ["tags: [" + Join(QuotedItems(meta.tags.value), ", ") + "]"] else l2;
    var l4 := if meta.status.Some? then l3 + ["status: " + Quoted(StatusName(meta.status.value))] else l3;
    var l5 := if Given(meta.resolution) then l4 + ["resolution: " + Quoted(meta.resolution.value)] else l4;
    if Given(meta.acknowledgedBy) then l5 + ["acknowledged_by: " + Quoted(meta.acknowledgedBy.value)] else l5
  }

  /** One list item per `demonstrated_in` entry, pushed after `lines`. */
  function DemonstratedFrom(lines: seq<string>, refs: seq<string>): (r: seq<string>)
    ensures |r| == |lines| + |refs|
  {
    if |refs| == 0 then lines
    else DemonstratedFrom(lines, refs[..|refs| - 1]) + ["  - " + Quoted(refs[|refs| - 1])]
  }

  function ReferenceItem(lines: seq<string>, ref: Reference): seq<string> {
    var l1 := lines + ["  - type: " + Quoted(ref.refType)];
    var l2 := if Given(ref.id) then l1 + ["    id: " + Quoted(ref.id.value)] else l1;
    if Given(ref.tx) then l2 + ["    tx: " + Quoted(ref.tx.value)] else l2
  }

  function ReferencesFrom(lines: seq<string>, refs: seq<Reference>): seq<string> {
    if |refs| == 0 then lines else ReferenceItem(ReferencesFrom(lines, refs[..|refs| - 1]), refs[|refs| - 1])
  }

  function EvidenceItem(lines: seq<string>, ev: Evidence): seq<string> {
    match ev
    case InteractionRef(r) => lines + ["  - interaction_ref: " + Quoted(r)]
    case EvidenceRef(ref) =>
      var l1 := lines + ["  - type: " + Quoted(ref.refType)];
      if Given(ref.id) then l1 + ["    id: " + Quoted(ref.id.value)] else l1
  }

  function EvidenceFrom(lines: seq<string>, evs: seq<Evidence>): seq<string> {
    if |evs| == 0 then lines else EvidenceItem(EvidenceFrom(lines, evs[..|evs| - 1]), evs[|evs| - 1])
  }

  /** The lists, each under its key line, pushed when set and not empty. */
  function ListMetaLines(lines: seq<string>, meta: SectionMeta): seq<string> {
    var l1 := if meta.demonstratedIn.Some? && |meta.demonstratedIn.value| > 0
      then DemonstratedFrom(lines + ["demonstrated_in:"], meta.demonstratedIn.value) else lines;
    var l2 := if meta.references.Some? && |meta.references.value| > 0
      then ReferencesFrom(l1 + ["references:"], meta.references.value) else l1;
    if meta.evidence.Some? && |meta.evidence.value| > 0
    then EvidenceFrom(l2 + ["evidence:"], meta.evidence.value) else l2
  }

  /** The lines of the comment block. */
  function MetaLines(meta: SectionMeta): seq<string> {
    ListMetaLines(ScalarMetaLines(["<!-- harp:meta"], meta), meta) + ["-->"]
  }

  /** What `serializeSectionMeta(meta)` returns. */
  function SectionMetaText(meta: SectionMeta): string {
    Join(MetaLines(meta), "\n")
  }

  lemma DemonstratedPrefix(lines: seq<string>, refs: seq<string>, i: nat)
    requires i < |refs|
    ensures DemonstratedFrom(lines, refs[..i + 1]) == DemonstratedFrom(lines, refs[..i]) + ["  - " + Quoted(refs[i])]
  {
    assert refs[..i + 1][..i] == refs[..i];
  }

  lemma ReferencePrefix(lines: seq<string>, refs: seq<Reference>, i: nat)
    requires i < |refs|
    ensures ReferencesFrom(lines, refs[..i + 1]) == ReferenceItem(ReferencesFrom(lines, refs[..i]), refs[i])
  {
    assert refs[..i + 1][..i] == refs[..i];
  }

  lemma EvidencePrefix(lines: seq<string>, evs: seq<Evidence>, i: nat)
    requires i < |evs|
    ensures EvidenceFrom(lines, evs[..i + 1]) == EvidenceItem(EvidenceFrom(lines, evs[..i]), evs[i])
  {
    assert evs[..i + 1][..i] == evs[..i];
  }

  /** The `demonstrated_in` loop of `serializeSectionMeta`. */
  method PushDemonstrated(lines: seq<string>, refs: seq<string>) returns (lines': seq<string>)
    ensures lines' == DemonstratedFrom(lines, refs)
  {
    lines' := lines;
    for i := 0 to |refs|
      invariant lines' == DemonstratedFrom(lines, refs[..i])
    {
      DemonstratedPrefix(lines, refs, i);
      lines' := lines' + ["  - " + Quoted(refs[i])];
    }
    assert refs[..|refs|] == refs;
  }

  /** The `references` loop of `serializeSectionMeta`. */
  method PushReferences(lines: seq<string>, refs: seq<Reference>) returns (lines': seq<string>)
    ensures lines' == ReferencesFrom(lines, refs)
  {
    lines' := lines;
    for i := 0 to |refs|
      invariant lines' == ReferencesFrom(lines, refs[..i])
    {
      ReferencePrefix(lines, refs, i);
      var ref := refs[i];
      lines' := lines' + ["  - type: " + Quoted(ref.refType)];
      if Given(ref.id) {
        lines' := lines' + ["    id: " + Quoted(ref.id.value)];
      }
      if Given(ref.tx) {
        lines' := lines' + ["    tx: " + Quoted(ref.tx.value)];
      }
    }
    assert refs[..|refs|] == refs;
  }

  /** The `evidence` loop of `serializeSectionMeta`. */
  method PushEvidence(lines: seq<string>, evs: seq<Evidence>) returns (lines': seq<string>)
    ensures lines' == EvidenceFrom(lines, evs)
  {
    lines' := lines;
    for i := 0 to |evs|
      invariant lines' == EvidenceFrom(lines, evs[..i])
    {
      EvidencePrefix(lines, evs, i);
      match evs[i]
      case InteractionRef(r) =>
        lines' := lines' + ["  - interaction_ref: " + Quoted(r)];
      case EvidenceRef(ref) =>
        lines' := lines' + ["  - type: " + Quoted(ref.refType)];
        if Given(ref.id) {
          lines' := lines' + ["    id: " + Quoted(ref.id.value)];
        }
    }
    assert evs[..|evs|] == evs;
  }

  /** `serializeSectionMeta`. */
  method SerializeSectionMeta(meta: SectionMeta) returns (text: string)
    ensures text == SectionMetaText(meta)
  {
    var lines := ["<!-- harp:meta"];
    if meta.timestamp != "" {
      lines := lines + ["timestamp: " + Quoted(meta.timestamp)];
    }
    if meta.author != "" {
      lines := lines + ["author: " + Quoted(meta.author)];
    }
    if meta.tags.Some? && |meta.tags.value| > 0 {
      lines := lines + ["tags: [" + Join(QuotedItems(meta.tags.value), ", ") + "]"];
    }
    if meta.status.Some? {
      lines := lines + ["status: " + Quoted(StatusName(meta.status.value))];
    }
    if Given(meta.resolution) {
      lines := lines + ["resolution: " + Quoted(meta.resolution.value)];
    }
    if Given(meta.acknowledgedBy) {
      lines := lines + ["acknowledged_by: " + Quoted(meta.acknowledgedBy.value)];
    }
    assert lines == ScalarMetaLines(["<!-- harp:meta"], meta);
    ghost var scalars := lines;
    if meta.demonstratedIn.Some? && |meta.demonstratedIn.value| > 0 {
      lines := lines + ["demonstrated_in:"];
      lines := PushDemonstrated(lines, meta.demonstratedIn.value);
    }
    if meta.references.Some? && |meta.references.value| > 0 {
      lines := lines + ["references:"];
      lines := PushReferences(lines, meta.references.value);
    }
    if meta.evidence.Some? && |meta.evidence.value| > 0 {
      lines := lines + ["evidence:"];
      lines := PushEvidence(lines, meta.evidence.value);
    }
    assert lines == ListMetaLines(scalars, meta);
    lines := lines + ["-->"];
    text := Join(lines, "\n");
  }

  // ---------------------------------------------------------------------------
  // serializeSection

  /** The heading line. */
  function HeadingLine(sectionType: string, title: string): string {
    "## " + sectionType + ": " + title
  }

  function SectionLines(section: Section): seq<string> {
    var l1 := [HeadingLine(section.sectionType, section.title), ""];
    var l2 := if section.meta.Some? then l1 + [SectionMetaText(section.meta.value), ""] else l1;
    if section.content != "" then l2 + [section.content] else l2
  }

  /** What `serializeSection(section)` returns; `raw` is not used. */
  function SectionText(section: Section): string {
    Join(SectionLines(section), "\n")
  }

  /** `serializeSection`. */
  method SerializeSection(section: Section) returns (text: string)
    ensures text == SectionText(section)
  {
    var lines := [HeadingLine(section.sectionType, section.title), ""];
    if section.meta.Some? {
      var metaText := SerializeSectionMeta(section.meta.value);
      lines := lines + [metaText, ""];
    }
    if section.content != "" {
      lines := lines + [section.content];
    }
    text := Join(lines, "\n");
  }

  /** A bare section is written as its heading and an empty line. */
  lemma BareSectionText(section: Section)
    requires section.meta.None? && section.content == ""
    ensures SectionText(section) == HeadingLine(section.sectionType, section.title) + "\n"
  {
    var h := HeadingLine(section.sectionType, section.title);
    assert SectionLines(section) == [h, ""];
    assert [h, ""][1..] == [""];
    assert Join([""], "\n") == "";
    assert Join([h, ""], "\n") == h + "\n" + "";
  }

  // ---------------------------------------------------------------------------
  // serializeDocument: the body

  /** The preamble and a `---` rule, when there is a preamble. */
  function PreambleParts(preamble: string): seq<string> {
    if preamble != "" then [preamble, "", Delimiter, ""] else []
  }

  /** Each section followed by an empty part, pushed after `parts`. */
  function SectionsFrom(parts: seq<string>, sections: seq<Section>): (r: seq<string>)
    ensures |r| == |parts| + 2 * |sections|
  {
    if |sections| == 0 then parts
    else SectionsFrom(parts, sections[..|sections| - 1]) + [SectionText(sections[|sections| - 1]), ""]
  }

  lemma SectionsPrefix(parts: seq<string>, sections: seq<Section>, i: nat)
    requires i < |sections|
    ensures SectionsFrom(parts, sections[..i + 1]) == SectionsFrom(parts, sections[..i]) + [SectionText(sections[i]), ""]
  {
    assert sections[..i + 1][..i] == sections[..i];
  }

  /** The body `serializeDocument` writes and checksums. */
  function BodyText(preamble: string, sections: seq<Section>): string {
    Trim(Join(SectionsFrom(PreambleParts(preamble), sections), "\n"))
  }

  // ---------------------------------------------------------------------------
  // serializeDocument: the frontmatter

  /** `entity.id`, `entity.type`, `entity.name` and `entity.erc8004` of an
      `entities` item. An item that is not a descriptor has none of these
      properties, and the template literals render the missing ones as
      `undefined`. */
  function EntityId(e: EntityEntry): string {
    if e.Described? then e.descriptor.id else "undefined"
  }

  function EntityTypeText(e: EntityEntry): string {
    if e.Described? then EntityTypeName(e.descriptor.entityType) else "undefined"
  }

  function EntityName(e: EntityEntry): Option<string> {
    if e.Described? then e.descriptor.name else None
  }

  function EntityErc8004(e: EntityEntry): Option<Erc8004Metadata> {
    if e.Described? then e.descriptor.erc8004 else None
  }

  function EntityItem(lines: seq<string>, e: EntityEntry): seq<string> {
    var l1 := lines + ["  - id: " + Quoted(EntityId(e))];
    var l2 := l1 + ["    type: " + Quoted(EntityTypeText(e))];
    var l3 := if Given(EntityName(e)) then l2 + ["    name: " + Quoted(EntityName(e).value)] else l2;
    match EntityErc8004(e)
    case None => l3
    case Some(erc) =>
      l3 + ["    erc8004:"] + ["      chainId: " + IntString(erc.chainId)] + ["      agentId: " + IntString(erc.agentId)]
  }

  function EntitiesFrom(lines: seq<string>, es: seq<EntityEntry>): seq<string> {
    if |es| == 0 then lines else EntityItem(EntitiesFrom(lines, es[..|es| - 1]), es[|es| - 1])
  }

  lemma EntitiesPrefix(lines: seq<string>, es: seq<EntityEntry>, i: nat)
    requires i < |es|
    ensures EntitiesFrom(lines, es[..i + 1]) == EntityItem(EntitiesFrom(lines, es[..i]), es[i])
  {
    assert es[..i + 1][..i] == es[..i];
  }

  /** `sig.entity`, `sig.sig` and `sig.scheme`, `undefined` when missing. */
  function SignatureFields(s: SignatureEntry): (string, string, string) {
    match s
    case Signed(sig) => (sig.entity, sig.sig, sig.scheme)
    case Unsigned(_) => ("undefined", "undefined", "undefined")
  }

  function SignatureItem(lines: seq<string>, s: SignatureEntry): seq<string> {
    var (entity, sig, scheme) := SignatureFields(s);
    lines + ["  - entity: " + Quoted(entity)] + ["    sig: " + Quoted(sig)] + ["    scheme: " + Quoted(scheme)]
  }

  function SignaturesFrom(lines: seq<string>, ss: seq<SignatureEntry>): seq<string> {
    if |ss| == 0 then lines else SignatureItem(SignaturesFrom(lines, ss[..|ss| - 1]), ss[|ss| - 1])
  }

  lemma SignaturesPrefix(lines: seq<string>, ss: seq<SignatureEntry>, i: nat)
    requires i < |ss|
    ensures SignaturesFrom(lines, ss[..i + 1]) == SignatureItem(SignaturesFrom(lines, ss[..i]), ss[i])
  {
    assert ss[..i + 1][..i] == ss[..i];
  }

  function PreviousLine(previous: Option<string>): string {
    if Given(previous) then "previous: " + Quoted(previous.value) else "previous: null"
  }

  /** The fixed lines before the entity list. */
  function HeaderLines(fm: Frontmatter): seq<string> {
    [Delimiter,
     "harp: " + Quoted(fm.harp),
     "dyad: " + Quoted(fm.dyad),
     "epoch: " + IntString(fm.epoch),
     "created: " + Quoted(fm.created),
     "updated: " + Quoted(fm.updated),
     PreviousLine(fm.previous),
     "layer: " + Quoted(LayerName(fm.layer)),
     "entities:"]
  }

  /** The signature list, pushed when set and not empty. */
  function SignatureBlock(lines: seq<string>, signatures: Option<seq<SignatureEntry>>): seq<string> {
    if signatures.Some? && |signatures.value| > 0 then SignaturesFrom(lines + ["signatures:"], signatures.value) else lines
  }

  /** The frontmatter lines, with the checksum computed for the body; the
      frontmatter's own `checksum` field is not written. */
  function FrontmatterLines(fm: Frontmatter, checksum: string): seq<string> {
    SignatureBlock(EntitiesFrom(HeaderLines(fm), fm.entities) + ["checksum: " + Quoted(checksum)], fm.signatures)
    + [Delimiter]
  }

  /** What `serializeDocument(doc)` returns. */
  function DocumentText(doc: Document, hash: Hasher): string {
    var body := BodyText(doc.preamble, doc.sections);
    Join(FrontmatterLines(doc.frontmatter, ComputeChecksum(hash, body)), "\n") + "\n\n" + body + "\n"
  }

  /** The section loop of `serializeDocument`. */
  method PushSections(parts: seq<string>, sections: seq<Section>) returns (parts': seq<string>)
    ensures parts' == SectionsFrom(parts, sections)
  {
    parts' := parts;
    for i := 0 to |sections|
      invariant parts' == SectionsFrom(parts, sections[..i])
    {
      SectionsPrefix(parts, sections, i);
      var sectionText := SerializeSection(sections[i]);
      parts' := parts' + [sectionText, ""];
    }
    assert sections[..|sections|] == sections;
  }

  /** The entity loop of `serializeDocument`. */
  method PushEntities(lines: seq<string>, es: seq<EntityEntry>) returns (lines': seq<string>)
    ensures lines' == EntitiesFrom(lines, es)
  {
    lines' := lines;
    for i := 0 to |es|
      invariant lines' == EntitiesFrom(lines, es[..i])
    {
      EntitiesPrefix(lines, es, i);
      var entity := es[i];
      lines' := lines' + ["  - id: " + Quoted(EntityId(entity))];
      lines' := lines' + ["    type: " + Quoted(EntityTypeText(entity))];
      if Given(EntityName(entity)) {
        lines' := lines' + ["    name: " + Quoted(EntityName(entity).value)];
      }
      if EntityErc8004(entity).Some? {
        var erc := EntityErc8004(entity).value;
        lines' := lines' + ["    erc8004:"];
        lines' := lines' + ["      chainId: " + IntString(erc.chainId)];
        lines' := lines' + ["      agentId: " + IntString(erc.agentId)];
      }
    }
    assert es[..|es|] == es;
  }

  /** The signature loop of `serializeDocument`. */
  method PushSignatures(lines: seq<string>, ss: seq<SignatureEntry>) returns (lines': seq<string>)
    ensures lines' == SignaturesFrom(lines, ss)
  {
    lines' := lines;
    for i := 0 to |ss|
      invariant lines' == SignaturesFrom(lines, ss[..i])
    {
      SignaturesPrefix(lines, ss, i);
      var (entity, sig, scheme) := SignatureFields(ss[i]);
      lines' := lines' + ["  - entity: " + Quoted(entity)];
      lines' := lines' + ["    sig: " + Quoted(sig)];
      lines' := lines' + ["    scheme: " + Quoted(scheme)];
    }
    assert ss[..|ss|] == ss;
  }

  /** `serializeDocument`. */
  method SerializeDocument(doc: Document, hash: Hasher) returns (text: string)
    ensures text == DocumentText(doc, hash)
  {
    // Build body
    var bodyParts: seq<string> := [];
    if doc.preamble != "" {
      bodyParts := bodyParts + [doc.preamble, "", Delimiter, ""];
    }
    assert bodyParts == PreambleParts(doc.preamble);
    bodyParts := PushSections(bodyParts, doc.sections);
    var body := Trim(Join(bodyParts, "\n"));

    // Compute checksum
    var checksum := ComputeChecksum(hash, body);

    // Build frontmatter
    var fm := doc.frontmatter;
    var fmLines := HeaderLines(fm);
    fmLines := PushEntities(fmLines, fm.entities);
    fmLines := fmLines + ["checksum: " + Quoted(checksum)];
    if fm.signatures.Some? && |fm.signatures.value| > 0 {
      fmLines := fmLines + ["signatures:"];
      fmLines := PushSignatures(fmLines, fm.signatures.value);
    }
    fmLines := fmLines + [Delimiter];
    text := Join(fmLines, "\n") + "\n\n" + body + "\n";
  }

  // ---------------------------------------------------------------------------
  // Properties of the writers

  /** The written text ends with the body and a line break, and carries the
      checksum of that body; the frontmatter's stored checksum and the stored
      `raw` play no part. */
  lemma DocumentTextIgnoresStoredChecksum(doc: Document, hash: Hasher, checksum: string, raw: string)
    ensures DocumentText(doc.(frontmatter := doc.frontmatter.(checksum := checksum), raw := raw), hash) == DocumentText(doc, hash)
  {
  }
}
