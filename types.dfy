/** The HARP data model of `src/types.ts`: identities, frontmatter, sections
    and their metadata, documents, filters, derived scores and the errors the
    engine raises. */
module Types {
  import opened Wrappers
  import opened Strings
  import opened Yaml

  // ---------------------------------------------------------------------------
  // Constants of the engine

  /** The protocol version written into new documents. */
  const HarpVersion := "0.1.0"

  /** The frontmatter delimiter, matched anywhere in the text by `split`. */
  const Delimiter := "---"

  // ---------------------------------------------------------------------------
  // Identity

  /** "human" | "agent" */
  datatype EntityType = Human | Agent

  function EntityTypeName(t: EntityType): string {
    match t
    case Human => "human"
    case Agent => "agent"
  }

  /** "public" | "shared" | "private": each layer has its own epoch chain. */
  datatype Layer = Public | Shared | Private

  function LayerName(l: Layer): (r: string)
    ensures r in {"public", "shared", "private"}
  {
    match l
    case Public => "public"
    case Shared => "shared"
    case Private => "private"
  }

  /** The layer whose name is `s`, if any. */
  function LayerOf(s: string): (r: Option<Layer>)
    ensures r.Some? <==> s in {"public", "shared", "private"}
    ensures r.Some? ==> LayerName(r.value) == s
  {
    if s == "public" then Some(Public)
    else if s == "shared" then Some(Shared)
    else if s == "private" then Some(Private)
    else None
  }

  datatype Erc8004Metadata = Erc8004Metadata(chainId: int, agentId: int)

  datatype EntityDescriptor = EntityDescriptor(
    id: string,
    entityType: EntityType,
    name: Option<string>,
    erc8004: Option<Erc8004Metadata>)

  /** An item of the frontmatter `entities` list. Documents built in memory
      hold descriptors; a parsed document holds whatever the frontmatter
      dialect decoded the list items to, which is not a descriptor object. */
  datatype EntityEntry = Described(descriptor: EntityDescriptor) | Undescribed(value: YamlValue)

  datatype Signature = Signature(entity: string, sig: string, scheme: string)

  /** An item of the frontmatter `signatures` list, as for `EntityEntry`. */
  datatype SignatureEntry = Signed(signature: Signature) | Unsigned(value: YamlValue)

  // ---------------------------------------------------------------------------
  // Frontmatter

  datatype Frontmatter = Frontmatter(
    harp: string,
    dyad: string,
    epoch: int,
    created: string,
    updated: string,
    previous: Option<string>,
    layer: Layer,
    entities: seq<EntityEntry>,
    checksum: string,
    signatures: Option<seq<SignatureEntry>>)

  // ---------------------------------------------------------------------------
  // Sections

  /** The seven core section types. */
  predicate IsCoreSectionType(t: string) {
    t in {"Interaction", "Trust", "Context", "Decision", "Capability", "Tension", "Note"}
  }

  /** A core type or a custom type with the `x-` prefix. */
  predicate IsSectionType(t: string) {
    IsCoreSectionType(t) || StartsWith(t, "x-")
  }

  /** "resolved" | "ongoing" | "escalated" */
  datatype TensionStatus = Resolved | Ongoing | Escalated

  function StatusName(s: TensionStatus): (r: string)
    ensures r in {"resolved", "ongoing", "escalated"}
  {
    match s
    case Resolved => "resolved"
    case Ongoing => "ongoing"
    case Escalated => "escalated"
  }

  /** A reference to an external resource (bounty, thread, transaction). */
  datatype Reference = Reference(refType: string, id: Option<string>, tx: Option<string>, amount: Option<string>)

  /** Evidence for a Trust section: a reference or a back-reference to an
      interaction. */
  datatype Evidence = EvidenceRef(reference: Reference) | InteractionRef(interactionRef: string)

  /** x402 payment details. */
  datatype Payment = Payment(amount: string, tx: string, purpose: Option<string>)

  datatype SectionMeta = SectionMeta(
    timestamp: string,
    author: string,
    tags: Option<seq<string>>,
    references: Option<seq<Reference>>,
    evidence: Option<seq<Evidence>>,
    demonstratedIn: Option<seq<string>>,
    acknowledgedBy: Option<string>,
    status: Option<TensionStatus>,
    resolution: Option<string>,
    x402: Option<Payment>,
    platform: Option<string>)

  /** Metadata with only the two required fields set. */
  function BareMeta(timestamp: string, author: string): SectionMeta {
    SectionMeta(timestamp, author, None, None, None, None, None, None, None, None, None)
  }

  datatype Section = Section(
    sectionType: string,
    title: string,
    meta: Option<SectionMeta>,
    content: string,
    raw: string)

  // ---------------------------------------------------------------------------
  // Documents and epochs

  /** An empty `raw` means the text is stale and must be recomputed. */
  datatype Document = Document(
    frontmatter: Frontmatter,
    preamble: string,
    sections: seq<Section>,
    raw: string)

  datatype EpochRef = EpochRef(epoch: int, cid: string, updated: string, checksum: string)

  // ---------------------------------------------------------------------------
  // Queries and scores

  /** Every field is optional; `limit` is a JavaScript number, of which the
      model keeps the integers. */
  datatype SectionFilter = SectionFilter(
    types: Option<seq<string>>,
    author: Option<string>,
    after: Option<string>,
    before: Option<string>,
    tags: Option<seq<string>>,
    limit: Option<int>)

  /** The six counters of the trust score's `factors` record. */
  datatype Factors = Factors(
    interactions: nat,
    trustSignals: nat,
    decisions: nat,
    capabilities: nat,
    resolvedTensions: nat,
    unresolvedTensions: nat)

  datatype DerivedScore = DerivedScore(
    algorithm: string,
    score: real,
    factors: Factors,
    sourceSections: seq<string>,
    computedAt: string,
    sourceEpoch: int)

  datatype ReadinessLevel = New | Emerging | Established | Mature

  datatype CollaborationReadiness = CollaborationReadiness(
    hasHistory: bool,
    interactionCount: nat,
    unresolvedTensions: nat,
    hasCommPreferences: bool,
    hasSharedDecisions: bool,
    paymentHistory: bool,
    readinessLevel: ReadinessLevel)

  // ---------------------------------------------------------------------------
  // AIRC message payloads

  datatype HarpProposal = HarpProposal(from: string, to: string, dyad: string, initialContext: Option<string>, timestamp: string)

  datatype HarpUpdateNotification = HarpUpdateNotification(
    from: string, to: string, dyad: string, layer: Layer, epoch: int, cid: string, timestamp: string)

  datatype HarpContextAttachment = HarpContextAttachment(
    dyad: string, layer: Layer, cid: string, relevantSections: Option<seq<string>>)

  // ---------------------------------------------------------------------------
  // Checksums and content ids

  predicate IsLowerHexDigit(c: char) {
    '0' <= c <= '9' || 'a' <= c <= 'f'
  }

  predicate IsLowerHex(s: string) {
    forall i :: 0 <= i < |s| ==> IsLowerHexDigit(s[i])
  }

  function ZeroDigest(s: string): (r: string)
    ensures |r| == 64 && IsLowerHex(r)
  {
    seq(64, i => '0')
  }

  /** A hash function on strings: SHA-256 is a parameter of the model. */
  type Hasher = string -> string

  /** 64 lowercase hex digits: the shape of a SHA-256 digest. */
  predicate IsHexDigest(d: string) {
    |d| == 64 && IsLowerHex(d)
  }

  /** `createHash("sha256").update(s).digest("hex")`. The digest itself is
      not modelled; a real SHA-256 always has the hex shape, and any other
      output of the parameter is read as the zero digest. */
  function HexDigest(hash: Hasher, s: string): (d: string)
    ensures IsHexDigest(d)
    ensures IsHexDigest(hash(s)) ==> d == hash(s)
  {
    if IsHexDigest(hash(s)) then hash(s) else ZeroDigest(s)
  }

  // ---------------------------------------------------------------------------
  // Errors (each a thrown `Error` in the source)

  datatype HarpError =
    | InvalidErc8004Id(id: string)
    | UnknownEntityIdFormat(id: string)
    | DegenerateDyad
    | MalformedFrontmatter(reason: string)
    | NotFound(cid: string)
    | DyadNotFound(dyad: string, layer: Layer)
}
