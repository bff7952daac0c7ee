/** The platform events of `src/adapters/index.ts` and what the adapters
    share: how a missing payload value is written into a template, and how a
    translated section is built. */
module Events {
  import opened Wrappers
  import opened Strings
  import opened Types
  import opened Serialize
  import opened Documents

  /** The payload fields the MoltX and AIRC adapters read. A field the event
      does not carry is `None`. */
  datatype Payload = Payload(
    // MoltX bounty events
    bountyId: Option<int>,
    title: Option<string>,
    description: Option<string>,
    amount: Option<string>,
    currency: Option<string>,
    tx: Option<string>,
    milestone: Option<string>,
    disputeReason: Option<string>,
    resolution: Option<string>,
    endorsement: Option<string>,
    // AIRC messaging events
    threadId: Option<string>,
    messageCount: Option<int>,
    taskDescription: Option<string>,
    handoffFrom: Option<string>,
    handoffTo: Option<string>,
    consentType: Option<string>,
    topic: Option<string>,
    duration: Option<string>,
    communicationStyle: Option<string>)

  /** `PlatformEvent`: the platform, the platform's own event type, an
      ISO 8601 time stamp, the entities involved and the payload. */
  datatype PlatformEvent = PlatformEvent(
    platform: string,
    eventType: string,
    timestamp: string,
    entities: seq<string>,
    payload: Payload)

  /** A string interpolated into a template literal: a missing value is
      written as `undefined`. */
  function Shown(o: Option<string>): (r: string)
    ensures o.Some? ==> r == o.value
    ensures o.None? ==> r == "undefined"
  {
    if o.Some? then o.value else "undefined"
  }

  /** A number interpolated into a template literal. */
  function ShownInt(o: Option<int>): (r: string)
    ensures o.Some? ==> r == IntString(o.value)
    ensures o.None? ==> r == "undefined"
  {
    if o.Some? then IntString(o.value) else "undefined"
  }

  /** `entities[i]`, which is `undefined` past the end. */
  function EntityAt(entities: seq<string>, i: nat): (r: Option<string>)
    ensures r.Some? <==> i < |entities|
    ensures r.Some? ==> r.value == entities[i]
  {
    if i < |entities| then Some(entities[i]) else None
  }

  /** The section an adapter builds for an event: `createSection` with the
      event's time stamp and the given author, tags and optional fields. The
      time stamp is always given, so the clock is never consulted. */
  function EventSection(sectionType: string, title: string, content: string, e: PlatformEvent,
                        author: Option<string>, tags: seq<string>, references: Option<seq<Reference>>,
                        evidence: Option<seq<Evidence>>, status: Option<TensionStatus>,
                        resolution: Option<string>, x402: Option<Payment>): (s: Section)
    ensures s.sectionType == sectionType && s.title == title && s.content == content
    ensures s.meta.Some? && s.meta.value.timestamp == e.timestamp
    ensures s.meta.value.author == author.GetOr("") && s.meta.value.tags == Some(tags)
    ensures s.meta.value.references == references && s.meta.value.evidence == evidence
    ensures s.meta.value.status == status && s.meta.value.resolution == resolution
    ensures s.meta.value.x402 == x402 && s.meta.value.acknowledgedBy.None?
    ensures s.raw == SectionText(s)
  {
    CreateSection(sectionType, title, content,
                  Some(MetaInput(Some(e.timestamp), author, Some(tags), references, evidence,
                                 None, None, status, resolution, x402, None)),
                  e.timestamp)
  }
}
