/** The AIRC messaging adapter of `src/adapters/airc.ts`: each of the five
    messaging events becomes one section. */
module Airc {
  import opened Wrappers
  import opened Types
  import opened Serialize
  import opened Scoring
  import opened Events
  import opened Strings

  const Platform: string := "airc"
  const Description: string := "AIRC messaging — captures communication patterns, handoffs, and consent"
  const ProducesTypes: seq<string> := ["Interaction", "Context", "Note"]
  const EventTypes: seq<string> := [
    "first_contact",
    "handoff",
    "consent_change",
    "extended_thread",
    "communication_pattern"
  ]

  /** `canHandle` */
  predicate CanHandle(eventType: string) {
    eventType in EventTypes
  }

  /** The five messaging events. */
  datatype MessagingEvent = FirstContact | Handoff | ConsentChange | ExtendedThread | CommunicationPattern

  /** The event type string of each messaging event. */
  function EventName(k: MessagingEvent): (t: string)
    ensures t in EventTypes
  {
    match k
    case FirstContact => "first_contact"
    case Handoff => "handoff"
    case ConsentChange => "consent_change"
    case ExtendedThread => "extended_thread"
    case CommunicationPattern => "communication_pattern"
  }

  /** The `switch` on the event type. */
  function Kind(t: string): (k: Option<MessagingEvent>)
    ensures k.Some? <==> CanHandle(t)
    ensures k.Some? ==> EventName(k.value) == t
  {
    if t == "first_contact" then Some(FirstContact)
    else if t == "handoff" then Some(Handoff)
    else if t == "consent_change" then Some(ConsentChange)
    else if t == "extended_thread" then Some(ExtendedThread)
    else if t == "communication_pattern" then Some(CommunicationPattern)
    else None
  }

  /** The thread reference: present exactly when the thread id is truthy. */
  function ThreadRef(p: Payload): (r: Option<seq<Reference>>)
    ensures r.Some? <==> Given(p.threadId)
    ensures r.Some? ==> r.value == [Reference("airc_thread", p.threadId, None, None)]
  {
    if Given(p.threadId) then Some([Reference("airc_thread", p.threadId, None, None)]) else None
  }

  function TypeOf(k: MessagingEvent): string {
    match k
    case ConsentChange => "Note"
    case CommunicationPattern => "Context"
    case _ => "Interaction"
  }

  /** The tags of each event; the platform is always the first. */
  function TagsOf(k: MessagingEvent, p: Payload): (t: seq<string>)
    ensures |t| >= 2 && t[0] == Platform
  {
    match k
    case FirstContact => ["airc", "first-contact"]
    case Handoff => ["airc", "handoff"]
    case ConsentChange => ["airc", "consent", p.consentType.GetOr("change")]
    case ExtendedThread => ["airc", "collaboration", "thread"]
    case CommunicationPattern => ["airc", "communication", "pattern"]
  }

  function Title(k: MessagingEvent, p: Payload): string {
    match k
    case FirstContact => "First contact via AIRC"
    case Handoff => "Task handoff: " + p.taskDescription.GetOr("Task transfer")
    case ConsentChange => "Consent " + Shown(p.consentType) + ": AIRC communication"
    case ExtendedThread => "Extended collaboration thread: " + p.topic.GetOr("ongoing work")
    case CommunicationPattern => "Communication pattern observed"
  }

  /** The content of each event. The handoff falls back to the first and
      second entities for an unnamed giver and taker. */
  function Content(k: MessagingEvent, e: PlatformEvent): string {
    var p := e.payload;
    match k
    case FirstContact =>
      "Initial communication established between entities via AIRC."
        + (if Given(p.topic) then " Topic: " + p.topic.value + "." else "")
    case Handoff =>
      Shown(if p.handoffFrom.Some? then p.handoffFrom else EntityAt(e.entities, 0)) + " handed off work to "
        + Shown(if p.handoffTo.Some? then p.handoffTo else EntityAt(e.entities, 1)) + " via AIRC.\n\nTask: "
        + p.taskDescription.GetOr("Not specified.")
    case ConsentChange =>
      "AIRC consent " + Shown(p.consentType) + " between entities."
        + (if p.consentType == Some("revoked") then " Communication channel closed." else " Communication channel open.")
    case ExtendedThread =>
      "An extended AIRC thread" + (if Given(p.topic) then " on \"" + p.topic.value + "\"" else "")
        + " with " + (if p.messageCount.Some? then ShownInt(p.messageCount) else "many") + " messages over "
        + p.duration.GetOr("an extended period") + "."
    case CommunicationPattern =>
      p.communicationStyle.GetOr("Communication pattern detected from AIRC message history. See metadata for details.")
  }

  /** The section for one messaging event: the communication pattern is
      written by `system`, every other event by the first entity; the
      events about a conversation cite its thread when one is named. */
  function MessagingSection(k: MessagingEvent, e: PlatformEvent): (s: Section)
    ensures s.sectionType == TypeOf(k) && s.sectionType in ProducesTypes
    ensures s.title == Title(k, e.payload) && s.content == Content(k, e)
    ensures s.meta.Some? && s.meta.value.timestamp == e.timestamp
    ensures s.meta.value.tags == Some(TagsOf(k, e.payload))
    ensures s.meta.value.references == if k in {FirstContact, Handoff, ExtendedThread} then ThreadRef(e.payload) else None
    ensures s.meta.value.status.None? && s.meta.value.x402.None?
    ensures s.meta.value.author == if k == CommunicationPattern then "system" else (if |e.entities| > 0 then e.entities[0] else "")
    ensures s.raw == SectionText(s)
  {
    EventSection(TypeOf(k), Title(k, e.payload), Content(k, e), e,
                 if k == CommunicationPattern then Some("system") else EntityAt(e.entities, 0),
                 TagsOf(k, e.payload),
                 if k in {FirstContact, Handoff, ExtendedThread} then ThreadRef(e.payload) else None,
                 None, None, None, None)
  }

  /** `translate`: one section for a messaging event, none for any other
      event type. */
  function Translate(e: PlatformEvent): (r: seq<Section>)
    ensures |r| == if CanHandle(e.eventType) then 1 else 0
    ensures |r| == 1 ==> r[0] == MessagingSection(Kind(e.eventType).value, e)
  {
    match Kind(e.eventType)
    case None => []
    case Some(k) => [MessagingSection(k, e)]
  }

  /** The adapter produces only the section types it declares. */
  lemma TranslatedTypesDeclared(e: PlatformEvent)
    ensures forall s <- Translate(e) :: s.sectionType in ProducesTypes
  {
    if CanHandle(e.eventType) {
      var s := MessagingSection(Kind(e.eventType).value, e);
      assert Translate(e) == [s];
    }
  }

  /** The scoring classes of a section typed after a messaging event. */
  lemma ClassOfType(k: MessagingEvent, s: Section)
    requires s.sectionType == TypeOf(k)
    ensures IsScored(s) <==> k in {FirstContact, Handoff, ExtendedThread}
    ensures IsScored(s) ==> IsInteraction(s)
    ensures IsContext(s) <==> k == CommunicationPattern
  {
  }

  /** Only the conversation events move the trust score, and they count as
      interactions. */
  lemma TranslationScoring(k: MessagingEvent, e: PlatformEvent)
    ensures var s := MessagingSection(k, e);
      && (IsScored(s) <==> k in {FirstContact, Handoff, ExtendedThread})
      && (IsScored(s) ==> IsInteraction(s))
  {
    ClassOfType(k, MessagingSection(k, e));
  }

  /** A communication pattern is the context section collaboration
      readiness looks for; no other event gives one. */
  lemma PatternIsContext(k: MessagingEvent, e: PlatformEvent)
    ensures IsContext(MessagingSection(k, e)) <==> k == CommunicationPattern
  {
    ClassOfType(k, MessagingSection(k, e));
  }

  /** A revoked consent says that the channel is closed, any other consent
      change that it is open. */
  lemma ConsentChannel(e: PlatformEvent)
    ensures var s := MessagingSection(ConsentChange, e);
      && s.sectionType == "Note"
      && s.meta.value.tags == Some(["airc", "consent", e.payload.consentType.GetOr("change")])
      && EndsWith(s.content, if e.payload.consentType == Some("revoked") then " Communication channel closed."
                              else " Communication channel open.")
  {
  }
}
