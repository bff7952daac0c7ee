/** The MoltX bounty-board adapter of `src/adapters/moltx.ts`: each of the
    seven bounty lifecycle events becomes one section. */
module MoltX {
  import opened Wrappers
  import opened Types
  import opened Serialize
  import opened Scoring
  import opened Events

  const Platform: string := "moltx"
  const Description: string := "MoltX bounty board — translates bounty lifecycle events into HARP sections"
  const ProducesTypes: seq<string> := ["Interaction", "Trust", "Tension"]
  const EventTypes: seq<string> := [
    "bounty_accepted",
    "bounty_milestone",
    "bounty_completed",
    "bounty_payment",
    "bounty_dispute_filed",
    "bounty_dispute_resolved",
    "bounty_endorsement"
  ]

  /** `canHandle` */
  predicate CanHandle(eventType: string) {
    eventType in EventTypes
  }

  /** The reference every bounty section cites: `moltx:bounty:<id>`. */
  function BountyRef(p: Payload): (r: Reference)
    ensures r.refType == "bounty" && r.id == Some("moltx:bounty:" + ShownInt(p.bountyId))
    ensures r.tx.None? && r.amount.None?
  {
    Reference("bounty", Some("moltx:bounty:" + ShownInt(p.bountyId)), None, None)
  }

  /** `${amount} ${currency ?? "ETH"}` */
  function AmountText(p: Payload): string {
    Shown(p.amount) + " " + p.currency.GetOr("ETH")
  }

  /** The x402 record of a payment: present exactly when the transaction
      hash is truthy. */
  function PaymentRecord(p: Payload): (r: Option<Payment>)
    ensures r.Some? <==> Given(p.tx)
    ensures r.Some? ==> r.value.tx == p.tx.value && r.value.amount == AmountText(p)
  {
    if Given(p.tx) then
      Some(Payment(AmountText(p), p.tx.value,
                   Some("Bounty #" + ShownInt(p.bountyId) + ": " + Shown(p.title))))
    else None
  }

  /** The seven bounty lifecycle events. */
  datatype BountyEvent =
    | Accepted | Milestone | Completed | PaymentMade | DisputeFiled | DisputeResolved | Endorsement

  /** The event type string of each lifecycle event. */
  function EventName(k: BountyEvent): (t: string)
    ensures t in EventTypes
  {
    match k
    case Accepted => "bounty_accepted"
    case Milestone => "bounty_milestone"
    case Completed => "bounty_completed"
    case PaymentMade => "bounty_payment"
    case DisputeFiled => "bounty_dispute_filed"
    case DisputeResolved => "bounty_dispute_resolved"
    case Endorsement => "bounty_endorsement"
  }

  /** The `switch` on the event type: the lifecycle event an event type
      names, if it names one. */
  function Kind(t: string): (k: Option<BountyEvent>)
    ensures k.Some? <==> CanHandle(t)
    ensures k.Some? ==> EventName(k.value) == t
  {
    if t == "bounty_accepted" then Some(Accepted)
    else if t == "bounty_milestone" then Some(Milestone)
    else if t == "bounty_completed" then Some(Completed)
    else if t == "bounty_payment" then Some(PaymentMade)
    else if t == "bounty_dispute_filed" then Some(DisputeFiled)
    else if t == "bounty_dispute_resolved" then Some(DisputeResolved)
    else if t == "bounty_endorsement" then Some(Endorsement)
    else None
  }

  /** The heading title of the section for one lifecycle event. */
  function Title(k: BountyEvent, p: Payload): string {
    var id := ShownInt(p.bountyId);
    match k
    case Accepted => "Bounty #" + id + " accepted: " + Shown(p.title)
    case Milestone => "Milestone completed: " + p.milestone.GetOr("Bounty #" + id)
    case Completed => "Bounty #" + id + " completed: " + Shown(p.title)
    case PaymentMade => "Payment for bounty #" + id
    case DisputeFiled => "Dispute on bounty #" + id + ": " + Shown(p.title)
    case DisputeResolved => "Dispute resolved: bounty #" + id
    case Endorsement => "Post-bounty endorsement: " + Shown(p.title)
  }

  /** The content of the section for one lifecycle event. */
  function Content(k: BountyEvent, p: Payload): string {
    var id := ShownInt(p.bountyId);
    var named := "bounty #" + id + " (" + Shown(p.title) + ")";
    match k
    case Accepted =>
      "Joint bounty accepted on MoltX. " + p.description.GetOr("") + "\n\nBounty value: "
        + p.amount.GetOr("TBD") + " " + p.currency.GetOr("ETH") + "."
    case Milestone => "Milestone \"" + Shown(p.milestone) + "\" completed for " + named + "."
    case Completed => "Bounty #" + id + " (" + Shown(p.title) + ") completed successfully. Both entities fulfilled their roles."
    case PaymentMade => "Payment of " + AmountText(p) + " disbursed for " + named + "."
    case DisputeFiled => "A dispute was filed on " + named + ".\n\nReason: " + p.disputeReason.GetOr("Not specified.")
    case DisputeResolved =>
      "The dispute on " + named + " has been resolved.\n\nResolution: " + p.resolution.GetOr("Resolved by mutual agreement.")
    case Endorsement => p.endorsement.GetOr("Voluntary endorsement after completing " + named + ".")
  }

  /** The section type of each event: disputes are tensions, the
      endorsement a trust signal, the rest interactions. */
  function TypeOf(k: BountyEvent): string {
    match k
    case DisputeFiled | DisputeResolved => "Tension"
    case Endorsement => "Trust"
    case _ => "Interaction"
  }

  /** The tags of each event; the platform is always the second. */
  function TagsOf(k: BountyEvent): (t: seq<string>)
    ensures |t| >= 3 && t[1] == Platform
  {
    match k
    case Accepted => ["bounty", "moltx", "accepted"]
    case Milestone => ["bounty", "moltx", "milestone"]
    case Completed => ["bounty", "moltx", "completed"]
    case PaymentMade => ["payment", "moltx", "x402"]
    case DisputeFiled => ["dispute", "moltx", "bounty"]
    case DisputeResolved => ["dispute", "moltx", "bounty", "resolved"]
    case Endorsement => ["endorsement", "moltx", "trust"]
  }

  /** A filed dispute is ongoing, a resolved one resolved; the other events
      set no status. */
  function StatusOf(k: BountyEvent): Option<TensionStatus> {
    match k
    case DisputeFiled => Some(Ongoing)
    case DisputeResolved => Some(Resolved)
    case _ => None
  }

  /** The section for one lifecycle event: the payment is written by
      `system`, every other event by the first entity; the endorsement cites
      the bounty as evidence, every other event as a reference; only the
      resolved dispute carries a resolution and only the payment an x402
      record. */
  function BountySection(k: BountyEvent, e: PlatformEvent): (s: Section)
    ensures s.sectionType == TypeOf(k) && s.meta.Some? && s.meta.value.status == StatusOf(k)
    ensures s.sectionType in ProducesTypes && s.title == Title(k, e.payload) && s.content == Content(k, e.payload)
    ensures s.meta.Some? && s.meta.value.timestamp == e.timestamp
    ensures s.meta.value.tags == Some(TagsOf(k))
    ensures s.raw == SectionText(s)
    ensures if k == Endorsement then s.meta.value.evidence == Some([EvidenceRef(BountyRef(e.payload))])
            else s.meta.value.references == Some([BountyRef(e.payload)])
    ensures s.meta.value.resolution ==
              if k == DisputeResolved then Some(e.payload.resolution.GetOr("Resolved by mutual agreement")) else None
  {
    var p := e.payload;
    var bounty := Some([BountyRef(p)]);
    EventSection(TypeOf(k), Title(k, p), Content(k, p), e,
                 if k == PaymentMade then Some("system") else EntityAt(e.entities, 0),
                 TagsOf(k),
                 if k == Endorsement then None else bounty,
                 if k == Endorsement then Some([EvidenceRef(BountyRef(p))]) else None,
                 StatusOf(k),
                 if k == DisputeResolved then Some(p.resolution.GetOr("Resolved by mutual agreement")) else None,
                 if k == PaymentMade then PaymentRecord(p) else None)
  }

  /** `translate`: one section for a bounty lifecycle event, none for any
      other event type. */
  function Translate(e: PlatformEvent): (r: seq<Section>)
    ensures |r| == if CanHandle(e.eventType) then 1 else 0
    ensures |r| == 1 ==> r[0] == BountySection(Kind(e.eventType).value, e)
  {
    match Kind(e.eventType)
    case None => []
    case Some(k) => [BountySection(k, e)]
  }

  /** The adapter produces only the section types it declares. */
  lemma TranslatedTypesDeclared(e: PlatformEvent)
    ensures forall s <- Translate(e) :: s.sectionType in ProducesTypes
  {
    if CanHandle(e.eventType) {
      var s := BountySection(Kind(e.eventType).value, e);
      assert Translate(e) == [s];
    }
  }

  /** The scoring classes of a section typed and marked after a lifecycle
      event. */
  lemma ClassOfKind(k: BountyEvent, s: Section)
    requires s.sectionType == TypeOf(k) && s.meta.Some? && s.meta.value.status == StatusOf(k)
    ensures IsTrust(s) <==> k == Endorsement
    ensures IsInteraction(s) <==> k in {Accepted, Milestone, Completed, PaymentMade}
    ensures IsScored(s)
    ensures IsUnresolvedTension(s) <==> k == DisputeFiled
    ensures IsResolvedTension(s) <==> k == DisputeResolved
  {
  }

  /** How each event weighs in the trust score: an endorsement is a trust
      signal, the four events before the disputes are interactions, and
      every bounty section is scored. */
  lemma TranslationScoring(k: BountyEvent, e: PlatformEvent)
    ensures var s := BountySection(k, e);
      && (IsTrust(s) <==> k == Endorsement)
      && (IsInteraction(s) <==> k in {Accepted, Milestone, Completed, PaymentMade})
      && IsScored(s)
  {
    ClassOfKind(k, BountySection(k, e));
  }

  /** A filed dispute is an unresolved tension, which lowers the trust
      score; a resolved dispute is a resolved one, which raises it. */
  lemma DisputeScoring(k: BountyEvent, e: PlatformEvent)
    ensures var s := BountySection(k, e);
      && (IsUnresolvedTension(s) <==> k == DisputeFiled)
      && (IsResolvedTension(s) <==> k == DisputeResolved)
  {
    ClassOfKind(k, BountySection(k, e));
  }

  /** A payment event always reads as a payment for collaboration readiness,
      and carries the x402 record exactly when it names a transaction. */
  lemma PaymentIsRecorded(e: PlatformEvent)
    ensures var s := BountySection(PaymentMade, e);
      && MentionsPayment(s) && s.meta.value.author == "system"
      && s.meta.value.x402 == PaymentRecord(e.payload)
      && (s.meta.value.x402.Some? <==> Given(e.payload.tx))
  {
  }

  /** Every section but the payment names the first entity as its author
      (the empty author when the event names none). */
  lemma AuthorIsFirstEntity(k: BountyEvent, e: PlatformEvent)
    requires k != PaymentMade
    ensures BountySection(k, e).meta.value.author == if |e.entities| > 0 then e.entities[0] else ""
  {
  }
}
