/** The AIRC integration helpers of `src/harp.ts`: the proposal, the update
    notification and the handoff attachment. The time stamp is a parameter. */
module Payloads {
  import opened Wrappers
  import opened Types
  import opened Identity

  /** `createProposal`: both ids are normalised, then the dyad id is
      computed; the first of these to throw decides the error. */
  function CreateProposal(from: string, to: string, context: Option<string>, now: string): (r: Result<HarpProposal, HarpError>)
    ensures r.Success? <==> ComputeDyadId(from, to).Success?
    ensures NormalizeEntityId(from).Failure? ==> r == Failure(NormalizeEntityId(from).error)
    ensures NormalizeEntityId(from).Success? && NormalizeEntityId(to).Failure? ==> r == Failure(NormalizeEntityId(to).error)
    ensures r.Success? ==>
      && r.value.from == NormalizeEntityId(from).value && r.value.to == NormalizeEntityId(to).value
      && r.value.dyad == ComputeDyadId(from, to).value
      && r.value.initialContext == context && r.value.timestamp == now
  {
    var f :- NormalizeEntityId(from);
    var t :- NormalizeEntityId(to);
    DyadIdShape(from, to);
    var dyad :- ComputeDyadId(from, to);
    Success(HarpProposal(f, t, dyad, context, now))
  }

  /** The dyad id a message carries is the one its own `from` and `to`
      name: recomputing it from the normalised ids gives the same id. */
  lemma ProposalNamesItsDyad(from: string, to: string, context: Option<string>, now: string)
    requires CreateProposal(from, to, context, now).Success?
    ensures var p := CreateProposal(from, to, context, now).value;
      ComputeDyadId(p.from, p.to) == Success(p.dyad)
  {
    NormalizeIdempotent(from);
    NormalizeIdempotent(to);
  }

  /** A proposal in the other direction names the same dyad. */
  lemma ProposalDyadSymmetric(from: string, to: string, context: Option<string>, now: string)
    requires CreateProposal(from, to, context, now).Success?
    ensures CreateProposal(to, from, context, now).Success?
    ensures CreateProposal(to, from, context, now).value.dyad == CreateProposal(from, to, context, now).value.dyad
  {
    DyadIdSymmetric(from, to);
  }

  /** `createUpdateNotification` */
  function CreateUpdateNotification(from: string, to: string, layer: Layer, epoch: int, cid: string, now: string)
    : (r: Result<HarpUpdateNotification, HarpError>)
    ensures r.Success? <==> ComputeDyadId(from, to).Success?
    ensures NormalizeEntityId(from).Failure? ==> r == Failure(NormalizeEntityId(from).error)
    ensures NormalizeEntityId(from).Success? && NormalizeEntityId(to).Failure? ==> r == Failure(NormalizeEntityId(to).error)
    ensures r.Success? ==>
      && r.value.from == NormalizeEntityId(from).value && r.value.to == NormalizeEntityId(to).value
      && r.value.dyad == ComputeDyadId(from, to).value
      && r.value.layer == layer && r.value.epoch == epoch && r.value.cid == cid && r.value.timestamp == now
  {
    var f :- NormalizeEntityId(from);
    var t :- NormalizeEntityId(to);
    DyadIdShape(from, to);
    var dyad :- ComputeDyadId(from, to);
    Success(HarpUpdateNotification(f, t, dyad, layer, epoch, cid, now))
  }

  /** A notification and a proposal between the same two entities name the
      same dyad. */
  lemma NotificationMatchesProposal(from: string, to: string, layer: Layer, epoch: int, cid: string,
                                    context: Option<string>, now: string)
    requires CreateProposal(from, to, context, now).Success?
    ensures CreateUpdateNotification(from, to, layer, epoch, cid, now).Success?
    ensures CreateUpdateNotification(from, to, layer, epoch, cid, now).value.dyad
         == CreateProposal(from, to, context, now).value.dyad
  {
  }

  /** `createContextAttachment`: the arguments, as given. */
  function CreateContextAttachment(dyadId: string, layer: Layer, cid: string, relevantSections: Option<seq<string>>)
    : (r: HarpContextAttachment)
    ensures r.dyad == dyadId && r.layer == layer && r.cid == cid && r.relevantSections == relevantSections
  {
    HarpContextAttachment(dyadId, layer, cid, relevantSections)
  }
}
