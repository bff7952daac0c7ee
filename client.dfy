/** `HarpClient` of `src/harp.ts`: documents stored by content id, with a
    pointer per dyad and layer to the current epoch. */
module Client {
  import opened Wrappers
  import opened Strings
  import opened Types
  import opened Serialize
  import opened Parse
  import opened Documents
  import opened Scoring
  import opened Payloads
  import opened Storage

  /** `${dyadId}:${layer}` */
  function PointerKey(dyad: string, layer: Layer): string {
    dyad + ":" + LayerName(layer)
  }

  /** The layer names end in different letters, so the key names the pair. */
  lemma PointerKeyInjective(d1: string, l1: Layer, d2: string, l2: Layer)
    requires PointerKey(d1, l1) == PointerKey(d2, l2)
    ensures d1 == d2 && l1 == l2
  {
    var k := PointerKey(d1, l1);
    assert k[|k| - 1] == LayerName(l1)[|LayerName(l1)| - 1];
    assert k[|k| - 1] == LayerName(l2)[|LayerName(l2)| - 1];
    assert l1 == l2;
    assert d1 == k[..|d1|] && d2 == k[..|d2|];
  }

  /** `doc.sections.filter(s => types.includes(s.type)).map(s => `${s.type}: ${s.title}`)` */
  function RelevantLines(ss: seq<Section>, types: seq<string>): seq<string> {
    SourceLines(Keep(ss, (s: Section) => s.sectionType in types))
  }

  /** The document `addSectionToDyad` stores and returns, with its content
      id: the section is added, the epoch advances and points back at the
      current one, and the text is written afresh. The stored checksum stays
      empty, as `createNextEpoch` left it. */
  function NextEpochStored(current: Document, previous: string, section: Section, now: string, hash: Hasher)
    : (r: (Document, string))
    ensures r.0.frontmatter.epoch == current.frontmatter.epoch + 1
    ensures r.0.frontmatter.previous == Some(previous)
    ensures r.0.sections == current.sections + [section] && r.0.preamble == current.preamble
    ensures r.0.frontmatter.dyad == current.frontmatter.dyad && r.0.frontmatter.layer == current.frontmatter.layer
    ensures r.0.frontmatter.checksum == ""
    ensures r.1 == ContentId(hash, r.0.raw)
  {
    var next := CreateNextEpoch(AddSection(current, section), previous, now);
    var text := DocumentText(next, hash);
    (next.(raw := text), ContentId(hash, text))
  }

  /** The text stored for the next epoch is that document's own text. */
  lemma NextEpochTextIsItsOwn(current: Document, previous: string, section: Section, now: string, hash: Hasher)
    ensures var r := NextEpochStored(current, previous, section, now, hash);
      r.0.raw == DocumentText(r.0, hash)
  {
    var next := CreateNextEpoch(AddSection(current, section), previous, now);
    DocumentTextIgnoresStoredChecksum(next, hash, next.frontmatter.checksum, DocumentText(next, hash));
  }

  /** `new HarpClient({ identity, storage: "memory" })` */
  class HarpClient {
    const entityId: string
    const storage: MemoryStorage
    var pointers: map<string, string>

    constructor(entityId: string, hash: Hasher)
      ensures this.entityId == entityId && pointers == map[]
      ensures fresh(storage) && storage.contents == map[] && storage.hash == hash
    {
      this.entityId := entityId;
      storage := new MemoryStorage(hash);
      pointers := map[];
    }

    /** The content id of the current epoch, when there is one (an empty id
        is falsy and counts as none). */
    function Pointer(dyad: string, layer: Layer): (r: Option<string>)
      reads this
      ensures r.Some? <==> PointerKey(dyad, layer) in pointers && pointers[PointerKey(dyad, layer)] != ""
    {
      var key := PointerKey(dyad, layer);
      if key in pointers && pointers[key] != "" then Some(pointers[key]) else None
    }

    /** What `getDyad` returns or throws: nothing without a pointer, else the
        stored text, parsed. */
    function DyadView(dyad: string, layer: Layer): (r: Result<Option<Document>, HarpError>)
      reads this, storage
      ensures Pointer(dyad, layer).None? ==> r == Success(None)
      ensures r.Success? && r.value.Some? ==>
        && Pointer(dyad, layer).Some?
        && storage.Lookup(Pointer(dyad, layer).value).Success?
        && ParseDocumentSpec(storage.Lookup(Pointer(dyad, layer).value).value) == Success(r.value.value)
    {
      match Pointer(dyad, layer)
      case None => Success(None)
      case Some(cid) =>
        var raw :- storage.Lookup(cid);
        var doc :- ParseDocumentSpec(raw);
        Success(Some(doc))
    }

    /** `createDyad`: the new document is stored, and the current-epoch entry
        for its dyad and layer is set to its content id. */
    method CreateDyad(a: EntityDescriptor, b: EntityDescriptor, layer: Layer, preamble: Option<string>, now: string)
      returns (r: Result<(Document, string), HarpError>)
      modifies this, storage
      ensures CreateDocumentSpec(storage.hash, a, b, layer, preamble, now).Failure? ==>
        && r == Failure(CreateDocumentSpec(storage.hash, a, b, layer, preamble, now).error)
        && pointers == old(pointers) && storage.contents == old(storage.contents)
      ensures CreateDocumentSpec(storage.hash, a, b, layer, preamble, now).Success? ==>
        var doc := CreateDocumentSpec(storage.hash, a, b, layer, preamble, now).value;
        var cid := ContentId(storage.hash, doc.raw);
        && r == Success((doc, cid))
        && storage.contents == old(storage.contents)[cid := doc.raw]
        && pointers == old(pointers)[PointerKey(doc.frontmatter.dyad, layer) := cid]
      ensures storage.pinned == old(storage.pinned)
    {
      var created := CreateDocument(storage.hash, a, b, layer, preamble, now);
      if created.Failure? {
        return Failure(created.error);
      }
      var cid := StoreCreated(created.value, layer);
      // `doc.raw = serialized` changes nothing: the new document's raw text
      // already is its serialization.
      r := Success((created.value, cid));
    }

    /** The second half of `createDyad`, once the document has been created:
        store its text and point its dyad and layer at it. */
    method StoreCreated(doc: Document, layer: Layer) returns (cid: string)
      requires doc.raw == DocumentText(doc, storage.hash)
      modifies this, storage
      ensures cid == ContentId(storage.hash, doc.raw)
      ensures storage.contents == old(storage.contents)[cid := doc.raw]
      ensures pointers == old(pointers)[PointerKey(doc.frontmatter.dyad, layer) := cid]
      ensures storage.pinned == old(storage.pinned)
    {
      var serialized := SerializeDocument(doc, storage.hash);
      cid := storage.Store(serialized);
      pointers := pointers[PointerKey(doc.frontmatter.dyad, layer) := cid];
    }

    /** A dyad just stored reads back: its pointer names the stored text,
        which holds the document's own text. `CreateDocumentSpec` promises
        that the raw text of a created document is its serialization. */
    lemma CreatedDyadIsStored(hash: Hasher, layer: Layer, doc: Document, cid: string)
      requires doc.raw == DocumentText(doc, hash)
      requires cid == ContentId(hash, doc.raw)
      requires PointerKey(doc.frontmatter.dyad, layer) in pointers && pointers[PointerKey(doc.frontmatter.dyad, layer)] == cid
      requires cid in storage.contents && storage.contents[cid] == doc.raw
      ensures Pointer(doc.frontmatter.dyad, layer) == Some(cid)
      ensures storage.Lookup(cid) == Success(DocumentText(doc, hash))
    {
      assert |doc.raw| > 0 by {
        assert |DocumentText(doc, hash)| >= 3;
      }
    }

    /** `getDyad` */
    method GetDyad(dyad: string, layer: Layer) returns (r: Result<Option<Document>, HarpError>)
      ensures r == DyadView(dyad, layer)
    {
      var key := PointerKey(dyad, layer);
      if key !in pointers || pointers[key] == "" {
        return Success(None);
      }
      var raw := storage.Retrieve(pointers[key]);
      if raw.Failure? {
        return Failure(raw.error);
      }
      var doc := ParseDocument(raw.value);
      if doc.Failure? {
        return Failure(doc.error);
      }
      return Success(Some(doc.value));
    }

    /** `addSectionToDyad`: the next epoch of the current document, with the
        section added, is stored, and its pointer moves to it. */
    method AddSectionToDyad(dyad: string, layer: Layer, section: Section, now: string)
      returns (r: Result<(Document, string), HarpError>)
      modifies this, storage
      ensures old(DyadView(dyad, layer)) == Success(None) ==>
        r == Failure(DyadNotFound(dyad, layer)) && pointers == old(pointers) && storage.contents == old(storage.contents)
      ensures old(DyadView(dyad, layer)).Failure? ==>
        r == Failure(old(DyadView(dyad, layer)).error) && pointers == old(pointers) && storage.contents == old(storage.contents)
      ensures old(DyadView(dyad, layer)).Success? && old(DyadView(dyad, layer)).value.Some? ==>
        var next := NextEpochStored(old(DyadView(dyad, layer)).value.value, old(Pointer(dyad, layer)).value,
                                    section, now, storage.hash);
        && r == Success(next)
        && storage.contents == old(storage.contents)[next.1 := next.0.raw]
        && pointers == old(pointers)[PointerKey(dyad, layer) := next.1]
      ensures storage.pinned == old(storage.pinned)
    {
      var current := GetDyad(dyad, layer);
      if current.Failure? {
        return Failure(current.error);
      }
      if current.value.None? {
        return Failure(DyadNotFound(dyad, layer));
      }
      r := StoreNextEpoch(PointerKey(dyad, layer), current.value.value, section, now);
    }

    /** The second half of `addSectionToDyad`, once the current document has
        been read: store its next epoch and move its pointer to it. */
    method StoreNextEpoch(key: string, current: Document, section: Section, now: string)
      returns (r: Result<(Document, string), HarpError>)
      requires key in pointers
      modifies this, storage
      ensures var next := NextEpochStored(current, old(pointers[key]), section, now, storage.hash);
        && r == Success(next)
        && storage.contents == old(storage.contents)[next.1 := next.0.raw]
        && pointers == old(pointers)[key := next.1]
      ensures storage.pinned == old(storage.pinned)
    {
      var previousCid := pointers[key];
      var next := WriteNextEpoch(current, previousCid, section, now);
      var newCid := storage.Store(next.0.raw);
      pointers := pointers[key := newCid];
      return Success((next.0, newCid));
    }

    /** `addSection`, `createNextEpoch` and `serializeDocument` on the current
        document: the next epoch and its text, not yet stored. */
    method WriteNextEpoch(current: Document, previousCid: string, section: Section, now: string)
      returns (next: (Document, string))
      ensures next == NextEpochStored(current, previousCid, section, now, storage.hash)
    {
      var updated := AddSection(current, section);
      updated := CreateNextEpoch(updated, previousCid, now);
      var serialized := SerializeDocument(updated, storage.hash);
      updated := updated.(raw := serialized);
      next := (updated, ContentId(storage.hash, serialized));
    }

    /** `querySections`: no sections for a dyad that does not exist. */
    method QuerySections(dyad: string, layer: Layer, filter: SectionFilter, parse: DateParser)
      returns (r: Result<seq<Section>, HarpError>)
      ensures DyadView(dyad, layer) == Success(None) ==> r == Success([])
      ensures DyadView(dyad, layer).Failure? ==> r == Failure(DyadView(dyad, layer).error)
      ensures DyadView(dyad, layer).Success? && DyadView(dyad, layer).value.Some? ==>
        r == Success(FilterSections(DyadView(dyad, layer).value.value, filter, parse))
    {
      var doc := GetDyad(dyad, layer);
      if doc.Failure? {
        return Failure(doc.error);
      }
      if doc.value.None? {
        return Success([]);
      }
      return Success(FilterSections(doc.value.value, filter, parse));
    }

    /** `getTrustScore`: none for a dyad that does not exist. */
    method GetTrustScore(dyad: string, layer: Layer, now: string) returns (r: Result<Option<DerivedScore>, HarpError>)
      ensures DyadView(dyad, layer) == Success(None) ==> r == Success(None)
      ensures DyadView(dyad, layer).Failure? ==> r == Failure(DyadView(dyad, layer).error)
      ensures DyadView(dyad, layer).Success? && DyadView(dyad, layer).value.Some? ==>
        var doc := DyadView(dyad, layer).value.value;
        && r.Success? && r.value.Some?
        && r.value.value.score == TrustScore(doc.sections)
        && r.value.value.factors == FactorsOf(doc.sections)
        && r.value.value.sourceEpoch == doc.frontmatter.epoch
        && r.value.value.sourceSections == SourceLines(doc.sections)
        && r.value.value.algorithm == "trust_simple_v1"
        && r.value.value.computedAt == now
    {
      var doc := GetDyad(dyad, layer);
      if doc.Failure? {
        return Failure(doc.error);
      }
      if doc.value.None? {
        return Success(None);
      }
      var score := DeriveTrustScore(doc.value.value, now);
      return Success(Some(score));
    }

    /** `getCollaborationReadiness`: none for a dyad that does not exist. */
    method GetCollaborationReadiness(dyad: string, layer: Layer) returns (r: Result<Option<CollaborationReadiness>, HarpError>)
      ensures DyadView(dyad, layer) == Success(None) ==> r == Success(None)
      ensures DyadView(dyad, layer).Failure? ==> r == Failure(DyadView(dyad, layer).error)
      ensures DyadView(dyad, layer).Success? && DyadView(dyad, layer).value.Some? ==>
        r == Success(Some(AssessCollaborationReadiness(DyadView(dyad, layer).value.value)))
    {
      var doc := GetDyad(dyad, layer);
      if doc.Failure? {
        return Failure(doc.error);
      }
      if doc.value.None? {
        return Success(None);
      }
      return Success(Some(AssessCollaborationReadiness(doc.value.value)));
    }

    /** `createProposal`: from the client's own identity. */
    method CreateProposalTo(to: string, context: Option<string>, now: string) returns (r: Result<HarpProposal, HarpError>)
      ensures r.Success? <==> Identity.ComputeDyadId(entityId, to).Success?
      ensures r.Success? ==> r.value.dyad == Identity.ComputeDyadId(entityId, to).value
      ensures r == CreateProposal(entityId, to, context, now)
    {
      r := CreateProposal(entityId, to, context, now);
    }

    /** `createHandoffContext`: none without a pointer; the relevant section
        lines only when types are asked for and the document reads back. */
    method CreateHandoffContext(dyad: string, layer: Layer, types: Option<seq<string>>)
      returns (r: Result<Option<HarpContextAttachment>, HarpError>)
      ensures Pointer(dyad, layer).None? ==> r == Success(None)
      ensures Pointer(dyad, layer).Some? && (types.None? || |types.value| == 0) ==>
        r == Success(Some(HarpContextAttachment(dyad, layer, Pointer(dyad, layer).value, None)))
      ensures Pointer(dyad, layer).Some? && types.Some? && |types.value| > 0 ==>
        match DyadView(dyad, layer)
        case Failure(e) => r == Failure(e)
        case Success(None) => r == Success(Some(HarpContextAttachment(dyad, layer, Pointer(dyad, layer).value, None)))
        case Success(Some(doc)) =>
          r == Success(Some(HarpContextAttachment(dyad, layer, Pointer(dyad, layer).value,
                                                  Some(RelevantLines(doc.sections, types.value)))))
    {
      var key := PointerKey(dyad, layer);
      if key !in pointers || pointers[key] == "" {
        return Success(None);
      }
      var cid := pointers[key];
      var relevant: Option<seq<string>> := None;
      if types.Some? && |types.value| > 0 {
        var doc := GetDyad(dyad, layer);
        if doc.Failure? {
          return Failure(doc.error);
        }
        if doc.value.Some? {
          relevant := Some(RelevantLines(doc.value.value.sections, types.value));
        }
      }
      return Success(Some(CreateContextAttachment(dyad, layer, cid, relevant)));
    }
  }
}
