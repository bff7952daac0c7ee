/** Reading back the frontmatter `serializeDocument` writes (src/harp.ts:363-397)
    with the dialect of `parseFrontmatterYaml` and the record `parseDocument`
    builds from it (src/harp.ts:199-211). The scalar fields come back; the
    entity and signature lists do not, because their nested `key: value`
    lines are read as plain strings or skipped. */
module FrontmatterRead {
  import opened Wrappers
  import opened Strings
  import opened Yaml
  import opened YamlLines
  import opened Types
  import opened Serialize
  import opened Parse

  // ---------------------------------------------------------------------------
  // One written line at a time

  lemma QuotedUnpadded(s: string)
    ensures Unpadded(Quoted(s))
  {
  }

  lemma IntStringUnpadded(n: int)
    ensures Unpadded(IntString(n))
  {
    var r := IntString(n);
    if n < 0 {
      assert r[1..] == NatString(-n);
      assert r[|r| - 1] == r[1..][|r| - 2];
    }
  }

  // ---------------------------------------------------------------------------
  // The entity and signature lists

  /** Keys of the nested lines under `entities` and `signatures`. */
  predicate ListKeysUnknown(known: Knowledge) {
    && "type" !in known && "name" !in known && "erc8004" !in known
    && "chainId" !in known && "agentId" !in known && "sig" !in known && "scheme" !in known
  }

  /** How each line of an entity is spelled. */
  lemma IdSpelled(v: string)
    requires Unpadded(v)
    ensures ItemShape("  - id: " + v, "  ", "id: " + v)
  {
  }

  lemma TypeSpelled(v: string)
    requires Unpadded(v)
    ensures KeyShape("    type: " + v, "    ", "type", v)
  {
  }

  lemma NameSpelled(v: string)
    requires Unpadded(v)
    ensures KeyShape("    name: " + v, "    ", "name", v)
  {
  }

  lemma ErcSpelled()
    ensures OpenShape("    erc8004:", "    ", "erc8004")
  {
  }

  lemma ChainIdSpelled(v: string)
    requires Unpadded(v)
    ensures KeyShape("      chainId: " + v, "      ", "chainId", v)
  {
  }

  lemma AgentIdSpelled(v: string)
    requires Unpadded(v)
    ensures KeyShape("      agentId: " + v, "      ", "agentId", v)
  {
  }

  /** How the lines of one entity are spelled. */
  lemma EntityShapes(e: EntityEntry)
    ensures ItemShape("  - id: " + Quoted(EntityId(e)), "  ", "id: " + Quoted(EntityId(e)))
    ensures KeyShape("    type: " + Quoted(EntityTypeText(e)), "    ", "type", Quoted(EntityTypeText(e)))
    ensures Given(EntityName(e)) ==>
      KeyShape("    name: " + Quoted(EntityName(e).value), "    ", "name", Quoted(EntityName(e).value))
    ensures OpenShape("    erc8004:", "    ", "erc8004")
    ensures EntityErc8004(e).Some? ==>
      var erc := EntityErc8004(e).value;
      && KeyShape("      chainId: " + IntString(erc.chainId), "      ", "chainId", IntString(erc.chainId))
      && KeyShape("      agentId: " + IntString(erc.agentId), "      ", "agentId", IntString(erc.agentId))
  {
    var id := Quoted(EntityId(e));
    assert Unpadded(id) && "id: " + id == "id: " + id;
    assert Unpadded("id: " + id) by {
      var t := "id: " + id;
      assert t[0] == 'i' && t[|t| - 1] == '"';
    }
    IdSpelled(id);
    QuotedUnpadded(EntityTypeText(e));
    TypeSpelled(Quoted(EntityTypeText(e)));
    if Given(EntityName(e)) {
      QuotedUnpadded(EntityName(e).value);
      NameSpelled(Quoted(EntityName(e).value));
    }
    ErcSpelled();
    if EntityErc8004(e).Some? {
      var erc := EntityErc8004(e).value;
      IntStringUnpadded(erc.chainId);
      ChainIdSpelled(IntString(erc.chainId));
      IntStringUnpadded(erc.agentId);
      AgentIdSpelled(IntString(erc.agentId));
    }
  }

  lemma EntityItemRead(pre: seq<string>, e: EntityEntry, known: Knowledge)
    requires Reads(ParseLines(pre), known) && ListKeysUnknown(known)
    ensures Reads(ParseLines(EntityItem(pre, e)), known)
  {
    EntityShapes(e);
    var id, typeText := Quoted(EntityId(e)), Quoted(EntityTypeText(e));
    var l1 := pre + ["  - id: " + id];
    ItemOf(pre, "  - id: " + id, "  ", "id: " + id, known);
    var l2 := l1 + ["    type: " + typeText];
    OtherLine(l1, "    type: " + typeText, "    ", "type", typeText, known);
    var l3 := if Given(EntityName(e)) then l2 + ["    name: " + Quoted(EntityName(e).value)] else l2;
    if Given(EntityName(e)) {
      var name := Quoted(EntityName(e).value);
      OtherLine(l2, "    name: " + name, "    ", "name", name, known);
    }
    if EntityErc8004(e).Some? {
      ErcRead(l3, EntityErc8004(e).value, known);
    }
  }

  /** The `erc8004` block of an entity. */
  lemma ErcRead(pre: seq<string>, erc: Erc8004Metadata, known: Knowledge)
    requires Reads(ParseLines(pre), known) && ListKeysUnknown(known)
    requires KeyShape("      chainId: " + IntString(erc.chainId), "      ", "chainId", IntString(erc.chainId))
    requires KeyShape("      agentId: " + IntString(erc.agentId), "      ", "agentId", IntString(erc.agentId))
    requires OpenShape("    erc8004:", "    ", "erc8004")
    ensures Reads(ParseLines(pre + ["    erc8004:"] + ["      chainId: " + IntString(erc.chainId)]
                                  + ["      agentId: " + IntString(erc.agentId)]), known)
  {
    var chainId, agentId := IntString(erc.chainId), IntString(erc.agentId);
    var l4 := pre + ["    erc8004:"];
    OpenKeyLine(pre, "    erc8004:", "    ", "erc8004", known);
    var l5 := l4 + ["      chainId: " + chainId];
    OtherLine(l4, "      chainId: " + chainId, "      ", "chainId", chainId, known);
    OtherLine(l5, "      agentId: " + agentId, "      ", "agentId", agentId, known);
  }

  lemma {:induction false} EntitiesRead(pre: seq<string>, es: seq<EntityEntry>, known: Knowledge)
    requires Reads(ParseLines(pre), known) && ListKeysUnknown(known)
    ensures Reads(ParseLines(EntitiesFrom(pre, es)), known)
  {
    if |es| > 0 {
      EntitiesRead(pre, es[..|es| - 1], known);
      EntityItemRead(EntitiesFrom(pre, es[..|es| - 1]), es[|es| - 1], known);
    }
  }

  /** How the lines of one signature are spelled. */
  lemma SignatureShapes(entity: string, sig: string, scheme: string)
    ensures ItemShape("  - entity: " + Quoted(entity), "  ", "entity: " + Quoted(entity))
    ensures KeyShape("    sig: " + Quoted(sig), "    ", "sig", Quoted(sig))
    ensures KeyShape("    scheme: " + Quoted(scheme), "    ", "scheme", Quoted(scheme))
  {
    QuotedUnpadded(sig);
    QuotedUnpadded(scheme);
  }

  lemma SignatureItemRead(pre: seq<string>, s: SignatureEntry, known: Knowledge)
    requires Reads(ParseLines(pre), known) && ListKeysUnknown(known)
    ensures Reads(ParseLines(SignatureItem(pre, s)), known)
  {
    var (entity, sig, scheme) := SignatureFields(s);
    SignatureShapes(entity, sig, scheme);
    var e, g, h := Quoted(entity), Quoted(sig), Quoted(scheme);
    var l1 := pre + ["  - entity: " + e];
    ItemOf(pre, "  - entity: " + e, "  ", "entity: " + e, known);
    var l2 := l1 + ["    sig: " + g];
    OtherLine(l1, "    sig: " + g, "    ", "sig", g, known);
    OtherLine(l2, "    scheme: " + h, "    ", "scheme", h, known);
  }

  lemma {:induction false} SignaturesRead(pre: seq<string>, ss: seq<SignatureEntry>, known: Knowledge)
    requires Reads(ParseLines(pre), known) && ListKeysUnknown(known)
    ensures Reads(ParseLines(SignaturesFrom(pre, ss)), known)
  {
    if |ss| > 0 {
      SignaturesRead(pre, ss[..|ss| - 1], known);
      SignatureItemRead(SignaturesFrom(pre, ss[..|ss| - 1]), ss[|ss| - 1], known);
    }
  }

  lemma SignaturesOpenShape()
    ensures OpenShape("signatures:", "", "signatures")
  {
  }

  lemma SignatureBlockRead(pre: seq<string>, signatures: Option<seq<SignatureEntry>>, known: Knowledge)
    requires Reads(ParseLines(pre), known) && ListKeysUnknown(known)
    requires "signatures" !in known
    ensures Reads(ParseLines(SignatureBlock(pre, signatures)), known)
  {
    if signatures.Some? && |signatures.value| > 0 {
      SignaturesOpenShape();
      OpenKeyLine(pre, "signatures:", "", "signatures", known);
      SignaturesRead(pre + ["signatures:"], signatures.value, known);
    }
  }

  // ---------------------------------------------------------------------------
  // The whole frontmatter

  /** What the reader stores for the scalar fields the writer puts before
      the entity list. */
  function HeaderKnown(fm: Frontmatter): Knowledge {
    map[]
      ["harp" := Some(YStr(fm.harp))]
      ["dyad" := Some(YStr(fm.dyad))]
      ["epoch" := Some(ParseYamlValue(IntString(fm.epoch)))]
      ["created" := Some(YStr(fm.created))]
      ["updated" := Some(YStr(fm.updated))]
      ["previous" := Some(if Given(fm.previous) then YStr(fm.previous.value) else YNull)]
      ["layer" := Some(YStr(LayerName(fm.layer)))]
  }

  /** The same, one key at a time. */
  lemma HeaderKnownSteps(fm: Frontmatter)
    ensures var k0: Knowledge := map[];
      HeaderKnown(fm) == k0["harp" := Some(YStr(fm.harp))]["dyad" := Some(YStr(fm.dyad))]
        ["epoch" := Some(ParseYamlValue(IntString(fm.epoch)))]["created" := Some(YStr(fm.created))]
        ["updated" := Some(YStr(fm.updated))]["previous" := Some(if Given(fm.previous) then YStr(fm.previous.value) else YNull)]
        ["layer" := Some(YStr(LayerName(fm.layer)))]
  {
  }

  /** The keys of the nested lines, of the list openers and of the
      signature block are none of the header's. */
  lemma HeaderKeys(fm: Frontmatter, checksum: string)
    ensures ListKeysUnknown(HeaderKnown(fm)) && "entities" !in HeaderKnown(fm)
    ensures var known := HeaderKnown(fm)["checksum" := Some(YStr(checksum))];
      ListKeysUnknown(known) && "signatures" !in known
  {
  }

  /** How each line before the entity list is spelled. */
  lemma HarpSpelled(v: string)
    requires Unpadded(v)
    ensures KeyShape("harp: " + v, "", "harp", v)
  {
  }

  lemma DyadSpelled(v: string)
    requires Unpadded(v)
    ensures KeyShape("dyad: " + v, "", "dyad", v)
  {
  }

  lemma EpochSpelled(v: string)
    requires Unpadded(v)
    ensures KeyShape("epoch: " + v, "", "epoch", v)
  {
  }

  lemma CreatedSpelled(v: string)
    requires Unpadded(v)
    ensures KeyShape("created: " + v, "", "created", v)
  {
  }

  lemma UpdatedSpelled(v: string)
    requires Unpadded(v)
    ensures KeyShape("updated: " + v, "", "updated", v)
  {
  }

  lemma PreviousSpelled(v: string)
    requires Unpadded(v)
    ensures KeyShape("previous: " + v, "", "previous", v)
  {
  }

  lemma LayerSpelled(v: string)
    requires Unpadded(v)
    ensures KeyShape("layer: " + v, "", "layer", v)
  {
  }

  lemma EntitiesSpelled()
    ensures OpenShape("entities:", "", "entities")
  {
  }

  /** How the lines before the entity list are spelled. */
  lemma HeaderShapes(fm: Frontmatter)
    ensures var h := HeaderLines(fm);
      && KeyShape(h[1], "", "harp", Quoted(fm.harp))
      && KeyShape(h[2], "", "dyad", Quoted(fm.dyad))
      && KeyShape(h[3], "", "epoch", IntString(fm.epoch))
      && KeyShape(h[4], "", "created", Quoted(fm.created))
      && KeyShape(h[5], "", "updated", Quoted(fm.updated))
      && KeyShape(h[6], "", "previous", if Given(fm.previous) then Quoted(fm.previous.value) else "null")
      && KeyShape(h[7], "", "layer", Quoted(LayerName(fm.layer)))
      && OpenShape(h[8], "", "entities")
  {
    QuotedUnpadded(fm.harp);
    HarpSpelled(Quoted(fm.harp));
    QuotedUnpadded(fm.dyad);
    DyadSpelled(Quoted(fm.dyad));
    IntStringUnpadded(fm.epoch);
    EpochSpelled(IntString(fm.epoch));
    QuotedUnpadded(fm.created);
    CreatedSpelled(Quoted(fm.created));
    QuotedUnpadded(fm.updated);
    UpdatedSpelled(Quoted(fm.updated));
    if Given(fm.previous) {
      QuotedUnpadded(fm.previous.value);
      PreviousSpelled(Quoted(fm.previous.value));
    } else {
      PreviousSpelled("null");
    }
    QuotedUnpadded(LayerName(fm.layer));
    LayerSpelled(Quoted(LayerName(fm.layer)));
    EntitiesSpelled();
  }

  /** How each header value decodes. */
  lemma HeaderValues(fm: Frontmatter)
    ensures ParseYamlValue(Quoted(fm.harp)) == YStr(fm.harp)
    ensures ParseYamlValue(Quoted(fm.dyad)) == YStr(fm.dyad)
    ensures ParseYamlValue(Quoted(fm.created)) == YStr(fm.created)
    ensures ParseYamlValue(Quoted(fm.updated)) == YStr(fm.updated)
    ensures ParseYamlValue(if Given(fm.previous) then Quoted(fm.previous.value) else "null")
         == if Given(fm.previous) then YStr(fm.previous.value) else YNull
    ensures ParseYamlValue(Quoted(LayerName(fm.layer))) == YStr(LayerName(fm.layer))
  {
    QuotedScalar(fm.harp);
    QuotedScalar(fm.dyad);
    QuotedScalar(fm.created);
    QuotedScalar(fm.updated);
    if Given(fm.previous) {
      QuotedScalar(fm.previous.value);
    }
    QuotedScalar(LayerName(fm.layer));
  }

  /** The lines before the entity list, one by one. */
  lemma HeaderListed(fm: Frontmatter)
    ensures var h := HeaderLines(fm);
      [""] + h[1..] == [""] + [h[1]] + [h[2]] + [h[3]] + [h[4]] + [h[5]] + [h[6]] + [h[7]] + [h[8]]
  {
  }

  /** The lines before the entity list, read from an empty line. */
  lemma HeaderRead(fm: Frontmatter)
    ensures Reads(ParseLines([""] + HeaderLines(fm)[1..]), HeaderKnown(fm))
  {
    var h := HeaderLines(fm);
    HeaderShapes(fm);
    HeaderValues(fm);
    HeaderListed(fm);
    var previous := if Given(fm.previous) then Quoted(fm.previous.value) else "null";
    var p0: seq<string> := [""];
    EmptyFirst();
    KnownAtStart();
    var k0: Knowledge := map[];
    SetLine(p0, h[1], "harp", Quoted(fm.harp), YStr(fm.harp), k0);
    var k1 := k0["harp" := Some(YStr(fm.harp))];
    SetLine(p0 + [h[1]], h[2], "dyad", Quoted(fm.dyad), YStr(fm.dyad), k1);
    var k2 := k1["dyad" := Some(YStr(fm.dyad))];
    var epoch := ParseYamlValue(IntString(fm.epoch));
    SetLine(p0 + [h[1]] + [h[2]], h[3], "epoch", IntString(fm.epoch), epoch, k2);
    var k3 := k2["epoch" := Some(epoch)];
    SetLine(p0 + [h[1]] + [h[2]] + [h[3]], h[4], "created", Quoted(fm.created), YStr(fm.created), k3);
    var k4 := k3["created" := Some(YStr(fm.created))];
    SetLine(p0 + [h[1]] + [h[2]] + [h[3]] + [h[4]], h[5], "updated", Quoted(fm.updated), YStr(fm.updated), k4);
    var k5 := k4["updated" := Some(YStr(fm.updated))];
    var p5 := p0 + [h[1]] + [h[2]] + [h[3]] + [h[4]] + [h[5]];
    var prev := if Given(fm.previous) then YStr(fm.previous.value) else YNull;
    SetLine(p5, h[6], "previous", previous, prev, k5);
    var k6 := k5["previous" := Some(prev)];
    SetLine(p5 + [h[6]], h[7], "layer", Quoted(LayerName(fm.layer)), YStr(LayerName(fm.layer)), k6);
    var k7 := k6["layer" := Some(YStr(LayerName(fm.layer)))];
    HeaderKnownSteps(fm);
    HeaderKeys(fm, "");
    OpenKeyLine(p5 + [h[6]] + [h[7]], h[8], "", "entities", k7);
  }

  /** The frontmatter lines as the reader sees them once the text between
      the delimiters is split on line breaks: an empty first and last line. */
  function ReadLines(fm: Frontmatter, checksum: string): seq<string> {
    SignatureBlock(EntitiesFrom([""] + HeaderLines(fm)[1..], fm.entities) + ["checksum: " + Quoted(checksum)], fm.signatures)
    + [""]
  }

  /** How the checksum line is spelled and what its value decodes to. */
  lemma ChecksumSpelled(checksum: string)
    ensures KeyShape("checksum: " + Quoted(checksum), "", "checksum", Quoted(checksum))
    ensures ParseYamlValue(Quoted(checksum)) == YStr(checksum) && Quoted(checksum) != "|"
  {
    QuotedScalar(checksum);
    QuotedUnpadded(checksum);
  }

  /** What the reader stores for the written frontmatter's scalar fields:
      each quoted field as its text, the epoch as its rendered number, an
      unset or empty `previous` as `null`, and the checksum last. */
  lemma {:induction false} FrontmatterLinesRead(fm: Frontmatter, checksum: string)
    ensures var st := ParseLines(ReadLines(fm, checksum));
      Known(st, HeaderKnown(fm)["checksum" := Some(YStr(checksum))])
  {
    var known := HeaderKnown(fm);
    var pre := [""] + HeaderLines(fm)[1..];
    HeaderRead(fm);
    HeaderKeys(fm, checksum);
    EntitiesRead(pre, fm.entities, known);
    var e := EntitiesFrom(pre, fm.entities);
    ChecksumSpelled(checksum);
    SetLine(e, "checksum: " + Quoted(checksum), "checksum", Quoted(checksum), YStr(checksum), known);
    var known' := known["checksum" := Some(YStr(checksum))];
    var block := SignatureBlock(e + ["checksum: " + Quoted(checksum)], fm.signatures);
    SignatureBlockRead(e + ["checksum: " + Quoted(checksum)], fm.signatures, known');
    EmptyLast(block, known');
  }

  /** `Number` of a rendered integer, as the dialect decodes it, is the
      integer: digits become a number, and a leading minus keeps the text,
      which `Number` reads. */
  lemma EpochReadsBack(n: int)
    ensures NumberOfValue(ParseYamlValue(IntString(n))) == Some(n)
    ensures !ParseYamlValue(IntString(n)).YNull?
  {
    var r := IntString(n);
    if n >= 0 {
      DigitsValueOfNatString(n);
    } else {
      var digits := NatString(-n);
      assert r == "-" + digits && r[1..] == digits;
      assert !AllDigits(r) && LeadingDigits(r) == 0 && !IsQuoted(r);
      assert ParseYamlValue(r) == YStr(r);
      IntStringUnpadded(n);
      TrimOfUnpadded(r);
      assert LeadingDigits(digits) == |digits| && digits[..|digits|] == digits;
      DigitsValueOfNatString(-n);
    }
  }

  /** What the stored map holds under each scalar key. */
  predicate Stored(y: map<string, YamlValue>, fm: Frontmatter, checksum: string) {
    && "harp" in y && y["harp"] == YStr(fm.harp)
    && "dyad" in y && y["dyad"] == YStr(fm.dyad)
    && "epoch" in y && y["epoch"] == ParseYamlValue(IntString(fm.epoch))
    && "created" in y && y["created"] == YStr(fm.created)
    && "updated" in y && y["updated"] == YStr(fm.updated)
    && "previous" in y && y["previous"] == (if Given(fm.previous) then YStr(fm.previous.value) else YNull)
    && "layer" in y && y["layer"] == YStr(LayerName(fm.layer))
    && "checksum" in y && y["checksum"] == YStr(checksum)
  }

  /** Knowing the header and the checksum is knowing the stored map. */
  lemma KnownStored(st: ParserState, fm: Frontmatter, checksum: string)
    requires Known(st, HeaderKnown(fm)["checksum" := Some(YStr(checksum))])
    ensures Stored(st.result, fm, checksum)
  {
    KnownFirst(HeaderKnown(fm)["checksum" := Some(YStr(checksum))], fm, checksum);
    KnownLast(HeaderKnown(fm)["checksum" := Some(YStr(checksum))], fm, checksum);
  }

  lemma KnownFirst(known: Knowledge, fm: Frontmatter, checksum: string)
    requires known == HeaderKnown(fm)["checksum" := Some(YStr(checksum))]
    ensures "harp" in known && known["harp"] == Some(YStr(fm.harp))
    ensures "dyad" in known && known["dyad"] == Some(YStr(fm.dyad))
    ensures "epoch" in known && known["epoch"] == Some(ParseYamlValue(IntString(fm.epoch)))
    ensures "created" in known && known["created"] == Some(YStr(fm.created))
  {
  }

  lemma KnownLast(known: Knowledge, fm: Frontmatter, checksum: string)
    requires known == HeaderKnown(fm)["checksum" := Some(YStr(checksum))]
    ensures "updated" in known && known["updated"] == Some(YStr(fm.updated))
    ensures "previous" in known
      && known["previous"] == Some(if Given(fm.previous) then YStr(fm.previous.value) else YNull)
    ensures "layer" in known && known["layer"] == Some(YStr(LayerName(fm.layer)))
    ensures "checksum" in known && known["checksum"] == Some(YStr(checksum))
  {
  }

  /** The record built from the stored map. */
  lemma FrontmatterOfStored(y: map<string, YamlValue>, fm: Frontmatter, checksum: string)
    requires Stored(y, fm, checksum)
    ensures var r := FrontmatterFromYaml(y);
      && r.Success?
      && r.value.harp == fm.harp && r.value.dyad == fm.dyad && r.value.epoch == fm.epoch
      && r.value.created == fm.created && r.value.updated == fm.updated
      && r.value.previous == (if Given(fm.previous) then fm.previous else None)
      && r.value.layer == fm.layer && r.value.checksum == checksum
  {
    StoredNumbers(y, fm, checksum);
    StoredTexts(y, fm, checksum);
  }

  /** The epoch and the layer read from the stored map. */
  lemma StoredNumbers(y: map<string, YamlValue>, fm: Frontmatter, checksum: string)
    requires Stored(y, fm, checksum)
    ensures EpochField(y) == Some(fm.epoch) && LayerField(y) == Some(fm.layer)
  {
    EpochReadsBack(fm.epoch);
    assert LayerOf(LayerName(fm.layer)) == Some(fm.layer) by {
      match fm.layer
      case Public =>
      case Shared =>
      case Private =>
    }
  }

  /** The text fields read from the stored map. */
  lemma StoredTexts(y: map<string, YamlValue>, fm: Frontmatter, checksum: string)
    requires Stored(y, fm, checksum)
    ensures StringField(y, "harp", HarpVersion) == fm.harp && StringField(y, "dyad", "") == fm.dyad
    ensures StringField(y, "created", "") == fm.created && StringField(y, "updated", "") == fm.updated
    ensures StringField(y, "checksum", "") == checksum
    ensures ("previous" in y && Truthy(y["previous"])) == Given(fm.previous)
    ensures Given(fm.previous) ==> JsString(y["previous"]) == fm.previous.value
  {
  }

  /** The written frontmatter reads back: the record is built, with the
      version, dyad, epoch, dates, layer and the written checksum it was
      written with, and `previous` when it was set and not empty. */
  lemma FrontmatterReadsBack(fm: Frontmatter, checksum: string)
    ensures var r := FrontmatterFromYaml(ParseLines(ReadLines(fm, checksum)).result);
      && r.Success?
      && r.value.harp == fm.harp && r.value.dyad == fm.dyad && r.value.epoch == fm.epoch
      && r.value.created == fm.created && r.value.updated == fm.updated
      && r.value.previous == (if Given(fm.previous) then fm.previous else None)
      && r.value.layer == fm.layer && r.value.checksum == checksum
  {
    FrontmatterLinesRead(fm, checksum);
    KnownStored(ParseLines(ReadLines(fm, checksum)), fm, checksum);
    FrontmatterOfStored(ParseLines(ReadLines(fm, checksum)).result, fm, checksum);
  }
}
