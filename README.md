# HARP in Dafny

A verified model of the core of HARP, the Human/Agent Relational Protocol: a
markdown document format that records the shared context of a dyad (two
entities, human or agent). A document has YAML frontmatter between `---`
delimiters (version, dyad id, epoch, previous epoch's content id, layer,
the two entities, a SHA-256 checksum of the body, signatures), a preamble,
and typed sections `## Type: Title`, each with an optional
`<!-- harp:meta ... -->` block. The model covers:

- entity id normalisation and canonical dyad ids (`identity.dfy`);
- the lightweight frontmatter YAML reader (`yaml.dfy`), the section heading
  pattern and the meta block pattern (`headings.dfy`), and `parseDocument`
  (`parse.dfy`);
- the writers `serializeSectionMeta`, `serializeSection`,
  `serializeDocument` and `computeChecksum` (`serialize.dfy`);
- document creation, epochs, sections and section filtering
  (`documents.dfy`);
- the trust score and the collaboration readiness (`scoring.dfy`);
- the AIRC message payloads (`payloads.dfy`);
- the in-memory content-addressed store (`storage.dfy`) and the client that
  keeps a pointer per dyad and layer (`client.dfy`);
- the platform adapters: the event record (`events.dfy`), the MoltX bounty
  adapter (`moltx.dfy`), the AIRC messaging adapter (`airc.dfy`), and the
  adapter registry (`adapters.dfy`).

Four files hold the round trips that tie the writers to the readers:
`body_roundtrip.dfy` (a written body parses back to its sections and
preamble), `doc_roundtrip.dfy` (a written document splits on `---` back
into its frontmatter and body, so that, when no written frontmatter line
holds `---`, the checksum `createDocument` stores is the checksum of the
body it writes, and its frontmatter reads back),
`frontmatter_read.dfy` (the written frontmatter lines read back to the
scalar fields and the checksum) and `meta_roundtrip.dfy` (a written
`<!-- harp:meta -->` block reads back to its one-line fields and
`demonstrated_in`). `yaml_lines.dfy` states what the YAML reader does with
each kind of line the writers produce.

Loops of the source are methods proved against a specification function
(`SerializeDocument`, `ParseChunks`, `ParseDocument`, `DeriveTrustScore`,
`ParseFrontmatterYaml`, the `Push…` line writers). `MemoryStorage`,
`HarpClient` and `AdapterRegistry` are classes whose methods update their
fields. Everything else is a function on values, with lemmas about it.

SHA-256 is a parameter `hash` of type `Hasher`. The clock is a parameter
`now`. The date parser used by `filterSections` is a parameter `parse`.
The source writes `new Date().toISOString()` in these places.

## Model

| member | source | states |
|---|---|---|
| Types.LayerName | src/types.ts:45 | a layer's name is one of `public`, `shared`, `private` |
| Types.LayerOf | src/types.ts:45 | a string is read as a layer exactly when it is one of the three names, and reading a name then naming the layer gives the string back |
| Types.StatusName | src/types.ts:192 | a tension status is written as `resolved`, `ongoing` or `escalated` |
| Types.HexDigest | src/harp.ts:267-270 | the digest is always 64 lowercase hex digits, and it is the hash's own output whenever that output has this shape |
| Identity.NormalizeEntityId | src/harp.ts:60-85 | fails exactly for an unknown namespace or an `erc8004:` id that does not have three fields with integers in both; a valid `erc8004:` id becomes `erc8004:` and its chain and agent ids printed in canonical decimal; an `eth:` id becomes lowercase; an `airc:` handle becomes lowercase and trimmed; each failure carries its own error |
| Identity.NormalizeKeepsNamespace | src/harp.ts:60-85 | normalising keeps the id's namespace |
| Identity.NormalizeIdempotent | src/harp.ts:60-85 | normalising a normalised id gives it back unchanged |
| Identity.ComputeDyadId | src/harp.ts:87-105 | the first id that does not normalise, `entityA` before `entityB`, makes the dyad id fail with that id's own error |
| Identity.DyadIdShape | src/harp.ts:87-105 | a dyad id exists exactly when both ids normalise to different ids; it is `harp:` followed by the two normalised ids in `LexLess` order (character by character, a proper prefix first), the smaller first |
| Identity.DegenerateDyadRejected | src/harp.ts:91-93 | two ids that normalise to the same id give the degenerate-dyad error |
| Identity.DyadIdSymmetric | src/harp.ts:87-105 | the dyad id does not depend on the order of the two entities |
| Strings.ParseIntOfIntString | src/harp.ts:64-69 | `parseInt` of a printed integer gives the integer back, which is why an ERC-8004 id prints in canonical form |
| Strings.LexLessTotal | src/harp.ts:97 | for two different strings, exactly one is smaller in `LexLess`, the model of the string `<` the dyad sort uses (by Unicode scalar value) |
| Strings.LexLessAsymmetric | src/harp.ts:97 | the string order never holds in both directions |
| Yaml.ParseYamlValue | src/harp.ts:158-173 | `null`/`~` is null, `true`/`false` a boolean, a non-empty run of digits an integer with that value, never a list, and a string value is the text with one level of matching quotes removed |
| Yaml.QuotedScalar | src/harp.ts:158-173 | a double-quoted scalar reads back as exactly the text between the quotes |
| Yaml.BareScalar | src/harp.ts:158-173 | a bare word that is not a keyword and not a number reads as itself |
| Yaml.AliasingKept | src/harp.ts:110-156 | at every line, the list under construction is the value stored under the current key, the effect of the source pushing onto an array it already stored in the result |
| Yaml.ParseFrontmatterYaml | src/harp.ts:110-156 | the line loop computes the specification of the reader, `ParseYaml` |
| Headings.TitleOf | src/harp.ts:46 | the title the heading pattern captures, when there is one, is non-empty, has no line terminator and is a suffix of the text after the colon |
| Headings.ColonFrom | src/harp.ts:46 | the colon the lazy type group stops at lies within the leading run of non-space characters, at index 1 or later |
| Headings.HeadingShape | src/harp.ts:46 | a chunk that matches the heading pattern is `## `, a type of non-space characters without a colon, `:`, white space, then the title |
| Headings.HeadingOfSerialized | src/harp.ts:46 | a heading line `## Type: Title` with a well-formed type and title matches with exactly that type and title and with the whole line's length |
| Headings.HeadingThenMoreIsNotHeading | src/harp.ts:46 | a heading followed by a line break and more text does not match, because the pattern has no multi-line flag |
| Headings.NotHeadingStart | src/harp.ts:46 | a chunk that does not start with `## ` is never a heading |
| Headings.NextBoundary | src/harp.ts:215 | finds the first position after `from` that starts a line with `## `, and no other boundary lies before it |
| Headings.SplitChunksCons | src/harp.ts:215 | the split before each line starting with `## ` splits a chunk ending with a blank line off a rest that starts with `## ` |
| Headings.SplitChunksSingle | src/harp.ts:215 | text with no line starting with `## ` after its first character stays one chunk |
| Headings.FindMetaBlock | src/harp.ts:47 | finds the first `<!-- harp:meta` line opener and the first `-->` after it; when it finds none, no opener is followed by a closer |
| Headings.MetaYaml | src/harp.ts:47 | the captured YAML is exactly the text between the first opener and the first closer after it |
| Headings.RemoveMetaBlock | src/harp.ts:240 | removing the meta block deletes exactly the first opener through its closer, and changes nothing when there is no block |
| Headings.MetaBlockAtStart | src/harp.ts:47 | a block written as opener, YAML without `>`, closer is found at the start, with that YAML |
| Parse.ParseSectionMeta | src/harp.ts:175-186 | metadata is read exactly when the text contains a meta block, and never when it lacks the opener |
| Parse.ChunkSection | src/harp.ts:219-249 | a chunk becomes a section exactly when its trimmed text is non-empty and matches the heading pattern; the section has the captured type and title, no metadata, empty content, and the trimmed chunk as its raw text |
| Parse.MatchedSectionIsBare | src/harp.ts:234-248 | because the pattern must match the whole trimmed chunk, the text after the heading is always empty, so a parsed section has no metadata and no content |
| Parse.ChunkPreamble | src/harp.ts:222-227 | a chunk adds to the preamble exactly when it is non-empty after trimming and is not a heading |
| Parse.SectionsOfSnoc | src/harp.ts:219-250 | the sections of a list of chunks are the sections of its prefix followed by those of the last chunk |
| Parse.PreambleOfSnoc | src/harp.ts:219-250 | the preamble text of a list of chunks is the prefix's followed by the last chunk's |
| Parse.ParseChunks | src/harp.ts:219-250 | the chunk loop collects exactly the sections and the untrimmed preamble the specification functions describe |
| Parse.NumberOf | src/harp.ts:203 | `Number` of a non-empty run of decimal digits is the number they spell |
| Parse.FrontmatterFromYaml | src/harp.ts:199-211 | the frontmatter is built exactly when the epoch is an integer and the layer a layer name; the epoch, the layer and the checksum come from the map, with `1`, `public` and `""` as defaults, and `previous` is present exactly when the map's value is truthy |
| Parse.ParseDocumentSpec | src/harp.ts:188-258 | fewer than three `---` pieces is an error; otherwise it fails exactly when the record built from the second piece's YAML fails; on success the frontmatter is that record, the raw text is kept, and the sections and preamble are those of the body after the second delimiter |
| Parse.ParseDocument | src/harp.ts:188-258 | the parser method computes `ParseDocumentSpec` |
| Serialize.ComputeChecksum | src/harp.ts:267-270 | the checksum is `sha256:` followed by the 64 lowercase hex digits of the body's digest |
| Serialize.SerializeSectionMeta | src/harp.ts:275-314 | the meta writer produces the line sequence of `SectionMetaText`, field by field, lists item by item; `MetaRoundTrip.MetaRoundTrip` states what the reader makes of that text |
| Serialize.PushDemonstrated | src/harp.ts:286-291 | the `demonstrated_in` loop appends one quoted item per entry, in order; `MetaRoundTrip.DemonstratedRead` shows the reader gets the entries back from those lines |
| Serialize.PushReferences | src/harp.ts:292-299 | the references loop appends one item per reference, in order; `MetaRoundTrip.ReferencesRead` shows those lines leave every field the reader keeps untouched |
| Serialize.PushEvidence | src/harp.ts:300-310 | the evidence loop appends one item per evidence entry, in order; `MetaRoundTrip.EvidenceRead` shows those lines leave every field the reader keeps untouched |
| Serialize.SerializeSection | src/harp.ts:319-334 | a section is written as its heading line, its meta block when it has metadata, and its content when it has some |
| Serialize.BareSectionText | src/harp.ts:319-334 | a section without metadata and content is written as its heading line and a line break |
| Serialize.PushSections | src/harp.ts:351-354 | the section loop appends each section's text and a blank line, in order |
| Serialize.PushEntities | src/harp.ts:375-384 | the entities loop appends each entity's lines, in order |
| Serialize.PushSignatures | src/harp.ts:388-395 | the signatures loop appends each signature's lines, in order |
| Serialize.SerializeDocument | src/harp.ts:340-400 | the writer produces `DocumentText`: frontmatter between delimiters with the checksum of the body, then the body |
| Serialize.DocumentTextIgnoresStoredChecksum | src/harp.ts:359 | the written text does not depend on the stored checksum or raw text: the checksum is always recomputed from the body |
| Documents.EntityOrder | src/harp.ts:418-420 | the two entities are kept, as a permutation, and the one with the smaller id comes first |
| Documents.CreateDocumentSpec | src/harp.ts:409-446 | a document is created exactly when the dyad id exists, with that id, epoch 1, no previous epoch, both timestamps `now`, the layer, the two entities sorted by id, no sections, the preamble or `""`, a `sha256:` checksum, and raw text equal to its own serialization |
| Documents.CreateDocument | src/harp.ts:409-446 | the creation method computes `CreateDocumentSpec` |
| Documents.DegenerateIds | src/harp.ts:409-446 | creation fails when the two entity ids are equal |
| Documents.EntityOrderMayDisagree | src/harp.ts:415-420 | the entities are sorted by their raw ids while the dyad id sorts the normalised ids, so the first entity need not be the first id of the dyad: `eth:B` and `eth:a` give dyad `harp:eth:a:eth:b` with `eth:B` listed first |
| Documents.CreateNextEpoch | src/harp.ts:452-469 | the next epoch has the epoch plus one, the previous content id, `updated` set to now, an empty checksum and raw text, and every other field unchanged |
| Documents.AddSection | src/harp.ts:479-488 | the section is appended at the end, the raw text is cleared, and the frontmatter and preamble are unchanged |
| Documents.HistoryChain | src/harp.ts:452-488 | along a chain of epochs, epoch `i` has the first epoch plus `i`, the first `i` added sections, the content id of epoch `i - 1` as its previous, and the dyad, layer and creation time of the first |
| Documents.GenesisHistory | src/harp.ts:409-488 | a chain that starts from a created document starts at epoch 1 without a previous epoch, and epoch `i` holds exactly the first `i` added sections |
| Documents.CompleteMeta | src/harp.ts:493-517 | missing timestamp and author default to now and `""`; every other metadata field is kept |
| Documents.CreateSection | src/harp.ts:493-517 | the section keeps its type, title and content, has metadata exactly when some was given, and its raw text is its serialization |
| Documents.CreatedBareSectionReadsBack | src/harp.ts:493-517 | a created section without metadata and content reads back through the heading pattern with its own type and title |
| Documents.CreatedContentSectionIsNotHeading | src/harp.ts:493-517 | a created section with content does not match the heading pattern as a whole, which is why a parsed section never has content |
| Documents.Keep | src/harp.ts:522-562 | a filter stage keeps only sections that pass, and never more than it was given |
| Documents.SliceTo | src/harp.ts:558-560 | the limit keeps a prefix of the list of length the limit, or the whole list when shorter |
| Documents.FilterSectionsIsOneFilter | src/harp.ts:522-562 | the chain of filter stages equals one filter by the conjunction of all active criteria, followed by the limit |
| Documents.FilterSectionsProperties | src/harp.ts:522-562 | the result is a subsequence of the document's sections, every kept section passes every criterion, a positive limit bounds the length, and without a limit every passing section is kept |
| Documents.KeepIsSubsequence | src/harp.ts:522-562 | filtering keeps the sections' order |
| Scoring.CountPositive | src/harp.ts:715-754 | a count is positive exactly when some section satisfies the predicate |
| Scoring.SourceLines | src/harp.ts:651 | one source line `Type: Title` per section, in order |
| Scoring.Tally | src/harp.ts:653-694 | one switch step adds the section's weight to the score and to the maximum, and bumps the counter of its type |
| Scoring.DeriveTrustScore | src/harp.ts:636-710 | the score loop returns the algorithm name, the time, the rounded normalised score, the factor counts, the source lines and the document's epoch |
| Scoring.TrustScoreInUnit | src/harp.ts:697-701 | the trust score lies between 0 and 1 |
| Scoring.MaxUnitsZero | src/harp.ts:697 | the maximum is zero exactly when no section has a scored type |
| Scoring.TrustScoreWithoutScoredSections | src/harp.ts:697 | without a scored section the score is 0 |
| Scoring.TrustScoreFullMarks | src/harp.ts:653-701 | when every section earns its full weight and at least one is scored, the score is 1 |
| Scoring.TensionCounters | src/harp.ts:683-691 | resolved and unresolved tension counts add up to the number of tensions |
| Scoring.AssessCollaborationReadiness | src/harp.ts:715-754 | counts interactions and unresolved tensions, and reports history, communication preferences, shared decisions and payment history exactly when some section shows them |
| Scoring.ReadinessLevels | src/harp.ts:733-744 | `new` exactly without interactions, `emerging` for 1 or 2, `mature` for at least 8 with at least 2 decisions, `established` otherwise |
| Scoring.LevelMonotone | src/harp.ts:733-744 | more interactions and decisions never lower the readiness level |
| Scoring.ReadinessAgreesWithScore | src/harp.ts:636-754 | readiness and trust score count the same interactions and the same unresolved tensions |
| Payloads.CreateProposal | src/harp.ts:571-587 | a proposal exists exactly when the dyad id does; it names the normalised ids, the dyad id, the context and the time, and fails with the first id's error first |
| Payloads.ProposalNamesItsDyad | src/harp.ts:571-587 | the proposal's two ids compute its dyad id |
| Payloads.ProposalDyadSymmetric | src/harp.ts:571-587 | a proposal in the other direction names the same dyad |
| Payloads.CreateUpdateNotification | src/harp.ts:589-609 | a notification exists exactly when the dyad id does, and carries the normalised ids, the dyad id, the layer, epoch, content id and time |
| Payloads.NotificationMatchesProposal | src/harp.ts:571-609 | a notification between the parties of a proposal names the proposal's dyad |
| Payloads.CreateContextAttachment | src/harp.ts:611-624 | the attachment carries the dyad, layer, content id and section list it was given |
| Storage.ContentId | src/harp.ts:768-774 | a content id is `bafymem` followed by the first 40 hex digits of the content's digest |
| Storage.LookupIn | src/harp.ts:776-780 | a retrieval succeeds exactly when the id is stored with non-empty content, and fails with not-found otherwise |
| Storage.RetrieveAfterStore | src/harp.ts:768-780 | after storing content, its id retrieves it, unless it is empty |
| Storage.StoreKeepsOthers | src/harp.ts:768-780 | storing under one id does not change what other ids retrieve |
| Storage.EmptyContentNotRetrievable | src/harp.ts:768-784 | empty content is stored and exists, but is not retrievable, because the source tests the content for truthiness |
| Storage.MemoryStorage.Store | src/harp.ts:768-774 | stores the content under its content id, leaves pins unchanged, and the id then retrieves the content unless it is empty |
| Storage.MemoryStorage.Retrieve | src/harp.ts:776-780 | returns the stored content when non-empty and not-found otherwise |
| Storage.MemoryStorage.Exists | src/harp.ts:782-784 | true exactly when the id is stored |
| Storage.MemoryStorage.Pin | src/harp.ts:786-788 | adds the id to the pinned set and changes no content |
| Storage.MemoryStorage.Unpin | src/harp.ts:790-792 | removes the id from the pinned set and changes no content |
| Client.PointerKeyInjective | src/harp.ts:846-863 | a pointer key `dyad:layer` determines the dyad and the layer, so two dyads never share a pointer |
| Client.NextEpochStored | src/harp.ts:880-907 | the next epoch adds one to the epoch, points back at the current content id, appends the section, keeps dyad, layer and preamble, and is stored under the content id of its own text |
| Client.NextEpochTextIsItsOwn | src/harp.ts:896-900 | the raw text stored for the next epoch is its serialization |
| Client.HarpClient.Pointer | src/harp.ts:868-878 | a dyad has a current content id exactly when its pointer is set and non-empty |
| Client.HarpClient.DyadView | src/harp.ts:868-878 | no pointer gives nothing; a document it returns is the parse of the text stored under its pointer |
| Client.HarpClient.CreateDyad | src/harp.ts:846-863 | on failure nothing changes; on success the created document is stored under its content id, its pointer for the dyad and layer is set to that id, and pins are unchanged |
| Client.HarpClient.CreatedDyadIsStored | src/harp.ts:846-878 | after creation, the dyad's pointer names the content id and that id retrieves the document's text |
| Client.HarpClient.GetDyad | src/harp.ts:868-878 | returns `DyadView`: nothing without a pointer, the retrieval error, or the parsed document |
| Client.HarpClient.AddSectionToDyad | src/harp.ts:880-907 | a missing dyad is an error and a failed read passes its error on, both without change; otherwise the next epoch with the section is stored and its pointer moves to it |
| Client.HarpClient.QuerySections | src/harp.ts:909-920 | an empty list for a missing dyad, the read error, or the filtered sections of the current epoch |
| Client.HarpClient.GetTrustScore | src/harp.ts:922-929 | nothing for a missing dyad, the read error, or the trust score of the current epoch: its score, factors, source lines, epoch, algorithm name and time |
| Client.HarpClient.GetCollaborationReadiness | src/harp.ts:931-941 | nothing for a missing dyad, the read error, or the readiness of the current epoch |
| Client.HarpClient.CreateProposalTo | src/harp.ts:943-948 | is `createProposal` from the client's own entity (normalised from and to, context, time, or its error); it exists exactly when the dyad id does, and names that dyad |
| Client.HarpClient.CreateHandoffContext | src/harp.ts:950-973 | nothing without a pointer; without a type list the attachment names the current content id; with one it lists `Type: Title` of the sections of those types |
| Events.EventSection | src/adapters/moltx.ts:63-76 | an adapter section carries the event's timestamp, the given author, tags and fields, and its serialization as raw text |
| MoltX.Kind | src/adapters/moltx.ts:37-56 | an event type is handled exactly when it is one of the seven bounty events, and it names its event back |
| MoltX.BountyRef | src/adapters/moltx.ts:63-76 | the bounty reference is `moltx:bounty:` followed by the bounty id |
| MoltX.PaymentRecord | src/adapters/moltx.ts:108-128 | the x402 record is present exactly when the payload has a transaction, and carries it with the amount |
| MoltX.BountySection | src/adapters/moltx.ts:58-183 | each bounty event gives a section of a declared type with its title, content, tags and status, referencing the bounty, or citing it as evidence for an endorsement; a resolved dispute carries payload.resolution or "Resolved by mutual agreement", every other event no resolution |
| MoltX.Translate | src/adapters/moltx.ts:58-183 | one section for a handled event type and none for any other |
| MoltX.TranslatedTypesDeclared | src/adapters/moltx.ts:52 | every translated section has a type in `producesTypes` |
| MoltX.TranslationScoring | src/adapters/moltx.ts:58-183 | an endorsement is a trust signal, acceptance, milestone, completion and payment are interactions, and every bounty section is scored |
| MoltX.DisputeScoring | src/adapters/moltx.ts:130-161 | a filed dispute is an unresolved tension and a resolved dispute a resolved one |
| MoltX.PaymentIsRecorded | src/adapters/moltx.ts:108-128 | a payment section is authored by `system`, counts as payment history, and records the transaction when there is one |
| MoltX.AuthorIsFirstEntity | src/adapters/moltx.ts:58-183 | every bounty section but the payment is authored by the event's first entity |
| Airc.Kind | src/adapters/airc.ts:35-52 | an event type is handled exactly when it is one of the five messaging events, and it names its event back |
| Airc.ThreadRef | src/adapters/airc.ts:59-122 | a thread reference is present exactly when the payload has a thread id |
| Airc.MessagingSection | src/adapters/airc.ts:54-142 | each messaging event gives a section of a declared type with its title, content, tags, a thread reference for contact, handoff and extended threads, and no status or payment; the author is `system` for a communication pattern and the first entity (or `""`) otherwise |
| Airc.Translate | src/adapters/airc.ts:54-142 | one section for a handled event type and none for any other |
| Airc.TranslatedTypesDeclared | src/adapters/airc.ts:48 | every translated section has a type in `producesTypes` |
| Airc.TranslationScoring | src/adapters/airc.ts:54-142 | contact, handoff and extended threads are scored, as interactions, and nothing else is scored |
| Airc.PatternIsContext | src/adapters/airc.ts:124-137 | a communication pattern is exactly the event that becomes a context section |
| Airc.ConsentChannel | src/adapters/airc.ts:93-105 | a consent change is a note tagged with the consent type, which says the channel is closed exactly for a revocation |
| Adapters.Registered | src/adapters/index.ts:84-86 | registering keeps the insertion order and appends a new platform at the end |
| Adapters.Listed | src/adapters/index.ts:109-111 | the list has one adapter per registered platform, in insertion order |
| Adapters.RegisterKeepsRegistry | src/adapters/index.ts:84-86 | registering keeps each adapter under its own platform, with every platform listed once |
| Adapters.ListedOnePerPlatform | src/adapters/index.ts:109-111 | the list has no two adapters for one platform, and every registered platform appears |
| Adapters.ReplaceInPlace | src/adapters/index.ts:84-86 | registering a platform again replaces its adapter at the same place and leaves the others |
| Adapters.RoutedTypesDeclared | src/adapters/index.ts:99-104 | a routed event gives only section types its adapter declares |
| Adapters.AdapterRegistry.Register | src/adapters/index.ts:84-86 | the adapter is stored under its platform and the order is updated as `Registered` says |
| Adapters.AdapterRegistry.Get | src/adapters/index.ts:91-93 | returns the adapter registered for the platform, which handles that platform, or nothing |
| Adapters.AdapterRegistry.Translate | src/adapters/index.ts:99-104 | nothing without an adapter for the platform or when it cannot handle the event type, else the adapter's translation |
| Adapters.AdapterRegistry.List | src/adapters/index.ts:109-111 | the registered adapters in insertion order, one per platform |
| BodyRoundTrip.BodyRoundTrip | src/harp.ts:188-258 | a body written from sections with heading only and a well-formed preamble parses back to the same sections, with their heading lines as raw text, and to the preamble followed by the `---` rule written after it |
| DocRoundTrip.DocumentPieces | src/harp.ts:340-400 | splitting a written document on `---` gives an empty piece, the frontmatter lines, then the pieces of the body |
| DocRoundTrip.ChecksummedBodyIsBody | src/harp.ts:439-443 | when no written frontmatter line holds `---`, the body `createDocument` recovers from the written text is the body `serializeDocument` hashed |
| DocRoundTrip.CreatedChecksumIsWritten | src/harp.ts:409-446 | when no written frontmatter line holds `---`, the checksum stored in a created document is the checksum of its body |
| DocRoundTrip.BodyPartOfDocument | src/harp.ts:188-196 | the body `parseDocument` reassembles from a written document is the written body |
| DocRoundTrip.DocumentRoundTrip | src/harp.ts:188-400 | a written document always splits into three parts; when every written frontmatter line is a single line, parsing it succeeds and gives back the version, dyad, epoch, dates, layer, `previous` when it was set and not empty, and the checksum of the written body; parsing, when it succeeds, gives back the sections and the preamble as `BodyRoundTrip` says |
| DocRoundTrip.FrontmatterSplit | src/harp.ts:363-399 | the text the writer puts between the two delimiters splits on line breaks into the lines the reader loops over |
| DocRoundTrip.FrontmatterPartOfDocument | src/harp.ts:188-195 | the second `---` piece of a written document is the written frontmatter text |
| DocRoundTrip.ParsedFrontmatter | src/harp.ts:188-211 | a text whose second piece holds the written frontmatter lines parses, with the written scalar fields and checksum |
| YamlLines.SplitJoinLines | src/harp.ts:116 | lines joined with line breaks, none of which holds one, split back into the same lines |
| YamlLines.KeyLine | src/harp.ts:130-151 | an indented `key: value` line, the key without a colon and the value unpadded, is one key-value step with that key, that value and the line's indentation |
| YamlLines.OpenLine | src/harp.ts:138-143 | `key:` starts an empty list, stores it under the key and records the line's indentation |
| YamlLines.ItemLine | src/harp.ts:121-127 | `- item` pushes the decoded item onto the open list, if there is one |
| YamlLines.SetLine | src/harp.ts:144-150 | at the left margin, `key: value` stores the decoded value under the key and leaves every other tracked key as it was |
| YamlLines.OtherLine | src/harp.ts:144-150 | a `key: value` line for an untracked key, at any indentation, leaves every tracked key as it was |
| YamlLines.ListItemLine | src/harp.ts:121-127 | with a list open under a key, an item line adds the decoded item to the list stored under that key |
| YamlLines.EmptyLast | src/harp.ts:119 | a blank line changes nothing |
| FrontmatterRead.HeaderRead | src/harp.ts:363-372 | the header lines before the entities read back as a map holding each quoted field's text, the epoch as the value its rendered number decodes to, and `previous` as `null` when it is unset or empty |
| FrontmatterRead.EntitiesRead | src/harp.ts:375-384 | the entity lines leave every scalar key of the header as it was |
| FrontmatterRead.SignaturesRead | src/harp.ts:390-394 | the signature lines leave every scalar key as it was |
| FrontmatterRead.FrontmatterLinesRead | src/harp.ts:363-397 | after all the written frontmatter lines, each scalar key holds what the header stored and `checksum` holds the written checksum |
| FrontmatterRead.EpochReadsBack | src/harp.ts:203 | `Number` of the decoded rendered epoch is the epoch, for negative epochs too |
| FrontmatterRead.FrontmatterReadsBack | src/harp.ts:199-211 | the record built from the written frontmatter succeeds, with the version, dyad, epoch, dates, layer and checksum written, and `previous` when it was set and not empty |
| MetaRoundTrip.MetaTextFramed | src/harp.ts:275-314 | the written comment is the opener `<!-- harp:meta` and a line break, the inner lines each followed by a line break, and `-->` |
| MetaRoundTrip.MetaBlockFound | src/harp.ts:175-186 | the reader finds the written block, whatever text follows it, and decodes exactly its inner lines |
| MetaRoundTrip.ScalarsRead | src/harp.ts:278-285 | each one-line field that is written is stored as the text it was written from, `tags` as the text of its flow list; the fields not written are absent |
| MetaRoundTrip.DemonstratedRead | src/harp.ts:286-291 | each `demonstrated_in` line adds its entry's text to the open list, in order |
| MetaRoundTrip.DemonstratedListRead | src/harp.ts:286-291 | the `demonstrated_in` block stores the list of its entries and leaves the other tracked keys as they were |
| MetaRoundTrip.ReferencesRead | src/harp.ts:292-299 | the reference lines change no tracked key: each `- type:` item is pushed as text and the indented `id`/`tx` lines are skipped |
| MetaRoundTrip.EvidenceRead | src/harp.ts:300-310 | the evidence lines change no tracked key |
| MetaRoundTrip.MetaOfStored | src/harp.ts:175-186 | the record cast from a map holding the written texts has the written timestamp, author and status, `resolution` and `acknowledged_by` when they were set and not empty, and `demonstrated_in` when it was not empty |
| MetaRoundTrip.MetaRoundTrip | src/harp.ts:175-314 | for metadata whose lines hold no line break and no `>`, reading back the written comment, whatever follows it, finds the block and gives back the timestamp, author, status, `resolution`, `acknowledged_by` and `demonstrated_in` (the empty ones absent); `tags` is stored exactly when there were tags, as the bare text `["a", "b"]`, so the record has no tag list |

## Left out

- SHA-256 is not modelled. `hash` is a parameter and `Types.HexDigest` reads any output of a shape other than 64 lowercase hex digits as zeros.
- The clock is not modelled: `new Date().toISOString()` is the parameter `now`. Date parsing in `filterSections` is the parameter `parse`; its `None` stands for an invalid date.
- A YAML value `digits.digits` is kept as its text (`YFloat`); `parseFloat` is not modelled.
- Floating point is modelled with exact rationals. The trust score uses `real`, with the `Math.round` rounding written out; the binary rounding of JavaScript numbers is not modelled.
- `toLowerCase` is modelled for the ASCII letters only; Unicode case mapping is not. `trim` removes JavaScript's full set of white-space and line-terminator characters (`Strings.IsSpace`).
- `<` on strings (`Strings.LexLess`) compares Unicode scalar values, where JavaScript compares UTF-16 code units. The two orders differ only when a character above U+FFFF meets one in U+E000–U+FFFF: `"\u{10000}" < "\uFFFF"` holds in JavaScript and not in the model, so two such ids can be put in the other order in a dyad id.
- Identity.NormalizeEntityId: the chain and agent ids of an `erc8004:` id are unbounded integers. In the source `parseInt` yields a double, so ids of 2^53 or more are rounded, and ids of 10^21 or more are written in exponent form (`erc8004:1:1e+21`).
- Identity.NormalizeIdempotent: holds for the model's unbounded integers only. In the source an id of 10^21 or more breaks it: `erc8004:1:1e+21` normalises again to `erc8004:1:1`, because `parseInt` stops at the `e`.
- Payloads.ProposalNamesItsDyad: rests on `NormalizeIdempotent`, so it carries the same bound. In the source a proposal between ids with a field of 10^21 or more names a dyad that its own `from` and `to` do not recompute.
- Parse.NumberOf: `Number(...)` is modelled for optionally signed decimal digit runs (with surrounding white space and an all-zero fraction) only. Integer-valued numerals in the other forms JavaScript accepts (hexadecimal `0x10`, binary `0b1`, octal `0o7`, exponent `1e3` or `1.5e1`) give `None`: an `epoch: 0x10` makes the model's `parseDocument` fail, where the source reads epoch 16. An epoch that is not an integer, or a layer that is not a layer name, likewise makes the model fail, where the source would keep `NaN` or the unchecked string. Non-integer bounty ids and message counts are absent values.
- `parseDocument` does not check the shape of the entities and signatures it reads. They are kept as undescribed YAML values, and written back as the source writes them, with `undefined` fields.
- Writing a document whose entity or signature list holds a `null` item (read from `- null` or `- ~`) is not modelled as an error. In the source `entity.id` and `sig.entity` then throw a `TypeError` (src/harp.ts:375-376, 390); the model writes `undefined` fields. An `entities` value that is a number or a boolean makes the source's `for…of` throw as well; the model writes no entity lines.
- An absent author in an adapter section is written as `""`.
- `Parse.ChunkSection` gives parsed sections no metadata and no content. In the source the text after a matched heading is always empty, because the pattern has no multi-line flag and must match the whole chunk. `Parse.MatchedSectionIsBare` proves the source's longer path gives the same result.
- `HarpClient.getStorage` (an accessor) and the client's configuration are not modelled; the client is built with its entity id and the hash.
- Storage backends other than `MemoryStorage` (IPFS, local files), the `HarpStorage` and `HarpRegistry` interfaces, `async` and concurrency are not modelled. Every client operation is one atomic step.
- `MemoryStorage`'s map field `store` (src/harp.ts:765) shares its name with the method `store` (src/harp.ts:768). The instance field shadows the method, so when a client's storage is a `MemoryStorage`, `this.storage.store(...)` in `createDyad` and `addSectionToDyad` (src/harp.ts:854, 898) calls a `Map` and throws. The model follows the evident intent: the field is called `contents` here and `store` is the method.
- `createDyad` assigns `doc.raw = serialized`. This changes nothing in the model, because `Documents.CreateDocumentSpec` already gives the document its serialization as raw text.
- The adapters' `description` strings and the prose inside adapter section content are modelled as text, but no property is stated about the wording.
- Adapters.AdapterRegistry.Get and Adapters.AdapterRegistry.List: both require the registry invariant, which the constructor and `Register` keep. The source needs no such assumption, because a JavaScript `Map` cannot hold two entries for one key.
- DocRoundTrip.CreatedChecksumIsWritten: proved only when no written frontmatter line (an entity id or name, a signature field) holds `---`. With an entity name such as `A---B`, `raw.split("---").slice(2)` (src/harp.ts:441-443) starts inside the frontmatter, so the checksum `createDocument` stores is not the checksum of the body. `DocRoundTrip.ChecksummedBodyIsBody` carries the same condition.
- DocRoundTrip.DocumentRoundTrip: proved only for frontmatter lines without `---` (a `---` inside a name or id moves the split), for sections with a heading only, and for a preamble with no line starting with `## `. The frontmatter is proved to read back only when every written frontmatter line is a single line (no line break inside a field), and then only its scalar fields and checksum: the entity and signature lists do not read back, because the reader pushes each `- id:` or `- entity:` item as a string and skips the indented `key: value` lines under it (src/harp.ts:145-148).
- BodyRoundTrip.BodyRoundTrip: sections with metadata or content are not covered. The source reads them back without metadata and content at all, as `Documents.CreatedContentSectionIsNotHeading` shows.
- Yaml.ParseFrontmatterYaml: the reader is proved equal to its specification function. Its round trips with the two writers, `FrontmatterRead.FrontmatterReadsBack` and `MetaRoundTrip.MetaRoundTrip`, cover the fields the record keeps. The entity, signature, reference and evidence lists do not read back, and neither does `tags` as a list.
- MetaRoundTrip.MetaRoundTrip: proved for fields without a line break and without `>`. A `>` in a field is not always harmful, but the model does not prove the block is found then: a `-->` inside a field ends the block early.
- Parse.NumberOf: its contract covers runs of decimal digits only; signs, surrounding white space and trailing `.0` are handled by the body but not stated.
