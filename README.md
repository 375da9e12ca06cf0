# repseqio core, modelled in Dafny

This project models seven pieces of the repseqio library (reference V, D, J and C
gene libraries for immune-repertoire analysis) and proves properties about them.

- **Binary locus-library reader** (`LociReader`, file `loci_reader.dfy`).
  - A stream is a magic number followed by tagged blocks: META, SEQUENCE_PART,
    LOCUS_BEGIN, ALLELE, LOCUS_END, SPECIES_NAME and an embedded MAGIC block.
  - Either no locus is open, or one is open and owns its gene and allele indexes.
    LOCUS_BEGIN opens a locus. ALLELE blocks extend its indexes. LOCUS_END
    registers it into the library and closes it.
  - `Step`, `ReadAll` and `Decode` describe the reader as functions on values.
  - The class `LociLibraryReader` keeps the source's mutable fields: the open
    container, the per-type gene and allele lists, the name indexes and the list
    of all genes. Each of its methods is proved to follow `Step`.
- **Locus library store** (`Loci`, file `loci.dfy`).
  - Registering a container rejects a species/chain that is already registered.
    Otherwise it stores the container, appends its alleles to the list of all
    alleles, and merges its name indexes into the per-taxon indexes.
  - The lookups are by species name and chain, by allele id, and by common
    species name.
- **Reference-point builder** (`ReferencePointsBuilder`, file `reference_points.dfy`).
  - An `int` array written in place and validated after every write.
  - A write the validation rejects is rolled back.
  - `SetPositionsFrom` copies the defined slots of another set of points, in
    slot order, until a write is refused.
- **Feature extraction from a partitioned sequence** (`PartitionedSequence`,
  file `partitioned_sequence.dfy`).
  - A simple feature is the part of the sequence under its range.
  - A composite feature is the concatenation of the parts under its ranges.
  - A missing range, or a missing range array, gives no sequence.
- **Library registry** (`LibraryRegistry`, file `library_registry.dfy`).
  - Loaded libraries are keyed by taxon id and library name.
  - A prioritised list of library resolvers loads missing libraries. The first
    library registered under a key wins.
  - Common species names resolve to taxon ids.
- **Catch-all sequence resolver** (`SequenceResolvers.AnySequenceResolver`).
  - Hands out one cached provider per sequence address.
  - The provider is created on the first request for that address and kept.
- **gi:// address mapping** (`SequenceResolvers`, file `sequence_resolvers.dfy`).
  - A `gi://<id>` address maps onto an NCBI nuccore fetch address, a cache file
    name and a record id.
  - A URI's scheme and authority are read as in sections 3.1 and 3.2 of RFC 3986.

`outcomes.dfy` holds the `Option` and `Result` types. An exception the source
throws becomes an `Err` value, or an `Option` error result of a method. A Java
`null` becomes `None`.

## Model

Paths are relative to the repository root.

| member | source | states |
|---|---|---|
| Loci.EmptyPerType | src/main/java/io/repseq/reference/LociLibraryReader.java:153-159 | the per-type map has exactly the four gene types as keys, each with an empty list |
| Loci.MergeInto | src/main/java/io/repseq/reference/LociLibrary.java:55-64 | the taxon's index (created when missing) gains every entry, the new entry winning on a name clash; its other entries and every other taxon's index are unchanged |
| Loci.Register | src/main/java/io/repseq/reference/LociLibrary.java:48-65 | fails, naming the key, exactly when the species/chain is registered; otherwise `loci` gains exactly this container under its key and keeps the others, `allAlleles` is the old list followed by the container's alleles, the allele and gene indexes are merged into the taxon's, and the sequence base, known species and properties are unchanged |
| Loci.LociLibrary.constructor | src/main/java/io/repseq/reference/LociLibrary.java:40-46 | a new library is empty |
| Loci.LociLibrary.RegisterContainer | src/main/java/io/repseq/reference/LociLibrary.java:48-65 | succeeds exactly when the species/chain was free; on success the new state is `Register`'s; on refusal nothing changes, since the check comes before any map is touched |
| Loci.LociLibrary.GetSpeciesTaxonId | src/main/java/io/repseq/reference/LociLibrary.java:117-122 | the recorded taxon id of a known common name, -1 for an unknown one |
| Loci.LociLibrary.GetLocus | src/main/java/io/repseq/reference/LociLibrary.java:75-85 | a locus is returned exactly when the known-species map, or else Species.fromString, gives a taxon id other than -1 and that species/chain is registered; it is the container stored under that key |
| Loci.LociLibrary.GetAllele | src/main/java/io/repseq/reference/LociLibrary.java:87-95 | fails, naming the key, exactly when no container is registered for the id's species/chain; otherwise it gives the container's allele of that name, if any |
| Loci.KnownSpeciesShadowsFromString | src/main/java/io/repseq/reference/LociLibrary.java:75-79 | for a recorded common name, the locus found does not depend on Species.fromString |
| Loci.RegisterKeepsKeys | src/main/java/io/repseq/reference/LociLibrary.java:52 | registration keeps every container stored under its own species/chain |
| LociReader.LastIndexOf | src/main/java/io/repseq/reference/LociLibraryReader.java:200 | -1 exactly when the character is absent; otherwise an index holding it with no occurrence after it |
| LociReader.GeneName | src/main/java/io/repseq/reference/LociLibraryReader.java:200 | no gene name exactly when the allele name has no '*'; otherwise the gene name is the prefix ending just before the last '*' |
| LociReader.AddAllele | src/main/java/io/repseq/reference/LociLibraryReader.java:201-234 | a new gene gets the index equal to the number of genes of its type so far; it is appended to its type's list and to the list of all genes, and is indexed by name; an existing gene leaves the gene lists and gene index unchanged; the allele is appended to its gene's list and its type's list and indexed by its name; other types' lists and other genes' allele lists are unchanged |
| LociReader.NewLocus | src/main/java/io/repseq/reference/LociLibraryReader.java:153-164 | the locus LOCUS_BEGIN opens: empty per-type gene and allele lists and empty name indexes; its property is stated by `NewLocusWellFormed` and `LocusBeginReplaces` |
| LociReader.WithGene | src/main/java/io/repseq/reference/LociLibraryReader.java:205-210 | the gene get-or-create: a new gene is appended to its type's list and to the list of all genes with the next index and indexed by name; stated by `AddAllele` and `WithGeneWellFormed` |
| LociReader.MakeAllele | src/main/java/io/repseq/reference/LociLibraryReader.java:219-230 | flag bit 1 makes a reference allele (accession and points when bit 4 is set), otherwise a variant (reference feature and mutations when bit 8 is set) carrying its parent; used by `AddAllele` |
| LociReader.ReadAlleleSpec | src/main/java/io/repseq/reference/LociLibraryReader.java:171-240 | the ALLELE checks in the source's order, then `AddAllele`; stated by `FirstAlleleNeedsAnchors`, `ParentMustPrecedeVariant`, `StepIndexesAlleleName` and `AddAlleleWellFormed` |
| LociReader.EndLocusSpec | src/main/java/io/repseq/reference/LociLibraryReader.java:242-263 | LOCUS_END: no open locus fails, a taken species/chain fails, otherwise the locus is registered and closed; stated by `EndLocusRejects`, `EndLocusRegisters` and `LocusEndRegisters` |
| LociReader.Step | src/main/java/io/repseq/reference/LociLibraryReader.java:102-129 | one block dispatched by tag, a failure leaving the state as it was; stated by `MetaRouting`, `SpeciesNameRouting`, `LocusBeginReplaces`, `MagicBlockIsNeutral` and `StepWellFormed` |
| LociReader.ReadAll | src/main/java/io/repseq/reference/LociLibraryReader.java:96-130 | blocks read in order until one fails; stated by `ReadAllAppend`, `UnknownTagFails`, `StaysOpen` and `ReadAllWellFormed` |
| LociReader.ReadToEndSpec | src/main/java/io/repseq/reference/LociLibraryReader.java:93-134 | all blocks, then a locus left open is a premature end; stated by `UnclosedLocusRejected` |
| LociReader.Decode | src/main/java/io/repseq/reference/LociLibraryReader.java:75-80 | a wrong magic number fails before any block is read; a stream decodes to a library exactly when its magic is right and reading every block reaches that library without error and with no locus left open |
| LociReader.ReadAllAppend | src/main/java/io/repseq/reference/LociLibraryReader.java:96-130 | reading two runs of blocks is reading the first, then the second only when the first did not fail |
| LociReader.UnknownTagFails | src/main/java/io/repseq/reference/LociLibraryReader.java:127-128 | reading blocks that contain an unknown tag ends in an error |
| LociReader.UnknownTagRejected | src/main/java/io/repseq/reference/LociLibraryReader.java:127-128 | a stream containing an unknown tag is rejected |
| LociReader.UnknownTagReported | src/main/java/io/repseq/reference/LociLibraryReader.java:102-128 | when the first failing block is an unknown tag, the error reported is the unknown record type with that tag |
| LociReader.MagicBlockIsNeutral | src/main/java/io/repseq/reference/LociLibraryReader.java:136-141 | an embedded magic block anywhere in the stream changes neither the result nor the state |
| LociReader.StaysOpen | src/main/java/io/repseq/reference/LociLibraryReader.java:256 | with a locus open, blocks other than LOCUS_END leave a locus open |
| LociReader.UnclosedLocusRejected | src/main/java/io/repseq/reference/LociLibraryReader.java:132-133 | a LOCUS_BEGIN with no LOCUS_END after it makes the decode fail |
| LociReader.StepIndexesAlleleName | src/main/java/io/repseq/reference/LociLibraryReader.java:234 | one accepted block inside a locus adds exactly its allele name, if it has one, to the allele index |
| LociReader.IndexedAlleleNames | src/main/java/io/repseq/reference/LociLibraryReader.java:161-164 | inside one locus the allele index holds exactly the names indexed when it was opened plus the allele names read since |
| LociReader.ParentMustPrecedeVariant | src/main/java/io/repseq/reference/LociLibraryReader.java:214-217 | after LOCUS_BEGIN, a record naming a parent that no earlier record of the same locus defined is rejected |
| LociReader.WithGeneWellFormed | src/main/java/io/repseq/reference/LociLibraryReader.java:205-210 | creating a gene keeps the gene indexes consistent |
| LociReader.WithGeneTypeListsIndexed | src/main/java/io/repseq/reference/LociLibraryReader.java:205-208 | after creating a gene, every gene of a type sits at its own index in that type's list and is the gene indexed under its name |
| LociReader.WithGeneAllGenesDistinct | src/main/java/io/repseq/reference/LociLibraryReader.java:208-210 | after creating a gene, the list of all genes still holds each gene name once |
| LociReader.AddAlleleWellFormed | src/main/java/io/repseq/reference/LociLibraryReader.java:205-234 | an accepted allele keeps the gene indexes consistent |
| LociReader.NewLocusWellFormed | src/main/java/io/repseq/reference/LociLibraryReader.java:153-164 | a freshly opened locus has consistent gene indexes |
| LociReader.StepWellFormed | src/main/java/io/repseq/reference/LociLibraryReader.java:102-129 | every accepted block keeps the open locus and every registered locus consistent and keyed by its own species/chain |
| LociReader.ReadAllWellFormed | src/main/java/io/repseq/reference/LociLibraryReader.java:96-130 | every state reached while reading is consistent |
| LociReader.DecodedLibraryWellFormed | src/main/java/io/repseq/reference/LociLibraryReader.java:75-80 | every locus of a decoded library is stored under its own species/chain and has consistent gene indexes |
| LociReader.MetaRouting | src/main/java/io/repseq/reference/LociLibraryReader.java:290-293 | META never fails; it sets a library property when no locus is open and a property of the open locus otherwise; the rest of the state is unchanged |
| LociReader.SpeciesNameRouting | src/main/java/io/repseq/reference/LociLibraryReader.java:298-302 | SPECIES_NAME is rejected inside a locus and otherwise records the name for the taxon id |
| LociReader.LocusBeginReplaces | src/main/java/io/repseq/reference/LociLibraryReader.java:153-164 | LOCUS_BEGIN over an open locus drops it unregistered and opens an empty one, with empty name indexes |
| LociReader.LocusEndRegisters | src/main/java/io/repseq/reference/LociLibraryReader.java:255-261 | LOCUS_END registers the open locus under its species/chain and closes it |
| LociReader.FirstAlleleNeedsAnchors | src/main/java/io/repseq/reference/LociLibraryReader.java:200-204 | a record for a gene not yet seen that carries no anchor points is rejected |
| LociReader.EndLocusRejects | src/main/java/io/repseq/reference/LociLibraryReader.java:255 | LOCUS_END for a species/chain already registered fails with that key |
| LociReader.EndLocusRegisters | src/main/java/io/repseq/reference/LociLibraryReader.java:255-261 | when registration succeeds, LOCUS_END leaves the registered library and no open locus |
| LociReader.LociLibraryReader.constructor | src/main/java/io/repseq/reference/LociLibraryReader.java:43-61 | a new reader has an empty library and no open locus |
| LociReader.LociLibraryReader.Read | src/main/java/io/repseq/reference/LociLibraryReader.java:75-80 | succeeds exactly when `Decode` does, returning a fresh library in `Decode`'s state, and fails with `Decode`'s error |
| LociReader.LociLibraryReader.CheckMagic | src/main/java/io/repseq/reference/LociLibraryReader.java:87-91 | fails with a wrong-magic error exactly when the number read is not the expected one |
| LociReader.LociLibraryReader.ReadToEnd | src/main/java/io/repseq/reference/LociLibraryReader.java:93-134 | the loop reaches `ReadToEndSpec`'s state and error: blocks are read until one fails, then a locus left open is a premature end |
| LociReader.LociLibraryReader.ReadBlock | src/main/java/io/repseq/reference/LociLibraryReader.java:102-129 | a block follows `Step`: the new state on success; an unchanged state and the error on failure, an unknown tag included |
| LociReader.LociLibraryReader.SkipMagic | src/main/java/io/repseq/reference/LociLibraryReader.java:136-141 | an embedded magic block never fails |
| LociReader.LociLibraryReader.ReadMeta | src/main/java/io/repseq/reference/LociLibraryReader.java:287-295 | follows `Step` for META |
| LociReader.LociLibraryReader.ReadSequencePart | src/main/java/io/repseq/reference/LociLibraryReader.java:265-285 | follows `Step` for SEQUENCE_PART: the part is appended to the sequence base |
| LociReader.LociLibraryReader.BeginLocus | src/main/java/io/repseq/reference/LociLibraryReader.java:143-169 | follows `Step` for LOCUS_BEGIN: an unknown chain fails, otherwise fresh per-locus collections are installed |
| LociReader.LociLibraryReader.ReadAllele | src/main/java/io/repseq/reference/LociLibraryReader.java:171-240 | follows `Step` for ALLELE, with the source's checks in its order: unknown gene type, no '*', no open locus, first allele without anchors, unknown parent, a variant's parent not a reference allele |
| LociReader.LociLibraryReader.AppendAllele | src/main/java/io/repseq/reference/LociLibraryReader.java:205-234 | the fields become `AddAllele` of the open locus and the library is unchanged |
| LociReader.LociLibraryReader.EndLocus | src/main/java/io/repseq/reference/LociLibraryReader.java:242-263 | follows `Step` for LOCUS_END: no open locus fails; a duplicate species/chain fails with nothing changed; otherwise the locus is registered and the per-locus fields cleared |
| LociReader.LociLibraryReader.ClearLocus | src/main/java/io/repseq/reference/LociLibraryReader.java:256-261 | the reader has no open locus and the library is unchanged |
| LociReader.LociLibraryReader.ReadSpeciesName | src/main/java/io/repseq/reference/LociLibraryReader.java:297-304 | follows `Step` for SPECIES_NAME |
| ReferencePointsBuilder.SetSpec | src/main/java/io/repseq/core/AbstractReferencePointsBuilder.java:19-42 | a write succeeds exactly when the position is at least -1, the slot exists and the written array passes the check; a position below -1 is refused first; on success only that slot changes, to the position, and the result passes the check |
| ReferencePointsBuilder.SetPointSpec | src/main/java/io/repseq/core/AbstractReferencePointsBuilder.java:49-62 | a point with an offset is refused outright; otherwise it succeeds exactly as the slot write does, and an IllegalArgumentException of the slot write is wrapped with the point |
| ReferencePointsBuilder.Wrapped | src/main/java/io/repseq/core/AbstractReferencePointsBuilder.java:55-61 | an IllegalArgumentException of a slot write is wrapped with the point; an index outside the array is not an IllegalArgumentException and passes unwrapped; stated by `SetPointSpec` |
| ReferencePointsBuilder.ApplyFrom | src/main/java/io/repseq/core/AbstractReferencePointsBuilder.java:64-68 | the defined slots of the source written in increasing order, the first refusal ending the copy with the earlier writes kept; stated by `ApplyFromSlots`, `ApplyFromChecked` and `RefusedWriteChangesNothing` |
| ReferencePointsBuilder.ApplyFromSlots | src/main/java/io/repseq/core/AbstractReferencePointsBuilder.java:64-68 | copying keeps the length; each defined slot before the refused one holds the source's value and every other slot its old value; a stop is at a defined slot whose write was refused |
| ReferencePointsBuilder.ApplyFromChecked | src/main/java/io/repseq/core/AbstractReferencePointsBuilder.java:32 | after copying, the points are the old ones or pass the check |
| ReferencePointsBuilder.RefusedWriteChangesNothing | src/main/java/io/repseq/core/AbstractReferencePointsBuilder.java:64-68 | a copy refused at its first defined slot leaves the points as they were |
| ReferencePointsBuilder.Builder.constructor | src/main/java/io/repseq/core/AbstractReferencePointsBuilder.java:9-13 | one slot per flag, every slot -1 |
| ReferencePointsBuilder.Builder.SetPositionAt | src/main/java/io/repseq/core/AbstractReferencePointsBuilder.java:19-42 | the array follows `SetSpec`: the written array on success, the old array (the old value restored) and the error otherwise |
| ReferencePointsBuilder.Builder.SetPosition | src/main/java/io/repseq/core/AbstractReferencePointsBuilder.java:49-62 | the array follows `SetPointSpec` |
| ReferencePointsBuilder.Builder.SetPositionsFrom | src/main/java/io/repseq/core/AbstractReferencePointsBuilder.java:64-68 | the array and the error are those of `ApplyFrom` over the source's slots from slot 0 |
| ReferencePointsBuilder.Builder.Build | src/main/java/io/repseq/core/AbstractReferencePointsBuilder.java:70-72 | a fresh array with the builder's slots |
| ReferencePointsBuilder.BuildIsSnapshot | src/main/java/io/repseq/core/AbstractReferencePointsBuilder.java:70-72 | a write after building leaves the built points as they were |
| PartitionedSequence.Concat | src/main/java/io/repseq/core/PartitionedSequence.java:59-63 | the parts under the ranges appended in array order; stated by `ConcatAppend`, `FirstPrefixLastSuffix`, `ConcatLength` and `PartAt` |
| PartitionedSequence.FeatureSpec | src/main/java/io/repseq/core/PartitionedSequence.java:44-64 | simple feature: its part, or none without a range; composite: none without ranges, an error for an empty array, else the concatenation; `GetFeature` is proved equal to it |
| PartitionedSequence.ConcatAppend | src/main/java/io/repseq/core/PartitionedSequence.java:59-63 | concatenating the parts of two runs of ranges is concatenating the two results |
| PartitionedSequence.SingleRange | src/main/java/io/repseq/core/PartitionedSequence.java:54-55 | the concatenation over one range is that range's part |
| PartitionedSequence.FirstPrefixLastSuffix | src/main/java/io/repseq/core/PartitionedSequence.java:59-62 | the first range's part is a prefix of the result and the last range's part a suffix |
| PartitionedSequence.ConcatLength | src/main/java/io/repseq/core/PartitionedSequence.java:56-58 | when every part is as long as its range, the result is as long as the summed range lengths |
| PartitionedSequence.PartAt | src/main/java/io/repseq/core/PartitionedSequence.java:61-62 | part `i` sits in the result right after parts `0..i-1` |
| PartitionedSequence.TotalLength | src/main/java/io/repseq/core/PartitionedSequence.java:56-58 | the loop computes the summed range lengths |
| PartitionedSequence.GetFeature | src/main/java/io/repseq/core/PartitionedSequence.java:44-64 | the result is `FeatureSpec`: a simple feature's part, or none when its range is missing; for a composite feature none when its ranges are missing, an error for an empty range array, otherwise the parts concatenated in array order |
| LibraryRegistry.ResolveSpeciesName | src/main/java/io/repseq/core/VDJCLibraryRegistry.java:111-116 | succeeds exactly for a recorded name, with its taxon id; an unknown name fails, naming it |
| LibraryRegistry.ResolveKey | src/main/java/io/repseq/core/VDJCLibraryRegistry.java:124-129 | a key by taxon id is kept; a key by species name becomes the key by that name's taxon id with the same library name, or fails when the name is unknown |
| LibraryRegistry.Pushes | src/main/java/io/repseq/core/VDJCLibraryRegistry.java:225-226 | one push per fragment, in order, each against the library's context |
| LibraryRegistry.Conflicts | src/main/java/io/repseq/core/VDJCLibraryRegistry.java:233-236 | some common name of the library is recorded for another taxon id; `CheckSpeciesNames` is proved equal to it |
| LibraryRegistry.RegisterSpec | src/main/java/io/repseq/core/VDJCLibraryRegistry.java:215-242 | fails exactly on a loaded key or a species-name conflict; a loaded key fails before any fragment is pushed and changes nothing; otherwise the fragments are pushed; a failure leaves the libraries unchanged; a success stores and returns the new library under its key; resolvers and species names are never changed |
| LibraryRegistry.RegisterAll | src/main/java/io/repseq/core/VDJCLibraryRegistry.java:181-191 | registering a resolver's records changes neither the resolvers nor the species names and never unloads a key; every newly loaded key is (taxon id of one of the records, the library name); on success every record's key is loaded; the only error is a species-name mismatch; libraries stay stored under their own keys |
| LibraryRegistry.LoadFrom | src/main/java/io/repseq/core/VDJCLibraryRegistry.java:170-204 | resolvers consulted in order, one that finds nothing passed over, a found resolver's records registered, the key returned once loaded, not found after the last resolver; stated by `LoadFromSound`, `NoResolverYieldsFails`, `ResolverYieldsLoads`, `SilentResolverSkipped` and `EarlierResolverWins` |
| LibraryRegistry.GetLibrarySpec | src/main/java/io/repseq/core/VDJCLibraryRegistry.java:158-205 | resolve the species name, answer a loaded key, else load it; stated by `GetLibrarySound` and `GetLibraryNotFound` |
| LibraryRegistry.RegisterAllKeepsLoaded | src/main/java/io/repseq/core/VDJCLibraryRegistry.java:184-187 | a loaded library is never replaced: the first one under a key stays |
| LibraryRegistry.LoadFromSound | src/main/java/io/repseq/core/VDJCLibraryRegistry.java:170-204 | loading keeps every loaded library; a returned library is the one now loaded under the key; a not-found failure means no resolver loaded the key, and libraries registered on the way stay |
| LibraryRegistry.GetLibrarySound | src/main/java/io/repseq/core/VDJCLibraryRegistry.java:158-205 | a lookup keeps every loaded library and returns the library loaded under the resolved key; an already loaded key is answered with no change and no resolver consulted |
| LibraryRegistry.NoResolverYieldsFails | src/main/java/io/repseq/core/VDJCLibraryRegistry.java:170-204 | when no resolver from the current one on finds a record for the key, loading fails and the key stays unloaded |
| LibraryRegistry.ResolverYieldsLoads | src/main/java/io/repseq/core/VDJCLibraryRegistry.java:181-198 | when some resolver finds a record for the key, loading never fails with "not found": it returns the library or fails with a species-name mismatch while registering |
| LibraryRegistry.GetLibraryNotFound | src/main/java/io/repseq/core/VDJCLibraryRegistry.java:203-204 | a lookup of a key not loaded fails with "not found" only when no resolver finds a record for it, and always fails when none does |
| LibraryRegistry.LoadFromKeepsOwnKeys | src/main/java/io/repseq/core/VDJCLibraryRegistry.java:239 | loading keeps every library stored under its own key |
| LibraryRegistry.SilentResolverSkipped | src/main/java/io/repseq/core/VDJCLibraryRegistry.java:176-178 | a resolver that finds nothing is passed over with no change |
| LibraryRegistry.EarlierResolverWins | src/main/java/io/repseq/core/VDJCLibraryRegistry.java:193-198 | once a resolver's records load the key, later resolvers are not consulted |
| LibraryRegistry.NamedListing | src/main/java/io/repseq/core/VDJCLibraryRegistry.java:79-87 | a listing built one key at a time holds exactly the libraries whose key has the name, one per key |
| LibraryRegistry.Registry.constructor | src/main/java/io/repseq/core/VDJCLibraryRegistry.java:26-38 | a new registry has no resolvers, species names or libraries |
| LibraryRegistry.Registry.AddLibraryResolver | src/main/java/io/repseq/core/VDJCLibraryRegistry.java:136-138 | the resolver is appended after the existing ones, nothing else changes |
| LibraryRegistry.Registry.GetLoadedLibrariesByName | src/main/java/io/repseq/core/VDJCLibraryRegistry.java:79-87 | the result lists every loaded library whose key has the name, only those, one per key |
| LibraryRegistry.Registry.CheckSpeciesNames | src/main/java/io/repseq/core/VDJCLibraryRegistry.java:233-236 | a conflict is found exactly when some common name of the library is recorded for another taxon id |
| LibraryRegistry.Registry.RegisterLibrary | src/main/java/io/repseq/core/VDJCLibraryRegistry.java:215-242 | the new state and the result are `RegisterSpec`'s |
| LibraryRegistry.Registry.RegisterRecords | src/main/java/io/repseq/core/VDJCLibraryRegistry.java:181-191 | the new state and the error are `RegisterAll`'s |
| LibraryRegistry.Registry.GetLibrary | src/main/java/io/repseq/core/VDJCLibraryRegistry.java:158-205 | the new state and the result are `GetLibrarySpec`'s |
| SequenceResolvers.CachedSequenceProvider.constructor | src/main/java/io/repseq/seqbase/AnySequenceResolver.java:20 | the provider keeps the message it was created with |
| SequenceResolvers.AnySequenceResolver.constructor | src/main/java/io/repseq/seqbase/AnySequenceResolver.java:9 | a new resolver has no providers |
| SequenceResolvers.AnySequenceResolver.CanResolve | src/main/java/io/repseq/seqbase/AnySequenceResolver.java:11-14 | every address can be resolved |
| SequenceResolvers.AnySequenceResolver.Resolve | src/main/java/io/repseq/seqbase/AnySequenceResolver.java:16-22 | afterwards the address maps to the returned provider; a known address returns its stored provider and changes nothing; a new address gets a fresh provider whose message names the address, added as the only new entry |
| SequenceResolvers.ResolveTwice | src/main/java/io/repseq/seqbase/AnySequenceResolver.java:17-21 | two requests for one address return the same provider, and no stored provider is replaced |
| SequenceResolvers.ScanScheme | src/main/java/io/repseq/seqbase/HTTPSequenceResolvers.java:40 | a reported scheme end is a ':' inside the text |
| SequenceResolvers.Scheme | src/main/java/io/repseq/seqbase/HTTPSequenceResolvers.java:40 | a scheme is a letter followed by letters, digits, '+', '-' or '.', and is the text before the first ':' |
| SequenceResolvers.ScanSchemeValid | src/main/java/io/repseq/seqbase/HTTPSequenceResolvers.java:40 | what the scan reports is a valid scheme |
| SequenceResolvers.AuthorityLength | src/main/java/io/repseq/seqbase/HTTPSequenceResolvers.java:18 | the authority runs up to the first '/', '?' or '#' |
| SequenceResolvers.Authority | src/main/java/io/repseq/seqbase/HTTPSequenceResolvers.java:17-19 | an authority is non-empty and holds no '/', '?' or '#' |
| SequenceResolvers.ParseComposed | src/main/java/io/repseq/seqbase/HTTPSequenceResolvers.java:17-19 | parsing undoes composing: the scheme and authority of `scheme://authority/tail` are the ones it was built from |
| SequenceResolvers.ExtractId | src/main/java/io/repseq/seqbase/HTTPSequenceResolvers.java:17-19 | the id is the URI's authority; stated by `ResolveRecordId`, `ResolvableHasId` and `GiAddressResolved` |
| SequenceResolvers.EqualsIgnoreCase | src/main/java/io/repseq/seqbase/HTTPSequenceResolvers.java:40 | Java's equalsIgnoreCase on ASCII text; used by `CanResolveGi` |
| SequenceResolvers.CanResolveGi | src/main/java/io/repseq/seqbase/HTTPSequenceResolvers.java:39-41 | scheme "gi" up to case and an authority present; stated by `ResolvableIsGi` and `GiAddressResolved` |
| SequenceResolvers.ResolveCacheFileName | src/main/java/io/repseq/seqbase/HTTPSequenceResolvers.java:22-24 | the cache file name is "gi_" followed by the id, or by "null" when there is none |
| SequenceResolvers.ResolveHttpAddress | src/main/java/io/repseq/seqbase/HTTPSequenceResolvers.java:27-31 | the fetch address is as long as the fixed prefix, the id and the fixed suffix together |
| SequenceResolvers.ResolveRecordId | src/main/java/io/repseq/seqbase/HTTPSequenceResolvers.java:34-36 | a record id is a non-empty authority; it names the cache file and is the id the fetch address carries |
| SequenceResolvers.ResolvableIsGi | src/main/java/io/repseq/seqbase/HTTPSequenceResolvers.java:39-41 | an address is resolvable exactly when its scheme reads "gi" in either case and it has an authority; no scheme means not resolvable |
| SequenceResolvers.FetchAddressCarriesId | src/main/java/io/repseq/seqbase/HTTPSequenceResolvers.java:27-31 | the id can be read back from the fetch address |
| SequenceResolvers.FetchAddressInjective | src/main/java/io/repseq/seqbase/HTTPSequenceResolvers.java:27-31 | resolvable addresses with the same fetch address have the same record id |
| SequenceResolvers.ResolvableHasId | src/main/java/io/repseq/seqbase/HTTPSequenceResolvers.java:34-41 | a resolvable address has a record id, which names the cache file and is carried by the fetch address |
| SequenceResolvers.GiAddressResolved | src/main/java/io/repseq/seqbase/HTTPSequenceResolvers.java:39-41 | every `gi://<id>` address, in any letter case of "gi", is resolvable, and its record id is the authority |
| SequenceResolvers.DocumentedExample | src/main/java/io/repseq/seqbase/HTTPSequenceResolvers.java:10 | `gi://568815591` is resolvable, has record id 568815591, cache file `gi_568815591` and fetch address prefix + 568815591 + suffix |

## Left out

- Byte-level stream reading is not modelled: readInt/readUTF/readLong, the counting stream and the `File`/`String` overloads of `read`. The input is the sequence of already decoded blocks. A stream cut off in the middle of a block is not modelled.
- LociLibraryWriter is not part of this model. The magic number is a parameter, and the tag byte values are the constructors of `Block`.
- Sequence parts: the DEFLATE inflation (RFC 1951) and the Bit2Array decoding in readSequencePart are foreign library calls. A part is stored as already decoded (accession, start, nucleotides), and the `compressed` flag has no effect.
- The reader's listener callbacks only observe; they are not modelled.
- Chain.fromId, GeneType.get, GeneGroup, LociLibraryIOUtils.readReferenceGeneFeature and LocusContainer are not part of this model. A chain is its id; an unknown chain or gene type arrives as `None` in the block. A gene records its type and species/chain instead of its gene group and container.
- Anchor points and mutations are kept as the integers read. Turning them into reference points (getGeneTypeInfo(...).create) and Mutations objects is not modelled. The number of anchor integers read per gene type is part of byte decoding.
- LociReader.LociLibraryReader.ReadAllele: all checks run before the first change. The source may create a gene and then throw on an unknown parent. The exception ends the decode and drops the reader, so the difference cannot be observed.
- LociReader.AddAllele: a repeated allele name overwrites the name index. The source only asserts that the name is new, and Java assertions are off by default.
- Loci.Register: LocusContainer.getAllAlleles is not shown. It is taken as the per-type allele lists concatenated in V, D, J, C order.
- LociReader.LociLibraryReader.EndLocus: the freezing of the per-locus lists into unmodifiable copies is not modelled. Values have no aliasing, so nothing can observe it. container.setLibrary is not modelled either.
- Loci.LociLibrary.GetLocus: Species.fromString is not part of this model and is a parameter. getLocus(int, Chain) is inlined.
- Loci.LociLibrary.GetAllele: LocusContainer.getAllele is not shown. It is modelled as the container's name-to-allele lookup.
- The library's other getters are not modelled: getLociMap, getLoci, getProperty, getAllele(int, String), getGene and getAllAlleles(int).
- ReferencePointsBuilder: ReferencePoints.checkReferencePoints is a function-valued field of the builder. indexFromBasicReferencePoint and basicReferencePointFromIndex are the identity on slot indexes. `create` is the returned array.
- ReferencePointsBuilder.BuilderError: exception messages are error constructors, not text.
- PartitionedSequence.TotalLength: does not model 32-bit wrap-around of `size`. The source uses it only as a capacity hint, and the result does not depend on it.
- PartitionedSequence: SequencePartitioning, GeneFeature.isComposite, the sequence's getSequence and milib's Range are parameters of `Partitioned`. SeqBuilder is modelled as sequence concatenation.
- LibraryRegistry: the VDJCLibrary constructor and addGene are not part of this model. A library is its name, its context and the data it was built from. Its key is taken as (data taxon id, name).
- LibraryRegistry: pushing a fragment (resolve(...).setRegion(...)) is recorded in the `pushed` log instead. The choice of the default sequence resolver (getSequenceResolver) is not modelled.
- LibraryRegistry: registerLibraries, FolderLibraryResolver, addSearchPath and getLoadedLibrariesByNamePattern are JSON, filesystem and regular-expression I/O. getLoadedLibraries is not modelled.
- LibraryRegistry.RegisterSpec: `speciesNames` is only read, as in this file. Whatever VDJCLibrary does with the registry is not part of this model.
- LibraryRegistry.Registry.GetLoadedLibrariesByName: HashMap iteration order is unspecified. The result is stated as a set of libraries, one per key, in no particular order.
- The registry's `synchronized` methods and the resolver's synchronized `resolve`: the model is single-threaded.
- SequenceResolvers.AnySequenceResolver.Resolve: the TreeMap compares addresses with SequenceAddress's ordering, which is not shown. It is taken as value equality. CachedSequenceProvider is reduced to its failure message, and SequenceAddress.toString is not modelled.
- SequenceResolvers.Authority: java.net.URI's decoding of percent escapes in the authority is not modelled. A text without a valid scheme is treated as having no scheme. URI.create's rejection of malformed text is not modelled: addresses are taken as valid URIs.
- The HTTP fetching in HTTPSequenceResolver (network I/O) is not modelled. Only the address mapping is.
- The command-line actions, the two trimming models (floating-point distributions) and the tests are not part of this model.
