/**
 * The binary locus-library reader. A stream is a magic number followed by
 * tagged blocks; blocks are decoded one at a time, either with no locus open or
 * with one locus open whose gene and allele indexes the ALLELE blocks extend.
 *
 * The stream is modelled after byte decoding: each block is already split into
 * its fields. `Step`, `ReadAll` and `Decode` are the reader as functions on
 * values; the class `LociLibraryReader` is the imperative reader proved
 * against them.
 */
module LociReader {
  import opened Outcomes
  import opened Loci

  /**
   * The fields of an ALLELE block. `accession` and `points` are present when
   * flag bit 4 is set; `parentName`, `referenceFeature` and `mutations` when flag
   * bit 8 is set. `geneType` is None when the type byte names no gene type.
   */
  datatype AlleleRecord = AlleleRecord(
    geneType: Option<GeneType>,
    name: string,
    flags: bv8,
    accession: string,
    points: seq<int>,
    parentName: string,
    referenceFeature: seq<int>,
    mutations: seq<int>)

  predicate IsReference(flags: bv8) { flags & 1 != 0 }
  predicate IsFunctional(flags: bv8) { flags & 2 != 0 }
  predicate HasAnchors(flags: bv8) { flags & 4 != 0 }
  predicate HasParent(flags: bv8) { flags & 8 != 0 }

  /**
   * One block of the stream, by its tag. `UnknownBlock` is a tag byte that is
   * none of the eight known tags; `MagicBlock` is a magic number embedded in the
   * stream (its tag and three more bytes).
   */
  datatype Block =
    | MagicBlock
    | MetaBlock(key: string, value: string)
    | SequencePartBlock(compressed: bool, accession: string, from: int, sequence: seq<Nucleotide>)
    | LocusBeginBlock(chain: Option<Chain>, taxonId: int, leastSignificant: int, mostSignificant: int)
    | AlleleBlock(record: AlleleRecord)
    | LocusEndBlock
    | SpeciesNameBlock(taxonId: int, name: string)
    | UnknownBlock(tag: int)

  datatype Stream = Stream(magic: int, blocks: seq<Block>)

  /** The reasons a decode is abandoned (the exceptions the source throws). */
  datatype ReadError =
    | WrongMagic
    | UnknownRecordType(tag: int)
    | UnknownChain
    | UnknownGeneType
    | NoVariantDelimiter(alleleName: string)
    | NoOpenLocus
    | FirstAlleleNotReference
    | NoParentAllele
    | ParentNotReference
    | DuplicateLocus(speciesAndChain: SpeciesAndChain)
    | IllegalSpeciesNamePlace
    | PrematureEnd

  /** The library built so far and the open locus, if any. */
  datatype ReaderState = ReaderState(library: LibraryState, locus: Option<LocusContainer>)

  const Initial := ReaderState(EmptyLibrary, None)

  /** The position of the last `c` in `s`, or -1 (Java's lastIndexOf). */
  function LastIndexOf(s: string, c: char): (r: int)
    ensures -1 <= r < |s|
    ensures r == -1 <==> c !in s
    ensures r >= 0 ==> s[r] == c && c !in s[r + 1..]
  {
    if |s| == 0 then -1
    else if s[|s| - 1] == c then |s| - 1
    else
      var r := LastIndexOf(s[..|s| - 1], c);
      assert s[..|s| - 1] + [s[|s| - 1]] == s;
      r
  }

  /**
   * The gene name of an allele: the allele name up to its last '*'; None when
   * there is no '*' (the source's substring(0, -1) throws).
   */
  function GeneName(alleleName: string): (r: Option<string>)
    ensures r.None? <==> '*' !in alleleName
    ensures r.Some? ==>
      && |r.value| < |alleleName|
      && alleleName[..|r.value|] == r.value
      && alleleName[|r.value|] == '*'
      && '*' !in alleleName[|r.value| + 1..]
  {
    var i := LastIndexOf(alleleName, '*');
    if i < 0 then None else Some(alleleName[..i])
  }

  /** The open-locus context created by LOCUS_BEGIN: empty lists and indexes. */
  function NewLocus(uuid: Uuid, speciesAndChain: SpeciesAndChain): LocusContainer
  {
    LocusContainer(uuid, speciesAndChain, map[], EmptyPerType(), EmptyPerType(), map[], map[], [], map[])
  }

  /** The allele an accepted record becomes: a reference allele when flag bit 1 is set, else a variant. */
  function MakeAllele(gene: Gene, r: AlleleRecord, parent: Option<Allele>): Allele
  {
    if IsReference(r.flags) then
      ReferenceAllele(gene, r.name, IsFunctional(r.flags),
                      if HasAnchors(r.flags) then Some(r.accession) else None,
                      if HasAnchors(r.flags) then Some(r.points) else None)
    else
      AllelicVariant(r.name, IsFunctional(r.flags),
                     if HasParent(r.flags) then Some(r.referenceFeature) else None,
                     parent,
                     if HasParent(r.flags) then Some(r.mutations) else None)
  }

  /** The locus with gene `geneName` present: created, at the end of its type's list, when new. */
  function WithGene(c: LocusContainer, t: GeneType, geneName: string): LocusContainer
  {
    if geneName in c.nameToGene then c
    else
      var g := Gene(|ListAt(c.genes, t)|, geneName, t, c.speciesAndChain);
      c.(genes := c.genes[t := ListAt(c.genes, t) + [g]],
         nameToGene := c.nameToGene[geneName := g],
         allGenes := c.allGenes + [g])
  }

  /**
   * The open locus after an accepted ALLELE record of type `t` for gene `geneName`.
   * A new gene gets the index equal to the number of genes of its type so far and
   * is indexed by name; the allele is appended to its gene's list and to its
   * type's list, and indexed by its name.
   */
  function AddAllele(c: LocusContainer, t: GeneType, geneName: string, r: AlleleRecord,
                     parent: Option<Allele>): (d: LocusContainer)
    ensures geneName in d.nameToGene
    ensures geneName in c.nameToGene ==>
      d.nameToGene == c.nameToGene && d.genes == c.genes && d.allGenes == c.allGenes
    ensures geneName !in c.nameToGene ==>
      var g := d.nameToGene[geneName];
      && g == Gene(|ListAt(c.genes, t)|, geneName, t, c.speciesAndChain)
      && ListAt(d.genes, t) == ListAt(c.genes, t) + [g]
      && (forall u | u != t :: ListAt(d.genes, u) == ListAt(c.genes, u))
      && d.nameToGene == c.nameToGene[geneName := g]
      && d.allGenes == c.allGenes + [g]
    ensures var a := MakeAllele(d.nameToGene[geneName], r, parent);
      && ListAt(d.alleles, t) == ListAt(c.alleles, t) + [a]
      && (forall u | u != t :: ListAt(d.alleles, u) == ListAt(c.alleles, u))
      && ListAt(d.geneAlleles, geneName) == ListAt(c.geneAlleles, geneName) + [a]
      && (forall n | n != geneName :: ListAt(d.geneAlleles, n) == ListAt(c.geneAlleles, n))
      && d.nameToAllele == c.nameToAllele[r.name := a]
    ensures d.uuid == c.uuid && d.speciesAndChain == c.speciesAndChain && d.properties == c.properties
  {
    var c1 := WithGene(c, t, geneName);
    var a := MakeAllele(c1.nameToGene[geneName], r, parent);
    c1.(alleles := c1.alleles[t := ListAt(c1.alleles, t) + [a]],
        nameToAllele := c1.nameToAllele[r.name := a],
        geneAlleles := c1.geneAlleles[geneName := ListAt(c1.geneAlleles, geneName) + [a]])
  }

  /** An ALLELE block, with the source's checks in the source's order. */
  function ReadAlleleSpec(s: ReaderState, r: AlleleRecord): Result<ReaderState, ReadError>
  {
    if r.geneType.None? then Err(UnknownGeneType)
    else if GeneName(r.name).None? then Err(NoVariantDelimiter(r.name))
    else if s.locus.None? then Err(NoOpenLocus)
    else
      var c := s.locus.value;
      var geneName := GeneName(r.name).value;
      if geneName !in c.nameToGene && !HasAnchors(r.flags) then Err(FirstAlleleNotReference)
      else if HasParent(r.flags) && r.parentName !in c.nameToAllele then Err(NoParentAllele)
      else
        var parent := if HasParent(r.flags) then Some(c.nameToAllele[r.parentName]) else None;
        if !IsReference(r.flags) && parent.Some? && !parent.value.ReferenceAllele? then Err(ParentNotReference)
        else Ok(s.(locus := Some(AddAllele(c, r.geneType.value, geneName, r, parent))))
  }

  /** A LOCUS_END block: the open locus is registered into the library and closed. */
  function EndLocusSpec(s: ReaderState): Result<ReaderState, ReadError>
  {
    if s.locus.None? then Err(NoOpenLocus)
    else match Register(s.library, s.locus.value)
      case Err(key) => Err(DuplicateLocus(key))
      case Ok(lib) => Ok(ReaderState(lib, None))
  }

  /** One block. A failing block leaves the state as it was. */
  function Step(s: ReaderState, b: Block): Result<ReaderState, ReadError>
  {
    match b
    case MagicBlock => Ok(s)
    case MetaBlock(key, value) =>
      if s.locus.None? then Ok(s.(library := s.library.(properties := s.library.properties[key := value])))
      else Ok(s.(locus := Some(s.locus.value.(properties := s.locus.value.properties[key := value]))))
    case SequencePartBlock(_, accession, from, sequence) =>
      Ok(s.(library := s.library.(base := s.library.base + [SequencePart(accession, from, sequence)])))
    case LocusBeginBlock(chain, taxonId, lsb, msb) =>
      if chain.None? then Err(UnknownChain)
      else Ok(s.(locus := Some(NewLocus(Uuid(msb, lsb), SpeciesAndChain(taxonId, chain.value)))))
    case AlleleBlock(r) => ReadAlleleSpec(s, r)
    case LocusEndBlock => EndLocusSpec(s)
    case SpeciesNameBlock(taxonId, name) =>
      if s.locus.Some? then Err(IllegalSpeciesNamePlace)
      else Ok(s.(library := s.library.(knownSpecies := s.library.knownSpecies[name := taxonId])))
    case UnknownBlock(tag) => Err(UnknownRecordType(tag))
  }

  /** The state reached and, when a block failed, the error (the state is the one before that block). */
  datatype Progress = Progress(state: ReaderState, error: Option<ReadError>)

  /** The blocks read in order until one fails. */
  function ReadAll(s: ReaderState, blocks: seq<Block>): Progress
    decreases |blocks|
  {
    if blocks == [] then Progress(s, None)
    else match Step(s, blocks[0])
      case Err(e) => Progress(s, Some(e))
      case Ok(s') => ReadAll(s', blocks[1..])
  }

  /** All blocks, then the end-of-stream check: a locus still open is a premature end. */
  function ReadToEndSpec(s: ReaderState, blocks: seq<Block>): Progress
  {
    var p := ReadAll(s, blocks);
    if p.error.None? && p.state.locus.Some? then Progress(p.state, Some(PrematureEnd)) else p
  }

  /** A whole stream: the magic number is checked before any block is read. */
  function Decode(stream: Stream, magic: int): (r: Result<LibraryState, ReadError>)
    ensures stream.magic != magic ==> r == Err(WrongMagic)
    ensures r.Ok? ==> ReadAll(Initial, stream.blocks) == Progress(ReaderState(r.value, None), None)
    ensures forall lib: LibraryState | stream.magic == magic
              && ReadAll(Initial, stream.blocks) == Progress(ReaderState(lib, None), None) :: r == Ok(lib)
  {
    if stream.magic != magic then Err(WrongMagic)
    else
      var p := ReadToEndSpec(Initial, stream.blocks);
      if p.error.Some? then Err(p.error.value) else Ok(p.state.library)
  }

  // ---------------------------------------------------------------------------
  // Properties of the decoder

  /** Reading `a + b` is reading `a`, then, if nothing failed, reading `b`. */
  lemma {:induction false} ReadAllAppend(s: ReaderState, a: seq<Block>, b: seq<Block>)
    ensures ReadAll(s, a + b) ==
      (var p := ReadAll(s, a); if p.error.Some? then p else ReadAll(p.state, b))
    decreases |a|
  {
    if a == [] {
      assert a + b == b;
    } else {
      assert (a + b)[0] == a[0];
      assert (a + b)[1..] == a[1..] + b;
      match Step(s, a[0])
      case Err(e) =>
      case Ok(s') => ReadAllAppend(s', a[1..], b);
    }
  }

  /** Once any block has an unknown tag, reading cannot succeed. */
  lemma {:induction false} UnknownTagFails(s: ReaderState, blocks: seq<Block>, k: nat)
    requires k < |blocks| && blocks[k].UnknownBlock?
    ensures ReadAll(s, blocks).error.Some?
    decreases k
  {
    match Step(s, blocks[0])
    case Err(e) =>
    case Ok(s') => UnknownTagFails(s', blocks[1..], k - 1);
  }

  /** A stream containing an unknown tag is rejected. */
  lemma UnknownTagRejected(stream: Stream, magic: int, k: nat)
    requires k < |stream.blocks| && stream.blocks[k].UnknownBlock?
    ensures Decode(stream, magic).Err?
  {
    UnknownTagFails(Initial, stream.blocks, k);
  }

  /** The first failing block is an unknown tag: that is the error reported. */
  lemma UnknownTagReported(stream: Stream, magic: int, k: nat)
    requires stream.magic == magic
    requires k < |stream.blocks| && stream.blocks[k].UnknownBlock?
    requires ReadAll(Initial, stream.blocks[..k]).error.None?
    ensures Decode(stream, magic) == Err(UnknownRecordType(stream.blocks[k].tag))
  {
    assert stream.blocks == stream.blocks[..k] + stream.blocks[k..];
    ReadAllAppend(Initial, stream.blocks[..k], stream.blocks[k..]);
  }

  /** An embedded magic block changes nothing. */
  lemma MagicBlockIsNeutral(s: ReaderState, a: seq<Block>, b: seq<Block>)
    ensures ReadAll(s, a + [MagicBlock] + b) == ReadAll(s, a + b)
  {
    ReadAllAppend(s, a, [MagicBlock] + b);
    ReadAllAppend(s, a, b);
    assert a + [MagicBlock] + b == a + ([MagicBlock] + b);
    assert ([MagicBlock] + b)[1..] == b;
  }

  /** With a locus open, blocks other than LOCUS_END leave a locus open. */
  lemma {:induction false} StaysOpen(s: ReaderState, blocks: seq<Block>)
    requires s.locus.Some?
    requires forall i | 0 <= i < |blocks| :: !blocks[i].LocusEndBlock?
    ensures ReadAll(s, blocks).state.locus.Some?
    decreases |blocks|
  {
    if blocks != [] {
      match Step(s, blocks[0])
      case Err(e) =>
      case Ok(s') => StaysOpen(s', blocks[1..]);
    }
  }

  /** A LOCUS_BEGIN with no LOCUS_END after it makes the decode fail. */
  lemma UnclosedLocusRejected(stream: Stream, magic: int, k: nat)
    requires k < |stream.blocks| && stream.blocks[k].LocusBeginBlock?
    requires forall i | k < i < |stream.blocks| :: !stream.blocks[i].LocusEndBlock?
    ensures Decode(stream, magic).Err?
  {
    var bs := stream.blocks;
    assert bs == bs[..k + 1] + bs[k + 1..];
    ReadAllAppend(Initial, bs[..k + 1], bs[k + 1..]);
    assert bs[..k + 1] == bs[..k] + [bs[k]];
    ReadAllAppend(Initial, bs[..k], [bs[k]]);
    var p := ReadAll(Initial, bs[..k + 1]);
    if p.error.None? {
      assert p.state.locus.Some?;
      StaysOpen(p.state, bs[k + 1..]);
    }
  }

  /** The names of the alleles that the ALLELE blocks in `blocks` define. */
  function AlleleNames(blocks: seq<Block>): set<string>
  {
    set i | 0 <= i < |blocks| && blocks[i].AlleleBlock? :: blocks[i].record.name
  }

  /** Blocks that neither open nor close a locus. */
  predicate InsideLocus(blocks: seq<Block>)
  {
    forall i | 0 <= i < |blocks| :: !blocks[i].LocusBeginBlock? && !blocks[i].LocusEndBlock?
  }

  lemma AlleleNamesCons(w: seq<Block>)
    requires w != []
    ensures AlleleNames(w) == AlleleNames([w[0]]) + AlleleNames(w[1..])
  {
    forall n | n in AlleleNames(w) ensures n in AlleleNames([w[0]]) + AlleleNames(w[1..]) {
      var i :| 0 <= i < |w| && w[i].AlleleBlock? && w[i].record.name == n;
      if i > 0 {
        assert w[1..][i - 1] == w[i];
      } else {
        assert [w[0]][0] == w[i];
      }
    }
    forall n | n in AlleleNames(w[1..]) ensures n in AlleleNames(w) {
      var i :| 0 <= i < |w[1..]| && w[1..][i].AlleleBlock? && w[1..][i].record.name == n;
      assert w[i + 1] == w[1..][i];
    }
  }

  /** One block inside a locus adds its allele name, if any, to the allele index. */
  lemma StepIndexesAlleleName(s: ReaderState, b: Block)
    requires s.locus.Some? && !b.LocusBeginBlock? && !b.LocusEndBlock? && Step(s, b).Ok?
    ensures Step(s, b).value.locus.Some?
    ensures Step(s, b).value.locus.value.nameToAllele.Keys
            == s.locus.value.nameToAllele.Keys + AlleleNames([b])
  {
    if b.AlleleBlock? {
      assert [b][0] == b;
      assert AlleleNames([b]) == {b.record.name};
    } else {
      assert AlleleNames([b]) == {};
    }
  }

  /** Inside one locus, the allele index holds exactly the alleles read so far in it. */
  lemma {:induction false} IndexedAlleleNames(s: ReaderState, w: seq<Block>)
    requires s.locus.Some? && InsideLocus(w)
    requires ReadAll(s, w).error.None?
    ensures ReadAll(s, w).state.locus.Some?
    ensures ReadAll(s, w).state.locus.value.nameToAllele.Keys
            == s.locus.value.nameToAllele.Keys + AlleleNames(w)
    decreases |w|
  {
    if w == [] {
      assert AlleleNames(w) == {};
    } else {
      StepIndexesAlleleName(s, w[0]);
      var s' := Step(s, w[0]).value;
      IndexedAlleleNames(s', w[1..]);
      AlleleNamesCons(w);
    }
  }

  /**
   * A parent must precede its variant in the same locus: after LOCUS_BEGIN and
   * blocks `w` inside that locus, an ALLELE record naming a parent that no record
   * of `w` defined is rejected.
   */
  lemma ParentMustPrecedeVariant(s: ReaderState, begin: Block, w: seq<Block>, r: AlleleRecord)
    requires begin.LocusBeginBlock? && begin.chain.Some?
    requires InsideLocus(w)
    requires ReadAll(s, [begin] + w).error.None?
    requires r.geneType.Some? && '*' in r.name && HasParent(r.flags)
    requires r.parentName !in AlleleNames(w)
    ensures ReadAll(s, [begin] + w + [AlleleBlock(r)]).error in
            {Some(FirstAlleleNotReference), Some(NoParentAllele)}
  {
    var s1 := Step(s, begin).value;
    assert ([begin] + w)[1..] == w;
    IndexedAlleleNames(s1, w);
    ReadAllAppend(s, [begin] + w, [AlleleBlock(r)]);
  }

  /**
   * Gene indexes are positions: each gene of a type sits at its own index in
   * that type's list, every gene is indexed by its name exactly once, and the list
   * of all genes holds each indexed gene once.
   */
  ghost predicate WellFormedLocus(c: LocusContainer)
  {
    TypeListsIndexed(c) && NameIndexConsistent(c) && AllGenesIndexed(c) && AllGenesDistinct(c)
  }

  ghost predicate TypeListsIndexed(c: LocusContainer)
  {
    forall t, i | 0 <= i < |ListAt(c.genes, t)| ::
      && ListAt(c.genes, t)[i].index == i
      && ListAt(c.genes, t)[i].geneType == t
      && ListAt(c.genes, t)[i].name in c.nameToGene
      && c.nameToGene[ListAt(c.genes, t)[i].name] == ListAt(c.genes, t)[i]
  }

  ghost predicate NameIndexConsistent(c: LocusContainer)
  {
    forall n | n in c.nameToGene ::
      && c.nameToGene[n].name == n
      && c.nameToGene[n].index < |ListAt(c.genes, c.nameToGene[n].geneType)|
      && c.nameToGene[n] in c.allGenes
  }

  ghost predicate AllGenesIndexed(c: LocusContainer)
  {
    forall i | 0 <= i < |c.allGenes| ::
      c.allGenes[i].name in c.nameToGene && c.nameToGene[c.allGenes[i].name] == c.allGenes[i]
  }

  ghost predicate AllGenesDistinct(c: LocusContainer)
  {
    forall i, j | 0 <= i < j < |c.allGenes| :: c.allGenes[i].name != c.allGenes[j].name
  }

  /** The open locus and every registered locus are well formed, each under its own key. */
  ghost predicate WellFormed(s: ReaderState)
  {
    && (s.locus.Some? ==> WellFormedLocus(s.locus.value))
    && KeyedByOwnSpecies(s.library.loci)
    && (forall k | k in s.library.loci :: WellFormedLocus(s.library.loci[k]))
  }

  lemma WithGeneWellFormed(c: LocusContainer, t: GeneType, geneName: string)
    requires WellFormedLocus(c)
    ensures WellFormedLocus(WithGene(c, t, geneName))
  {
    if geneName !in c.nameToGene {
      WithGeneTypeListsIndexed(c, t, geneName);
      WithGeneAllGenesDistinct(c, t, geneName);
    }
  }

  lemma WithGeneTypeListsIndexed(c: LocusContainer, t: GeneType, geneName: string)
    requires TypeListsIndexed(c) && geneName !in c.nameToGene
    ensures TypeListsIndexed(WithGene(c, t, geneName))
  {
    var d := WithGene(c, t, geneName);
    var g := Gene(|ListAt(c.genes, t)|, geneName, t, c.speciesAndChain);
    forall u, i | 0 <= i < |ListAt(d.genes, u)|
      ensures ListAt(d.genes, u)[i].index == i && ListAt(d.genes, u)[i].geneType == u
      ensures ListAt(d.genes, u)[i].name in d.nameToGene
      ensures d.nameToGene[ListAt(d.genes, u)[i].name] == ListAt(d.genes, u)[i]
    {
      if u == t && i == |ListAt(c.genes, t)| {
        assert ListAt(d.genes, u)[i] == g;
      } else {
        assert ListAt(d.genes, u)[i] == ListAt(c.genes, u)[i];
      }
    }
  }

  lemma WithGeneAllGenesDistinct(c: LocusContainer, t: GeneType, geneName: string)
    requires AllGenesIndexed(c) && AllGenesDistinct(c) && geneName !in c.nameToGene
    ensures AllGenesDistinct(WithGene(c, t, geneName))
  {
    var d := WithGene(c, t, geneName);
    forall i, j | 0 <= i < j < |d.allGenes| ensures d.allGenes[i].name != d.allGenes[j].name {
      if j == |c.allGenes| {
        assert d.allGenes[i] == c.allGenes[i];
      }
    }
  }

  lemma AddAlleleWellFormed(c: LocusContainer, t: GeneType, geneName: string, r: AlleleRecord,
                            parent: Option<Allele>)
    requires WellFormedLocus(c)
    ensures WellFormedLocus(AddAllele(c, t, geneName, r, parent))
  {
    WithGeneWellFormed(c, t, geneName);
    var c1 := WithGene(c, t, geneName);
    var d := AddAllele(c, t, geneName, r, parent);
    assert d.genes == c1.genes && d.nameToGene == c1.nameToGene && d.allGenes == c1.allGenes;
  }

  lemma NewLocusWellFormed(uuid: Uuid, speciesAndChain: SpeciesAndChain)
    ensures WellFormedLocus(NewLocus(uuid, speciesAndChain))
  {
  }

  lemma {:induction false} StepWellFormed(s: ReaderState, b: Block)
    requires WellFormed(s) && Step(s, b).Ok?
    ensures WellFormed(Step(s, b).value)
  {
    match b
    case MetaBlock(key, value) =>
      if s.locus.Some? {
        var c := s.locus.value;
        var d := c.(properties := c.properties[key := value]);
        assert d.genes == c.genes && d.nameToGene == c.nameToGene && d.allGenes == c.allGenes;
      }
    case LocusBeginBlock(chain, taxonId, lsb, msb) =>
      NewLocusWellFormed(Uuid(msb, lsb), SpeciesAndChain(taxonId, chain.value));
    case AlleleBlock(r) =>
      var c := s.locus.value;
      var geneName := GeneName(r.name).value;
      var parent := if HasParent(r.flags) then Some(c.nameToAllele[r.parentName]) else None;
      AddAlleleWellFormed(c, r.geneType.value, geneName, r, parent);
    case LocusEndBlock =>
      RegisterKeepsKeys(s.library, s.locus.value);
    case _ =>
  }

  /** Every state reached from a well-formed one is well formed. */
  lemma {:induction false} ReadAllWellFormed(s: ReaderState, blocks: seq<Block>)
    requires WellFormed(s)
    ensures WellFormed(ReadAll(s, blocks).state)
    decreases |blocks|
  {
    if blocks != [] && Step(s, blocks[0]).Ok? {
      StepWellFormed(s, blocks[0]);
      ReadAllWellFormed(Step(s, blocks[0]).value, blocks[1..]);
    }
  }

  /** Every locus of a decoded library is well formed and stored under its own key. */
  lemma DecodedLibraryWellFormed(stream: Stream, magic: int)
    requires Decode(stream, magic).Ok?
    ensures KeyedByOwnSpecies(Decode(stream, magic).value.loci)
    ensures forall k | k in Decode(stream, magic).value.loci ::
              WellFormedLocus(Decode(stream, magic).value.loci[k])
  {
    ReadAllWellFormed(Initial, stream.blocks);
  }

  /** META goes to the library when no locus is open, to the open locus otherwise. */
  lemma MetaRouting(s: ReaderState, key: string, value: string)
    ensures Step(s, MetaBlock(key, value)).Ok?
    ensures var n := Step(s, MetaBlock(key, value)).value;
      && (s.locus.None? ==>
            n == ReaderState(s.library.(properties := s.library.properties[key := value]), None))
      && (s.locus.Some? ==>
            n == ReaderState(s.library, Some(s.locus.value.(properties := s.locus.value.properties[key := value]))))
  {
  }

  /** SPECIES_NAME is rejected inside a locus and otherwise records name -> taxon id. */
  lemma SpeciesNameRouting(s: ReaderState, taxonId: int, name: string)
    ensures s.locus.Some? ==> Step(s, SpeciesNameBlock(taxonId, name)) == Err(IllegalSpeciesNamePlace)
    ensures s.locus.None? ==>
      && Step(s, SpeciesNameBlock(taxonId, name)).Ok?
      && Step(s, SpeciesNameBlock(taxonId, name)).value.library.knownSpecies
         == s.library.knownSpecies[name := taxonId]
  {
  }

  /** LOCUS_BEGIN over an open locus drops it unregistered and opens a fresh one. */
  lemma LocusBeginReplaces(s: ReaderState, chain: Chain, taxonId: int, lsb: int, msb: int)
    ensures var n := Step(s, LocusBeginBlock(Some(chain), taxonId, lsb, msb)).value;
      && n.library == s.library
      && n.locus == Some(NewLocus(Uuid(msb, lsb), SpeciesAndChain(taxonId, chain)))
      && n.locus.value.nameToAllele == map[] && n.locus.value.nameToGene == map[]
  {
  }

  /** LOCUS_END registers the open locus and closes the context. */
  lemma LocusEndRegisters(s: ReaderState)
    requires s.locus.Some? && s.locus.value.speciesAndChain !in s.library.loci
    ensures var n := Step(s, LocusEndBlock).value;
      && n.locus.None?
      && n.library.loci[s.locus.value.speciesAndChain] == s.locus.value
  {
  }

  /** A new gene whose first record carries no anchors is rejected. */
  lemma FirstAlleleNeedsAnchors(s: ReaderState, r: AlleleRecord)
    requires s.locus.Some? && r.geneType.Some? && GeneName(r.name).Some?
    requires GeneName(r.name).value !in s.locus.value.nameToGene && !HasAnchors(r.flags)
    ensures Step(s, AlleleBlock(r)) == Err(FirstAlleleNotReference)
  {
  }

  // ---------------------------------------------------------------------------
  // The imperative reader

  lemma EndLocusRejects(before: ReaderState)
    requires before.locus.Some? && before.locus.value.speciesAndChain in before.library.loci
    ensures Step(before, LocusEndBlock) == Err(DuplicateLocus(before.locus.value.speciesAndChain))
  {
  }

  lemma EndLocusRegisters(before: ReaderState, registered: LibraryState)
    requires before.locus.Some? && Register(before.library, before.locus.value) == Ok(registered)
    ensures Step(before, LocusEndBlock) == Ok(ReaderState(registered, None))
  {
  }

  /** Header of the open locus container. */
  datatype LocusHeader = LocusHeader(uuid: Uuid, speciesAndChain: SpeciesAndChain, properties: map<string, string>)

  /** The block outcome `res` was followed: the new state on success, the old one and the error otherwise. */
  ghost predicate Follows(res: Result<ReaderState, ReadError>, err: Option<ReadError>,
                          before: ReaderState, after: ReaderState)
  {
    match res
    case Ok(s) => err.None? && after == s
    case Err(e) => err == Some(e) && after == before
  }

  class LociLibraryReader {
    const library: LociLibrary
    var container: Option<LocusHeader>
    var genes: map<GeneType, seq<Gene>>
    var alleles: map<GeneType, seq<Allele>>
    var nameToGenes: map<string, Gene>
    var nameToAlleles: map<string, Allele>
    var allGenes: seq<Gene>
    /** The allele list of each gene of the open locus, by gene name. */
    var geneAlleles: map<string, seq<Allele>>

    /** The per-locus fields are cleared whenever no locus is open. */
    ghost predicate Valid()
      reads this, library
    {
      && library.Valid()
      && (container.None? ==>
            genes == map[] && alleles == map[] && nameToGenes == map[]
            && nameToAlleles == map[] && allGenes == [] && geneAlleles == map[])
    }

    /** The reader's state as a value. */
    function State(): ReaderState
      reads this, library
    {
      ReaderState(library.State(),
        match container
        case None => None
        case Some(h) => Some(LocusContainer(h.uuid, h.speciesAndChain, h.properties, genes, alleles,
                                            nameToGenes, nameToAlleles, allGenes, geneAlleles)))
    }

    constructor ()
      ensures Valid() && fresh(library) && State() == Initial
    {
      library := new LociLibrary();
      container := None;
      genes, alleles := map[], map[];
      nameToGenes, nameToAlleles := map[], map[];
      allGenes, geneAlleles := [], map[];
    }

    /** Reads a whole stream into a fresh library. */
    static method Read(stream: Stream, magic: int) returns (r: Result<LociLibrary, ReadError>)
      ensures r.Ok? <==> Decode(stream, magic).Ok?
      ensures r.Ok? ==> fresh(r.value) && r.value.Valid() && r.value.State() == Decode(stream, magic).value
      ensures r.Err? ==> r.error == Decode(stream, magic).error
    {
      var reader := new LociLibraryReader();
      var err := reader.CheckMagic(stream.magic, magic);
      if err.None? {
        err := reader.ReadToEnd(stream.blocks);
      }
      if err.Some? {
        return Err(err.value);
      }
      return Ok(reader.library);
    }

    /** The leading magic number must be the expected one. */
    method CheckMagic(found: int, magic: int) returns (err: Option<ReadError>)
      ensures err == (if found != magic then Some(WrongMagic) else None)
    {
      if found != magic {
        return Some(WrongMagic);
      }
      return None;
    }

    /** Reads blocks until one fails, then rejects a locus left open. */
    method ReadToEnd(blocks: seq<Block>) returns (err: Option<ReadError>)
      requires Valid()
      modifies this, library
      ensures Valid()
      ensures ReadToEndSpec(old(State()), blocks) == Progress(State(), err)
    {
      var i := 0;
      while i < |blocks|
        invariant 0 <= i <= |blocks|
        invariant Valid()
        invariant ReadAll(old(State()), blocks) == ReadAll(State(), blocks[i..])
      {
        assert blocks[i..][0] == blocks[i] && blocks[i..][1..] == blocks[i + 1..];
        err := ReadBlock(blocks[i]);
        if err.Some? {
          return;
        }
        i := i + 1;
      }
      err := None;
      if container.Some? {
        err := Some(PrematureEnd);
      }
    }

    /** Dispatches one block by its tag. */
    method ReadBlock(b: Block) returns (err: Option<ReadError>)
      requires Valid()
      modifies this, library
      ensures Valid()
      ensures Follows(Step(old(State()), b), err, old(State()), State())
    {
      match b
      case MagicBlock => err := SkipMagic();
      case MetaBlock(key, value) => err := ReadMeta(key, value);
      case SequencePartBlock(compressed, accession, from, sequence) =>
        err := ReadSequencePart(compressed, accession, from, sequence);
      case LocusBeginBlock(chain, taxonId, lsb, msb) => err := BeginLocus(chain, taxonId, lsb, msb);
      case AlleleBlock(r) => err := ReadAllele(r);
      case LocusEndBlock => err := EndLocus();
      case SpeciesNameBlock(taxonId, name) => err := ReadSpeciesName(taxonId, name);
      case UnknownBlock(tag) => err := Some(UnknownRecordType(tag));
    }

    method SkipMagic() returns (err: Option<ReadError>)
      ensures err.None?
    {
      err := None;
    }

    method ReadMeta(key: string, value: string) returns (err: Option<ReadError>)
      requires Valid()
      modifies this, library
      ensures Valid()
      ensures Follows(Step(old(State()), MetaBlock(key, value)), err, old(State()), State())
    {
      if container.None? {
        library.properties := library.properties[key := value];
      } else {
        container := Some(container.value.(properties := container.value.properties[key := value]));
      }
      err := None;
    }

    /** The sequence content itself is taken as already decoded. */
    method ReadSequencePart(compressed: bool, accession: string, from: int, sequence: seq<Nucleotide>)
      returns (err: Option<ReadError>)
      requires Valid()
      modifies library
      ensures Valid()
      ensures Follows(Step(old(State()), SequencePartBlock(compressed, accession, from, sequence)),
                      err, old(State()), State())
    {
      library.base := library.base + [SequencePart(accession, from, sequence)];
      err := None;
    }

    method BeginLocus(chain: Option<Chain>, taxonId: int, lsb: int, msb: int) returns (err: Option<ReadError>)
      requires Valid()
      modifies this
      ensures Valid()
      ensures Follows(Step(old(State()), LocusBeginBlock(chain, taxonId, lsb, msb)), err, old(State()), State())
    {
      if chain.None? {
        return Some(UnknownChain);
      }
      genes := EmptyPerType();
      alleles := EmptyPerType();
      container := Some(LocusHeader(Uuid(msb, lsb), SpeciesAndChain(taxonId, chain.value), map[]));
      nameToGenes, nameToAlleles, allGenes := map[], map[], [];
      geneAlleles := map[];
      err := None;
    }

    /**
     * All checks come before the first change; the source may create a gene before
     * its parent check throws, but the throw ends the decode.
     */
    method ReadAllele(r: AlleleRecord) returns (err: Option<ReadError>)
      requires Valid()
      modifies this
      ensures Valid()
      ensures Follows(Step(old(State()), AlleleBlock(r)), err, old(State()), State())
    {
      if r.geneType.None? {
        return Some(UnknownGeneType);
      }
      var geneType := r.geneType.value;
      var star := LastIndexOf(r.name, '*');
      if star < 0 {
        return Some(NoVariantDelimiter(r.name));
      }
      var geneName := r.name[..star];
      if container.None? {
        return Some(NoOpenLocus);
      }
      if geneName !in nameToGenes && !HasAnchors(r.flags) {
        return Some(FirstAlleleNotReference);
      }
      var parent: Option<Allele> := None;
      if HasParent(r.flags) {
        if r.parentName !in nameToAlleles {
          return Some(NoParentAllele);
        }
        parent := Some(nameToAlleles[r.parentName]);
      }
      if !IsReference(r.flags) && parent.Some? && !parent.value.ReferenceAllele? {
        return Some(ParentNotReference);
      }
      AppendAllele(geneType, geneName, r, parent);
      err := None;
    }

    /** Creates the gene when it is new, then appends and indexes the allele. */
    method AppendAllele(geneType: GeneType, geneName: string, r: AlleleRecord, parent: Option<Allele>)
      requires Valid() && container.Some?
      modifies this
      ensures Valid()
      ensures State() == old(State()).(locus := Some(AddAllele(old(State()).locus.value, geneType, geneName, r, parent)))
    {
      if geneName !in nameToGenes {
        var gs := ListAt(genes, geneType);
        var created := Gene(|gs|, geneName, geneType, container.value.speciesAndChain);
        genes := genes[geneType := gs + [created]];
        nameToGenes := nameToGenes[geneName := created];
        allGenes := allGenes + [created];
      }
      var allele := MakeAllele(nameToGenes[geneName], r, parent);
      geneAlleles := geneAlleles[geneName := ListAt(geneAlleles, geneName) + [allele]];
      alleles := alleles[geneType := ListAt(alleles, geneType) + [allele]];
      nameToAlleles := nameToAlleles[r.name := allele];
    }

    /** Registers the open locus into the library and clears the per-locus fields. */
    method EndLocus() returns (err: Option<ReadError>)
      requires Valid()
      modifies this, library
      ensures Valid()
      ensures Follows(Step(old(State()), LocusEndBlock), err, old(State()), State())
    {
      if container.None? {
        return Some(NoOpenLocus);
      }
      ghost var before := State();
      var h := container.value;
      var locus := LocusContainer(h.uuid, h.speciesAndChain, h.properties, genes, alleles,
                                  nameToGenes, nameToAlleles, allGenes, geneAlleles);
      assert before.locus == Some(locus);
      var ok := library.RegisterContainer(locus);
      if !ok {
        EndLocusRejects(before);
        assert State() == before;
        return Some(DuplicateLocus(locus.speciesAndChain));
      }
      ghost var registered := library.State();
      ClearLocus();
      err := None;
      EndLocusRegisters(before, registered);
    }

    /** Closes the locus context: drops the header and empties the per-locus collections. */
    method ClearLocus()
      requires library.Valid()
      modifies this
      ensures Valid() && State() == ReaderState(library.State(), None)
    {
      container := None;
      genes, alleles := map[], map[];
      nameToAlleles, nameToGenes := map[], map[];
      allGenes, geneAlleles := [], map[];
    }

    method ReadSpeciesName(taxonId: int, name: string) returns (err: Option<ReadError>)
      requires Valid()
      modifies library
      ensures Valid()
      ensures Follows(Step(old(State()), SpeciesNameBlock(taxonId, name)), err, old(State()), State())
    {
      if container.Some? {
        return Some(IllegalSpeciesNamePlace);
      }
      library.knownSpecies := library.knownSpecies[name := taxonId];
      err := None;
    }
  }
}
