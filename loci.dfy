/**
 * The locus library: genes and alleles grouped by species and chain, and the
 * store (`LociLibrary`) into which the binary reader registers each locus.
 */
module Loci {
  import opened Outcomes

  /** The four gene types, in their declaration order. */
  datatype GeneType = Variable | Diversity | Joining | Constant

  /** A chain, as the id that Chain.fromId accepted (the Chain enum is not part of this model). */
  type Chain = string

  /** Key of a locus: one chain of one species (taxon id). */
  datatype SpeciesAndChain = SpeciesAndChain(taxonId: int, chain: Chain)

  datatype Uuid = Uuid(mostSignificant: int, leastSignificant: int)

  datatype Nucleotide = A | C | G | T

  /**
   * A gene of one locus. `index` is its position among the genes of its type;
   * the list of its alleles lives in the owning container (`geneAlleles`).
   */
  datatype Gene = Gene(index: nat, name: string, geneType: GeneType, speciesAndChain: SpeciesAndChain)

  /**
   * A reference allele carries its accession and anchor points (when the record had them);
   * an allelic variant carries the reference allele it derives from, the gene feature its
   * mutations are expressed against, and the encoded mutations.
   */
  datatype Allele =
    | ReferenceAllele(gene: Gene, name: string, functional: bool,
                      accession: Option<string>, points: Option<seq<int>>)
    | AllelicVariant(name: string, functional: bool, referenceFeature: Option<seq<int>>,
                     parent: Option<Allele>, mutations: Option<seq<int>>)

  /** The list stored under `k`, or the empty list when there is none. */
  function ListAt<K, T>(m: map<K, seq<T>>, k: K): seq<T>
  {
    if k in m then m[k] else []
  }

  /** A per-gene-type map holding an empty list for every type, as built at LOCUS_BEGIN. */
  function EmptyPerType<T>(): (m: map<GeneType, seq<T>>)
    ensures m.Keys == {Variable, Diversity, Joining, Constant}
    ensures forall t | t in m :: m[t] == []
  {
    map[Variable := [], Diversity := [], Joining := [], Constant := []]
  }

  /**
   * The genes and alleles of one locus, with their name indexes.
   * `geneAlleles` maps a gene name to the gene's own allele list.
   */
  datatype LocusContainer = LocusContainer(
    uuid: Uuid,
    speciesAndChain: SpeciesAndChain,
    properties: map<string, string>,
    genes: map<GeneType, seq<Gene>>,
    alleles: map<GeneType, seq<Allele>>,
    nameToGene: map<string, Gene>,
    nameToAllele: map<string, Allele>,
    allGenes: seq<Gene>,
    geneAlleles: map<string, seq<Allele>>)
  {
    /** All alleles of the locus: the per-type lists in gene-type order. */
    function AllAlleles(): seq<Allele>
    {
      ListAt(alleles, Variable) + ListAt(alleles, Diversity)
        + ListAt(alleles, Joining) + ListAt(alleles, Constant)
    }
  }

  /** One SEQUENCE_PART entry put into the library's sequence base. */
  datatype SequencePart = SequencePart(accession: string, from: int, sequence: seq<Nucleotide>)

  /** The whole state of a locus library, as a value. */
  datatype LibraryState = LibraryState(
    base: seq<SequencePart>,
    allAlleles: seq<Allele>,
    knownSpecies: map<string, int>,
    properties: map<string, string>,
    alleles: map<int, map<string, Allele>>,
    genes: map<int, map<string, Gene>>,
    loci: map<SpeciesAndChain, LocusContainer>)

  const EmptyLibrary := LibraryState([], [], map[], map[], map[], map[], map[])

  /** The name index stored for a taxon, or the empty index. */
  function IndexAt<V>(m: map<int, map<string, V>>, taxonId: int): map<string, V>
  {
    if taxonId in m then m[taxonId] else map[]
  }

  /**
   * The per-taxon index `m` after the source's get-or-create of taxon `t`'s index
   * followed by `putAll(entries)`: the new entries win, every other entry stays.
   */
  function MergeInto<V>(m: map<int, map<string, V>>, t: int, entries: map<string, V>): (r: map<int, map<string, V>>)
    ensures t in r && r[t].Keys == IndexAt(m, t).Keys + entries.Keys
    ensures forall a | a in entries :: r[t][a] == entries[a]
    ensures forall a | a in IndexAt(m, t) && a !in entries :: r[t][a] == m[t][a]
    ensures forall u | u != t :: (u in r <==> u in m)
    ensures forall u | u != t && u in m :: r[u] == m[u]
  {
    m[t := IndexAt(m, t) + entries]
  }

  /**
   * Registering a container: rejected when its species/chain is taken; otherwise the
   * container is stored under its key, its alleles are appended to the list of all
   * alleles, and its name indexes are merged into the indexes of its taxon.
   */
  function Register(lib: LibraryState, c: LocusContainer): (r: Result<LibraryState, SpeciesAndChain>)
    ensures r.Err? <==> c.speciesAndChain in lib.loci
    ensures r.Err? ==> r.error == c.speciesAndChain
    ensures r.Ok? ==>
      && r.value.loci.Keys == lib.loci.Keys + {c.speciesAndChain}
      && r.value.loci[c.speciesAndChain] == c
      && (forall k | k in lib.loci :: r.value.loci[k] == lib.loci[k])
    ensures r.Ok? ==>
      && |r.value.allAlleles| == |lib.allAlleles| + |c.AllAlleles()|
      && r.value.allAlleles[..|lib.allAlleles|] == lib.allAlleles
      && r.value.allAlleles[|lib.allAlleles|..] == c.AllAlleles()
    ensures r.Ok? ==>
      && r.value.alleles == MergeInto(lib.alleles, c.speciesAndChain.taxonId, c.nameToAllele)
      && r.value.genes == MergeInto(lib.genes, c.speciesAndChain.taxonId, c.nameToGene)
    ensures r.Ok? ==>
      && r.value.base == lib.base && r.value.knownSpecies == lib.knownSpecies
      && r.value.properties == lib.properties
  {
    if c.speciesAndChain in lib.loci then Err(c.speciesAndChain)
    else
      var t := c.speciesAndChain.taxonId;
      Ok(lib.(loci := lib.loci[c.speciesAndChain := c],
              alleles := MergeInto(lib.alleles, t, c.nameToAllele),
              allAlleles := lib.allAlleles + c.AllAlleles(),
              genes := MergeInto(lib.genes, t, c.nameToGene)))
  }

  /** Every registered container is stored under its own species/chain. */
  ghost predicate KeyedByOwnSpecies(loci: map<SpeciesAndChain, LocusContainer>)
  {
    forall k | k in loci :: loci[k].speciesAndChain == k
  }

  /** Identifier of an allele: the locus it belongs to and its name. */
  datatype AlleleId = AlleleId(speciesAndChain: SpeciesAndChain, name: string)

  /**
   * The mutable library object. Fields mirror the source's collections; each
   * method reassigns the ones the source mutates in place.
   */
  class LociLibrary {
    var base: seq<SequencePart>
    var allAlleles: seq<Allele>
    var knownSpecies: map<string, int>
    var properties: map<string, string>
    var alleles: map<int, map<string, Allele>>
    var genes: map<int, map<string, Gene>>
    var loci: map<SpeciesAndChain, LocusContainer>

    ghost predicate Valid()
      reads this
    {
      KeyedByOwnSpecies(loci)
    }

    /** The library's state as a value. */
    function State(): LibraryState
      reads this
    {
      LibraryState(base, allAlleles, knownSpecies, properties, alleles, genes, loci)
    }

    constructor ()
      ensures Valid() && State() == EmptyLibrary
    {
      base, allAlleles := [], [];
      knownSpecies, properties := map[], map[];
      alleles, genes, loci := map[], map[], map[];
    }

    /**
     * Adds a container; fails, touching nothing, when its species/chain is
     * already registered.
     */
    method RegisterContainer(c: LocusContainer) returns (ok: bool)
      requires Valid()
      modifies this
      ensures Valid()
      ensures ok <==> c.speciesAndChain !in old(loci)
      ensures ok ==> Register(old(State()), c) == Ok(State())
      ensures !ok ==> State() == old(State())
    {
      if c.speciesAndChain in loci {
        return false;
      }
      var t := c.speciesAndChain.taxonId;
      loci := loci[c.speciesAndChain := c];
      alleles := MergeInto(alleles, t, c.nameToAllele);
      allAlleles := allAlleles + c.AllAlleles();
      genes := MergeInto(genes, t, c.nameToGene);
      ok := true;
    }

    /** The taxon id recorded for a common species name, or -1. */
    function GetSpeciesTaxonId(commonName: string): (id: int)
      reads this
      ensures commonName in knownSpecies ==> id == knownSpecies[commonName]
      ensures commonName !in knownSpecies ==> id == -1
    {
      if commonName in knownSpecies then knownSpecies[commonName] else -1
    }

    /** The taxon id a species name stands for: the recorded name first, then `fromString`. */
    function TaxonIdOf(species: string, fromString: string -> Option<int>): Option<int>
      reads this
    {
      if species in knownSpecies then Some(knownSpecies[species]) else fromString(species)
    }

    /**
     * The locus of a species (a recorded common name, otherwise whatever
     * Species.fromString, passed as `fromString`, makes of it) and chain;
     * None when the species is unknown or resolves to -1.
     */
    function GetLocus(species: string, chain: Chain, fromString: string -> Option<int>): (r: Option<LocusContainer>)
      reads this
      requires Valid()
      ensures r.Some? <==> (TaxonIdOf(species, fromString).Some?
                            && TaxonIdOf(species, fromString).value != -1
                            && SpeciesAndChain(TaxonIdOf(species, fromString).value, chain) in loci)
      ensures r.Some? ==> r.value.speciesAndChain == SpeciesAndChain(TaxonIdOf(species, fromString).value, chain)
      ensures r.Some? ==> r.value == loci[r.value.speciesAndChain]
    {
      match TaxonIdOf(species, fromString)
      case None => None
      case Some(taxonId) =>
        if taxonId == -1 then None
        else if SpeciesAndChain(taxonId, chain) in loci then Some(loci[SpeciesAndChain(taxonId, chain)])
        else None
    }

    /**
     * The allele with the given id: an error when no container is registered
     * for the id's species/chain, otherwise the container's entry for the name.
     */
    function GetAllele(id: AlleleId): (r: Result<Option<Allele>, SpeciesAndChain>)
      reads this
      ensures r.Err? <==> id.speciesAndChain !in loci
      ensures r.Err? ==> r.error == id.speciesAndChain
      ensures r.Ok? ==> (r.value.Some? <==> id.name in loci[id.speciesAndChain].nameToAllele)
      ensures r.Ok? && r.value.Some? ==> r.value.value == loci[id.speciesAndChain].nameToAllele[id.name]
    {
      if id.speciesAndChain !in loci then Err(id.speciesAndChain)
      else
        var c := loci[id.speciesAndChain];
        if id.name in c.nameToAllele then Ok(Some(c.nameToAllele[id.name])) else Ok(None)
    }
  }

  /** A recorded common name decides the locus whatever Species.fromString would say. */
  lemma KnownSpeciesShadowsFromString(lib: LociLibrary, species: string, chain: Chain,
                                      f1: string -> Option<int>, f2: string -> Option<int>)
    requires lib.Valid()
    requires species in lib.knownSpecies
    ensures lib.GetLocus(species, chain, f1) == lib.GetLocus(species, chain, f2)
  {
  }

  /** Registration keeps every container under its own key. */
  lemma RegisterKeepsKeys(lib: LibraryState, c: LocusContainer)
    requires KeyedByOwnSpecies(lib.loci)
    requires Register(lib, c).Ok?
    ensures KeyedByOwnSpecies(Register(lib, c).value.loci)
  {
  }
}
