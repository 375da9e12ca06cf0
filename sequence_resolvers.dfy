/**
 * Sequence resolvers: the catch-all resolver that hands out one cached
 * provider per sequence address, and the mapping of `gi://<id>` addresses onto
 * NCBI nuccore fetch addresses and cache file names.
 *
 * A URI is its text; its scheme and authority are read as in sections 3.1 and
 * 3.2 of RFC 3986.
 */
module SequenceResolvers {
  import opened Outcomes

  /** A sequence address: the context it is resolved against and its URI. */
  datatype SequenceAddress = SequenceAddress(context: string, uri: string)

  /**
   * The message a provider reports when it cannot produce a sequence:
   * "Can't get sequence for " followed by the address's text (the address's
   * text form is not part of this model).
   */
  datatype FailureMessage = CantGetSequenceFor(address: SequenceAddress)

  /** A cached sequence provider; only the failure message it was created with is modelled. */
  class CachedSequenceProvider {
    const message: FailureMessage

    constructor (message: FailureMessage)
      ensures this.message == message
    {
      this.message := message;
    }
  }

  /** Hands out one provider per address, created on first request and kept. */
  class AnySequenceResolver {
    var providers: map<SequenceAddress, CachedSequenceProvider>

    constructor ()
      ensures providers == map[]
    {
      providers := map[];
    }

    /** Every address can be resolved. */
    function CanResolve(address: SequenceAddress): (b: bool)
      ensures b
    {
      true
    }

    /**
     * The provider of an address: the stored one, or a new one, stored, whose
     * message names the address.
     */
    method Resolve(address: SequenceAddress) returns (provider: CachedSequenceProvider)
      modifies this
      ensures address in providers && providers[address] == provider
      ensures address in old(providers) ==> provider == old(providers)[address] && providers == old(providers)
      ensures address !in old(providers) ==>
        && fresh(provider) && provider.message == CantGetSequenceFor(address)
        && providers == old(providers)[address := provider]
    {
      if address in providers {
        return providers[address];
      }
      provider := new CachedSequenceProvider(CantGetSequenceFor(address));
      providers := providers[address := provider];
    }
  }

  /** Two requests for the same address get the same provider object. */
  method ResolveTwice(resolver: AnySequenceResolver, address: SequenceAddress)
    returns (first: CachedSequenceProvider, second: CachedSequenceProvider)
    modifies resolver
    ensures first == second
    ensures forall a | a in old(resolver.providers) :: a in resolver.providers
                                                  && resolver.providers[a] == old(resolver.providers)[a]
  {
    first := resolver.Resolve(address);
    second := resolver.Resolve(address);
  }

  // ---------------------------------------------------------------------------
  // URI scheme and authority (RFC 3986, sections 3.1 and 3.2)

  predicate IsAlpha(c: char) { 'a' <= c <= 'z' || 'A' <= c <= 'Z' }

  predicate IsDigit(c: char) { '0' <= c <= '9' }

  /** A character allowed in a scheme after its first letter. */
  predicate IsSchemeChar(c: char) { IsAlpha(c) || IsDigit(c) || c == '+' || c == '-' || c == '.' }

  /** A scheme: a letter followed by letters, digits, '+', '-' or '.'. */
  predicate IsScheme(s: string)
  {
    |s| > 0 && IsAlpha(s[0]) && forall i | 0 <= i < |s| :: IsSchemeChar(s[i])
  }

  /** The characters that end an authority. */
  predicate EndsAuthority(c: char) { c == '/' || c == '?' || c == '#' }

  /**
   * Scanning `u` from `i`, with `u[..i]` scheme characters so far: the position
   * of the ':' that ends a scheme, if there is one.
   */
  function ScanScheme(u: string, i: nat): (r: Option<nat>)
    requires i <= |u|
    ensures r.Some? ==> i <= r.value < |u| && u[r.value] == ':'
    decreases |u| - i
  {
    if i == |u| then None
    else if u[i] == ':' then (if i > 0 then Some(i) else None)
    else if (i == 0 && IsAlpha(u[0])) || (i > 0 && IsSchemeChar(u[i])) then ScanScheme(u, i + 1)
    else None
  }

  /** The scheme of a URI: the text before the first ':' when it is a scheme; None otherwise. */
  function Scheme(u: string): (r: Option<string>)
    ensures r.Some? ==> IsScheme(r.value) && |r.value| < |u| && u[..|r.value|] == r.value && u[|r.value|] == ':'
  {
    match ScanScheme(u, 0)
    case None => None
    case Some(i) => ScanSchemeValid(u, 0); Some(u[..i])
  }

  /** What ScanScheme reports is a scheme. */
  lemma {:induction false} ScanSchemeValid(u: string, i: nat)
    requires i <= |u| && (i > 0 ==> IsAlpha(u[0]) && forall k | 0 <= k < i :: IsSchemeChar(u[k]))
    ensures ScanScheme(u, i).Some? ==> IsScheme(u[..ScanScheme(u, i).value])
    decreases |u| - i
  {
    if i < |u| && u[i] != ':' && ((i == 0 && IsAlpha(u[0])) || (i > 0 && IsSchemeChar(u[i]))) {
      ScanSchemeValid(u, i + 1);
    }
  }

  /** The part after the scheme and its ':' (the whole text when there is no scheme). */
  function AfterScheme(u: string): string
  {
    match Scheme(u)
    case None => u
    case Some(s) => u[|s| + 1..]
  }

  /** The length of the authority at the start of `s`: up to the first '/', '?' or '#'. */
  function AuthorityLength(s: string): (n: nat)
    ensures n <= |s| && (forall k | 0 <= k < n :: !EndsAuthority(s[k]))
    ensures n < |s| ==> EndsAuthority(s[n])
  {
    if s == [] || EndsAuthority(s[0]) then 0 else 1 + AuthorityLength(s[1..])
  }

  /**
   * The authority of a URI: what follows "//" after the scheme, up to the first
   * '/', '?' or '#'; None when there is no "//" or nothing after it.
   */
  function Authority(u: string): (r: Option<string>)
    ensures r.Some? ==> |r.value| > 0 && forall k | 0 <= k < |r.value| :: !EndsAuthority(r.value[k])
  {
    var rest := AfterScheme(u);
    if |rest| >= 2 && rest[0] == '/' && rest[1] == '/' then
      var a := rest[2..][..AuthorityLength(rest[2..])];
      if a == [] then None else Some(a)
    else None
  }

  /** The text of an address built from a scheme, an authority and a path, query or fragment. */
  function Compose(scheme: string, authority: string, tail: string): string
  {
    scheme + "://" + authority + tail
  }

  /** A scheme is read back up to its ':'. */
  lemma {:induction false} ScanComposed(scheme: string, rest: string, i: nat)
    requires IsScheme(scheme) && i <= |scheme|
    ensures ScanScheme(scheme + ":" + rest, i) == Some(|scheme|)
    decreases |scheme| - i
  {
    var u := scheme + ":" + rest;
    assert u[..|scheme|] == scheme && u[|scheme|] == ':';
    if i < |scheme| {
      assert u[i] == scheme[i];
      ScanComposed(scheme, rest, i + 1);
    }
  }

  /** The authority ends where a '/', '?' or '#' starts the rest. */
  lemma {:induction false} AuthorityLengthComposed(authority: string, tail: string)
    requires forall k | 0 <= k < |authority| :: !EndsAuthority(authority[k])
    requires tail == [] || EndsAuthority(tail[0])
    ensures AuthorityLength(authority + tail) == |authority|
    decreases |authority|
  {
    if authority != [] {
      assert (authority + tail)[1..] == authority[1..] + tail;
      AuthorityLengthComposed(authority[1..], tail);
    } else {
      assert authority + tail == tail;
    }
  }

  /**
   * Parsing undoes composing: the scheme and the authority of a composed
   * address are the ones it was composed from.
   */
  lemma ParseComposed(scheme: string, authority: string, tail: string)
    requires IsScheme(scheme) && |authority| > 0
    requires forall k | 0 <= k < |authority| :: !EndsAuthority(authority[k])
    requires tail == [] || EndsAuthority(tail[0])
    ensures Scheme(Compose(scheme, authority, tail)) == Some(scheme)
    ensures Authority(Compose(scheme, authority, tail)) == Some(authority)
  {
    var u := Compose(scheme, authority, tail);
    var rest := "//" + authority + tail;
    assert u == scheme + ":" + rest;
    ScanComposed(scheme, rest, 0);
    assert u[..|scheme|] == scheme;
    assert AfterScheme(u) == rest;
    assert rest[2..] == authority + tail;
    AuthorityLengthComposed(authority, tail);
    assert (authority + tail)[..|authority|] == authority;
  }

  // ---------------------------------------------------------------------------
  // The gi:// resolver

  function ToLowerAscii(c: char): char
  {
    if 'A' <= c <= 'Z' then (c as int + 32) as char else c
  }

  /** Java's equalsIgnoreCase on ASCII text: same length, same letters up to case. */
  predicate EqualsIgnoreCase(a: string, b: string)
  {
    |a| == |b| && forall i | 0 <= i < |a| :: ToLowerAscii(a[i]) == ToLowerAscii(b[i])
  }

  /** Java's string concatenation of a possibly null string: null is written "null". */
  function JavaText(s: Option<string>): string
  {
    match s
    case None => "null"
    case Some(t) => t
  }

  const FetchPrefix := "http://eutils.ncbi.nlm.nih.gov/entrez/eutils/efetch.fcgi?db=nuccore&id="
  const FetchSuffix := "&rettype=fasta&retmode=text"
  const CachePrefix := "gi_"

  /** The record id of a gi address is its authority. */
  function ExtractId(address: string): Option<string>
  {
    Authority(address)
  }

  /** The cache file name: "gi_" and the id. */
  function ResolveCacheFileName(address: string): (name: string)
    ensures |name| >= |CachePrefix| && name[..|CachePrefix|] == CachePrefix
    ensures name[|CachePrefix|..] == JavaText(ExtractId(address))
  {
    CachePrefix + JavaText(ExtractId(address))
  }

  /** The nuccore fetch address: the fixed prefix, the id, the fixed suffix. */
  function ResolveHttpAddress(address: string): (url: string)
    ensures |url| == |FetchPrefix| + |JavaText(ExtractId(address))| + |FetchSuffix|
  {
    FetchPrefix + JavaText(ExtractId(address)) + FetchSuffix
  }

  /** The record id; when there is one, it names the cache file and is what the fetch address carries. */
  function ResolveRecordId(address: string): (id: Option<string>)
    ensures id.Some? ==> |id.value| > 0 && forall k | 0 <= k < |id.value| :: !EndsAuthority(id.value[k])
    ensures id.Some? ==> ResolveCacheFileName(address) == CachePrefix + id.value
    ensures id.Some? ==> IdOfFetchAddress(ResolveHttpAddress(address)) == id
  {
    FetchAddressCarriesId(address);
    ExtractId(address)
  }

  /** A gi resolver takes addresses whose scheme is "gi" up to case and that have an authority. */
  function CanResolveGi(address: string): bool
  {
    match Scheme(address)
    case None => false
    case Some(s) => EqualsIgnoreCase("gi", s) && Authority(address).Some?
  }

  /**
   * Exactly the addresses with a two-letter scheme reading "gi" in either case and
   * an authority are resolvable; an address without a scheme is not.
   */
  lemma ResolvableIsGi(address: string)
    ensures CanResolveGi(address) <==>
      && Scheme(address).Some? && |Scheme(address).value| == 2
      && ToLowerAscii(Scheme(address).value[0]) == 'g' && ToLowerAscii(Scheme(address).value[1]) == 'i'
      && Authority(address).Some?
    ensures Scheme(address).None? ==> !CanResolveGi(address)
  {
  }

  /** The id written into a fetch address, read back; None for text not of that form. */
  function IdOfFetchAddress(url: string): Option<string>
  {
    if |url| >= |FetchPrefix| + |FetchSuffix|
       && url[..|FetchPrefix|] == FetchPrefix && url[|url| - |FetchSuffix|..] == FetchSuffix
    then Some(url[|FetchPrefix|..|url| - |FetchSuffix|])
    else None
  }

  /** The id can be read back from the fetch address. */
  lemma FetchAddressCarriesId(address: string)
    ensures IdOfFetchAddress(ResolveHttpAddress(address)) == Some(JavaText(ExtractId(address)))
  {
    var id := JavaText(ExtractId(address));
    var url := ResolveHttpAddress(address);
    assert url[..|FetchPrefix|] == FetchPrefix;
    assert url[|url| - |FetchSuffix|..] == FetchSuffix;
    assert url[|FetchPrefix|..|url| - |FetchSuffix|] == id;
  }

  /** Two resolvable addresses with different ids are fetched from different places. */
  lemma FetchAddressInjective(a1: string, a2: string)
    requires CanResolveGi(a1) && CanResolveGi(a2)
    requires ResolveHttpAddress(a1) == ResolveHttpAddress(a2)
    ensures ResolveRecordId(a1) == ResolveRecordId(a2)
  {
    FetchAddressCarriesId(a1);
    FetchAddressCarriesId(a2);
  }

  /** A resolvable address has a record id, and it names the cache file and the fetch address. */
  lemma ResolvableHasId(address: string)
    requires CanResolveGi(address)
    ensures ResolveRecordId(address).Some?
    ensures ResolveCacheFileName(address) == CachePrefix + ResolveRecordId(address).value
    ensures IdOfFetchAddress(ResolveHttpAddress(address)) == ResolveRecordId(address)
  {
    FetchAddressCarriesId(address);
  }

  /** Every composed gi address, in any letter case, is resolvable and its id is the authority. */
  lemma GiAddressResolved(scheme: string, id: string, tail: string)
    requires EqualsIgnoreCase("gi", scheme) && |id| > 0
    requires forall k | 0 <= k < |id| :: !EndsAuthority(id[k])
    requires tail == [] || EndsAuthority(tail[0])
    ensures CanResolveGi(Compose(scheme, id, tail))
    ensures ResolveRecordId(Compose(scheme, id, tail)) == Some(id)
    ensures ResolveCacheFileName(Compose(scheme, id, tail)) == CachePrefix + id
  {
    assert IsAlpha(scheme[0]) by {
      assert ToLowerAscii(scheme[0]) == 'g';
    }
    assert IsSchemeChar(scheme[1]) by {
      assert ToLowerAscii(scheme[1]) == 'i';
    }
    ParseComposed(scheme, id, tail);
  }

  /** The documented example: gi://568815591. */
  lemma DocumentedExample()
    ensures CanResolveGi("gi://568815591")
    ensures ResolveRecordId("gi://568815591") == Some("568815591")
    ensures ResolveCacheFileName("gi://568815591") == CachePrefix + "568815591"
    ensures ResolveHttpAddress("gi://568815591") == FetchPrefix + "568815591" + FetchSuffix
  {
    assert Compose("gi", "568815591", "") == "gi://568815591";
    GiAddressResolved("gi", "568815591", "");
  }
}
