/**
 * The Docker remote-registry facade: turns a repository URL and a tag into a
 * pinned image reference. An exact tag becomes `url@digest`; a tag holding
 * `*` becomes `url:tag` for the tag the version selector picks. Both results
 * go through the cache, and the registry credential is chosen by URL prefix.
 *
 * The registry client, the cache and the version selector are not modelled:
 * they enter as oracles, and nothing is assumed of them beyond their types.
 */
module Docker {

  import opened Wrappers

  /** A set of registry credentials; the default one is used when no configured prefix matches. */
  datatype Keychain = DefaultKeychain | ConfiguredKeychain(name: string)

  /** An error value from the registry client, the cache or the selector. */
  datatype GoError = GoError(message: string)

  /** Go's `(string, error)` return pair; `err == None` is a nil error. */
  datatype Ret = Ret(value: string, err: Option<GoError>)

  /** Handles the registry client hands out; their insides are not modelled. */
  datatype Reference = Reference(name: string)
  datatype Repository = Repository(name: string)
  datatype Image = Image(id: string)

  /** The registry client library and the tag selector, as oracles. */
  datatype Registry = Registry(
    parseReference: string -> Result<Reference, GoError>,
    newRepository: string -> Result<Repository, GoError>,
    image: (Reference, Keychain) -> Result<Image, GoError>,
    digest: Image -> Result<string, GoError>,
    list: (Repository, Keychain) -> Result<seq<string>, GoError>,
    highestVersionWithFilter: (seq<string>, string) -> Result<string, GoError>)

  /** The computations the facade hands to the cache, with what they capture. */
  datatype Compute =
    | FetchDigest(ref: Reference, keychain: Keychain)
    | ListHighest(repo: Repository, keychain: Keychain, tag: string)

  /**
   * The cache's get-or-compute: given a key and the computation to run on a
   * miss, it returns a value and an error. Whether it runs the computation or
   * answers from what it stored is its own business.
   */
  type CacheGet = (string, Compute) -> Ret

  /** What a computation returns when the cache runs it. */
  function RunCompute(lib: Registry, c: Compute): (r: Ret)
    ensures r.err.Some? ==> r.value == ""
    ensures c.FetchDigest? ==>
      (r.err.None? <==> lib.image(c.ref, c.keychain).Success? && lib.digest(lib.image(c.ref, c.keychain).value).Success?)
    ensures c.ListHighest? ==>
      (r.err.None? <==> lib.list(c.repo, c.keychain).Success? &&
                        lib.highestVersionWithFilter(lib.list(c.repo, c.keychain).value, c.tag).Success?)
  {
    match c
    case FetchDigest(ref, keychain) =>
      (match lib.image(ref, keychain)
       case Failure(e) => Ret("", Some(e))
       case Success(img) =>
         (match lib.digest(img)
          case Failure(e) => Ret("", Some(e))
          case Success(d) => Ret(d, None)))
    case ListHighest(repo, keychain, tag) =>
      (match lib.list(repo, keychain)
       case Failure(e) => Ret("", Some(e))
       case Success(tags) =>
         (match lib.highestVersionWithFilter(tags, tag)
          case Failure(e) => Ret("", Some(e))
          case Success(t) => Ret(t, None)))
  }

  /** A cache that never remembers anything: every lookup runs the computation. */
  function PassThrough(lib: Registry): CacheGet {
    (key: string, c: Compute) => RunCompute(lib, c)
  }

  /** A cache that answers like `cache` at `key` and like `other` at every other key. */
  function Patch(cache: CacheGet, key: string, other: CacheGet): CacheGet {
    (k: string, c: Compute) => if k == key then cache(k, c) else other(k, c)
  }

  /**
   * The credential lookup may return `kc` for `url`: the keychain of some
   * configured key that is a prefix of the URL, or the default keychain when
   * no key is. Which matching key wins is left open, as map iteration order is.
   */
  ghost predicate KeychainFor(auth: map<string, Keychain>, url: string, kc: Keychain) {
    if exists key :: key in auth && key <= url then
      exists key :: key in auth && key <= url && auth[key] == kc
    else
      kc == DefaultKeychain
  }

  /** When all matching keys agree, the credential is determined by the URL. */
  lemma KeychainForDetermined(auth: map<string, Keychain>, url: string, key: string, kc: Keychain)
    requires key in auth && key <= url
    requires forall k :: k in auth && k <= url ==> auth[k] == auth[key]
    ensures KeychainFor(auth, url, kc) <==> kc == auth[key]
  {
  }

  /** Two matching keys with different keychains: either keychain may be returned. */
  lemma KeychainForAmbiguous(auth: map<string, Keychain>, url: string, k1: string, k2: string)
    requires k1 in auth && k1 <= url && k2 in auth && k2 <= url
    ensures KeychainFor(auth, url, auth[k1]) && KeychainFor(auth, url, auth[k2])
  {
  }

  /** The cache key of the digest path. */
  function DigestKey(url: string, tag: string): (key: string)
    ensures |key| == |url| + 1 + |tag| && key[..|url|] == url && key[|url|] == ':' && key[|url| + 1..] == tag
  {
    url + ":" + tag
  }

  /** The cache key of the highest-version path. */
  function HighestKey(url: string, tag: string): (key: string)
    ensures |key| == |url| + 3 + |tag| && key[..|url|] == url && key[|url|..|url| + 3] == "___" && key[|url| + 3..] == tag
  {
    url + "___" + tag
  }

  /**
   * The digest path with keychain `kc` already chosen: parse `url:tag`, then
   * ask the cache for the digest under that same key and prefix it with `url@`.
   * The cache's error is passed on beside the `url@...` string.
   */
  function DigestHashWith(lib: Registry, cache: CacheGet, url: string, tag: string, kc: Keychain): (r: Ret)
    ensures lib.parseReference(DigestKey(url, tag)).Failure? ==>
      r == Ret("", Some(lib.parseReference(DigestKey(url, tag)).error))
    ensures lib.parseReference(DigestKey(url, tag)).Success? ==>
      |r.value| > |url| && r.value[..|url| + 1] == url + "@"
  {
    var fullUrl := DigestKey(url, tag);
    match lib.parseReference(fullUrl)
    case Failure(e) => Ret("", Some(e))
    case Success(ref) =>
      var hash := cache(fullUrl, FetchDigest(ref, kc));
      Ret(url + "@" + hash.value, hash.err)
  }

  /**
   * The highest-version path with keychain `kc` already chosen: parse the
   * repository, ask the cache for the selected tag under `url___tag`, and
   * answer `url:<selected>`; every error comes with an empty string.
   */
  function HighestVersionTagWith(lib: Registry, cache: CacheGet, url: string, tag: string, kc: Keychain): (r: Ret)
    ensures r.err.Some? ==> r.value == ""
    ensures r.err.None? ==> |r.value| > |url| && r.value[..|url| + 1] == url + ":"
    ensures lib.newRepository(url).Failure? ==> r == Ret("", Some(lib.newRepository(url).error))
  {
    match lib.newRepository(url)
    case Failure(e) => Ret("", Some(e))
    case Success(repo) =>
      var target := cache(HighestKey(url, tag), ListHighest(repo, kc, tag));
      if target.err.Some? then Ret("", target.err) else Ret(url + ":" + target.value, None)
  }

  /**
   * Whatever the cache answers under `url:tag`, hit or miss, the digest path
   * returns `url@` followed by the cached value, beside the cached error.
   */
  lemma DigestCacheAnswer(lib: Registry, cache: CacheGet, url: string, tag: string, kc: Keychain)
    requires lib.parseReference(DigestKey(url, tag)).Success?
    ensures var h := cache(DigestKey(url, tag), FetchDigest(lib.parseReference(DigestKey(url, tag)).value, kc));
      DigestHashWith(lib, cache, url, tag, kc) == Ret(url + "@" + h.value, h.err)
  {
  }

  /** A parse failure on the digest path ends before the cache is consulted. */
  lemma DigestParseFailure(lib: Registry, cache: CacheGet, other: CacheGet, url: string, tag: string, kc: Keychain)
    requires lib.parseReference(DigestKey(url, tag)).Failure?
    ensures DigestHashWith(lib, cache, url, tag, kc) == DigestHashWith(lib, other, url, tag, kc)
  {
  }

  /** The digest path consults the cache only under the key `url:tag`. */
  lemma DigestCacheKey(lib: Registry, cache: CacheGet, other: CacheGet, url: string, tag: string, kc: Keychain)
    ensures DigestHashWith(lib, Patch(cache, url + ":" + tag, other), url, tag, kc)
         == DigestHashWith(lib, cache, url, tag, kc)
  {
  }

  /**
   * With a cache that computes every time, the digest path returns
   * `url@<digest>` with the registry's digest verbatim, or the registry's error.
   */
  lemma DigestFetched(lib: Registry, url: string, tag: string, kc: Keychain)
    requires lib.parseReference(url + ":" + tag).Success?
    ensures var ref := lib.parseReference(url + ":" + tag).value;
      var r := DigestHashWith(lib, PassThrough(lib), url, tag, kc);
      match lib.image(ref, kc)
      case Failure(e) => r == Ret(url + "@", Some(e))
      case Success(img) =>
        (match lib.digest(img)
         case Failure(e) => r == Ret(url + "@", Some(e))
         case Success(d) => r == Ret(url + "@" + d, None))
  {
  }

  /**
   * Whatever the cache answers under `url___tag`, hit or miss, the
   * highest-version path returns `""` with the cached error, or `url:`
   * followed by the cached tag with a nil error.
   */
  lemma HighestCacheAnswer(lib: Registry, cache: CacheGet, url: string, tag: string, kc: Keychain)
    requires lib.newRepository(url).Success?
    ensures var t := cache(HighestKey(url, tag), ListHighest(lib.newRepository(url).value, kc, tag));
      HighestVersionTagWith(lib, cache, url, tag, kc)
        == if t.err.Some? then Ret("", t.err) else Ret(url + ":" + t.value, None)
  {
  }

  /** A repository-parse failure on the highest-version path ends before the cache is consulted. */
  lemma HighestParseFailure(lib: Registry, cache: CacheGet, other: CacheGet, url: string, tag: string, kc: Keychain)
    requires lib.newRepository(url).Failure?
    ensures HighestVersionTagWith(lib, cache, url, tag, kc) == HighestVersionTagWith(lib, other, url, tag, kc)
  {
  }

  /** The highest-version path consults the cache only under the key `url___tag`. */
  lemma HighestCacheKey(lib: Registry, cache: CacheGet, other: CacheGet, url: string, tag: string, kc: Keychain)
    ensures HighestVersionTagWith(lib, Patch(cache, url + "___" + tag, other), url, tag, kc)
         == HighestVersionTagWith(lib, cache, url, tag, kc)
  {
  }

  /**
   * With a cache that computes every time, the highest-version path returns
   * `url:<selected tag>`, or `""` with the listing's or the selector's error.
   */
  lemma HighestSelected(lib: Registry, url: string, tag: string, kc: Keychain)
    requires lib.newRepository(url).Success?
    ensures var repo := lib.newRepository(url).value;
      var r := HighestVersionTagWith(lib, PassThrough(lib), url, tag, kc);
      match lib.list(repo, kc)
      case Failure(e) => r == Ret("", Some(e))
      case Success(tags) =>
        (match lib.highestVersionWithFilter(tags, tag)
         case Failure(e) => r == Ret("", Some(e))
         case Success(t) => r == Ret(url + ":" + t, None))
  {
  }

  /** For one URL, the digest-path key and the highest-version key never coincide. */
  lemma CacheKeysDistinctForUrl(url: string, exactTag: string, pattern: string)
    ensures DigestKey(url, exactTag) != HighestKey(url, pattern)
  {
    assert DigestKey(url, exactTag)[|url|] == ':';
    assert HighestKey(url, pattern)[|url|] == '_';
  }

  /**
   * Across URLs without `*`, an exact-tag key never equals a wildcard key:
   * only the latter holds a `*`.
   */
  lemma CacheKeysDistinct(url1: string, exactTag: string, url2: string, pattern: string)
    requires '*' !in url1 && '*' !in exactTag && '*' in pattern
    ensures DigestKey(url1, exactTag) != HighestKey(url2, pattern)
  {
    var i :| 0 <= i < |pattern| && pattern[i] == '*';
    assert HighestKey(url2, pattern)[|url2| + 3 + i] == '*';
  }

  /**
   * The registry facade with its prefix-to-keychain map. Its cache changes
   * over time (entries expire and are recomputed), so each call receives the
   * cache's answers as they stand at that call.
   */
  class RemoteRegistryDocker {
    const imageAuthMap: map<string, Keychain>

    /** `NewRemoteRegistry`; the cache built from the configured TTL enters each call instead. */
    constructor (imageAuthMap: map<string, Keychain>)
      ensures this.imageAuthMap == imageAuthMap
    {
      this.imageAuthMap := imageAuthMap;
    }

    /** Routes a tag with `*` to the highest-version path and any other tag to the digest path. */
    method GetImageString(lib: Registry, cache: CacheGet, url: string, tag: string) returns (s: string, err: Option<GoError>)
      ensures '*' in tag ==>
        exists kc :: KeychainFor(imageAuthMap, url, kc) && Ret(s, err) == HighestVersionTagWith(lib, cache, url, tag, kc)
      ensures '*' !in tag ==>
        exists kc :: KeychainFor(imageAuthMap, url, kc) && Ret(s, err) == DigestHashWith(lib, cache, url, tag, kc)
    {
      if '*' in tag {
        s, err := GetImageHighestVersionTag(lib, cache, url, tag);
      } else {
        s, err := GetImageDigestHash(lib, cache, url, tag);
      }
    }

    /** `url@<digest>` for an exact tag, the credential chosen from the URL alone. */
    method GetImageDigestHash(lib: Registry, cache: CacheGet, url: string, tag: string) returns (s: string, err: Option<GoError>)
      ensures exists kc :: KeychainFor(imageAuthMap, url, kc) && Ret(s, err) == DigestHashWith(lib, cache, url, tag, kc)
    {
      var fullUrl := url + ":" + tag;
      var authKeyChain := GetAuthKeyChain(url);
      var ref := lib.parseReference(fullUrl);
      if ref.Failure? {
        s, err := "", Some(ref.error);
      } else {
        var hash := cache(fullUrl, FetchDigest(ref.value, authKeyChain));
        s, err := url + "@" + hash.value, hash.err;
      }
      assert Ret(s, err) == DigestHashWith(lib, cache, url, tag, authKeyChain);
    }

    /**
     * The keychain for `url`: the configured keys are tried one at a time in an
     * unspecified order, and the first that is a prefix of the URL wins.
     */
    method GetAuthKeyChain(url: string) returns (kc: Keychain)
      ensures KeychainFor(imageAuthMap, url, kc)
    {
      var unvisited := imageAuthMap.Keys;
      while unvisited != {}
        invariant unvisited <= imageAuthMap.Keys
        invariant forall key :: key in imageAuthMap && key !in unvisited ==> !(key <= url)
        decreases |unvisited|
      {
        var key :| key in unvisited;
        if key <= url {
          return imageAuthMap[key];
        }
        unvisited := unvisited - {key};
      }
      return DefaultKeychain;
    }

    /** `url:<selected tag>` for a wildcard tag, the credential chosen from the URL alone. */
    method GetImageHighestVersionTag(lib: Registry, cache: CacheGet, url: string, tag: string) returns (s: string, err: Option<GoError>)
      ensures exists kc :: KeychainFor(imageAuthMap, url, kc) && Ret(s, err) == HighestVersionTagWith(lib, cache, url, tag, kc)
    {
      var authKeyChain := GetAuthKeyChain(url);
      var repo := lib.newRepository(url);
      if repo.Failure? {
        s, err := "", Some(repo.error);
      } else {
        var cacheKey := url + "___" + tag;
        var target := cache(cacheKey, ListHighest(repo.value, authKeyChain, tag));
        if target.err.Some? {
          s, err := "", target.err;
        } else {
          s, err := url + ":" + target.value, None;
        }
      }
      assert Ret(s, err) == HighestVersionTagWith(lib, cache, url, tag, authKeyChain);
    }
  }
}
