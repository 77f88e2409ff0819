/**
 * `CachedResearchTool` (agents.py:41-74): resolves a URL or topic to text,
 * consulting a key-addressed cache directory first, then a scraping strategy,
 * then a search strategy, and finally giving up with a fixed sentinel.
 *
 * The cache directory outlives the tool object (every call of
 * `generate_post` builds a new tool over the same `cache/` directory), so it
 * is an object of its own. The two strategies are foreign calls; each is a
 * function from the key to what that call produces: the text it returned, or
 * `Fail` when it raised. SHA-256 is an injective digest supplied at
 * construction.
 */
module ResearchTool {
  import opened Common

  /** What one retrieval strategy produced: the returned text, or an exception. */
  datatype Outcome = Ok(text: string) | Fail

  /** The strategies, in the order they are tried. */
  datatype Strategy = Scrape | Search

  /** The text returned when both strategies fail; it is never cached. */
  const NoResult: string := "לא נמצאה תוצאה. נסה מונח אחר או בדוק את החיבור."

  /** A digest that never maps two keys to the same name, as SHA-256 is taken to be. */
  ghost predicate Injective(digest: string -> string) {
    forall a, b :: digest(a) == digest(b) ==> a == b
  }

  /** `_cache_file`: the path of the cache file for `key`, `cache/<hex digest>.json`. */
  function CacheFile(digest: string -> string, key: string): (f: string)
    ensures |f| == |digest(key)| + 11
    ensures f[..6] == "cache/" && f[|f| - 5..] == ".json" && f[6..|f| - 5] == digest(key)
  {
    "cache/" + digest(key) + ".json"
  }

  /** Distinct keys get distinct cache files, so no key can read or overwrite another's entry. */
  lemma CacheFileInjective(digest: string -> string, a: string, b: string)
    requires Injective(digest)
    ensures CacheFile(digest, a) == CacheFile(digest, b) ==> a == b
  {
    if CacheFile(digest, a) == CacheFile(digest, b) {
      var prefix, suffix := "cache/", ".json";
      var fa, fb := CacheFile(digest, a), CacheFile(digest, b);
      assert |digest(a)| == |digest(b)|;
      assert digest(a) == fa[|prefix|..|fa| - |suffix|];
      assert digest(b) == fb[|prefix|..|fb| - |suffix|];
    }
  }

  /** The stored content of `file`, if that file exists. */
  function Lookup(files: map<string, string>, file: string): (c: Option<string>)
    ensures c.Some? <==> file in files
    ensures c.Some? ==> c.value == files[file]
  {
    if file in files then Some(files[file]) else None
  }

  /**
   * The text `fetch` returns: the cached content, else the scraped text, else
   * the searched text, else the sentinel.
   */
  function Resolve(cached: Option<string>, scraped: Outcome, searched: Outcome): string {
    if cached.Some? then cached.value
    else if scraped.Ok? then scraped.text
    else if searched.Ok? then searched.text
    else NoResult
  }

  /** The `cache/` directory: file path to the `content` it stores. */
  class CacheDirectory {
    var files: map<string, string>

    constructor (files: map<string, string>)
      ensures this.files == files
    {
      this.files := files;
    }
  }

  class CachedResearchTool {
    const dir: CacheDirectory
    const digest: string -> string

    ghost predicate Valid() {
      Injective(digest)
    }

    /** `__init__`: `mkdir(exist_ok=True)` leaves an existing directory as it is. */
    constructor (dir: CacheDirectory, digest: string -> string)
      requires Injective(digest)
      ensures this.dir == dir && this.digest == digest && Valid()
    {
      this.dir := dir;
      this.digest := digest;
    }

    /** The cached content for `key`, if any. */
    function Cached(key: string): Option<string>
      reads dir
    {
      Lookup(dir.files, CacheFile(digest, key))
    }

    /**
     * `fetch`: a cache hit is returned without calling either strategy; on a
     * miss, scraping is tried first and its result written through and
     * returned; if it raised, search is tried the same way; if both raised,
     * the sentinel is returned and the cache is left alone, so the next call
     * tries the strategies again. `calls` lists the strategies invoked, in
     * order.
     */
    method Fetch(key: string, scrape: string -> Outcome, search: string -> Outcome)
      returns (content: string, calls: seq<Strategy>)
      requires Valid()
      modifies dir
      ensures old(Cached(key)).Some? ==>
        content == old(Cached(key)).value && calls == [] && dir.files == old(dir.files)
      ensures old(Cached(key)).None? && scrape(key).Ok? ==>
        content == scrape(key).text && calls == [Scrape]
        && dir.files == old(dir.files)[CacheFile(digest, key) := content]
      ensures old(Cached(key)).None? && scrape(key).Fail? && search(key).Ok? ==>
        content == search(key).text && calls == [Scrape, Search]
        && dir.files == old(dir.files)[CacheFile(digest, key) := content]
      ensures old(Cached(key)).None? && scrape(key).Fail? && search(key).Fail? ==>
        content == NoResult && calls == [Scrape, Search] && dir.files == old(dir.files)
      ensures content == Resolve(old(Cached(key)), scrape(key), search(key))
      // whatever was fetched is now served from the cache, unless both strategies failed
      ensures Cached(key) == if old(Cached(key)).None? && scrape(key).Fail? && search(key).Fail?
                             then None else Some(content)
      // no other key's entry changes
      ensures forall k :: k != key ==> Cached(k) == old(Cached(k))
    {
      var f := CacheFile(digest, key);
      forall k | k != key ensures CacheFile(digest, k) != f {
        CacheFileInjective(digest, k, key);
      }
      if f in dir.files {
        return dir.files[f], [];
      }
      var scraped := scrape(key);
      if scraped.Ok? {
        dir.files := dir.files[f := scraped.text];
        return scraped.text, [Scrape];
      }
      var searched := search(key);
      if searched.Ok? {
        dir.files := dir.files[f := searched.text];
        return searched.text, [Scrape, Search];
      }
      content, calls := NoResult, [Scrape, Search];
    }
  }
}
