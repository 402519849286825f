/**
 * `Context7Cache`: a dictionary from URL to the summary stored for it.
 * Persistence to the JSON file and the `cached_at` timestamp are not part of
 * this model; the loaded file is a constructor parameter.
 */
module SummaryCache {
  import opened Wrappers

  /** The stored record `{title, summary}` (its `cached_at` is not modelled). */
  datatype CacheEntry = CacheEntry(title: string, summary: seq<string>)

  class Context7Cache {
    /** `self.cache` */
    var entries: map<string, CacheEntry>

    /**
     * `__init__` with `_load_cache`: `stored` is the parsed file when it exists
     * and parses, and `None` when it is missing or unreadable.
     */
    constructor (stored: Option<map<string, CacheEntry>>)
      ensures stored.None? ==> entries == map[]
      ensures stored.Some? ==> entries == stored.value
    {
      match stored
      case None => entries := map[];
      case Some(m) => entries := m;
    }

    /** `get(url)`: the stored entry, or `None` when the URL is absent. */
    function Get(url: string): (r: Option<CacheEntry>)
      reads this
      ensures r.None? <==> url !in entries
      ensures r.Some? ==> r.value == entries[url]
    {
      if url in entries then Some(entries[url]) else None
    }

    /** `exists(url)` */
    function Exists(url: string): (b: bool)
      reads this
      ensures b <==> url in entries
    {
      url in entries
    }

    /** `set(url, summary, title="")`: replaces the whole entry for `url`. */
    method Set(url: string, summary: seq<string>, title: string := "")
      modifies this
      ensures entries == old(entries)[url := CacheEntry(title, summary)]
      ensures Exists(url) && Get(url) == Some(CacheEntry(title, summary))
      ensures forall u :: u != url ==> Get(u) == old(Get(u))
    {
      entries := entries[url := CacheEntry(title, summary)];
    }

    /** `clear()`: the dictionary is replaced by an empty one. */
    method Clear()
      modifies this
      ensures entries == map[]
      ensures forall u :: !Exists(u) && Get(u).None?
    {
      entries := map[];
    }
  }

  /** A URL exists exactly when `get` finds an entry for it. */
  lemma ExistsIffGet(cache: Context7Cache, url: string)
    ensures cache.Exists(url) <==> cache.Get(url).Some?
  {
  }
}
