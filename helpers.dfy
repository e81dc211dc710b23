/** The scanner's shared plugin helpers, as far as a rule relies on them:
    the read-only source cache, the shape of a finding, the results list a
    rule appends to (`helpers.addResult`) and the audit trace of consulted
    cache paths (`helpers.addSource`). Their bodies are not part of this
    model; each is given the contract the rule depends on. */
module Helpers {
  import opened Wrappers

  /** A cache path such as ["sagemaker", "listNotebookInstances", region]. */
  type Key = seq<string>

  /** One cache slot: never collected, collected with an error, or collected
      with a payload that may itself be missing. An entry carrying an error
      is an `Err` whatever else it carries, since rules test the error first. */
  datatype CacheEntry<T> = Absent | Err(error: string) | Data(data: Option<T>)

  /** The inventory gathered by the collector, keyed by exact path. */
  type Cache<T> = map<Key, CacheEntry<T>>

  /** Exact-path lookup: a path the collector never filled is `Absent`. */
  function Lookup<T>(cache: Cache<T>, key: Key): (e: CacheEntry<T>)
    ensures key !in cache ==> e.Absent?
    ensures key in cache ==> e == cache[key]
  {
    if key in cache then cache[key] else Absent
  }

  /** JavaScript truthiness of a possibly undefined string: undefined and
      the empty string are falsy. */
  predicate Truthy(s: Option<string>)
  {
    s.Some? && s.value != ""
  }

  /** Appending is associative; stated once over an opaque element type so
      that appends to traces and results need not compare elements. */
  lemma AppendAssociative<T>(a: seq<T>, b: seq<T>, c: seq<T>)
    ensures (a + b) + c == a + (b + c)
  {
  }

  /** The numeric status a finding carries. */
  type Status = s: int | 0 <= s <= 3

  const Ok: Status := 0
  const Fail: Status := 2
  const Unknown: Status := 3

  /** One reported outcome; `resource` is `None` for a region-level finding. */
  datatype Finding = Finding(status: Status, message: string, region: string, resource: Option<string>)

  /** The results array a rule invocation owns and hands to its callback. */
  class Results {
    var findings: seq<Finding>

    constructor ()
      ensures findings == []
    {
      findings := [];
    }

    /** `helpers.addResult`: append exactly one finding with these fields. */
    method AddResult(status: Status, message: string, region: string, resource: Option<string>)
      modifies this
      ensures findings == old(findings) + [Finding(status, message, region, resource)]
    {
      findings := findings + [Finding(status, message, region, resource)];
    }
  }

  /** The `source` object: which cache paths a rule consulted, in order. */
  class Source {
    var consulted: seq<Key>

    constructor ()
      ensures consulted == []
    {
      consulted := [];
    }

    /** `helpers.addSource`: record the path and return the cache entry
        found there. */
    method AddSource<T>(cache: Cache<T>, key: Key) returns (entry: CacheEntry<T>)
      modifies this
      ensures entry == Lookup(cache, key)
      ensures consulted == old(consulted) + [key]
    {
      entry := Lookup(cache, key);
      consulted := consulted + [key];
    }
  }
}
