/** The query-answer cache both rag_logic.py and app/rag_logic.py define (the two
    `QueryCache` classes are identical), and the retrieval chain it sits in front of. */
module QueryCaching {
  import opened Text

  /** `query.strip().lower()`, the text the cache key is computed from. */
  function Normalised(query: string): string {
    LowerStr(Strip(query))
  }

  /** `get_cache_key`: the digest (`md5` here) of the normalised query. */
  function CacheKey(md5: string -> string, query: string): string {
    md5(Normalised(query))
  }

  /** Padding does not matter: a query and its stripped form are normalised alike. */
  lemma {:induction false} NormalisedIgnoresPadding(query: string)
    ensures Normalised(Strip(query)) == Normalised(query)
  {
    StripIdempotent(query);
  }

  /** Letter case does not matter: a query and its lower-cased form are normalised alike. */
  lemma {:induction false} NormalisedIgnoresCase(query: string)
    ensures Normalised(LowerStr(query)) == Normalised(query)
  {
    var t := Strip(query);
    StripLowerCommute(query);
    assert Strip(LowerStr(query)) == LowerStr(t);
    LowerStrIdempotent(t);
  }

  /** Normalising a normalised query changes nothing. */
  lemma {:induction false} NormalisedIdempotent(query: string)
    ensures Normalised(Normalised(query)) == Normalised(query)
  {
    var t := Strip(query);
    StripIdempotent(query);
    StripLowerCommute(t);
    assert Strip(LowerStr(t)) == LowerStr(t);
    LowerStrIdempotent(t);
  }

  /** What `get` finds for `query` in the dictionary `cache`. */
  function Lookup(cache: map<string, string>, md5: string -> string, query: string): (r: Option<string>)
    ensures r.Some? <==> CacheKey(md5, query) in cache
  {
    var key := CacheKey(md5, query);
    if key in cache then Some(cache[key]) else None
  }

  /** After `set(q1, response)`, every query normalised like `q1` finds `response`. */
  lemma {:induction false} StoredAnswerFound(cache: map<string, string>, md5: string -> string, q1: string, q2: string, response: string)
    requires Normalised(q1) == Normalised(q2)
    ensures Lookup(cache[CacheKey(md5, q1) := response], md5, q2) == Some(response)
  {
  }

  /** `set` changes no other slot: a query with a different key finds what it found before. */
  lemma {:induction false} StoreLeavesOtherSlots(cache: map<string, string>, md5: string -> string, q1: string, q2: string, response: string)
    requires CacheKey(md5, q1) != CacheKey(md5, q2)
    ensures Lookup(cache[CacheKey(md5, q1) := response], md5, q2) == Lookup(cache, md5, q2)
  {
  }

  function Max(a: int, b: int): int {
    if a < b then b else a
  }

  class QueryCache {
    const md5: string -> string
    var cache: map<string, string>
    var hitCount: nat
    var totalQueries: nat

    /** Every hit is also a query. */
    ghost predicate Valid()
      reads this
    {
      hitCount <= totalQueries
    }

    constructor (md5: string -> string)
      ensures Valid()
      ensures this.md5 == md5 && cache == map[] && hitCount == 0 && totalQueries == 0
    {
      this.md5 := md5;
      cache := map[];
      hitCount := 0;
      totalQueries := 0;
    }

    /** `get`: counts the query, and counts a hit when the key is present, whatever the
        stored answer. The dictionary does not change. */
    method Get(query: string) returns (r: Option<string>)
      requires Valid()
      modifies this
      ensures Valid()
      ensures r == Lookup(old(cache), md5, query)
      ensures cache == old(cache)
      ensures totalQueries == old(totalQueries) + 1
      ensures hitCount == old(hitCount) + (if r.Some? then 1 else 0)
    {
      totalQueries := totalQueries + 1;
      var key := CacheKey(md5, query);
      if key in cache {
        hitCount := hitCount + 1;
        return Some(cache[key]);
      }
      return None;
    }

    /** `set`: stores the answer under the query's key; the counters do not change. */
    method Set(query: string, response: string)
      requires Valid()
      modifies this
      ensures Valid()
      ensures cache == old(cache)[CacheKey(md5, query) := response]
      ensures hitCount == old(hitCount) && totalQueries == old(totalQueries)
    {
      var key := CacheKey(md5, query);
      cache := cache[key := response];
    }

    /** `get_hit_rate`: hits per query, 0 before the first query. */
    function HitRate(): (r: real)
      requires Valid()
      reads this
      ensures 0.0 <= r <= 1.0
      ensures totalQueries == 0 ==> r == 0.0
      ensures r == 1.0 <==> 0 < hitCount == totalQueries
    {
      var total := Max(totalQueries, 1) as real;
      var rate := hitCount as real / total;
      assert rate * total == hitCount as real;
      rate
    }
  }

  /** The dictionary the retrieval chain returns: `answer` may be missing. A call that
      raises is `Raised`. */
  datatype ChainReturn =
    | Raised(message: string)
    | Returned(answer: Option<string>, input: string, context: seq<string>)

  /** `inputs.get("input", "")`. */
  function QueryOf(inputs: map<string, string>): string {
    if "input" in inputs then inputs["input"] else ""
  }

  /** The wrapped retrieval chain (retriever, prompt and LLM). What its `n`-th call
      returns for `inputs` is `reply(inputs, n)`; `calls` records every call. */
  class BaseChain {
    const reply: (map<string, string>, nat) -> ChainReturn
    var calls: seq<map<string, string>>

    constructor (reply: (map<string, string>, nat) -> ChainReturn)
      ensures this.reply == reply && calls == []
    {
      this.reply := reply;
      calls := [];
    }

    method Invoke(inputs: map<string, string>) returns (r: ChainReturn)
      modifies this
      ensures calls == old(calls) + [inputs]
      ensures r == reply(inputs, |old(calls)|)
    {
      r := reply(inputs, |calls|);
      calls := calls + [inputs];
    }
  }

  /** One call of a `CachedRAGChain` whose cleaner is `clean`: from the dictionary and
      the chain's call log before it to the result and the dictionary and call log after
      it. A stored answer that is not empty is served without calling the chain. */
  ghost predicate Served(clean: string -> string, cache: map<string, string>, md5: string -> string,
                         inputs: map<string, string>, calls: seq<map<string, string>>,
                         reply: (map<string, string>, nat) -> ChainReturn,
                         r: ChainReturn, cache': map<string, string>, calls': seq<map<string, string>>)
  {
    var query := QueryOf(inputs);
    var cached := Lookup(cache, md5, query);
    if cached.Some? && cached.value != "" then
      r == Returned(cached, query, []) && cache' == cache && calls' == calls
    else
      calls' == calls + [inputs] &&
      match reply(inputs, |calls|)
      case Raised(_) => r == reply(inputs, |calls|) && cache' == cache
      case Returned(answer, input, context) =>
        var cleaned := clean(answer.GetOr(""));
        r == Returned(Some(cleaned), input, context) && cache' == cache[CacheKey(md5, query) := cleaned]
  }
}
