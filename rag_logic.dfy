/** rag_logic.py: the answer cleaner and the caching wrapper around the retrieval chain. */
module RagLogic {
  import opened Text
  import opened Regex
  import opened QueryCaching

  const Ws := [Spaces]
  /** `.*?\.`, the tail of every verbose pattern. */
  const ToFullStop := [AnyLazy, Lit('.')]

  function Verbose(toks: seq<Token>): Pattern {
    Pattern([toks], true, false)
  }

  /** `<think>.*?</think>` under DOTALL. */
  const Think := Pattern([Lits("<think>") + [AnyLazy] + Lits("</think>")], false, true)

  /** The nine verbose phrases, each matched case-insensitively up to the next full stop
      on the same line. */
  const VerbosePatterns: seq<Pattern> := [
    // Okay,?\s*let\'?s?\s*tackle\s*this.*?\.
    Verbose(Lits("Okay") + [Opt(',')] + Ws + Lits("let") + [Opt('\''), Opt('s')] + Ws
            + Lits("tackle") + Ws + Lits("this") + ToFullStop),
    // Let\'?s?\s*break\s*this\s*down.*?\.
    Verbose(Lits("Let") + [Opt('\''), Opt('s')] + Ws + Lits("break") + Ws + Lits("this") + Ws
            + Lits("down") + ToFullStop),
    // First,?\s*I\s*need\s*to.*?\.
    Verbose(Lits("First") + [Opt(',')] + Ws + Lits("I") + Ws + Lits("need") + Ws + Lits("to")
            + ToFullStop),
    // Looking\s*at\s*the\s*context.*?\.
    Verbose(Lits("Looking") + Ws + Lits("at") + Ws + Lits("the") + Ws + Lits("context")
            + ToFullStop),
    // The\s*user\s*is\s*asking.*?\.
    Verbose(Lits("The") + Ws + Lits("user") + Ws + Lits("is") + Ws + Lits("asking") + ToFullStop),
    // Starting\s*with.*?\.
    Verbose(Lits("Starting") + Ws + Lits("with") + ToFullStop),
    // Now,?\s*let\'?s?\s*analyze.*?\.
    Verbose(Lits("Now") + [Opt(',')] + Ws + Lits("let") + [Opt('\''), Opt('s')] + Ws
            + Lits("analyze") + ToFullStop),
    // Let\s*me\s*check.*?\.
    Verbose(Lits("Let") + Ws + Lits("me") + Ws + Lits("check") + ToFullStop),
    // I\s*need\s*to\s*examine.*?\.
    Verbose(Lits("I") + Ws + Lits("need") + Ws + Lits("to") + Ws + Lits("examine") + ToFullStop)
  ]

  /** The three intro prefixes, each anchored at the start and matched case-insensitively:
      `^(Answer:|Response:|Based on the context:)\s*` (the group distributed over the
      trailing `\s*`), `^\*\*Answer:\*\*\s*` and `^\*\*Response:\*\*\s*`. */
  const IntroPatterns: seq<Pattern> := [
    Pattern([Lits("Answer:") + Ws, Lits("Response:") + Ws, Lits("Based on the context:") + Ws], true, false),
    Pattern([Lits("**Answer:**") + Ws], true, false),
    Pattern([Lits("**Response:**") + Ws], true, false)
  ]

  /** What `clean_answer` returns, step by step as the source applies them. */
  function Cleaned(answer: string): string {
    if answer == [] then answer
    else
      var noThink := Sub(Think, answer, "");
      var terse := DeleteEach(VerbosePatterns, noThink);
      DropIntros(IntroPatterns, Tidy(terse))
  }

  /** Blank lines collapsed, every line start stripped, then the whole text stripped. */
  function Tidy(s: string): (r: string)
    ensures |r| <= |s|
    ensures IsStripped(r) && LinesLeftStripped(r)
  {
    var lines := StripLineStarts(Collapse(s));
    StripKeepsLinesLeftStripped(lines);
    Strip(lines)
  }

  /** Each anchored prefix deleted at most once, then the text stripped again. What is
      left is a piece of the input, so the input's line shape survives. */
  function DropIntros(ps: seq<Pattern>, s: string): (r: string)
    ensures |r| <= |s|
    ensures IsStripped(r)
    ensures LinesLeftStripped(s) ==> LinesLeftStripped(r)
  {
    DropIntrosKeepsLines(ps, s);
    Strip(DeleteEachAnchored(ps, s))
  }

  /** Deleting prefixes and stripping keeps every line start non-space. */
  lemma {:induction false} DropIntrosKeepsLines(ps: seq<Pattern>, s: string)
    ensures LinesLeftStripped(s) ==> LinesLeftStripped(Strip(DeleteEachAnchored(ps, s)))
  {
    if LinesLeftStripped(s) {
      AnchoredKeepsLinesLeftStripped(ps, s);
      StripKeepsLinesLeftStripped(DeleteEachAnchored(ps, s));
    }
  }

  /** The cleaned answer is stripped, never longer than the answer, and no line of it
      starts with whitespace, so it holds no blank line; an empty answer is returned as it
      is. */
  lemma {:induction false} CleanedShape(answer: string)
    ensures |Cleaned(answer)| <= |answer|
    ensures IsStripped(Cleaned(answer))
    ensures LinesLeftStripped(Cleaned(answer)) && NoBlankLine(Cleaned(answer))
    ensures answer == [] ==> Cleaned(answer) == []
  {
    LeftStrippedHasNoBlankLine(Cleaned(answer));
  }

  /** The `CachedRAGChain` that `create_rag_chain` returns: `chain` is the retrieval
      chain it wraps and `cache` the module-level `query_cache` it shares with every
      other wrapper. */
  class CachedRagChain {
    const chain: BaseChain
    const cache: QueryCache

    constructor (chain: BaseChain, cache: QueryCache)
      ensures this.chain == chain && this.cache == cache
    {
      this.chain := chain;
      this.cache := cache;
    }

    /** `invoke`: a stored answer that is not empty is returned with an empty context and
        the chain is not called; otherwise (no entry, or an empty stored answer) the chain
        is called once, and unless it raises its answer is cleaned, stored under the query
        and returned in place of the raw one. */
    method Invoke(inputs: map<string, string>) returns (r: ChainReturn)
      requires cache.Valid()
      modifies cache, chain
      ensures cache.Valid()
      ensures Served(Cleaned, old(cache.cache), cache.md5, inputs, old(chain.calls), chain.reply,
                     r, cache.cache, chain.calls)
      ensures cache.totalQueries == old(cache.totalQueries) + 1
      ensures cache.hitCount == old(cache.hitCount)
                              + (if CacheKey(cache.md5, QueryOf(inputs)) in old(cache.cache) then 1 else 0)
    {
      var query := QueryOf(inputs);
      var cached := cache.Get(query);
      if cached.Some? && cached.value != "" {
        return Returned(cached, query, []);
      }
      r := chain.Invoke(inputs);
      if r.Returned? {
        var answer := CleanAnswer(r.answer.GetOr(""));
        cache.Set(query, answer);
        r := r.(answer := Some(answer));
      }
    }

    /** `ainvoke`: the same decision as `invoke`, with the chain awaited; nothing runs
        between the lookup and the store. */
    method AInvoke(inputs: map<string, string>) returns (r: ChainReturn)
      requires cache.Valid()
      modifies cache, chain
      ensures cache.Valid()
      ensures Served(Cleaned, old(cache.cache), cache.md5, inputs, old(chain.calls), chain.reply,
                     r, cache.cache, chain.calls)
      ensures cache.totalQueries == old(cache.totalQueries) + 1
      ensures cache.hitCount == old(cache.hitCount)
                              + (if CacheKey(cache.md5, QueryOf(inputs)) in old(cache.cache) then 1 else 0)
    {
      var query := QueryOf(inputs);
      var cached := cache.Get(query);
      if cached.Some? && cached.value != "" {
        return Returned(cached, query, []);
      }
      r := chain.Invoke(inputs);
      if r.Returned? {
        var answer := CleanAnswer(r.answer.GetOr(""));
        cache.Set(query, answer);
        r := r.(answer := Some(answer));
      }
    }

    /** `clean_answer`: drops the `<think>` blocks, then each verbose phrase, collapses
        blank lines, strips every line start and the whole text, and then drops each intro
        prefix at most once, in order. */
    method CleanAnswer(answer: string) returns (r: string)
      ensures r == Cleaned(answer)
    {
      if answer == [] {
        return answer;
      }
      r := Sub(Think, answer, "");
      r := DeleteAll(VerbosePatterns, r);
      r := Collapse(r);
      r := StripLineStarts(r);
      r := Strip(r);
      r := DeleteAllAnchored(IntroPatterns, r);
      r := Strip(r);
    }
  }
}
