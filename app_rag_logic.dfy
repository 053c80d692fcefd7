/** app/rag_logic.py: a second copy of the chain module (flask_app.py:22 imports the top-level
    rag_logic.py, not this one). Its cache and wrapper work
    as in rag_logic.py; its cleaner is shorter (no verbose phrases, no per-line strip),
    and the model can be chosen by the caller. */
module AppRagLogic {
  import opened Text
  import opened Regex
  import opened QueryCaching
  import RagLogic

  const DefaultModel := "qwen/qwen2.5-7b-instruct"

  /** `model_name or NVIDIA_LLM_MODEL`: an absent or empty name falls back to the default,
      so the chosen model is never empty. */
  function ChosenModel(modelName: Option<string>): (r: string)
    ensures r != ""
    ensures r == DefaultModel <==> (modelName.None? || modelName.value in {"", DefaultModel})
    ensures r != DefaultModel ==> modelName == Some(r)
  {
    match modelName
    case Some(name) => if name != "" then name else DefaultModel
    case None => DefaultModel
  }

  /** What this variant's `clean_answer` returns. The `<think>` and intro patterns are the
      same text as in rag_logic.py. */
  function Cleaned(answer: string): string {
    if answer == [] then answer
    else
      var noThink := Sub(RagLogic.Think, answer, "");
      var tidy := Strip(Collapse(noThink));
      Strip(DeleteEachAnchored(RagLogic.IntroPatterns, tidy))
  }

  /** The cleaned answer is stripped, never longer than the answer and holds no blank
      line; an empty answer is returned as it is. */
  lemma {:induction false} CleanedShape(answer: string)
    ensures |Cleaned(answer)| <= |answer|
    ensures IsStripped(Cleaned(answer))
    ensures NoBlankLine(Cleaned(answer))
    ensures answer == [] ==> Cleaned(answer) == []
  {
    if answer != [] {
      var collapsed := Collapse(Sub(RagLogic.Think, answer, ""));
      CollapseNoBlankLine(Sub(RagLogic.Think, answer, ""));
      StripKeepsNoBlankLine(collapsed);
      var tidy := Strip(collapsed);
      AnchoredKeepsNoBlankLine(RagLogic.IntroPatterns, tidy);
      StripKeepsNoBlankLine(DeleteEachAnchored(RagLogic.IntroPatterns, tidy));
    }
  }

  /** This variant's `CachedRAGChain`, sharing the module-level `query_cache`. */
  class CachedRagChain {
    const chain: BaseChain
    const cache: QueryCache

    constructor (chain: BaseChain, cache: QueryCache)
      ensures this.chain == chain && this.cache == cache
    {
      this.chain := chain;
      this.cache := cache;
    }

    /** `invoke`: as in rag_logic.py, with this variant's cleaner. */
    method Invoke(inputs: map<string, string>) returns (r: ChainReturn)
      requires cache.Valid()
      modifies cache, chain
      ensures cache.Valid()
      ensures Served(Cleaned, old(cache.cache), cache.md5, inputs, old(chain.calls), chain.reply,
                     r, cache.cache, chain.calls)
      ensures cache.totalQueries == old(cache.totalQueries) + 1
      ensures cache.hitCount == old(cache.hitCount)
                              + (if CacheKey(cache.md5, QueryOf(inputs)) in old(cache.cache) then 1 else 0)
    {
      var query := QueryOf(inputs);
      var cached := cache.Get(query);
      if cached.Some? && cached.value != "" {
        return Returned(cached, query, []);
      }
      r := chain.Invoke(inputs);
      if r.Returned? {
        var answer := CleanAnswer(r.answer.GetOr(""));
        cache.Set(query, answer);
        r := r.(answer := Some(answer));
      }
    }

    /** `ainvoke`: the same caching decision as `invoke`. */
    method AInvoke(inputs: map<string, string>) returns (r: ChainReturn)
      requires cache.Valid()
      modifies cache, chain
      ensures cache.Valid()
      ensures Served(Cleaned, old(cache.cache), cache.md5, inputs, old(chain.calls), chain.reply,
                     r, cache.cache, chain.calls)
      ensures cache.totalQueries == old(cache.totalQueries) + 1
      ensures cache.hitCount == old(cache.hitCount)
                              + (if CacheKey(cache.md5, QueryOf(inputs)) in old(cache.cache) then 1 else 0)
    {
      var query := QueryOf(inputs);
      var cached := cache.Get(query);
      if cached.Some? && cached.value != "" {
        return Returned(cached, query, []);
      }
      r := chain.Invoke(inputs);
      if r.Returned? {
        var answer := CleanAnswer(r.answer.GetOr(""));
        cache.Set(query, answer);
        r := r.(answer := Some(answer));
      }
    }

    /** `clean_answer`: drops the `<think>` blocks, collapses blank lines, strips, then
        drops each intro prefix at most once, in order, and strips again. */
    method CleanAnswer(answer: string) returns (r: string)
      ensures r == Cleaned(answer)
    {
      if answer == [] {
        return answer;
      }
      r := Sub(RagLogic.Think, answer, "");
      r := Collapse(r);
      r := Strip(r);
      r := DeleteAllAnchored(RagLogic.IntroPatterns, r);
      r := Strip(r);
    }
  }
}
