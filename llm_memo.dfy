/** The per-request memo around the model fallback
    (server/api/import.post.ts, server/api/transactions/auto-categorize.post.ts,
    server/api/categories/apply-suggestions.post.ts): within one request the
    strategy is asked about a merchant name at most once, and its answer,
    a category or none, is kept for every later row with that name. */
module LlmMemo {
  import opened Wrappers
  import opened Schema
  import opened Llm
  import OpenAi

  /** The cache, and the names the strategy was actually asked about, in
      order. */
  datatype Memo = Memo(cache: map<string, Option<Id>>, calls: seq<string>)

  const Empty := Memo(map[], [])

  predicate NoRepeats(s: seq<string>) {
    forall i, j :: 0 <= i < j < |s| ==> s[i] != s[j]
  }

  /** Every name asked about is cached, every cached name was asked about
      once. */
  predicate Consistent(m: Memo) {
    NoRepeats(m.calls) && m.cache.Keys == set n | n in m.calls
  }

  datatype Asked = Asked(answer: Option<Id>, memo: Memo)

  /** `llmFallback`: no strategy gives none; a cached name gives the cached
      answer; otherwise the strategy is asked and its answer cached. */
  function Ask(strategy: Option<CategorizerStrategy>, m: Memo, name: string, input: CategorizationInput): (r: Asked)
    ensures strategy.None? ==> r == Asked(None, m)
    ensures strategy.Some? && name in m.cache ==> r == Asked(m.cache[name], m)
    ensures strategy.Some? && name !in m.cache ==>
              r.answer == OpenAi.Categorize(strategy.value.model, input) &&
              r.memo == Memo(m.cache[name := r.answer], m.calls + [name])
    ensures Consistent(m) ==> Consistent(r.memo)
    ensures strategy.Some? ==> name in r.memo.cache && r.memo.cache[name] == r.answer
  {
    if strategy.None? then Asked(None, m)
    else if name in m.cache then Asked(m.cache[name], m)
    else
      var answer := OpenAi.Categorize(strategy.value.model, input);
      var m' := Memo(m.cache[name := answer], m.calls + [name]);
      assert Consistent(m) ==> Consistent(m') by {
        if Consistent(m) {
          forall i, j | 0 <= i < j < |m'.calls| ensures m'.calls[i] != m'.calls[j] {
            if j == |m.calls| {
              assert m'.calls[i] == m.calls[i] && m.calls[i] in m.calls;
            }
          }
        }
      }
      Asked(answer, m')
  }

  /** Asking again about a name already asked about changes nothing and
      gives the same answer. */
  lemma AskTwice(strategy: Option<CategorizerStrategy>, m: Memo, name: string,
                 first: CategorizationInput, second: CategorizationInput)
    ensures var r1 := Ask(strategy, m, name, first);
            Ask(strategy, r1.memo, name, second) == r1
  {
  }
}
