/** The re-categorisation sweep over uncategorised transactions, as both
    server/api/transactions/auto-categorize.post.ts and the second half of
    server/api/categories/apply-suggestions.post.ts run it: select the rows
    with no category or the catch-all "Uncategorized" category, run the
    categoriser chain on each (with a per-request memo in front of the
    model), and update a row only when the chain names a real category. */
module Sweep {
  import opened Wrappers
  import opened Schema
  import opened Lists
  import opened Llm
  import opened LlmMemo
  import opened Categorizer

  /** The WHERE clause of the sweep query: no category, or the catch-all
      category when its id is truthy. */
  predicate InSweep(t: Transaction, uncategorizedId: Option<Id>) {
    t.categoryId.None? || (uncategorizedId.Some? && uncategorizedId.value != 0 && t.categoryId == uncategorizedId)
  }

  /** The positions of the rows the sweep query returns, in table order:
      exactly the rows in the sweep, each once. */
  function SweptIndices(ts: seq<Transaction>, uncategorizedId: Option<Id>): (r: seq<nat>)
    ensures forall p :: 0 <= p < |r| ==> r[p] < |ts| && InSweep(ts[r[p]], uncategorizedId)
    ensures forall p, q :: 0 <= p < q < |r| ==> r[p] < r[q]
    ensures forall k :: 0 <= k < |ts| && InSweep(ts[k], uncategorizedId) ==> k in r
  {
    if ts == [] then []
    else
      var n := |ts| - 1;
      SweptIndices(ts[..n], uncategorizedId) + (if InSweep(ts[n], uncategorizedId) then [n] else [])
  }

  /** The name a row is categorised (or grouped) under: its merchant's
      normalised name when its merchant id is truthy and known, otherwise
      its description. */
  function MerchantNameFor(merchants: seq<Merchant>, t: Transaction): (name: string)
    ensures t.merchantId.None? || t.merchantId.value == 0 ==> name == t.description
    ensures t.merchantId.Some? && (forall k :: 0 <= k < |merchants| ==> merchants[k].id != t.merchantId.value) ==>
              name == t.description
    ensures t.merchantId.Some? && t.merchantId.value != 0 &&
            (exists k :: 0 <= k < |merchants| && merchants[k].id == t.merchantId.value) ==>
              exists k :: 0 <= k < |merchants| && merchants[k].id == t.merchantId.value &&
                          name == merchants[k].normalizedName
  {
    if t.merchantId.None? || t.merchantId.value == 0 then t.description
    else
      match FindFirst(merchants, (m: Merchant) => m.id == t.merchantId.value)
      case Some(k) => merchants[k].normalizedName
      case None => t.description
  }

  /** What the sweep reads once up front: rules, categories and merchants
      (of every user), the catch-all's id, the strategy and the regex
      engine. */
  datatype SweepContext = SweepContext(
    rules: seq<MerchantRule>, cats: seq<Category>, merchants: seq<Merchant>,
    uncategorizedId: Option<Id>, strategy: Option<CategorizerStrategy>, regex: RegexEngine)

  function SweepContextFor(db: Db, strategy: Option<CategorizerStrategy>, regex: RegexEngine): SweepContext
    reads db`rules, db`categories, db`merchants
  {
    SweepContext(db.rules, db.categories, db.merchants, CategoryNamed(db.categories, UncategorizedName),
                 strategy, regex)
  }

  /** Every category, as offered to the model. */
  function CategoryRefs(cats: seq<Category>): (r: seq<CategoryRef>)
    ensures |r| == |cats|
  {
    seq(|cats|, k requires 0 <= k < |cats| => CategoryRef(cats[k].id, cats[k].name))
  }

  /** The model's input for a swept row: no source hint, all categories. */
  function SweepInput(ctx: SweepContext, name: string, t: Transaction): CategorizationInput {
    CategorizationInput(name, t.description, t.amount, t.txType, None, CategoryRefs(ctx.cats))
  }

  /** The chain for one swept row, with the memo in front of the model. */
  function SweepAnswer(ctx: SweepContext, t: Transaction, memo: Memo): (r: Asked)
    ensures Consistent(memo) ==> Consistent(r.memo)
    ensures ctx.strategy.None? ==> r.memo == memo
  {
    var name := MerchantNameFor(ctx.merchants, t);
    var pre := Predetermined(name, t.description, None, ctx.rules, ctx.cats, ctx.regex);
    if pre.Some? then Asked(pre, memo)
    else
      var asked := Ask(ctx.strategy, memo, name, SweepInput(ctx, name, t));
      Asked(Finish(asked.answer, ctx.cats), asked.memo)
  }

  /** The memoised answer is what `autoCategorizeMerchant` gives with no
      source hint and the sweep's fallback closure. */
  lemma SweepAnswerIsChain(ctx: SweepContext, t: Transaction, memo: Memo)
    ensures var name := MerchantNameFor(ctx.merchants, t);
            SweepAnswer(ctx, t, memo).answer ==
            AutoCategorizeMerchant(name, t.description, None,
                                   Some((n: string) => Ask(ctx.strategy, memo, n, SweepInput(ctx, n, t)).answer),
                                   ctx.rules, ctx.cats, ctx.regex)
  {
  }

  /** An answer worth writing: a category, and not the catch-all. */
  predicate IsReal(answer: Option<Id>, uncategorizedId: Option<Id>) {
    answer.Some? && answer != uncategorizedId
  }

  datatype SweepState = SweepState(categorized: nat, memo: Memo, ts: seq<Transaction>)

  /** One pass of the loop for the row at position `k` of the snapshot `ts0`. */
  function SweepStep(ctx: SweepContext, ts0: seq<Transaction>, k: nat, st: SweepState): SweepState
    requires k < |ts0| && |st.ts| == |ts0|
  {
    var asked := SweepAnswer(ctx, ts0[k], st.memo);
    if IsReal(asked.answer, ctx.uncategorizedId) then
      SweepState(st.categorized + 1, asked.memo, st.ts[k := st.ts[k].(categoryId := asked.answer)])
    else
      st.(memo := asked.memo)
  }

  predicate IndicesIn(idx: seq<nat>, n: nat) {
    forall p :: 0 <= p < |idx| ==> idx[p] < n
  }

  /** The state after the loop has run over the rows at positions `idx`. */
  function SweepFold(ctx: SweepContext, ts0: seq<Transaction>, idx: seq<nat>): (st: SweepState)
    requires IndicesIn(idx, |ts0|)
    ensures |st.ts| == |ts0|
  {
    if idx == [] then SweepState(0, Empty, ts0)
    else SweepStep(ctx, ts0, idx[|idx| - 1], SweepFold(ctx, ts0, idx[..|idx| - 1]))
  }

  /** No more rows are categorised than swept; the model is asked about
      each merchant name at most once, and never without a strategy. */
  lemma {:induction false} SweepCountsAndMemo(ctx: SweepContext, ts0: seq<Transaction>, idx: seq<nat>)
    requires IndicesIn(idx, |ts0|)
    ensures SweepFold(ctx, ts0, idx).categorized <= |idx|
    ensures Consistent(SweepFold(ctx, ts0, idx).memo)
    ensures ctx.strategy.None? ==> SweepFold(ctx, ts0, idx).memo.calls == []
  {
    if idx != [] {
      SweepCountsAndMemo(ctx, ts0, idx[..|idx| - 1]);
    }
  }

  /** The sweep only ever changes category ids, and only of swept rows. */
  lemma {:induction false} SweepOnlyRecategorizes(ctx: SweepContext, ts0: seq<Transaction>, idx: seq<nat>)
    requires IndicesIn(idx, |ts0|)
    ensures var ts := SweepFold(ctx, ts0, idx).ts;
            forall k :: 0 <= k < |ts0| ==> ts[k] == ts0[k].(categoryId := ts[k].categoryId)
    ensures var ts := SweepFold(ctx, ts0, idx).ts;
            forall k :: 0 <= k < |ts0| && k !in idx ==> ts[k] == ts0[k]
  {
    if idx != [] {
      var n := |idx| - 1;
      SweepOnlyRecategorizes(ctx, ts0, idx[..n]);
      assert forall k :: k in idx[..n] ==> k in idx;
    }
  }

  predicate Ascending(idx: seq<nat>) {
    forall p, q :: 0 <= p < q < |idx| ==> idx[p] < idx[q]
  }

  /** The rows changed by the sweep. */
  function Changed(ts0: seq<Transaction>, ts1: seq<Transaction>): set<nat>
    requires |ts0| == |ts1|
  {
    set k: nat | k < |ts0| && ts0[k] != ts1[k]
  }

  /** What one pass does: it writes the real answer, if any, into row `k`
      and touches no other row. */
  lemma StepEffect(ctx: SweepContext, ts0: seq<Transaction>, k: nat, st: SweepState)
    requires k < |ts0| && |st.ts| == |ts0|
    ensures var st' := SweepStep(ctx, ts0, k, st);
            var a := SweepAnswer(ctx, ts0[k], st.memo).answer;
            && |st'.ts| == |ts0|
            && (forall j :: 0 <= j < |ts0| && j != k ==> st'.ts[j] == st.ts[j])
            && st'.ts[k] == st.ts[k].(categoryId := if IsReal(a, ctx.uncategorizedId) then a else st.ts[k].categoryId)
            && st'.categorized == st.categorized + (if IsReal(a, ctx.uncategorizedId) then 1 else 0)
  {
  }

  /** The last position of an ascending index list is not among the
      earlier ones. */
  lemma LastIsNew(idx: seq<nat>)
    requires Ascending(idx) && idx != []
    ensures Ascending(idx[..|idx| - 1])
    ensures idx[|idx| - 1] !in idx[..|idx| - 1]
  {
    var prev := idx[..|idx| - 1];
    assert forall q :: 0 <= q < |prev| ==> prev[q] < idx[|idx| - 1];
  }

  /** The swept row at position `p` of the query result ends with the
      chain's answer if that answer is real, and keeps its category
      otherwise; the answer is the one given with the memo as the earlier
      rows left it. */
  lemma {:induction false} SweepRowOutcome(ctx: SweepContext, ts0: seq<Transaction>, idx: seq<nat>, p: nat)
    requires IndicesIn(idx, |ts0|) && Ascending(idx) && p < |idx|
    ensures var a := SweepAnswer(ctx, ts0[idx[p]], SweepFold(ctx, ts0, idx[..p]).memo).answer;
            SweepFold(ctx, ts0, idx).ts[idx[p]].categoryId ==
              if IsReal(a, ctx.uncategorizedId) then a else ts0[idx[p]].categoryId
  {
    var n := |idx| - 1;
    var prev := idx[..n];
    assert IndicesIn(prev, |ts0|);
    LastIsNew(idx);
    var before := SweepFold(ctx, ts0, prev);
    assert SweepFold(ctx, ts0, idx) == SweepStep(ctx, ts0, idx[n], before);
    StepEffect(ctx, ts0, idx[n], before);
    if p == n {
      assert prev == idx[..p];
      SweepOnlyRecategorizes(ctx, ts0, prev);
      assert before.ts[idx[n]] == ts0[idx[n]];
    } else {
      SweepRowOutcome(ctx, ts0, prev, p);
      assert prev[..p] == idx[..p];
      assert idx[n] != idx[p];
      assert SweepFold(ctx, ts0, idx).ts[idx[p]] == before.ts[idx[p]];
    }
  }

  /** One more pass adds row `k` to the changed rows exactly when it
      counts one more. */
  lemma ChangedStep(ctx: SweepContext, ts0: seq<Transaction>, k: nat, st: SweepState)
    requires k < |ts0| && |st.ts| == |ts0|
    requires st.ts[k] == ts0[k] && InSweep(ts0[k], ctx.uncategorizedId)
    ensures var st' := SweepStep(ctx, ts0, k, st);
            && Changed(ts0, st'.ts) == Changed(ts0, st.ts) + (if st'.categorized == st.categorized then {} else {k})
            && (st'.categorized == st.categorized || st'.categorized == st.categorized + 1)
  {
    StepEffect(ctx, ts0, k, st);
    var st' := SweepStep(ctx, ts0, k, st);
    var a := SweepAnswer(ctx, ts0[k], st.memo).answer;
    if IsReal(a, ctx.uncategorizedId) {
      assert st'.ts[k].categoryId != ts0[k].categoryId;
    } else {
      assert st'.ts[k] == st.ts[k];
    }
  }

  /** The count the sweep returns is exactly the number of rows whose
      category it changed, and all of those are swept rows. */
  lemma {:induction false} SweepCountsChanges(ctx: SweepContext, ts0: seq<Transaction>, idx: seq<nat>)
    requires IndicesIn(idx, |ts0|) && Ascending(idx)
    requires forall p :: 0 <= p < |idx| ==> InSweep(ts0[idx[p]], ctx.uncategorizedId)
    ensures var st := SweepFold(ctx, ts0, idx);
            st.categorized == |Changed(ts0, st.ts)| &&
            forall k :: k in Changed(ts0, st.ts) ==> k in idx
  {
    if idx != [] {
      var n := |idx| - 1;
      var prev := idx[..n];
      var k := idx[n];
      assert IndicesIn(prev, |ts0|);
      LastIsNew(idx);
      SweepCountsChanges(ctx, ts0, prev);
      SweepOnlyRecategorizes(ctx, ts0, prev);
      var before := SweepFold(ctx, ts0, prev);
      ChangedStep(ctx, ts0, k, before);
      assert forall j :: j in prev ==> j in idx;
    }
  }

  lemma SweepFoldSnoc(ctx: SweepContext, ts0: seq<Transaction>, idx: seq<nat>, i: nat)
    requires IndicesIn(idx, |ts0|) && i < |idx|
    ensures IndicesIn(idx[..i], |ts0|) && IndicesIn(idx[..i + 1], |ts0|)
    ensures SweepFold(ctx, ts0, idx[..i + 1]) == SweepStep(ctx, ts0, idx[i], SweepFold(ctx, ts0, idx[..i]))
  {
    assert idx[..i + 1][..i] == idx[..i];
  }

  /** The sweep loop over the query result `idx`: each row is read from
      the snapshot taken by the query, and the store's transactions end as
      the fold says. */
  method SweepRows(db: Db, ctx: SweepContext, idx: seq<nat>) returns (categorized: nat)
    requires db.Valid()
    requires IndicesIn(idx, |db.transactions|)
    modifies db`transactions
    ensures db.Valid()
    ensures categorized == SweepFold(ctx, old(db.transactions), idx).categorized
    ensures db.transactions == SweepFold(ctx, old(db.transactions), idx).ts
  {
    var snapshot := db.transactions;
    var memo := Empty;
    categorized := 0;
    for i := 0 to |idx|
      invariant db.Valid()
      invariant IndicesIn(idx[..i], |snapshot|)
      invariant SweepFold(ctx, snapshot, idx[..i]) == SweepState(categorized, memo, db.transactions)
    {
      categorized, memo := SweepOne(db, ctx, snapshot, idx, i, categorized, memo);
    }
    assert idx[..|idx|] == idx;
  }

  /** The loop body for the row at position `idx[i]` of the snapshot. */
  method SweepOne(db: Db, ctx: SweepContext, snapshot: seq<Transaction>, idx: seq<nat>, i: nat,
                  categorized: nat, memo: Memo)
    returns (categorized': nat, memo': Memo)
    requires db.Valid()
    requires IndicesIn(idx, |snapshot|) && i < |idx| && IndicesIn(idx[..i], |snapshot|)
    requires SweepFold(ctx, snapshot, idx[..i]) == SweepState(categorized, memo, db.transactions)
    modifies db`transactions
    ensures db.Valid()
    ensures IndicesIn(idx[..i + 1], |snapshot|)
    ensures SweepFold(ctx, snapshot, idx[..i + 1]) == SweepState(categorized', memo', db.transactions)
  {
    var k := idx[i];
    SweepFoldSnoc(ctx, snapshot, idx, i);
    var asked := SweepAnswer(ctx, snapshot[k], memo);
    categorized' := categorized;
    if IsReal(asked.answer, ctx.uncategorizedId) {
      db.SetTransactionCategory(k, asked.answer.value);
      categorized' := categorized + 1;
    }
    memo' := asked.memo;
  }

  datatype SweepResult = SweepResult(categorized: nat, total: nat)

  /** `POST /api/transactions/auto-categorize`: sweep every row with no
      category or the catch-all category, and report how many were
      categorised out of how many swept; an empty sweep reports 0 of 0. */
  method AutoCategorize(db: Db, openaiApiKey: Option<string>, model: Model, regex: RegexEngine)
    returns (r: SweepResult)
    requires db.Valid()
    modifies db`transactions
    ensures db.Valid()
    ensures var ctx := SweepContextFor(db, CreateCategorizerStrategy(openaiApiKey, model), regex);
            var idx := SweptIndices(old(db.transactions), ctx.uncategorizedId);
            && r == SweepResult(SweepFold(ctx, old(db.transactions), idx).categorized, |idx|)
            && db.transactions == SweepFold(ctx, old(db.transactions), idx).ts
  {
    var uncategorizedId := CategoryNamed(db.categories, UncategorizedName);
    var idx := SweptIndices(db.transactions, uncategorizedId);
    if |idx| == 0 {
      return SweepResult(0, 0);
    }
    var ctx := SweepContextFor(db, CreateCategorizerStrategy(openaiApiKey, model), regex);
    var categorized := SweepRows(db, ctx, idx);
    r := SweepResult(categorized, |idx|);
  }

  /** The sweep's report is consistent: the count is at most the total,
      and it is the number of rows whose category changed. */
  lemma SweepReport(ctx: SweepContext, ts0: seq<Transaction>)
    ensures var idx := SweptIndices(ts0, ctx.uncategorizedId);
            var st := SweepFold(ctx, ts0, idx);
            st.categorized <= |idx| && st.categorized == |Changed(ts0, st.ts)|
  {
    var idx := SweptIndices(ts0, ctx.uncategorizedId);
    SweepCountsAndMemo(ctx, ts0, idx);
    SweepCountsChanges(ctx, ts0, idx);
  }
}
