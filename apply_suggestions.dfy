/** Applying approved category suggestions
    (server/api/categories/apply-suggestions.post.ts): each approved
    suggestion becomes a category with one merchant rule per pattern, the
    first pattern ranked highest, and then the uncategorised transactions
    are swept again so the new rules can take effect.

    As written, the handler inserts the categories and rules without an
    owner, which the owner column's NOT NULL constraint refuses, so every
    non-empty request fails on its first insert. `ApplyAsWritten` models
    that; `ApplySuggestions` is the handler with the acting user as owner,
    as the other create endpoints do. */
module ApplySuggestions {
  import opened Wrappers
  import opened Text
  import opened Schema
  import opened Llm
  import opened Categorizer
  import opened Sweep
  import opened Http

  const NoSuggestionsMessage := "No approved suggestions provided."

  /** The category a suggestion becomes: its name, a top-level category,
      with an empty icon or colour stored as null. */
  function SuggestionCategory(owner: Option<UserId>, s: CategorySuggestion): CategoryInsert {
    CategoryInsert(owner, s.name, None, NonEmptyOrNull(s.color), NonEmptyOrNull(s.icon), Omitted)
  }

  /** The rules a suggestion's patterns become, for the category `categoryId`. */
  function PatternRules(owner: Option<UserId>, patterns: Option<seq<string>>, categoryId: Id): (r: seq<RuleInsert>)
    ensures patterns.None? ==> r == []
    ensures patterns.Some? ==> |r| == |patterns.value|
  {
    match patterns
    case None => []
    case Some(ps) =>
      seq(|ps|, i requires 0 <= i < |ps| => RuleInsert(owner, ToLower(ps[i]), categoryId, Given(Some(|ps| - i))))
  }

  /** One rule per pattern, in order, each the lower-cased pattern for the
      new category; priorities run from the number of patterns down to 1,
      so an earlier pattern always outranks a later one. */
  lemma PatternRulesRanked(owner: Option<UserId>, ps: seq<string>, categoryId: Id)
    ensures var r := PatternRules(owner, Some(ps), categoryId);
            && (forall i :: 0 <= i < |r| ==>
                  r[i].pattern == ToLower(ps[i]) && r[i].categoryId == categoryId && r[i].userId == owner &&
                  r[i].priority.Given? && r[i].priority.value.Some? && 1 <= r[i].priority.value.value <= |ps|)
            && (forall i, j :: 0 <= i < j < |r| ==> r[i].priority.value.value > r[j].priority.value.value)
            && (|r| > 0 ==> r[0].priority == Given(Some(|ps|)) && r[|r| - 1].priority == Given(Some(1)))
  {
  }

  /** The category and rule tables with their id counters. */
  datatype Tables = Tables(cats: seq<Category>, nextCat: Id, rules: seq<MerchantRule>, nextRule: Id)

  function TablesOf(db: Db): Tables
    reads db
  {
    Tables(db.categories, db.nextCategoryId, db.rules, db.nextRuleId)
  }

  lemma RuleRowsSnoc(first: Id, ins: seq<RuleInsert>, i: nat)
    requires i < |ins| && forall k :: 0 <= k < |ins| ==> ins[k].userId.Some?
    ensures RuleRows(first, ins[..i + 1]) == RuleRows(first, ins[..i]) + [RuleRow(first + i, ins[i])]
  {
  }

  /** One pass of the creation loop: the suggestion's category under the
      next category id, then its rules pointing at that id. */
  function AddSuggestion(t: Tables, userId: UserId, s: CategorySuggestion): Tables {
    var id := t.nextCat;
    var ins := PatternRules(Some(userId), s.patterns, id);
    Tables(t.cats + [CategoryRow(id, SuggestionCategory(Some(userId), s))], id + 1,
           t.rules + RuleRows(t.nextRule, ins), t.nextRule + |ins|)
  }

  /** The tables after the creation loop over `approved`. */
  function AddAll(t: Tables, userId: UserId, approved: seq<CategorySuggestion>): Tables {
    if approved == [] then t
    else
      var n := |approved| - 1;
      AddSuggestion(AddAll(t, userId, approved[..n]), userId, approved[n])
  }

  function PatternCount(s: CategorySuggestion): nat {
    if s.patterns.Some? then |s.patterns.value| else 0
  }

  function PatternTotal(approved: seq<CategorySuggestion>): nat {
    if approved == [] then 0
    else PatternTotal(approved[..|approved| - 1]) + PatternCount(approved[|approved| - 1])
  }

  /** The creation loop keeps what was there, adds exactly one category per
      suggestion (in order, owned by the user, top-level, under consecutive
      ids) and one rule per pattern, each owned by the user and pointing at
      one of the new categories. */
  lemma {:induction false} AddAllEffect(t: Tables, userId: UserId, approved: seq<CategorySuggestion>)
    ensures var t1 := AddAll(t, userId, approved);
            && |t1.cats| == |t.cats| + |approved| && t1.cats[..|t.cats|] == t.cats
            && t1.nextCat == t.nextCat + |approved|
            && (forall j :: 0 <= j < |approved| ==>
                  t1.cats[|t.cats| + j] == CategoryRow(t.nextCat + j, SuggestionCategory(Some(userId), approved[j])))
            && |t1.rules| == |t.rules| + PatternTotal(approved) && t1.rules[..|t.rules|] == t.rules
            && t1.nextRule == t.nextRule + PatternTotal(approved)
            && (forall i :: |t.rules| <= i < |t1.rules| ==>
                  t1.rules[i].userId == userId && t.nextCat <= t1.rules[i].categoryId < t1.nextCat)
  {
    if approved != [] {
      var n := |approved| - 1;
      AddAllEffect(t, userId, approved[..n]);
      var t0 := AddAll(t, userId, approved[..n]);
      var t1 := AddSuggestion(t0, userId, approved[n]);
      assert t1 == AddAll(t, userId, approved);
      assert t1.cats[..|t.cats|] == t0.cats[..|t.cats|];
      assert t1.rules[..|t.rules|] == t0.rules[..|t.rules|];
      forall j | 0 <= j < |approved|
        ensures t1.cats[|t.cats| + j] == CategoryRow(t.nextCat + j, SuggestionCategory(Some(userId), approved[j]))
      {
        if j < n {
          assert approved[..n][j] == approved[j];
        }
      }
    }
  }

  // ---------------------------------------------------------------------------
  // The handler
  // ---------------------------------------------------------------------------

  /** The request is refused when `approved` is not an array or is empty. */
  predicate Refused(approved: Option<seq<CategorySuggestion>>) {
    approved.None? || approved.value == []
  }

  datatype Applied = Applied(created: nat, categorized: nat)

  /** The store's multi-row rule insert, when every row has an owner and
      points at a category: all rows go in, under consecutive ids. */
  method InsertRules(db: Db, ins: seq<RuleInsert>)
    requires db.Valid()
    requires forall i :: 0 <= i < |ins| ==> ins[i].userId.Some? && ins[i].categoryId in CategoryIds(db.categories)
    modifies db`rules, db`nextRuleId
    ensures db.Valid()
    ensures db.rules == old(db.rules) + RuleRows(old(db.nextRuleId), ins)
    ensures db.nextRuleId == old(db.nextRuleId) + |ins|
  {
    var base, first := db.rules, db.nextRuleId;
    for i := 0 to |ins|
      invariant db.Valid()
      invariant db.rules == base + RuleRows(first, ins[..i]) && db.nextRuleId == first + i
    {
      InsertRuleAt(db, ins, i, base, first);
    }
    assert ins[..|ins|] == ins;
  }

  /** One pass of the insert loop: row i goes in after rows 0..i-1. */
  method InsertRuleAt(db: Db, ins: seq<RuleInsert>, i: nat, base: seq<MerchantRule>, first: Id)
    requires db.Valid()
    requires i < |ins|
    requires forall k :: 0 <= k < |ins| ==> ins[k].userId.Some? && ins[k].categoryId in CategoryIds(db.categories)
    requires db.rules == base + RuleRows(first, ins[..i]) && db.nextRuleId == first + i
    modifies db`rules, db`nextRuleId
    ensures db.Valid()
    ensures db.rules == base + RuleRows(first, ins[..i + 1]) && db.nextRuleId == first + i + 1
  {
    var r := db.InsertRule(ins[i]);
    RuleRowsSnoc(first, ins, i);
  }

  /** The rules for a category just inserted have an owner and point at a
      category of the store. */
  lemma RulesTargetNewCategory(cats: seq<Category>, userId: UserId, patterns: Option<seq<string>>, id: Id)
    requires |cats| > 0 && cats[|cats| - 1].id == id
    ensures var ins := PatternRules(Some(userId), patterns, id);
            forall k :: 0 <= k < |ins| ==> ins[k].userId.Some? && ins[k].categoryId in CategoryIds(cats)
  {
    assert id in CategoryIds(cats);
  }

  /** One pass of the creation loop: insert the suggestion's category,
      then its rules pointing at the new id. */
  method CreateOne(db: Db, userId: UserId, s: CategorySuggestion)
    requires db.Valid()
    modifies db`categories, db`nextCategoryId, db`rules, db`nextRuleId
    ensures db.Valid()
    ensures TablesOf(db) == AddSuggestion(old(TablesOf(db)), userId, s)
  {
    var t0 := TablesOf(db);
    var row := SuggestionCategory(Some(userId), s);
    AsWrittenCreatesNothing(db.categories, userId, s);
    var inserted := db.InsertCategory(row);
    var id := t0.nextCat;
    var ins := PatternRules(Some(userId), s.patterns, id);
    RulesTargetNewCategory(db.categories, userId, s.patterns, id);
    InsertRules(db, ins);
    assert TablesOf(db) == Tables(t0.cats + [CategoryRow(id, row)], id + 1,
                                  t0.rules + RuleRows(t0.nextRule, ins), t0.nextRule + |ins|);
  }

  /** The creation loop, with the acting user as owner: returns the number
      of categories created and leaves the tables as `AddAll` says. */
  method CreateAll(db: Db, userId: UserId, approved: seq<CategorySuggestion>) returns (created: nat)
    requires db.Valid()
    modifies db`categories, db`nextCategoryId, db`rules, db`nextRuleId
    ensures db.Valid()
    ensures created == |approved|
    ensures TablesOf(db) == AddAll(old(TablesOf(db)), userId, approved)
  {
    created := 0;
    for i := 0 to |approved|
      invariant created == i && db.Valid()
      invariant TablesOf(db) == AddAll(old(TablesOf(db)), userId, approved[..i])
    {
      CreateOne(db, userId, approved[i]);
      AddAllSnoc(old(TablesOf(db)), userId, approved, i);
      created := created + 1;
    }
    assert approved[..|approved|] == approved;
  }

  lemma AddAllSnoc(t: Tables, userId: UserId, approved: seq<CategorySuggestion>, i: nat)
    requires i < |approved|
    ensures AddAll(t, userId, approved[..i + 1]) == AddSuggestion(AddAll(t, userId, approved[..i]), userId, approved[i])
  {
    assert approved[..i + 1][..i] == approved[..i];
  }

  /** The sweep that follows creation reads the tables as they are then. */
  function ResweepContext(db: Db, openaiApiKey: Option<string>, model: Model, regex: RegexEngine): SweepContext
    reads db`rules, db`categories, db`merchants
  {
    SweepContextFor(db, CreateCategorizerStrategy(openaiApiKey, model), regex)
  }

  /** `POST /api/categories/apply-suggestions`, with each category and rule
      owned by the acting user. A refused request writes nothing. Otherwise
      every suggestion is created, then the rows with no category or the
      catch-all are swept with the new rules in place; `created` is the
      number of suggestions and `categorized` the number of rows the sweep
      updated. */
  method ApplySuggestions(db: Db, userId: UserId, approved: Option<seq<CategorySuggestion>>,
                          openaiApiKey: Option<string>, model: Model, regex: RegexEngine)
    returns (r: Result<Applied, HttpError>)
    requires db.Valid()
    modifies db`categories, db`nextCategoryId, db`rules, db`nextRuleId, db`transactions
    ensures db.Valid()
    ensures Refused(approved) ==>
              r == Err(HttpError(400, NoSuggestionsMessage)) && TablesOf(db) == old(TablesOf(db)) &&
              db.transactions == old(db.transactions)
    ensures !Refused(approved) ==>
              && TablesOf(db) == AddAll(old(TablesOf(db)), userId, approved.value)
              && var ctx := ResweepContext(db, openaiApiKey, model, regex);
                 var idx := SweptIndices(old(db.transactions), ctx.uncategorizedId);
                 && db.transactions == SweepFold(ctx, old(db.transactions), idx).ts
                 && r == Ok(Applied(|approved.value|, SweepFold(ctx, old(db.transactions), idx).categorized))
  {
    if Refused(approved) {
      return Err(HttpError(400, NoSuggestionsMessage));
    }
    var applied := CreateAndSweep(db, userId, approved.value, openaiApiKey, model, regex);
    r := Ok(applied);
  }

  /** The handler past its check: create every suggestion, then sweep. */
  method CreateAndSweep(db: Db, userId: UserId, approved: seq<CategorySuggestion>,
                        openaiApiKey: Option<string>, model: Model, regex: RegexEngine)
    returns (applied: Applied)
    requires db.Valid()
    modifies db`categories, db`nextCategoryId, db`rules, db`nextRuleId, db`transactions
    ensures db.Valid()
    ensures TablesOf(db) == AddAll(old(TablesOf(db)), userId, approved)
    ensures var ctx := ResweepContext(db, openaiApiKey, model, regex);
            var idx := SweptIndices(old(db.transactions), ctx.uncategorizedId);
            && db.transactions == SweepFold(ctx, old(db.transactions), idx).ts
            && applied == Applied(|approved|, SweepFold(ctx, old(db.transactions), idx).categorized)
  {
    var created := CreateAll(db, userId, approved);
    var ctx := ResweepContext(db, openaiApiKey, model, regex);
    var idx := SweptIndices(db.transactions, ctx.uncategorizedId);
    var categorized := SweepRows(db, ctx, idx);
    applied := Applied(created, categorized);
  }

  /** The handler as written: the category insert names no owner. The
      first insert is refused by the store, so a non-empty request fails
      with a 500 and no row is written (the refused insert still uses up
      a category id). */
  method ApplyAsWritten(db: Db, approved: Option<seq<CategorySuggestion>>,
                        openaiApiKey: Option<string>, model: Model, regex: RegexEngine)
    returns (r: Result<Applied, HttpError>)
    requires db.Valid()
    modifies db`categories, db`nextCategoryId
    ensures db.Valid()
    ensures db.categories == old(db.categories)
    ensures Refused(approved) ==> r == Err(HttpError(400, NoSuggestionsMessage)) && db.nextCategoryId == old(db.nextCategoryId)
    ensures !Refused(approved) ==>
              r == Err(StoreFailure(NotNullViolation("user_id"))) && db.nextCategoryId == old(db.nextCategoryId) + 1
  {
    if Refused(approved) {
      return Err(HttpError(400, NoSuggestionsMessage));
    }
    // The loop's first insert is refused, which ends the request.
    var inserted := db.InsertCategory(SuggestionCategory(None, approved.value[0]));
    r := Err(StoreFailure(inserted.error));
  }

  /** The discrepancy, on every input: the as-written handler refuses every
      non-empty request and writes nothing, while the owned version creates
      one category per suggestion. */
  lemma AsWrittenCreatesNothing(cats: seq<Category>, userId: UserId, s: CategorySuggestion)
    ensures CategoryInsertError(cats, SuggestionCategory(None, s)) == Some(NotNullViolation("user_id"))
    ensures CategoryInsertError(cats, SuggestionCategory(Some(userId), s)).None?
  {
  }
}
