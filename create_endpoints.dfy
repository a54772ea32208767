/** The three create endpoints for the user's own records
    (server/api/merchant-rules/index.post.ts, server/api/categories/index.post.ts,
    server/api/accounts/index.post.ts). Each one checks the request body,
    normalises it, fills in its defaults and inserts one row owned by the
    acting user. A refused request writes nothing. */
module CreateEndpoints {
  import opened Wrappers
  import opened Text
  import opened Schema
  import opened Http

  // ---------------------------------------------------------------------------
  // Merchant rules
  // ---------------------------------------------------------------------------

  const PatternRequired := "Pattern is required"
  const CategoryIdRequired := "Category ID is required"
  const DefaultRulePriority := 100

  /** The request body of `POST /api/merchant-rules`; a field may be missing. */
  datatype RuleBody = RuleBody(pattern: Option<string>, categoryId: Option<int>, priority: Option<int>)

  /** Why the request is refused before the insert, if it is: a blank
      pattern first, then a missing or zero category id. */
  function RuleRejection(body: RuleBody): (e: Option<HttpError>)
    ensures e.None? <==> !Blank(body.pattern) && TruthyId(body.categoryId)
    ensures Blank(body.pattern) ==> e == Some(HttpError(400, PatternRequired))
    ensures !Blank(body.pattern) && !TruthyId(body.categoryId) ==> e == Some(HttpError(400, CategoryIdRequired))
  {
    if Blank(body.pattern) then Some(HttpError(400, PatternRequired))
    else if !TruthyId(body.categoryId) then Some(HttpError(400, CategoryIdRequired))
    else None
  }

  /** `pattern.trim().toLowerCase()`. */
  function NormalizePattern(pattern: string): string {
    ToLower(Trim(pattern))
  }

  /** Lower-casing never turns a character into whitespace or back. */
  lemma LowerCharKeepsSpace(c: char)
    ensures IsSpace(LowerChar(c)) <==> IsSpace(c)
  {
  }

  /** The stored pattern is already normalised: trimming or lower-casing it
      again, or normalising it twice, changes nothing. */
  lemma NormalizePatternIsFixed(pattern: string)
    ensures Trim(NormalizePattern(pattern)) == NormalizePattern(pattern)
    ensures ToLower(NormalizePattern(pattern)) == NormalizePattern(pattern)
    ensures NormalizePattern(NormalizePattern(pattern)) == NormalizePattern(pattern)
  {
    var t := Trim(pattern);
    var p := ToLower(t);
    if p != [] {
      LowerCharKeepsSpace(t[0]);
      LowerCharKeepsSpace(t[|t| - 1]);
      assert TrimStart(p) == p;
      assert TrimEnd(p) == p;
    }
    ToLowerIdempotent(t);
  }

  /** `priority || 100`: a missing or zero priority becomes 100. */
  function RulePriority(priority: Option<int>): (r: int)
    ensures r != 0
    ensures TruthyId(priority) ==> r == priority.value
  {
    if TruthyId(priority) then priority.value else DefaultRulePriority
  }

  /** The insert for an accepted request. */
  function RuleFor(userId: UserId, body: RuleBody): RuleInsert
    requires RuleRejection(body).None?
  {
    RuleInsert(Some(userId), NormalizePattern(body.pattern.value), body.categoryId.value,
               Given(Some(RulePriority(body.priority))))
  }

  /** The stored rule is the user's, keeps the normalised pattern and the
      category, and never has priority 0: the column default does not
      apply and a priority of 0 is stored as 100. */
  lemma RuleForStored(userId: UserId, body: RuleBody, id: Id)
    requires RuleRejection(body).None?
    ensures var row := RuleRow(id, RuleFor(userId, body));
            && row.userId == userId && row.categoryId == body.categoryId.value
            && row.pattern == NormalizePattern(body.pattern.value)
            && row.priority.Some? && row.priority.value != 0
            && (body.priority.None? || body.priority == Some(0) ==> row.priority == Some(DefaultRulePriority))
            && (TruthyId(body.priority) ==> row.priority == body.priority)
  {
  }

  /** `POST /api/merchant-rules`. The rule goes in exactly when the pattern
      is not blank, the category id is given and non-zero, and that
      category exists; a missing category is refused by the store, which
      still uses up the next rule id. */
  method CreateRule(db: Db, userId: UserId, body: RuleBody) returns (r: Result<MerchantRule, HttpError>)
    requires db.Valid()
    modifies db`rules, db`nextRuleId
    ensures db.Valid()
    ensures r.Ok? <==>
              !Blank(body.pattern) && TruthyId(body.categoryId) && body.categoryId.value in CategoryIds(db.categories)
    ensures RuleRejection(body).Some? ==> r == Err(RuleRejection(body).value)
    ensures r.Err? ==> db.rules == old(db.rules)
    ensures RuleRejection(body).Some? ==> db.nextRuleId == old(db.nextRuleId)
    ensures RuleRejection(body).None? && body.categoryId.value !in CategoryIds(db.categories) ==>
              r == Err(StoreFailure(ForeignKeyViolation("category_id"))) && db.nextRuleId == old(db.nextRuleId) + 1
    ensures r.Ok? ==> r.value == RuleRow(old(db.nextRuleId), RuleFor(userId, body)) &&
                      db.rules == old(db.rules) + [r.value] && db.nextRuleId == old(db.nextRuleId) + 1
  {
    var refused := RuleRejection(body);
    if refused.Some? {
      return Err(refused.value);
    }
    var ins := RuleFor(userId, body);
    var inserted := db.InsertRule(ins);
    if inserted.Err? {
      return Err(StoreFailure(inserted.error));
    }
    r := Ok(RuleRow(inserted.value, ins));
  }

  // ---------------------------------------------------------------------------
  // Categories
  // ---------------------------------------------------------------------------

  const CategoryNameRequired := "Category name is required"

  /** The request body of `POST /api/categories`. */
  datatype CategoryBody = CategoryBody(
    name: Option<string>, parentId: Option<int>, color: Option<string>, icon: Option<string>,
    sortOrder: Option<int>)

  /** The insert for a request with a name: the trimmed name, a falsy
      parent, colour or icon stored as null, and `sortOrder || 0`. */
  function CategoryFor(userId: UserId, body: CategoryBody): (ins: CategoryInsert)
    requires !Blank(body.name)
  {
    CategoryInsert(Some(userId), Trim(body.name.value),
                   if TruthyId(body.parentId) then body.parentId else None,
                   NonEmptyOrNull(body.color.GetOr("")), NonEmptyOrNull(body.icon.GetOr("")),
                   Given(Some(if TruthyId(body.sortOrder) then body.sortOrder.value else 0)))
  }

  /** The stored category is the user's, under a trimmed non-blank name; a
      missing or zero parent makes it top-level, a missing or empty colour
      or icon is null, and its sort order is the given one or 0. */
  lemma CategoryForStored(userId: UserId, body: CategoryBody, id: Id)
    requires !Blank(body.name)
    ensures var row := CategoryRow(id, CategoryFor(userId, body));
            && row.userId == userId && row.name == Trim(body.name.value)
            && row.name != [] && Trim(row.name) == row.name
            && (row.parentId.None? <==> !TruthyId(body.parentId))
            && (row.parentId.Some? ==> row.parentId == body.parentId)
            && (row.color.None? <==> !Truthy(body.color)) && (row.color.Some? ==> row.color == body.color)
            && (row.icon.None? <==> !Truthy(body.icon)) && (row.icon.Some? ==> row.icon == body.icon)
            && row.sortOrder == Some(body.sortOrder.GetOr(0))
  {
    var name := Trim(body.name.value);
    TrimIdempotent(body.name.value);
    var parent := if TruthyId(body.parentId) then body.parentId else None;
    var color, icon := NonEmptyOrNull(body.color.GetOr("")), NonEmptyOrNull(body.icon.GetOr(""));
    var sortOrder := if TruthyId(body.sortOrder) then body.sortOrder.value else 0;
    assert CategoryFor(userId, body) == CategoryInsert(Some(userId), name, parent, color, icon, Given(Some(sortOrder)));
    assert CategoryRow(id, CategoryFor(userId, body)) == Category(id, userId, name, parent, color, icon, Some(sortOrder));
  }

  /** `POST /api/categories`. A blank name is refused with 400; otherwise
      the category goes in unless its parent is not a category, which the
      store refuses after using up the next category id. */
  method CreateCategory(db: Db, userId: UserId, body: CategoryBody) returns (r: Result<Category, HttpError>)
    requires db.Valid()
    modifies db`categories, db`nextCategoryId
    ensures db.Valid()
    ensures Blank(body.name) ==> r == Err(HttpError(400, CategoryNameRequired))
    ensures r.Ok? <==>
              !Blank(body.name) && (TruthyId(body.parentId) ==> body.parentId.value in CategoryIds(old(db.categories)))
    ensures r.Err? ==> db.categories == old(db.categories)
    ensures Blank(body.name) ==> db.nextCategoryId == old(db.nextCategoryId)
    ensures !Blank(body.name) && TruthyId(body.parentId) && body.parentId.value !in CategoryIds(old(db.categories)) ==>
              r == Err(StoreFailure(ForeignKeyViolation("parent_id"))) && db.nextCategoryId == old(db.nextCategoryId) + 1
    ensures r.Ok? ==> r.value == CategoryRow(old(db.nextCategoryId), CategoryFor(userId, body)) &&
                      db.categories == old(db.categories) + [r.value] &&
                      db.nextCategoryId == old(db.nextCategoryId) + 1
  {
    if Blank(body.name) {
      return Err(HttpError(400, CategoryNameRequired));
    }
    var ins := CategoryFor(userId, body);
    var inserted := db.InsertCategory(ins);
    if inserted.Err? {
      return Err(StoreFailure(inserted.error));
    }
    r := Ok(CategoryRow(inserted.value, ins));
  }

  // ---------------------------------------------------------------------------
  // Accounts
  // ---------------------------------------------------------------------------

  const AccountNameRequired := "Account name is required"

  /** The request body of `POST /api/accounts`. */
  datatype AccountBody = AccountBody(
    name: Option<string>, accountType: Option<string>, institution: Option<string>,
    lastFour: Option<string>, color: Option<string>)

  /** The insert for a request with a name: the trimmed name,
      `type || 'credit_card'`, trimmed-or-null institution and last four
      digits, and `color || '#6366f1'`. */
  function AccountFor(userId: UserId, body: AccountBody): AccountInsert
    requires !Blank(body.name)
  {
    AccountInsert(userId, Trim(body.name.value),
                  Given(if Truthy(body.accountType) then body.accountType.value else DefaultAccountType),
                  TrimmedOrNull(body.institution), TrimmedOrNull(body.lastFour),
                  Given(Some(if Truthy(body.color) then body.color.value else DefaultAccountColor)))
  }

  /** The stored account is the user's, under a trimmed non-blank name; a
      missing or empty type or colour gets the same value the table's
      default would give, and institution and last four digits are
      trimmed, or null when blank. */
  lemma AccountForStored(userId: UserId, body: AccountBody, id: Id)
    requires !Blank(body.name)
    ensures var row := AccountRow(id, AccountFor(userId, body));
            && row.userId == userId && row.name == Trim(body.name.value)
            && row.name != [] && Trim(row.name) == row.name
            && row.accountType == (if Truthy(body.accountType) then body.accountType.value else DefaultAccountType)
            && row.color == Some(if Truthy(body.color) then body.color.value else DefaultAccountColor)
            && (row.institution.None? <==> Blank(body.institution))
            && (row.institution.Some? ==> row.institution.value == Trim(body.institution.value))
            && (row.lastFour.None? <==> Blank(body.lastFour))
            && (row.lastFour.Some? ==> row.lastFour.value == Trim(body.lastFour.value))
  {
    TrimIdempotent(body.name.value);
  }

  /** With no type and no colour in the request, the endpoint stores what
      the table would have filled in. */
  lemma AccountDefaultsAgree(userId: UserId, body: AccountBody, id: Id)
    requires !Blank(body.name) && !Truthy(body.accountType) && !Truthy(body.color)
    ensures AccountRow(id, AccountFor(userId, body)) ==
            AccountRow(id, AccountFor(userId, body).(accountType := Omitted, color := Omitted))
  {
  }

  /** `POST /api/accounts`. A blank name is refused with 400 and nothing is
      written; otherwise exactly one account goes in, under the next id. */
  method CreateAccount(db: Db, userId: UserId, body: AccountBody) returns (r: Result<Account, HttpError>)
    requires db.Valid()
    modifies db`accounts, db`nextAccountId
    ensures db.Valid()
    ensures r.Ok? <==> !Blank(body.name)
    ensures r.Err? ==> r.error == HttpError(400, AccountNameRequired) &&
                       db.accounts == old(db.accounts) && db.nextAccountId == old(db.nextAccountId)
    ensures r.Ok? ==> r.value == AccountRow(old(db.nextAccountId), AccountFor(userId, body)) &&
                      db.accounts == old(db.accounts) + [r.value] && db.nextAccountId == old(db.nextAccountId) + 1
  {
    if Blank(body.name) {
      return Err(HttpError(400, AccountNameRequired));
    }
    var ins := AccountFor(userId, body);
    var id := db.InsertAccount(ins);
    r := Ok(AccountRow(id, ins));
  }
}
