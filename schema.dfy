/** The tables of the finance store (server/db/schema.ts) as record types, the
    column defaults that apply when an insert omits a column, the constraints
    the store enforces on insert (NOT NULL owner, foreign keys, unique
    fingerprint, unique merchant per user), and the store itself as an object
    whose tables the request handlers update in place. */
module Schema {
  import opened Wrappers

  type Id = int
  type UserId = int
  /** Amounts are whole cents. */
  type Amount = int

  /** A column value in an insert: left out (so the column default applies),
      or given. */
  datatype Column<T> = Omitted | Given(value: T) {
    function Or(default: T): T {
      match this
      case Omitted => default
      case Given(v) => v
    }
  }

  // ---------------------------------------------------------------------------
  // Rows
  // ---------------------------------------------------------------------------

  datatype Account = Account(
    id: Id, userId: UserId, name: string, accountType: string,
    institution: Option<string>, lastFour: Option<string>, color: Option<string>)

  datatype Category = Category(
    id: Id, userId: UserId, name: string, parentId: Option<Id>,
    color: Option<string>, icon: Option<string>, sortOrder: Option<int>)

  datatype Merchant = Merchant(id: Id, userId: UserId, normalizedName: string, rawNames: seq<string>)

  datatype MerchantRule = MerchantRule(
    id: Id, userId: UserId, pattern: string, categoryId: Id, priority: Option<int>)

  datatype ImportSession = ImportSession(
    id: Id, accountId: Id, filename: string, rowCount: int, sourceType: string, status: string)

  datatype Transaction = Transaction(
    id: Id, accountId: Id, transactionDate: string, clearingDate: Option<string>,
    description: string, merchantId: Option<Id>, categoryId: Option<Id>,
    txType: string, amount: Amount, purchasedBy: Option<string>,
    sourceFile: Option<string>, fingerprint: string, notes: Option<string>,
    tags: Option<seq<string>>, isDuplicateFlagged: Option<bool>,
    importSessionId: Option<Id>)

  datatype StagingTransaction = StagingTransaction(
    id: Id, importSessionId: Id, transactionDate: string, clearingDate: Option<string>,
    description: string, merchantName: string, sourceCategory: Option<string>,
    amount: Amount, txType: string, purchasedBy: Option<string>, fingerprint: string,
    categoryId: Option<Id>, isDuplicate: bool, duplicateOfId: Option<Id>, isSelected: bool)

  // ---------------------------------------------------------------------------
  // Inserts and column defaults
  // ---------------------------------------------------------------------------

  datatype AccountInsert = AccountInsert(
    userId: UserId, name: string, accountType: Column<string>,
    institution: Option<string>, lastFour: Option<string>, color: Column<Option<string>>)

  /** The owner is optional here because the table has no default for it: an
      insert that leaves it out violates its NOT NULL constraint. */
  datatype CategoryInsert = CategoryInsert(
    userId: Option<UserId>, name: string, parentId: Option<Id>,
    color: Option<string>, icon: Option<string>, sortOrder: Column<Option<int>>)

  datatype MerchantInsert = MerchantInsert(userId: UserId, normalizedName: string, rawNames: Column<seq<string>>)

  datatype RuleInsert = RuleInsert(
    userId: Option<UserId>, pattern: string, categoryId: Id, priority: Column<Option<int>>)

  datatype SessionInsert = SessionInsert(
    accountId: Id, filename: string, rowCount: int,
    sourceType: Column<string>, status: Column<string>)

  datatype TransactionInsert = TransactionInsert(
    accountId: Id, transactionDate: string, description: string,
    merchantId: Option<Id>, categoryId: Option<Id>, txType: string, amount: Amount,
    purchasedBy: Option<string>, sourceFile: Option<string>, fingerprint: string,
    notes: Option<string>)

  datatype StagingInsert = StagingInsert(
    importSessionId: Id, transactionDate: string, clearingDate: Option<string>,
    description: string, merchantName: Column<string>, sourceCategory: Option<string>,
    amount: Amount, txType: string, purchasedBy: Option<string>, fingerprint: string,
    categoryId: Option<Id>, isDuplicate: Column<bool>, isSelected: Column<bool>)

  const DefaultAccountType := "credit_card"
  const DefaultAccountColor := "#6366f1"
  const DefaultSourceType := "apple_card"
  const PendingReview := "pending_review"

  /** An account's type defaults to 'credit_card' and its colour to '#6366f1'. */
  function AccountRow(id: Id, ins: AccountInsert): (r: Account)
    ensures r.id == id && r.userId == ins.userId && r.name == ins.name
    ensures ins.accountType.Omitted? ==> r.accountType == DefaultAccountType
    ensures ins.accountType.Given? ==> r.accountType == ins.accountType.value
    ensures ins.color.Omitted? ==> r.color == Some(DefaultAccountColor)
    ensures ins.color.Given? ==> r.color == ins.color.value
  {
    Account(id, ins.userId, ins.name, ins.accountType.Or(DefaultAccountType),
            ins.institution, ins.lastFour, ins.color.Or(Some(DefaultAccountColor)))
  }

  /** A category's sort order defaults to 0. */
  function CategoryRow(id: Id, ins: CategoryInsert): (r: Category)
    requires ins.userId.Some?
    ensures r.id == id && r.userId == ins.userId.value && r.name == ins.name
    ensures r.parentId == ins.parentId
    ensures ins.sortOrder.Omitted? ==> r.sortOrder == Some(0)
    ensures ins.sortOrder.Given? ==> r.sortOrder == ins.sortOrder.value
  {
    Category(id, ins.userId.value, ins.name, ins.parentId, ins.color, ins.icon,
             ins.sortOrder.Or(Some(0)))
  }

  /** A merchant's raw names default to the empty list. */
  function MerchantRow(id: Id, ins: MerchantInsert): (r: Merchant)
    ensures r.id == id && r.userId == ins.userId && r.normalizedName == ins.normalizedName
    ensures ins.rawNames.Omitted? ==> r.rawNames == []
    ensures ins.rawNames.Given? ==> r.rawNames == ins.rawNames.value
  {
    Merchant(id, ins.userId, ins.normalizedName, ins.rawNames.Or([]))
  }

  /** A rule's priority defaults to 0. */
  function RuleRow(id: Id, ins: RuleInsert): (r: MerchantRule)
    requires ins.userId.Some?
    ensures r.id == id && r.userId == ins.userId.value
    ensures r.pattern == ins.pattern && r.categoryId == ins.categoryId
    ensures ins.priority.Omitted? ==> r.priority == Some(0)
    ensures ins.priority.Given? ==> r.priority == ins.priority.value
  {
    MerchantRule(id, ins.userId.value, ins.pattern, ins.categoryId, ins.priority.Or(Some(0)))
  }

  /** A session defaults to status 'pending_review' and source type 'apple_card'. */
  function SessionRow(id: Id, ins: SessionInsert): (r: ImportSession)
    ensures r.id == id && r.accountId == ins.accountId && r.filename == ins.filename
    ensures r.rowCount == ins.rowCount
    ensures ins.status.Omitted? ==> r.status == PendingReview
    ensures ins.status.Given? ==> r.status == ins.status.value
    ensures ins.sourceType.Omitted? ==> r.sourceType == DefaultSourceType
    ensures ins.sourceType.Given? ==> r.sourceType == ins.sourceType.value
  {
    ImportSession(id, ins.accountId, ins.filename, ins.rowCount,
                  ins.sourceType.Or(DefaultSourceType), ins.status.Or(PendingReview))
  }

  /** A transaction starts with no tags, not duplicate-flagged. */
  function TransactionRow(id: Id, ins: TransactionInsert): (r: Transaction)
    ensures r.id == id && r.fingerprint == ins.fingerprint && r.categoryId == ins.categoryId
    ensures r.merchantId == ins.merchantId && r.accountId == ins.accountId
    ensures r.tags == Some([]) && r.isDuplicateFlagged == Some(false)
    ensures r.importSessionId.None? && r.clearingDate.None?
  {
    Transaction(id, ins.accountId, ins.transactionDate, None, ins.description,
                ins.merchantId, ins.categoryId, ins.txType, ins.amount, ins.purchasedBy,
                ins.sourceFile, ins.fingerprint, ins.notes, Some([]), Some(false), None)
  }

  /** A staging row defaults to not duplicate, selected, and merchant name ''. */
  function StagingRow(id: Id, ins: StagingInsert): (r: StagingTransaction)
    ensures r.id == id && r.importSessionId == ins.importSessionId
    ensures r.fingerprint == ins.fingerprint && r.categoryId == ins.categoryId
    ensures ins.isDuplicate.Omitted? ==> !r.isDuplicate
    ensures ins.isSelected.Omitted? ==> r.isSelected
    ensures ins.merchantName.Omitted? ==> r.merchantName == ""
    ensures ins.isDuplicate.Given? ==> r.isDuplicate == ins.isDuplicate.value
    ensures ins.isSelected.Given? ==> r.isSelected == ins.isSelected.value
    ensures r.duplicateOfId.None?
  {
    StagingTransaction(id, ins.importSessionId, ins.transactionDate, ins.clearingDate,
                       ins.description, ins.merchantName.Or(""), ins.sourceCategory,
                       ins.amount, ins.txType, ins.purchasedBy, ins.fingerprint,
                       ins.categoryId, ins.isDuplicate.Or(false), None,
                       ins.isSelected.Or(true))
  }

  /** The rows a run of rule inserts adds, numbered from `first`. */
  function RuleRows(first: Id, ins: seq<RuleInsert>): (r: seq<MerchantRule>)
    requires forall i :: 0 <= i < |ins| ==> ins[i].userId.Some?
    ensures |r| == |ins|
    ensures forall i :: 0 <= i < |r| ==> r[i].id == first + i && r[i].userId == ins[i].userId.value &&
                                          r[i].pattern == ins[i].pattern && r[i].categoryId == ins[i].categoryId
  {
    seq(|ins|, i requires 0 <= i < |ins| => RuleRow(first + i, ins[i]))
  }

  // ---------------------------------------------------------------------------
  // Constraints
  // ---------------------------------------------------------------------------

  datatype DbError =
    | NotNullViolation(column: string)
    | ForeignKeyViolation(column: string)
    | UniqueViolation(column: string)

  function CategoryIds(cs: seq<Category>): set<Id> {
    set c | c in cs :: c.id
  }

  predicate HasFingerprint(ts: seq<Transaction>, fp: string) {
    exists t :: t in ts && t.fingerprint == fp
  }

  /** Why the store refuses a category insert, if it does: no owner
      (user_id is NOT NULL with no default), or a parent that is not a
      category. */
  function CategoryInsertError(cs: seq<Category>, ins: CategoryInsert): (e: Option<DbError>)
    ensures e.None? <==> ins.userId.Some? && (ins.parentId.Some? ==> ins.parentId.value in CategoryIds(cs))
  {
    if ins.userId.None? then Some(NotNullViolation("user_id"))
    else if ins.parentId.Some? && ins.parentId.value !in CategoryIds(cs) then
      Some(ForeignKeyViolation("parent_id"))
    else None
  }

  /** The user already has a merchant under this normalised name. */
  predicate MerchantKeyTaken(ms: seq<Merchant>, ins: MerchantInsert) {
    exists m :: m in ms && (m.normalizedName, m.userId) == (ins.normalizedName, ins.userId)
  }

  /** Why the store refuses a rule insert, if it does. */
  function RuleInsertError(cs: seq<Category>, ins: RuleInsert): (e: Option<DbError>)
    ensures e.None? <==> ins.userId.Some? && ins.categoryId in CategoryIds(cs)
  {
    if ins.userId.None? then Some(NotNullViolation("user_id"))
    else if ins.categoryId !in CategoryIds(cs) then Some(ForeignKeyViolation("category_id"))
    else None
  }

  // Ids are handed out by per-table serial counters, so in every table they
  // are ascending and below the counter.

  predicate AccountIdsOk(s: seq<Account>, next: int) {
    1 <= next && (forall i :: 0 <= i < |s| ==> 1 <= s[i].id < next) &&
    (forall i, j :: 0 <= i < j < |s| ==> s[i].id < s[j].id)
  }
  predicate CategoryIdsOk(s: seq<Category>, next: int) {
    1 <= next && (forall i :: 0 <= i < |s| ==> 1 <= s[i].id < next) &&
    (forall i, j :: 0 <= i < j < |s| ==> s[i].id < s[j].id)
  }
  predicate MerchantIdsOk(s: seq<Merchant>, next: int) {
    1 <= next && (forall i :: 0 <= i < |s| ==> 1 <= s[i].id < next) &&
    (forall i, j :: 0 <= i < j < |s| ==> s[i].id < s[j].id)
  }
  predicate RuleIdsOk(s: seq<MerchantRule>, next: int) {
    1 <= next && (forall i :: 0 <= i < |s| ==> 1 <= s[i].id < next) &&
    (forall i, j :: 0 <= i < j < |s| ==> s[i].id < s[j].id)
  }
  predicate SessionIdsOk(s: seq<ImportSession>, next: int) {
    1 <= next && (forall i :: 0 <= i < |s| ==> 1 <= s[i].id < next) &&
    (forall i, j :: 0 <= i < j < |s| ==> s[i].id < s[j].id)
  }
  predicate StagingIdsOk(s: seq<StagingTransaction>, next: int) {
    1 <= next && (forall i :: 0 <= i < |s| ==> 1 <= s[i].id < next) &&
    (forall i, j :: 0 <= i < j < |s| ==> s[i].id < s[j].id)
  }
  predicate TransactionIdsOk(s: seq<Transaction>, next: int) {
    1 <= next && (forall i :: 0 <= i < |s| ==> 1 <= s[i].id < next) &&
    (forall i, j :: 0 <= i < j < |s| ==> s[i].id < s[j].id)
  }

  /** `fingerprint` is UNIQUE on the transactions table. */
  predicate FingerprintsUnique(ts: seq<Transaction>) {
    forall i, j :: 0 <= i < j < |ts| ==> ts[i].fingerprint != ts[j].fingerprint
  }

  /** (normalized_name, user_id) is UNIQUE on the merchants table. */
  predicate MerchantKeysUnique(ms: seq<Merchant>) {
    forall i, j :: 0 <= i < j < |ms| ==>
      (ms[i].normalizedName, ms[i].userId) != (ms[j].normalizedName, ms[j].userId)
  }

  /** Every category's parent, and every rule's target, is a category. */
  predicate CategoryParentsExist(cs: seq<Category>) {
    forall i :: 0 <= i < |cs| && cs[i].parentId.Some? ==> cs[i].parentId.value in CategoryIds(cs)
  }
  predicate RuleTargetsExist(rs: seq<MerchantRule>, cs: seq<Category>) {
    forall i :: 0 <= i < |rs| ==> rs[i].categoryId in CategoryIds(cs)
  }

  /** A category the store accepts, under the next id, keeps the ids
      ascending, every parent a category and every rule's target one. */
  lemma CategoryAppendKeeps(cs: seq<Category>, rs: seq<MerchantRule>, next: Id, ins: CategoryInsert)
    requires CategoryIdsOk(cs, next) && CategoryParentsExist(cs) && RuleTargetsExist(rs, cs)
    requires CategoryInsertError(cs, ins).None?
    ensures CategoryIdsOk(cs + [CategoryRow(next, ins)], next + 1)
    ensures CategoryParentsExist(cs + [CategoryRow(next, ins)])
    ensures RuleTargetsExist(rs, cs + [CategoryRow(next, ins)])
  {
    var cs' := cs + [CategoryRow(next, ins)];
    assert CategoryIds(cs') == CategoryIds(cs) + {next};
  }

  /** The store, with one sequence per table in insertion order. */
  class Db {
    var accounts: seq<Account>
    var categories: seq<Category>
    var merchants: seq<Merchant>
    var rules: seq<MerchantRule>
    var sessions: seq<ImportSession>
    var staging: seq<StagingTransaction>
    var transactions: seq<Transaction>

    var nextAccountId: int
    var nextCategoryId: int
    var nextMerchantId: int
    var nextRuleId: int
    var nextSessionId: int
    var nextStagingId: int
    var nextTransactionId: int

    ghost predicate Valid()
      reads this
    {
      && AccountIdsOk(accounts, nextAccountId)
      && CategoryIdsOk(categories, nextCategoryId)
      && MerchantIdsOk(merchants, nextMerchantId)
      && RuleIdsOk(rules, nextRuleId)
      && SessionIdsOk(sessions, nextSessionId)
      && StagingIdsOk(staging, nextStagingId)
      && TransactionIdsOk(transactions, nextTransactionId)
      && FingerprintsUnique(transactions)
      && MerchantKeysUnique(merchants)
      && CategoryParentsExist(categories)
      && RuleTargetsExist(rules, categories)
    }

    constructor ()
      ensures Valid()
      ensures accounts == [] && categories == [] && merchants == [] && rules == []
      ensures sessions == [] && staging == [] && transactions == []
    {
      accounts, categories, merchants, rules := [], [], [], [];
      sessions, staging, transactions := [], [], [];
      nextAccountId, nextCategoryId, nextMerchantId, nextRuleId := 1, 1, 1, 1;
      nextSessionId, nextStagingId, nextTransactionId := 1, 1, 1;
    }

    method InsertAccount(ins: AccountInsert) returns (id: Id)
      requires Valid()
      modifies this`accounts, this`nextAccountId
      ensures Valid()
      ensures id == old(nextAccountId) && nextAccountId == id + 1
      ensures accounts == old(accounts) + [AccountRow(id, ins)]
    {
      id := nextAccountId;
      accounts := accounts + [AccountRow(id, ins)];
      nextAccountId := nextAccountId + 1;
    }

    /** The serial default is drawn before any constraint is checked, so a
        refused insert, here and in the other refusing inserts, still uses
        up the next id. */
    method InsertCategory(ins: CategoryInsert) returns (r: Result<Id, DbError>)
      requires Valid()
      modifies this`categories, this`nextCategoryId
      ensures Valid()
      ensures CategoryInsertError(old(categories), ins).Some? ==>
                r == Err(CategoryInsertError(old(categories), ins).value)
                && categories == old(categories) && nextCategoryId == old(nextCategoryId) + 1
      ensures CategoryInsertError(old(categories), ins).None? ==>
                r == Ok(old(nextCategoryId)) && nextCategoryId == old(nextCategoryId) + 1
                && categories == old(categories) + [CategoryRow(old(nextCategoryId), ins)]
    {
      var e := CategoryInsertError(categories, ins);
      if e.Some? {
        nextCategoryId := nextCategoryId + 1;
        return Err(e.value);
      }
      var id := nextCategoryId;
      var row := CategoryRow(id, ins);
      CategoryAppendKeeps(categories, rules, id, ins);
      categories := categories + [row];
      nextCategoryId := nextCategoryId + 1;
      r := Ok(id);
    }

    /** The unique index on (normalized_name, user_id) refuses a second
        merchant under the same key. */
    method InsertMerchant(ins: MerchantInsert) returns (r: Result<Id, DbError>)
      requires Valid()
      modifies this`merchants, this`nextMerchantId
      ensures Valid()
      ensures MerchantKeyTaken(old(merchants), ins) ==>
                r == Err(UniqueViolation("normalized_name")) &&
                merchants == old(merchants) && nextMerchantId == old(nextMerchantId) + 1
      ensures !MerchantKeyTaken(old(merchants), ins) ==>
                r == Ok(old(nextMerchantId)) && nextMerchantId == old(nextMerchantId) + 1 &&
                merchants == old(merchants) + [MerchantRow(old(nextMerchantId), ins)]
    {
      if MerchantKeyTaken(merchants, ins) {
        nextMerchantId := nextMerchantId + 1;
        return Err(UniqueViolation("normalized_name"));
      }
      var id := nextMerchantId;
      merchants := merchants + [MerchantRow(id, ins)];
      nextMerchantId := nextMerchantId + 1;
      r := Ok(id);
    }

    /** `UPDATE merchants SET raw_names = … WHERE id = …` on the row at index `k`. */
    method SetMerchantRawNames(k: nat, rawNames: seq<string>)
      requires Valid() && k < |merchants|
      modifies this`merchants
      ensures Valid()
      ensures merchants == old(merchants)[k := old(merchants)[k].(rawNames := rawNames)]
    {
      merchants := merchants[k := merchants[k].(rawNames := rawNames)];
    }

    method InsertRule(ins: RuleInsert) returns (r: Result<Id, DbError>)
      requires Valid()
      modifies this`rules, this`nextRuleId
      ensures Valid()
      ensures RuleInsertError(categories, ins).Some? ==>
                r == Err(RuleInsertError(categories, ins).value)
                && rules == old(rules) && nextRuleId == old(nextRuleId) + 1
      ensures RuleInsertError(categories, ins).None? ==>
                r == Ok(old(nextRuleId)) && nextRuleId == old(nextRuleId) + 1
                && rules == old(rules) + [RuleRow(old(nextRuleId), ins)]
    {
      var e := RuleInsertError(categories, ins);
      if e.Some? {
        nextRuleId := nextRuleId + 1;
        return Err(e.value);
      }
      var id := nextRuleId;
      rules := rules + [RuleRow(id, ins)];
      nextRuleId := nextRuleId + 1;
      r := Ok(id);
    }

    method InsertSession(ins: SessionInsert) returns (id: Id)
      requires Valid()
      modifies this`sessions, this`nextSessionId
      ensures Valid()
      ensures id == old(nextSessionId) && nextSessionId == id + 1
      ensures sessions == old(sessions) + [SessionRow(id, ins)]
    {
      id := nextSessionId;
      sessions := sessions + [SessionRow(id, ins)];
      nextSessionId := nextSessionId + 1;
    }

    method InsertStaging(ins: StagingInsert) returns (id: Id)
      requires Valid()
      modifies this`staging, this`nextStagingId
      ensures Valid()
      ensures id == old(nextStagingId) && nextStagingId == id + 1
      ensures staging == old(staging) + [StagingRow(id, ins)]
    {
      id := nextStagingId;
      staging := staging + [StagingRow(id, ins)];
      nextStagingId := nextStagingId + 1;
    }

    /** The unique fingerprint column refuses a second transaction with the
        same fingerprint. */
    method InsertTransaction(ins: TransactionInsert) returns (r: Result<Id, DbError>)
      requires Valid()
      modifies this`transactions, this`nextTransactionId
      ensures Valid()
      ensures HasFingerprint(old(transactions), ins.fingerprint) ==>
                r == Err(UniqueViolation("fingerprint")) &&
                transactions == old(transactions) && nextTransactionId == old(nextTransactionId) + 1
      ensures !HasFingerprint(old(transactions), ins.fingerprint) ==>
                r == Ok(old(nextTransactionId)) && nextTransactionId == old(nextTransactionId) + 1 &&
                transactions == old(transactions) + [TransactionRow(old(nextTransactionId), ins)]
    {
      if HasFingerprint(transactions, ins.fingerprint) {
        nextTransactionId := nextTransactionId + 1;
        return Err(UniqueViolation("fingerprint"));
      }
      var id := nextTransactionId;
      transactions := transactions + [TransactionRow(id, ins)];
      nextTransactionId := nextTransactionId + 1;
      r := Ok(id);
    }

    /** `SELECT id FROM transactions WHERE fingerprint = … LIMIT 1`, as a
        yes/no answer. */
    method FingerprintExists(fp: string) returns (found: bool)
      ensures found <==> HasFingerprint(transactions, fp)
    {
      found := false;
      var k := 0;
      while k < |transactions| && !found
        invariant 0 <= k <= |transactions|
        invariant found ==> HasFingerprint(transactions, fp)
        invariant !found ==> forall j :: 0 <= j < k ==> transactions[j].fingerprint != fp
      {
        if transactions[k].fingerprint == fp {
          found := true;
        }
        k := k + 1;
      }
    }

    /** `UPDATE transactions SET category_id = … WHERE id = …` on the row at index `k`. */
    method SetTransactionCategory(k: nat, categoryId: Id)
      requires Valid() && k < |transactions|
      modifies this`transactions
      ensures Valid()
      ensures transactions == old(transactions)[k := old(transactions)[k].(categoryId := Some(categoryId))]
    {
      transactions := transactions[k := transactions[k].(categoryId := Some(categoryId))];
    }
  }
}
