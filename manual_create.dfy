/** Manual transaction entry (server/api/transactions/index.post.ts): the
    request is checked, the date is rewritten from Y-M-D to M/D/Y, a
    transaction whose fingerprint is already stored is refused, the
    merchant is found or created for the acting user (recording the
    description among its raw names at most once), and the transaction is
    inserted. */
module ManualCreate {
  import opened Wrappers
  import opened Text
  import opened Lists
  import opened Schema
  import opened Http
  import F = Fingerprint

  /** The request body. Every field may be missing; `accountId`,
      `categoryId` and `amount` have been through `Number`. */
  datatype CreateBody = CreateBody(
    accountId: Option<Id>, transactionDate: Option<string>, description: Option<string>,
    txType: Option<string>, amount: Option<Amount>, categoryId: Option<Id>,
    merchantName: Option<string>, purchasedBy: Option<string>, notes: Option<string>)

  const MissingFieldsMessage := "accountId, transactionDate, description, type, and amount are required"
  const AccountNotFound := "Account not found"
  const CategoryNotFound := "Category not found"
  const DuplicateMessage := "A transaction with identical details already exists"
  const ManualSource := "manual"

  /** The required fields are present; an amount of 0 counts as present. */
  predicate HasRequired(body: CreateBody) {
    TruthyId(body.accountId) && Truthy(body.transactionDate) && Truthy(body.description) &&
    Truthy(body.txType) && body.amount.Some?
  }

  predicate OwnsAccount(accounts: seq<Account>, id: Id, userId: UserId) {
    exists a :: a in accounts && a.id == id && a.userId == userId
  }

  predicate OwnsCategory(cats: seq<Category>, id: Id, userId: UserId) {
    exists c :: c in cats && c.id == id && c.userId == userId
  }

  // ---------------------------------------------------------------------------
  // Date conversion
  // ---------------------------------------------------------------------------

  /** An element of a destructured array; a missing one prints as
      "undefined". */
  function PartOr(parts: seq<string>, k: nat): string {
    if k < |parts| then parts[k] else "undefined"
  }

  /** `const [y, m, d] = date.split('-')` and `${m}/${d}/${y}`. */
  function StoredDate(date: string): string {
    var parts := Split(date, '-');
    PartOr(parts, 1) + "/" + PartOr(parts, 2) + "/" + PartOr(parts, 0)
  }

  /** A "Y-M-D" date is stored as "M/D/Y". */
  lemma StoredDateOfIsoDate(y: string, m: string, d: string)
    requires '-' !in y && '-' !in m && '-' !in d
    ensures StoredDate(y + "-" + m + "-" + d) == m + "/" + d + "/" + y
  {
    var parts := [y, m, d];
    assert parts[1..] == [m, d];
    assert parts[1..][1..] == [d];
    assert Join(parts[1..], '-') == m + "-" + d;
    assert Join(parts, '-') == y + "-" + (m + "-" + d);
    assert y + "-" + m + "-" + d == Join(parts, '-');
    SplitJoin(parts, '-');
  }

  /** A date with no '-' has no month or day: both print as "undefined". */
  lemma StoredDateWithoutDashes(s: string)
    requires '-' !in s
    ensures StoredDate(s) == "undefined/undefined/" + s
  {
    SplitJoin([s], '-');
  }

  // ---------------------------------------------------------------------------
  // Merchant find-or-create
  // ---------------------------------------------------------------------------

  /** Append `d` unless it is already there. */
  function AppendOnce(names: seq<string>, d: string): (r: seq<string>)
    ensures d in r
    ensures d in names ==> r == names
    ensures d !in names ==> r == names + [d]
  {
    if d in names then names else names + [d]
  }

  /** Recording the same description twice changes nothing the second
      time, and no name is ever lost or repeated by it. */
  lemma AppendOnceIdempotent(names: seq<string>, d: string)
    ensures AppendOnce(AppendOnce(names, d), d) == AppendOnce(names, d)
    ensures (set n | n in AppendOnce(names, d)) == (set n | n in names) + {d}
  {
  }

  /** The user's merchant with this exact normalised name, if any. */
  function MerchantIndex(ms: seq<Merchant>, userId: UserId, name: string): (r: Option<nat>)
    ensures r.Some? ==> r.value < |ms| && ms[r.value].normalizedName == name && ms[r.value].userId == userId
    ensures r.Some? ==> forall k :: 0 <= k < r.value ==> (ms[k].normalizedName, ms[k].userId) != (name, userId)
    ensures r.None? ==> forall k :: 0 <= k < |ms| ==> (ms[k].normalizedName, ms[k].userId) != (name, userId)
  {
    FindFirst(ms, (m: Merchant) => m.normalizedName == name && m.userId == userId)
  }

  /** The merchant id the transaction gets, and the merchants table after
      the lookup. */
  datatype Resolved = Resolved(merchantId: Option<Id>, merchants: seq<Merchant>)

  /** A blank merchant name gives no merchant; a known one is reused and
      gets the description among its raw names; an unknown one is created
      with the description as its only raw name, under the next id. */
  function ResolveMerchant(ms: seq<Merchant>, nextId: Id, userId: UserId,
                           merchantName: Option<string>, description: string): (r: Resolved)
    ensures merchantName.None? || Trim(merchantName.value) == [] ==> r == Resolved(None, ms)
    ensures merchantName.Some? && Trim(merchantName.value) != [] ==>
              match MerchantIndex(ms, userId, Trim(merchantName.value))
              case Some(k) =>
                r.merchantId == Some(ms[k].id) &&
                r.merchants == ms[k := ms[k].(rawNames := AppendOnce(ms[k].rawNames, description))]
              case None =>
                r.merchantId == Some(nextId) &&
                r.merchants == ms + [MerchantRow(nextId, MerchantInsert(userId, Trim(merchantName.value), Given([description])))]
  {
    if merchantName.None? || Trim(merchantName.value) == [] then Resolved(None, ms)
    else
      var name := Trim(merchantName.value);
      match MerchantIndex(ms, userId, name)
      case Some(k) =>
        Resolved(Some(ms[k].id), ms[k := ms[k].(rawNames := AppendOnce(ms[k].rawNames, description))])
      case None =>
        Resolved(Some(nextId), ms + [MerchantRow(nextId, MerchantInsert(userId, name, Given([description])))])
  }

  /** Entering a second transaction with the same merchant and description
      reuses the merchant the first one resolved to, and changes nothing. */
  lemma ResolveMerchantTwice(ms: seq<Merchant>, nextId: Id, userId: UserId,
                             merchantName: Option<string>, description: string)
    ensures var r1 := ResolveMerchant(ms, nextId, userId, merchantName, description);
            var r2 := ResolveMerchant(r1.merchants, nextId + 1, userId, merchantName, description);
            r2 == Resolved(r1.merchantId, r1.merchants)
  {
    var r1 := ResolveMerchant(ms, nextId, userId, merchantName, description);
    if merchantName.Some? && Trim(merchantName.value) != [] {
      var name := Trim(merchantName.value);
      match MerchantIndex(ms, userId, name)
      case Some(k) =>
        var m1 := r1.merchants;
        assert m1[k].normalizedName == name && m1[k].userId == userId;
        var k2 := MerchantIndex(m1, userId, name);
        assert k2.Some?;
        assert k2.value == k by {
          assert forall j :: 0 <= j < k ==> m1[j] == ms[j];
        }
        AppendOnceIdempotent(ms[k].rawNames, description);
        assert m1[k := m1[k].(rawNames := AppendOnce(m1[k].rawNames, description))] == m1;
      case None =>
        var m1 := r1.merchants;
        var k2 := MerchantIndex(m1, userId, name);
        assert m1[|ms|].normalizedName == name && m1[|ms|].userId == userId;
        assert k2.Some?;
        assert forall j :: 0 <= j < |ms| ==> m1[j] == ms[j];
        assert k2.value == |ms|;
        assert AppendOnce(m1[|ms|].rawNames, description) == m1[|ms|].rawNames;
        assert m1[|ms| := m1[|ms|].(rawNames := m1[|ms|].rawNames)] == m1;
    }
  }

  // ---------------------------------------------------------------------------
  // The handler
  // ---------------------------------------------------------------------------

  /** The fingerprint: the stored date, the description, the amount and
      the payer as sent (untrimmed, '' when absent). */
  function BodyFingerprint(body: CreateBody, sha256: seq<F.Byte> -> F.Digest, amountText: Amount -> string): string
    requires HasRequired(body)
  {
    F.GenerateFingerprint(sha256, amountText, StoredDate(body.transactionDate.value), body.description.value,
                          body.amount.value, body.purchasedBy.GetOr(""))
  }

  /** Why the request is refused before anything is written, if it is. */
  function Rejection(body: CreateBody, accounts: seq<Account>, cats: seq<Category>, ts: seq<Transaction>,
                     userId: UserId, sha256: seq<F.Byte> -> F.Digest, amountText: Amount -> string): (e: Option<HttpError>)
    ensures e.None? <==>
              && HasRequired(body)
              && OwnsAccount(accounts, body.accountId.value, userId)
              && (TruthyId(body.categoryId) ==> OwnsCategory(cats, body.categoryId.value, userId))
              && !HasFingerprint(ts, BodyFingerprint(body, sha256, amountText))
    ensures e.Some? && e.value.statusCode == 409 <==>
              && HasRequired(body)
              && OwnsAccount(accounts, body.accountId.value, userId)
              && (TruthyId(body.categoryId) ==> OwnsCategory(cats, body.categoryId.value, userId))
              && HasFingerprint(ts, BodyFingerprint(body, sha256, amountText))
    ensures e.Some? ==> e.value.statusCode in {400, 409}
  {
    if !HasRequired(body) then Some(HttpError(400, MissingFieldsMessage))
    else if !OwnsAccount(accounts, body.accountId.value, userId) then Some(HttpError(400, AccountNotFound))
    else if TruthyId(body.categoryId) && !OwnsCategory(cats, body.categoryId.value, userId) then
      Some(HttpError(400, CategoryNotFound))
    else if HasFingerprint(ts, BodyFingerprint(body, sha256, amountText)) then Some(HttpError(409, DuplicateMessage))
    else None
  }

  /** The row inserted for an accepted request. */
  function NewTransaction(body: CreateBody, merchantId: Option<Id>, fingerprint: string): (ins: TransactionInsert)
    requires HasRequired(body)
    ensures ins.sourceFile == Some(ManualSource) && ins.fingerprint == fingerprint
    ensures ins.transactionDate == StoredDate(body.transactionDate.value)
    ensures ins.purchasedBy == TrimmedOrNull(body.purchasedBy) && ins.notes == TrimmedOrNull(body.notes)
    ensures ins.categoryId.Some? <==> TruthyId(body.categoryId)
  {
    TransactionInsert(body.accountId.value, StoredDate(body.transactionDate.value), body.description.value,
                      merchantId, if TruthyId(body.categoryId) then Some(body.categoryId.value) else None,
                      body.txType.value, body.amount.value, TrimmedOrNull(body.purchasedBy), Some(ManualSource),
                      fingerprint, TrimmedOrNull(body.notes))
  }

  /** `POST /api/transactions`. A refused request writes nothing; an
      accepted one resolves the merchant and appends exactly one
      transaction, which is returned. */
  method CreateTransaction(db: Db, userId: UserId, body: CreateBody,
                           sha256: seq<F.Byte> -> F.Digest, amountText: Amount -> string)
    returns (r: Result<Transaction, HttpError>)
    requires db.Valid()
    modifies db`merchants, db`nextMerchantId, db`transactions, db`nextTransactionId
    ensures db.Valid()
    ensures var e := Rejection(body, db.accounts, db.categories, old(db.transactions), userId, sha256, amountText);
            e.Some? ==> r == Err(e.value) && db.merchants == old(db.merchants) && db.transactions == old(db.transactions)
    ensures Rejection(body, db.accounts, db.categories, old(db.transactions), userId, sha256, amountText).None? ==>
              var res := ResolveMerchant(old(db.merchants), old(db.nextMerchantId), userId,
                                         body.merchantName, body.description.value);
              var row := TransactionRow(old(db.nextTransactionId),
                                        NewTransaction(body, res.merchantId, BodyFingerprint(body, sha256, amountText)));
              && db.merchants == res.merchants
              && db.transactions == old(db.transactions) + [row]
              && r == Ok(row)
  {
    var refused := CheckRequest(db, userId, body, sha256, amountText);
    if refused.Some? {
      return Err(refused.value);
    }
    var fingerprint := BodyFingerprint(body, sha256, amountText);
    var merchantId := FindOrCreateMerchant(db, userId, body.merchantName, body.description.value);
    var ins := NewTransaction(body, merchantId, fingerprint);
    var inserted := db.InsertTransaction(ins);
    r := Ok(TransactionRow(inserted.value, ins));
  }

  /** The handler's checks, in order, before anything is written: the
      required fields, the account's owner, the category's owner when one
      is given, and the duplicate lookup. */
  method CheckRequest(db: Db, userId: UserId, body: CreateBody,
                      sha256: seq<F.Byte> -> F.Digest, amountText: Amount -> string)
    returns (e: Option<HttpError>)
    ensures e == Rejection(body, db.accounts, db.categories, db.transactions, userId, sha256, amountText)
  {
    if !HasRequired(body) {
      return Some(HttpError(400, MissingFieldsMessage));
    }
    if !OwnsAccount(db.accounts, body.accountId.value, userId) {
      return Some(HttpError(400, AccountNotFound));
    }
    if TruthyId(body.categoryId) && !OwnsCategory(db.categories, body.categoryId.value, userId) {
      return Some(HttpError(400, CategoryNotFound));
    }
    var existing := db.FingerprintExists(BodyFingerprint(body, sha256, amountText));
    if existing {
      return Some(HttpError(409, DuplicateMessage));
    }
    e := None;
  }

  /** The merchant step of the handler: look the trimmed name up among the
      user's merchants; record the description on a hit, create the
      merchant on a miss. */
  method FindOrCreateMerchant(db: Db, userId: UserId, merchantName: Option<string>, description: string)
    returns (merchantId: Option<Id>)
    requires db.Valid()
    modifies db`merchants, db`nextMerchantId
    ensures db.Valid()
    ensures var res := ResolveMerchant(old(db.merchants), old(db.nextMerchantId), userId, merchantName, description);
            merchantId == res.merchantId && db.merchants == res.merchants
  {
    if merchantName.None? || Trim(merchantName.value) == [] {
      return None;
    }
    var name := Trim(merchantName.value);
    var found := MerchantIndex(db.merchants, userId, name);
    match found {
      case Some(k) =>
        merchantId := Some(db.merchants[k].id);
        var rawNames := db.merchants[k].rawNames;
        if description !in rawNames {
          db.SetMerchantRawNames(k, rawNames + [description]);
        } else {
          assert db.merchants[k := db.merchants[k].(rawNames := rawNames)] == db.merchants;
        }
      case None =>
        var inserted := db.InsertMerchant(MerchantInsert(userId, name, Given([description])));
        merchantId := Some(inserted.value);
    }
  }
}
