/** The upload endpoint (server/api/import.post.ts): an uploaded statement
    is validated, parsed into records by the PDF path or by the matching CSV
    strategy, and every record is staged for review in a new import session,
    flagged as a duplicate when a transaction with its fingerprint already
    exists, and given a category by the categoriser chain with a per-request
    memo around the model. A row that fails is reported and the loop goes on. */
module ImportHandler {
  import opened Wrappers
  import opened Text
  import opened Lists
  import opened Schema
  import opened ImportTypes
  import opened Llm
  import opened LlmMemo
  import opened Categorizer
  import F = Fingerprint
  import AppleCard
  import ImportStrategies
  import Pdf
  import opened Http

  /** One part of the multipart form. */
  datatype FormItem = FormItem(name: string, filename: Option<string>, data: seq<int>)

  /** What a failing step throws: an `Error` with a message, or anything else. */
  datatype Thrown = ErrorObject(message: string) | NonError

  /** Where in a row's processing a failure (of the store, say) happens:
      the duplicate lookup, the categoriser's rule query (before any model
      call), or the staging insert (after categorising). */
  datatype Stage = AtLookup | AtRules | AtInsert

  datatype RowFault = NoFault | Fault(stage: Stage, thrown: Thrown)

  /** Configuration and outside services of one request. `fault(i)` says
      whether, and where, processing row `i` fails. */
  datatype Env = Env(
    openaiApiKey: string,
    decodeUtf8: seq<int> -> string,
    parsers: AppleCard.Parsers,
    pdf: Pdf.Services,
    model: Model,
    regex: RegexEngine,
    sha256: seq<F.Byte> -> F.Digest,
    amountText: Amount -> string,
    fault: nat -> RowFault)

  const MaxFileSize := 10 * 1024 * 1024

  // ---------------------------------------------------------------------------
  // Validation and parsing
  // ---------------------------------------------------------------------------

  function FindItem(form: seq<FormItem>, name: string): (r: Option<FormItem>)
    ensures r.Some? ==> r.value in form && r.value.name == name
    ensures r.None? ==> forall k :: 0 <= k < |form| ==> form[k].name != name
  {
    match FindFirst(form, (item: FormItem) => item.name == name)
    case None => None
    case Some(k) => Some(form[k])
  }

  /** The account with this id owned by this user, if any. */
  function OwnedAccount(accounts: seq<Account>, id: Id, userId: UserId): (r: Option<Account>)
    ensures r.Some? ==> r.value in accounts && r.value.id == id && r.value.userId == userId
    ensures r.None? ==> forall k :: 0 <= k < |accounts| ==> !(accounts[k].id == id && accounts[k].userId == userId)
  {
    match FindFirst(accounts, (a: Account) => a.id == id && a.userId == userId)
    case None => None
    case Some(k) => Some(accounts[k])
  }

  datatype Upload = Upload(file: FormItem, account: Account)

  /** The request checks, in the order they are made. */
  function ValidateUpload(form: Option<seq<FormItem>>, decodeUtf8: seq<int> -> string,
                          accounts: seq<Account>, userId: UserId): (r: Result<Upload, string>)
    ensures form.None? || form == Some([]) ==> r == Err("No file uploaded")
    ensures r.Ok? ==>
              && form.Some? && FindItem(form.value, "file") == Some(r.value.file)
              && FindItem(form.value, "accountId").Some?
              && ParseInt(decodeUtf8(FindItem(form.value, "accountId").value.data)) == Some(r.value.account.id)
              && |r.value.file.data| <= MaxFileSize
              && r.value.account in accounts && r.value.account.userId == userId
  {
    if form.None? || form.value == [] then Err("No file uploaded")
    else
      var file := FindItem(form.value, "file");
      var accountItem := FindItem(form.value, "accountId");
      if file.None? then Err("Invalid file data")
      else if accountItem.None? then Err("accountId is required")
      else match ParseInt(decodeUtf8(accountItem.value.data))
        case None => Err("Invalid accountId")
        case Some(accountId) =>
          if |file.value.data| > MaxFileSize then Err("File size exceeds the 10 MB limit.")
          else match OwnedAccount(accounts, accountId, userId)
            case None => Err("Account not found")
            case Some(account) => Ok(Upload(file.value, account))
  }

  function UploadFilename(file: FormItem): (f: string)
    ensures f != []
  {
    OrElse(file.filename.GetOr(""), "unknown")
  }

  predicate IsPdfFilename(filename: string) {
    EndsWith(ToLower(filename), ".pdf")
  }

  datatype Parsed = Parsed(records: seq<NormalizedTransaction>, sourceType: string)

  /** The PDF path for names ending in ".pdf" (any case), otherwise the
      first CSV strategy that recognises the content. */
  function ParseUpload(upload: Upload, env: Env): (r: Result<Parsed, string>)
    ensures IsPdfFilename(UploadFilename(upload.file)) && r.Ok? ==> r.value.sourceType == "pdf"
    ensures !IsPdfFilename(UploadFilename(upload.file)) && r.Ok? ==>
              var content := env.decodeUtf8(upload.file.data);
              ImportStrategies.DetectStrategy(UploadFilename(upload.file), content).Ok? &&
              r.value.sourceType == ImportStrategies.DetectStrategy(UploadFilename(upload.file), content).value.Name()
    ensures !IsPdfFilename(UploadFilename(upload.file)) &&
            ImportStrategies.DetectStrategy(UploadFilename(upload.file), env.decodeUtf8(upload.file.data)).Err? ==>
              r == Err(ImportStrategies.NoStrategyMessage(UploadFilename(upload.file)))
  {
    var filename := UploadFilename(upload.file);
    if IsPdfFilename(filename) then
      var run := Pdf.ParsePdfStatement(upload.file.data, env.openaiApiKey, upload.account.institution, env.pdf);
      match run.result
      case Err(e) => Err(e.Message())
      case Ok(records) => Ok(Parsed(records, "pdf"))
    else
      var content := env.decodeUtf8(upload.file.data);
      match ImportStrategies.DetectStrategy(filename, content)
      case Err(e) => Err(e)
      case Ok(strategy) =>
        match strategy.Parse(content, env.parsers)
        case Err(e) => Err(e)
        case Ok(records) => Ok(Parsed(records, strategy.Name()))
  }

  /** Everything before the session is written. */
  function Prepare(form: Option<seq<FormItem>>, accounts: seq<Account>, userId: UserId, env: Env): Result<(Upload, Parsed), string> {
    match ValidateUpload(form, env.decodeUtf8, accounts, userId)
    case Err(e) => Err(e)
    case Ok(upload) =>
      match ParseUpload(upload, env)
      case Err(e) => Err(e)
      case Ok(parsed) => Ok((upload, parsed))
  }

  // ---------------------------------------------------------------------------
  // The row loop, as a fold over the records
  // ---------------------------------------------------------------------------

  /** The user's categories as offered to the model, in table order. */
  function UserCategories(cats: seq<Category>, userId: UserId): (r: seq<CategoryRef>)
    ensures |r| <= |cats|
  {
    if cats == [] then []
    else
      var rest := UserCategories(cats[1..], userId);
      if cats[0].userId == userId then [CategoryRef(cats[0].id, cats[0].name)] + rest else rest
  }

  /** Only the acting user's categories are offered to the model, and all
      of them. */
  lemma {:induction false} UserCategoriesAreTheUsers(cats: seq<Category>, userId: UserId)
    ensures forall x :: x in UserCategories(cats, userId) <==>
              exists c :: c in cats && c.userId == userId && x == CategoryRef(c.id, c.name)
  {
    if cats != [] {
      UserCategoriesAreTheUsers(cats[1..], userId);
      assert cats == [cats[0]] + cats[1..];
    }
  }

  /** What the loop reads: the store's transactions, rules and categories
      (all users'), the user's categories for the model, the strategy, the
      new session's id and the outside services. */
  datatype RowContext = RowContext(
    transactions: seq<Transaction>, rules: seq<MerchantRule>, cats: seq<Category>,
    userCats: seq<CategoryRef>, strategy: Option<CategorizerStrategy>, sessionId: Id, env: Env)

  function RowFingerprint(ctx: RowContext, rec: NormalizedTransaction): string {
    F.GenerateFingerprint(ctx.env.sha256, ctx.env.amountText, rec.transactionDate, rec.description,
                          rec.amount, rec.purchasedBy.GetOr(""))
  }

  function ModelInput(ctx: RowContext, rec: NormalizedTransaction): CategorizationInput {
    CategorizationInput(rec.merchantName, rec.description, rec.amount, rec.txType,
                        rec.sourceCategory, ctx.userCats)
  }

  /** The categoriser chain for one record, with the memo in front of the
      model. */
  function CategorizeRecord(ctx: RowContext, rec: NormalizedTransaction, memo: Memo): (r: Asked)
    ensures Consistent(memo) ==> Consistent(r.memo)
    ensures ctx.strategy.None? ==> r.memo == memo
  {
    var pre := Predetermined(rec.merchantName, rec.description, rec.sourceCategory, ctx.rules, ctx.cats, ctx.env.regex);
    if pre.Some? then Asked(pre, memo)
    else
      var asked := Ask(ctx.strategy, memo, rec.merchantName, ModelInput(ctx, rec));
      Asked(Finish(asked.answer, ctx.cats), asked.memo)
  }

  /** The memoised chain answers what `autoCategorizeMerchant` answers when
      given the handler's fallback closure over the current memo. */
  lemma CategorizeRecordIsChain(ctx: RowContext, rec: NormalizedTransaction, memo: Memo)
    ensures CategorizeRecord(ctx, rec, memo).answer ==
            AutoCategorizeMerchant(rec.merchantName, rec.description, rec.sourceCategory,
                                   Some((name: string) => Ask(ctx.strategy, memo, name, ModelInput(ctx, rec)).answer),
                                   ctx.rules, ctx.cats, ctx.env.regex)
  {
  }

  /** The staging row for a record. */
  function Staged(ctx: RowContext, rec: NormalizedTransaction, categoryId: Option<Id>): (s: StagingInsert)
    ensures s.importSessionId == ctx.sessionId && s.fingerprint == RowFingerprint(ctx, rec)
    ensures s.isDuplicate == Given(HasFingerprint(ctx.transactions, RowFingerprint(ctx, rec)))
    ensures s.isSelected == Given(!HasFingerprint(ctx.transactions, RowFingerprint(ctx, rec)))
  {
    var fp := RowFingerprint(ctx, rec);
    var dup := HasFingerprint(ctx.transactions, fp);
    StagingInsert(ctx.sessionId, rec.transactionDate, rec.clearingDate, rec.description,
                  Given(rec.merchantName), rec.sourceCategory, rec.amount, rec.txType,
                  rec.purchasedBy, fp, categoryId, Given(dup), Given(!dup))
  }

  /** The loop's running state. */
  datatype Tally = Tally(staged: nat, duplicates: nat, errors: seq<string>, memo: Memo, inserts: seq<StagingInsert>)

  const Start := Tally(0, 0, [], LlmMemo.Empty, [])

  function RowError(i: nat, thrown: Thrown): string {
    "Row " + NatText(i + 1) + ": " + (match thrown case ErrorObject(m) => m case NonError => "Unknown error")
  }

  /** One pass of the loop body for row `i`. */
  function Step(ctx: RowContext, i: nat, rec: NormalizedTransaction, t: Tally): Tally {
    var fault := ctx.env.fault(i);
    if fault.Fault? && fault.stage == AtLookup then
      t.(errors := t.errors + [RowError(i, fault.thrown)])
    else
      var dup := HasFingerprint(ctx.transactions, RowFingerprint(ctx, rec));
      var duplicates := if dup then t.duplicates + 1 else t.duplicates;
      if fault.Fault? && fault.stage == AtRules then
        t.(duplicates := duplicates, errors := t.errors + [RowError(i, fault.thrown)])
      else
        var asked := CategorizeRecord(ctx, rec, t.memo);
        if fault.Fault? then
          t.(duplicates := duplicates, memo := asked.memo, errors := t.errors + [RowError(i, fault.thrown)])
        else
          t.(staged := t.staged + 1, duplicates := duplicates, memo := asked.memo,
             inserts := t.inserts + [Staged(ctx, rec, asked.answer)])
  }

  /** The state after the loop has run over `recs`. */
  function Fold(ctx: RowContext, recs: seq<NormalizedTransaction>): Tally {
    if recs == [] then Start
    else Step(ctx, |recs| - 1, recs[|recs| - 1], Fold(ctx, recs[..|recs| - 1]))
  }

  /** The records of the rows that do not fail, in order. */
  function OkRows(fault: nat -> RowFault, recs: seq<NormalizedTransaction>): seq<NormalizedTransaction> {
    if recs == [] then []
    else
      var n := |recs| - 1;
      OkRows(fault, recs[..n]) + (if fault(n).NoFault? then [recs[n]] else [])
  }

  /** The messages of the rows that fail, in order. */
  function FailedRowErrors(fault: nat -> RowFault, n: nat): seq<string> {
    if n == 0 then []
    else FailedRowErrors(fault, n - 1) + (if fault(n - 1).Fault? then [RowError(n - 1, fault(n - 1).thrown)] else [])
  }

  /** How many rows got past the duplicate lookup and were duplicates. */
  function DuplicatesSeen(ctx: RowContext, recs: seq<NormalizedTransaction>): nat {
    if recs == [] then 0
    else
      var n := |recs| - 1;
      var fault := ctx.env.fault(n);
      var seen := !(fault.Fault? && fault.stage == AtLookup) &&
                  HasFingerprint(ctx.transactions, RowFingerprint(ctx, recs[n]));
      DuplicatesSeen(ctx, recs[..n]) + (if seen then 1 else 0)
  }

  /** Every row is either staged or reported, never both and never
      neither; the errors are exactly the failed rows' messages in row order,
      and failures do not stop later rows from being staged. */
  lemma FoldAccountsForEveryRow(ctx: RowContext, recs: seq<NormalizedTransaction>)
    ensures Fold(ctx, recs).staged + |Fold(ctx, recs).errors| == |recs|
    ensures Fold(ctx, recs).errors == FailedRowErrors(ctx.env.fault, |recs|)
    ensures Fold(ctx, recs).staged == |Fold(ctx, recs).inserts| == |OkRows(ctx.env.fault, recs)|
  {
    FoldErrorsAreFailedRows(ctx, recs);
    FoldStagesEachOkRow(ctx, recs);
    EachRowOkOrFailed(ctx.env.fault, recs);
  }

  lemma {:induction false} FoldErrorsAreFailedRows(ctx: RowContext, recs: seq<NormalizedTransaction>)
    ensures Fold(ctx, recs).errors == FailedRowErrors(ctx.env.fault, |recs|)
  {
    if recs != [] {
      var n := |recs| - 1;
      FoldErrorsAreFailedRows(ctx, recs[..n]);
      StepAccounts(ctx, n, recs[n], Fold(ctx, recs[..n]));
    }
  }

  lemma {:induction false} FoldStagesEachOkRow(ctx: RowContext, recs: seq<NormalizedTransaction>)
    ensures Fold(ctx, recs).staged == |Fold(ctx, recs).inserts| == |OkRows(ctx.env.fault, recs)|
  {
    if recs != [] {
      var n := |recs| - 1;
      FoldStagesEachOkRow(ctx, recs[..n]);
      StepAccounts(ctx, n, recs[n], Fold(ctx, recs[..n]));
    }
  }

  /** Every row is either one of the successful records or one of the
      failure messages. */
  lemma {:induction false} EachRowOkOrFailed(fault: nat -> RowFault, recs: seq<NormalizedTransaction>)
    ensures |OkRows(fault, recs)| + |FailedRowErrors(fault, |recs|)| == |recs|
  {
    if recs != [] {
      var n := |recs| - 1;
      EachRowOkOrFailed(fault, recs[..n]);
    }
  }

  /** One pass adds either one staged row or one error message. */
  lemma StepAccounts(ctx: RowContext, i: nat, rec: NormalizedTransaction, t: Tally)
    ensures ctx.env.fault(i).Fault? ==>
              && Step(ctx, i, rec, t).staged == t.staged && Step(ctx, i, rec, t).inserts == t.inserts
              && Step(ctx, i, rec, t).errors == t.errors + [RowError(i, ctx.env.fault(i).thrown)]
    ensures ctx.env.fault(i).NoFault? ==>
              && Step(ctx, i, rec, t).staged == t.staged + 1 && Step(ctx, i, rec, t).errors == t.errors
              && |Step(ctx, i, rec, t).inserts| == |t.inserts| + 1
  {
  }

  /** Each staged row is the staging form of the matching successful
      record: its fingerprint, duplicate flag and selection come from that
      record, and it is selected exactly when it is not a duplicate. */
  lemma {:induction false} FoldStagesOkRows(ctx: RowContext, recs: seq<NormalizedTransaction>)
    ensures |Fold(ctx, recs).inserts| == |OkRows(ctx.env.fault, recs)|
    ensures forall k :: 0 <= k < |Fold(ctx, recs).inserts| ==>
              Fold(ctx, recs).inserts[k] ==
                Staged(ctx, OkRows(ctx.env.fault, recs)[k], Fold(ctx, recs).inserts[k].categoryId)
  {
    if recs != [] {
      FoldStagesOkRows(ctx, recs[..|recs| - 1]);
    }
  }

  /** The duplicate count counts every row that reached the lookup and found
      its fingerprint, including rows that fail afterwards, so it never
      exceeds the number of rows. */
  lemma {:induction false} FoldCountsDuplicates(ctx: RowContext, recs: seq<NormalizedTransaction>)
    ensures Fold(ctx, recs).duplicates == DuplicatesSeen(ctx, recs)
    ensures Fold(ctx, recs).duplicates <= |recs|
  {
    if recs != [] {
      FoldCountsDuplicates(ctx, recs[..|recs| - 1]);
    }
  }

  /** The model is asked about each merchant name at most once per import,
      every answer (none included) is remembered, and without a strategy it
      is never asked. */
  lemma {:induction false} FoldAsksOncePerName(ctx: RowContext, recs: seq<NormalizedTransaction>)
    ensures Consistent(Fold(ctx, recs).memo)
    ensures ctx.strategy.None? ==> Fold(ctx, recs).memo.calls == []
  {
    if recs != [] {
      FoldAsksOncePerName(ctx, recs[..|recs| - 1]);
    }
  }

  // ---------------------------------------------------------------------------
  // The handler
  // ---------------------------------------------------------------------------

  datatype ImportResult = ImportResult(
    success: bool, stagingSessionId: Id, stagedCount: nat, duplicateCount: nat, errors: seq<string>)

  /** Staging rows as the store numbers them, from `first` on. */
  function Numbered(first: Id, inserts: seq<StagingInsert>): (rows: seq<StagingTransaction>)
    ensures |rows| == |inserts|
  {
    seq(|inserts|, k requires 0 <= k < |inserts| => StagingRow(first + k, inserts[k]))
  }

  function ContextFor(db: Db, userId: UserId, env: Env, sessionId: Id): RowContext
    reads db`transactions, db`rules, db`categories
  {
    RowContext(db.transactions, db.rules, db.categories, UserCategories(db.categories, userId),
               CreateCategorizerStrategy(Some(env.openaiApiKey), env.model), sessionId, env)
  }

  /** The duplicate lookup of the loop body: the count goes up exactly when
      the row's fingerprint is already stored. */
  method CountDuplicate(db: Db, ctx: RowContext, rec: NormalizedTransaction, duplicates: nat)
    returns (d: nat)
    requires ctx.transactions == db.transactions
    ensures d == if HasFingerprint(ctx.transactions, RowFingerprint(ctx, rec)) then duplicates + 1 else duplicates
  {
    var dup := db.FingerprintExists(RowFingerprint(ctx, rec));
    d := if dup then duplicates + 1 else duplicates;
  }

  /** The insert of the loop body: the staging table grows by one row, the
      next of those numbered from `first`. */
  method AppendStaged(db: Db, row: StagingInsert, inserts: seq<StagingInsert>,
                      ghost staging0: seq<StagingTransaction>, ghost first: Id)
    requires db.Valid()
    requires db.staging == staging0 + Numbered(first, inserts)
    requires db.nextStagingId == first + |inserts|
    modifies db`staging, db`nextStagingId
    ensures db.Valid()
    ensures db.staging == staging0 + Numbered(first, inserts + [row])
    ensures db.nextStagingId == first + |inserts + [row]|
  {
    var id := db.InsertStaging(row);
    NumberedSnoc(staging0, first, inserts, row);
  }

  /** The loop body for row `i`. */
  method StageRow(db: Db, ctx: RowContext, i: nat, rec: NormalizedTransaction, t: Tally,
                  ghost staging0: seq<StagingTransaction>, ghost first: Id)
    returns (t': Tally)
    requires db.Valid()
    requires ctx.transactions == db.transactions
    requires db.staging == staging0 + Numbered(first, t.inserts)
    requires db.nextStagingId == first + |t.inserts|
    modifies db`staging, db`nextStagingId
    ensures db.Valid()
    ensures t' == Step(ctx, i, rec, t)
    ensures db.staging == staging0 + Numbered(first, t'.inserts)
    ensures db.nextStagingId == first + |t'.inserts|
  {
    if ctx.env.fault(i).Fault? {
      t' := FailRow(db, ctx, i, rec, t);
      return;
    }
    var duplicates := CountDuplicate(db, ctx, rec, t.duplicates);
    var asked := CategorizeRecord(ctx, rec, t.memo);
    var row := Staged(ctx, rec, asked.answer);
    AppendStaged(db, row, t.inserts, staging0, first);
    t' := t.(staged := t.staged + 1, duplicates := duplicates, memo := asked.memo, inserts := t.inserts + [row]);
    StagedStep(ctx, i, rec, t);
  }

  lemma StagedStep(ctx: RowContext, i: nat, rec: NormalizedTransaction, t: Tally)
    requires ctx.env.fault(i).NoFault?
    ensures var asked := CategorizeRecord(ctx, rec, t.memo);
            var dup := HasFingerprint(ctx.transactions, RowFingerprint(ctx, rec));
            Step(ctx, i, rec, t) ==
              t.(staged := t.staged + 1, duplicates := if dup then t.duplicates + 1 else t.duplicates,
                 memo := asked.memo, inserts := t.inserts + [Staged(ctx, rec, asked.answer)])
  {
  }

  /** The loop body for a row that throws: the steps before the throw run,
      the row's message is recorded and nothing is staged. */
  method FailRow(db: Db, ctx: RowContext, i: nat, rec: NormalizedTransaction, t: Tally) returns (t': Tally)
    requires ctx.transactions == db.transactions
    requires ctx.env.fault(i).Fault?
    ensures t' == Step(ctx, i, rec, t)
    ensures t'.inserts == t.inserts
  {
    var fault := ctx.env.fault(i);
    if fault.stage == AtLookup {
      return t.(errors := t.errors + [RowError(i, fault.thrown)]);
    }
    var duplicates := CountDuplicate(db, ctx, rec, t.duplicates);
    if fault.stage == AtRules {
      return t.(duplicates := duplicates, errors := t.errors + [RowError(i, fault.thrown)]);
    }
    var asked := CategorizeRecord(ctx, rec, t.memo);
    t' := t.(duplicates := duplicates, memo := asked.memo, errors := t.errors + [RowError(i, fault.thrown)]);
  }

  lemma FoldSnoc(ctx: RowContext, records: seq<NormalizedTransaction>, i: nat)
    requires i < |records|
    ensures Fold(ctx, records[..i + 1]) == Step(ctx, i, records[i], Fold(ctx, records[..i]))
  {
    assert records[..i + 1][..i] == records[..i];
  }

  lemma NumberedSnoc(staging0: seq<StagingTransaction>, first: Id, inserts: seq<StagingInsert>, x: StagingInsert)
    ensures staging0 + Numbered(first, inserts) + [StagingRow(first + |inserts|, x)] ==
            staging0 + Numbered(first, inserts + [x])
  {
    assert Numbered(first, inserts + [x]) == Numbered(first, inserts) + [StagingRow(first + |inserts|, x)];
  }

  /** The row loop: every record is processed in order, and the staging
      table grows by exactly the rows the fold stages. */
  method StageAll(db: Db, ctx: RowContext, records: seq<NormalizedTransaction>) returns (t: Tally)
    requires db.Valid()
    requires ctx.transactions == db.transactions
    modifies db`staging, db`nextStagingId
    ensures db.Valid()
    ensures t == Fold(ctx, records)
    ensures db.staging == old(db.staging) + Numbered(old(db.nextStagingId), t.inserts)
  {
    var first := db.nextStagingId;
    t := Start;
    var i := 0;
    while i < |records|
      invariant 0 <= i <= |records|
      invariant db.Valid()
      invariant ctx.transactions == db.transactions
      invariant t == Fold(ctx, records[..i])
      invariant db.staging == old(db.staging) + Numbered(first, t.inserts)
      invariant db.nextStagingId == first + |t.inserts|
    {
      var t' := StageRow(db, ctx, i, records[i], t, old(db.staging), first);
      FoldSnoc(ctx, records, i);
      t := t';
      i := i + 1;
    }
    assert records[..|records|] == records;
  }

  function SessionFor(upload: Upload, parsed: Parsed): SessionInsert {
    SessionInsert(upload.account.id, UploadFilename(upload.file), |parsed.records|,
                  Given(parsed.sourceType), Given(PendingReview))
  }

  /** `POST /api/import`. Every failure, including the request checks, is
      reported with status 500 and its message. */
  method Import(db: Db, userId: UserId, form: Option<seq<FormItem>>, env: Env)
    returns (r: Result<ImportResult, HttpError>)
    requires db.Valid()
    modifies db`sessions, db`nextSessionId, db`staging, db`nextStagingId
    ensures db.Valid()
    ensures Prepare(form, db.accounts, userId, env).Err? ==>
              r == Err(HttpError(500, Prepare(form, db.accounts, userId, env).error)) &&
              db.sessions == old(db.sessions) && db.staging == old(db.staging)
    ensures Prepare(form, db.accounts, userId, env).Ok? ==>
              var prepared := Prepare(form, db.accounts, userId, env).value;
              var sid := old(db.nextSessionId);
              var t := Fold(ContextFor(db, userId, env, sid), prepared.1.records);
              && db.sessions == old(db.sessions) + [SessionRow(sid, SessionFor(prepared.0, prepared.1))]
              && db.staging == old(db.staging) + Numbered(old(db.nextStagingId), t.inserts)
              && r == Ok(ImportResult(true, sid, t.staged, t.duplicates, t.errors))
  {
    var prepared := Prepare(form, db.accounts, userId, env);
    if prepared.Err? {
      return Err(HttpError(500, prepared.error));
    }
    var result := StageUpload(db, userId, prepared.value.0, prepared.value.1, env);
    r := Ok(result);
  }

  /** The handler past its checks: open the session, then stage every
      record under it. */
  method StageUpload(db: Db, userId: UserId, upload: Upload, parsed: Parsed, env: Env)
    returns (result: ImportResult)
    requires db.Valid()
    modifies db`sessions, db`nextSessionId, db`staging, db`nextStagingId
    ensures db.Valid()
    ensures var sid := old(db.nextSessionId);
            var t := Fold(ContextFor(db, userId, env, sid), parsed.records);
            && db.sessions == old(db.sessions) + [SessionRow(sid, SessionFor(upload, parsed))]
            && db.staging == old(db.staging) + Numbered(old(db.nextStagingId), t.inserts)
            && result == ImportResult(true, sid, t.staged, t.duplicates, t.errors)
  {
    var sid := db.InsertSession(SessionFor(upload, parsed));
    var ctx := ContextFor(db, userId, env, sid);
    var t := StageAll(db, ctx, parsed.records);
    result := ImportResult(true, sid, t.staged, t.duplicates, t.errors);
  }
}
