# Spent: import, de-duplication and categorisation, modelled in Dafny

Spent is a personal-finance web application. Its server takes bank and
card statements (an Apple Card CSV export or a PDF statement read by a
language model) and stages every row for review. Each staged row carries
a fingerprint. A row whose fingerprint is already in the ledger is flagged
as a duplicate and left unselected. Each row also gets a category from a
fixed chain: the user's merchant rules in priority order, then the
statement's own category hint, then the language model (asked once per
merchant name per request), then "Uncategorized". Further endpoints create
transactions, accounts, categories and merchant rules one at a time. A
sweep re-categorises uncategorised transactions. The model suggests new
categories for uncategorised merchants, and applying those suggestions
creates the categories and their rules. Seeding writes the default
category tree and rules.

The model keeps the server's own structure:

- One module per source file.
- The database is a class `Schema.Db`. Its tables are `seq` fields that the
  handlers change through insert and update methods, and each method keeps
  the table's constraints.
- Row loops become methods with `for` loops. Each is proved equal to a
  prefix fold, and the fold's properties are proved as lemmas.
- Pure helpers (fingerprints, CSV rows, the categoriser chain, the model's
  reply handling) become functions.
- Everything outside the process is a parameter: the hash, the CSV
  tokeniser, PDF text extraction, the chat completion service, JSON
  decoding, the regular-expression engine and number formatting.

## Model

| member | source | states |
|---|---|---|
| Text.Trim | server/api/merchant-rules/index.post.ts:15 | `String.prototype.trim`: the result is a slice of the input with no white space at either end |
| Text.TrimEmptyIffAllSpace | server/api/categories/index.post.ts:17 | a string trims to empty exactly when every character is white space |
| Text.TrimIdempotent | server/api/accounts/index.post.ts:17-18 | trimming twice is trimming once |
| Text.TrimIsSlice | server/api/merchant-rules/index.post.ts:31 | the trimmed string is a contiguous slice of the input |
| Text.ToLower | server/utils/categorizer.ts:14 | `toLowerCase` maps each character on its own and keeps the length |
| Text.ToLowerIdempotent | server/utils/categorizer.ts:29 | lower-casing an already lower-cased string changes nothing |
| Text.Contains | server/utils/categorizer.ts:40-46 | `includes` holds exactly when the pattern occurs at some position |
| Text.ContainsChar | server/utils/categorizer.ts:32 | a one-character pattern is contained exactly when the character occurs |
| Text.ContainsSlice | server/utils/categorizer.ts:46 | every slice of a string is contained in it |
| Text.Split | server/utils/import-strategies/apple-card.ts:30 | `split` yields at least one part and no part holds the separator |
| Text.JoinSplit | server/utils/import-strategies/apple-card.ts:30 | joining the parts of a split with the separator gives back the string |
| Text.SplitJoin | server/utils/import-strategies/apple-card.ts:30 | splitting a join of separator-free parts gives back the parts |
| Text.FirstLine | server/utils/import-strategies/apple-card.ts:30 | the first line is a prefix with no newline, followed by a newline or the end |
| Text.SplitFirstPart | server/utils/import-strategies/apple-card.ts:30 | the first part of a split is a prefix ended by the separator or the end |
| Text.RemoveChar | server/utils/import-strategies/apple-card.ts:46 | `replace(/,/g, '')` removes every comma and keeps every other character |
| Text.RemoveCharAppend | server/utils/import-strategies/apple-card.ts:46 | the deletion works piece by piece and keeps the order of the characters it keeps |
| Text.RemoveCharBetween | server/utils/import-strategies/apple-card.ts:46 | one comma between two comma-free stretches is deleted in place, the stretches joined in order |
| Text.RemoveCharOne | server/utils/import-strategies/apple-card.ts:46 | a single character is kept exactly when it is not the one deleted |
| Text.Utf16Units | server/utils/import-strategies/pdf.ts:46 | a character takes two code units exactly when it lies above U+FFFF |
| Text.Utf16Length | server/utils/import-strategies/pdf.ts:135 | `length` lies between the number of characters and twice that |
| Text.Utf16LengthBmp | server/utils/import-strategies/pdf.ts:135 | for text without surrogate pairs `length` is the number of characters |
| Text.Utf16Take | server/utils/import-strategies/pdf.ts:46 | the cut is a prefix within the limit that stops only where the next character would exceed it, and keeps text within the limit whole |
| Text.Utf16TakeBmp | server/utils/import-strategies/pdf.ts:46 | for text without surrogate pairs the cut is `slice(0, n)` |
| Text.NatText | server/api/import.post.ts:168 | a natural number prints as a non-empty string of decimal digits |
| Text.DigitPrefix | server/api/import.post.ts:42 | `parseInt` reads the longest prefix of digits |
| Text.DigitsValueNatText | server/api/import.post.ts:168 | reading back a printed number gives the number |
| Text.ParseIntNatText | server/api/import.post.ts:42 | `parseInt` of a printed natural number is that number |
| Text.ParseIntDecimal | server/api/import.post.ts:42 | `parseInt` of a non-empty digit string is its decimal value |
| Text.UnsignedDecimal | server/api/import.post.ts:42 | an unsigned digit string reads as its decimal value |
| Text.OrElse | server/utils/import-strategies/apple-card.ts:45 | `a \|\| b` on strings: `a` unless it is empty; non-empty if either is |
| Lists.FindFirst | server/utils/import-strategies/index.ts:9 | `find`: the first element that passes, with none before it; none exactly when no element passes |
| Sorting.Sort | server/utils/categorizer.ts:25 | the sorted result is a permutation of the input |
| Sorting.Insert | server/utils/categorizer.ts:25 | inserting adds exactly one occurrence of the element |
| Sorting.InsertSorted | server/utils/categorizer.ts:25 | inserting into a sorted sequence keeps it sorted under a total preorder |
| Sorting.SortSorted | server/utils/categorizer.ts:25 | the sort's result is ordered by any total preorder |
| Sorting.ByKeyDescIsTotalPreorder | server/api/categories/suggest.post.ts:73 | a descending comparison on an integer key is a total preorder |
| Sorting.SortByKeyDesc | server/api/categories/suggest.post.ts:73 | sorting by a descending key gives a permutation with the largest keys first |
| Sorting.FirstPassingIsLeast | server/utils/categorizer.ts:28-50 | in a sorted sequence the first element that passes comes no later than any other that passes |
| Sorting.FirstPassingIsLeastOf | server/utils/categorizer.ts:25-50 | the first passing element of a sorted permutation is in the input and least among the passing inputs |
| Fingerprint.EncodeChar | server/utils/fingerprint.ts:11 | UTF-8 encodes each character in one to four bytes |
| Fingerprint.EncodeCharDecodes | server/utils/fingerprint.ts:11 | the lead byte gives the encoding's length and the bytes decode back to the character |
| Fingerprint.Utf8 | server/utils/fingerprint.ts:11 | `TextEncoder.encode` yields at least one byte per character |
| Fingerprint.Utf8Injective | server/utils/fingerprint.ts:11 | different strings encode to different bytes |
| Fingerprint.HexDigit | server/utils/fingerprint.ts:12 | a nibble is written as one lowercase hex digit |
| Fingerprint.HexText | server/utils/fingerprint.ts:12 | `bytesToHex` writes two hex digits per byte |
| Fingerprint.UnHexHexText | server/utils/fingerprint.ts:12 | reading the hex text back gives the bytes |
| Fingerprint.HexTextInjective | server/utils/fingerprint.ts:12 | different byte strings give different hex text |
| Fingerprint.PreimageSplit | server/utils/fingerprint.ts:10 | splitting the hashed text at '\|' gives back the four fields when none holds a '\|' |
| Fingerprint.PreimageInjective | server/utils/fingerprint.ts:10 | fields without '\|' are determined by the hashed text |
| Fingerprint.PreimageCollision | server/utils/fingerprint.ts:10 | a '\|' inside a field lets two different rows share the hashed text |
| Fingerprint.GenerateFingerprint | server/utils/fingerprint.ts:4-13 | a fingerprint is 64 lowercase hex digits |
| Fingerprint.FingerprintDeterministic | server/utils/fingerprint.ts:4-13 | rows whose joined fields agree get the same fingerprint, whatever the hash |
| Fingerprint.FingerprintEqualIffPreimage | server/utils/fingerprint.ts:10-12 | when the hash does not collide on the two encoded preimages, two rows share a fingerprint exactly when their joined fields agree |
| Fingerprint.FingerprintEqualIffFields | server/utils/fingerprint.ts:10-12 | for fields without '\|' and no hash collision on the two preimages, two rows share a fingerprint exactly when date, description, amount text and payer all agree |
| AppleCard.AllOccur | server/utils/import-strategies/apple-card.ts:31 | `every(h => line.includes(h))` |
| AppleCard.CanHandle | server/utils/import-strategies/apple-card.ts:29-32 | a file is recognised exactly when every header title occurs in its first line; the file name plays no part |
| AppleCard.CanHandleExportHeader | server/utils/import-strategies/apple-card.ts:4-13 | a file whose first line is the comma-joined header titles is recognised, whatever follows |
| AppleCard.HeaderLineHasTitles | server/utils/import-strategies/apple-card.ts:30-31 | each title occurs in the first line of a comma-joined title line |
| AppleCard.JoinAvoids | server/utils/import-strategies/apple-card.ts:30 | a character in no part and not the separator is not in the join |
| AppleCard.JoinContainsPart | server/utils/import-strategies/apple-card.ts:31 | every part occurs in the join |
| AppleCard.FirstLineOfLine | server/utils/import-strategies/apple-card.ts:30 | the first line of `line + "\n" + rest` is `line` |
| AppleCard.ToRecord | server/utils/import-strategies/apple-card.ts:41-50 | one row's record: empty clearing date, payer and category become absent; an empty merchant falls back to the description; the amount is `parseFloat` of the amount text with its commas deleted in place |
| AppleCard.ThousandsSeparatorDropped | server/utils/import-strategies/apple-card.ts:46 | an amount written with one thousands separator, such as "1,250.00", is parsed from the same text without it, "1250.00" |
| AppleCard.Parse | server/utils/import-strategies/apple-card.ts:34-51 | a tokeniser error passes through; otherwise one record per row, in row order |
| ImportStrategies.Detect | server/utils/import-strategies/index.ts:8-14 | the first registered strategy that handles the file; an error naming the file exactly when none does |
| ImportStrategies.DetectShipped | server/utils/import-strategies/index.ts:4-6 | with the shipped list, detection succeeds exactly when the Apple Card check does, and yields 'apple_card' |
| Pdf.Abs | server/utils/import-strategies/pdf.ts:106 | `Math.abs`: non-negative and equal to the amount or its negation |
| Pdf.Truncate | server/utils/import-strategies/pdf.ts:46 | text of at most 80 000 UTF-16 code units is kept whole; longer text is cut to a prefix of 79 999 or 80 000 code units |
| Pdf.TruncateBmp | server/utils/import-strategies/pdf.ts:46 | for text without surrogate pairs the cut is `slice(0, 80000)`: exactly the first 80 000 characters |
| Pdf.ToRecord | server/utils/import-strategies/pdf.ts:101-110 | one model transaction's record: non-negative amount, merchant falls back to the description, type falls back to "Purchase", no payer and no source category |
| Pdf.ReadAnswer | server/utils/import-strategies/pdf.ts:85-110 | a thrown call and an empty reply are errors; success gives one record per listed transaction, in order |
| Pdf.ParsePdfStatement | server/utils/import-strategies/pdf.ts:117-146 | no API key fails before reading the PDF; the model is asked exactly when the key is set, the text is extracted and its trimmed length in UTF-16 code units is at least 100; the request carries the truncated text, and the result is what the model's reply is read as |
| Pdf.ParseGuards | server/utils/import-strategies/pdf.ts:129-143 | an extraction failure is reported as a read failure with its message; text shorter than 100 UTF-16 code units after trimming is reported as a scanned image |
| Pdf.ParsedRecordsShape | server/utils/import-strategies/pdf.ts:101-110 | every record of a successful parse has a non-negative amount, no payer and no source category |
| Pdf.UserMessageEndsWithTruncatedText | server/utils/import-strategies/pdf.ts:45-80 | the request ends with the truncated text, after the institution hint when there is one |
| Llm.CreateCategorizerStrategy | server/utils/llmCategorizer.ts:32-39 | a strategy exactly when a non-empty API key is configured |
| Llm.ReplyContent | server/utils/llm-strategies/openai.ts:44-45 | the first choice's content, present exactly when it is a non-empty string |
| OpenAi.CategorizeRequest | server/utils/llm-strategies/openai.ts:14-42 | no request exactly when there are no categories to choose from |
| OpenAi.RequestedName | server/utils/llm-strategies/openai.ts:44-49 | a name only from a JSON object whose `category` is a non-blank string, trimmed and lower-cased |
| OpenAi.Categorize | server/utils/llm-strategies/openai.ts:11-56 | no categories give null; any answer is the id of an offered category |
| OpenAi.CategorizeMatchesName | server/utils/llm-strategies/openai.ts:51-52 | there is an answer exactly when the reply names an offered category, ignoring case, and it is the first such |
| OpenAi.CategorizeFailuresAreNull | server/utils/llm-strategies/openai.ts:45-55 | a thrown call, missing content or text that is not JSON gives null |
| OpenAi.SuggestRequest | server/utils/llm-strategies/openai.ts:58-106 | no request exactly when there are no merchants |
| OpenAi.SuggestNewCategories | server/utils/llm-strategies/openai.ts:58-116 | no merchants give no suggestions; a reply whose `suggestions` is an array yields exactly that array, and any other result is empty |
| OpenAi.SuggestFailuresAreEmpty | server/utils/llm-strategies/openai.ts:108-115 | a thrown call, missing content or text that is not JSON gives no suggestions |
| LlmMemo.Ask | server/api/import.post.ts:86-105 | no strategy gives null; a cached name gives the cached answer without a call; otherwise one call whose answer is cached, and the memo keeps each name asked at most once |
| LlmMemo.AskTwice | server/api/import.post.ts:91-103 | asking again about a name already asked changes nothing and gives the same answer |
| Categorizer.SearchText | server/utils/categorizer.ts:14 | the lower-cased merchant name and description, joined by one space |
| Categorizer.PlainPatternIsSubstring | server/utils/categorizer.ts:44-48 | a pattern without '\\' or '\|' matches exactly when its lower-case form occurs in the text, whatever the regex engine does |
| Categorizer.BrokenRegexIsSubstring | server/utils/categorizer.ts:38-42 | a pattern the regex engine rejects falls back to a substring test |
| Categorizer.PriorityFirst | server/utils/categorizer.ts:25 | `ORDER BY priority DESC` (a missing priority first) is a total preorder |
| Categorizer.RulesByPriority | server/utils/categorizer.ts:17-25 | the rules, all of them, ordered by descending priority |
| Categorizer.MatchRules | server/utils/categorizer.ts:28-50 | the category of the first rule that matches, with no match before it; none exactly when no rule matches |
| Categorizer.WinningRuleHasTopPriority | server/utils/categorizer.ts:17-50 | the deciding rule is a stored rule that matches and has the highest priority of all rules that match |
| Categorizer.CategoryNamed | server/utils/categorizer.ts:67-71 | the first category with exactly this name; none exactly when no category has it |
| Categorizer.HintCategory | server/utils/categorizer.ts:54-77 | a hint yields a category only when it is in the fixed table, and then the first category named as the table says |
| Categorizer.UncategorizedId | server/utils/categorizer.ts:86-92 | the first "Uncategorized" category, with a zero id read as none |
| Categorizer.Predetermined | server/utils/categorizer.ts:28-77 | a matching rule decides; only without one is the hint looked at |
| Categorizer.Finish | server/utils/categorizer.ts:80-92 | the model's answer when it gives one, else "Uncategorized" |
| Categorizer.AutoCategorizeMerchant | server/utils/categorizer.ts:5-93 | the chain: a rule or hint answer wins; when both miss, the model's non-null answer is returned, and with no model or a null answer the result is the "Uncategorized" id (or none) |
| Categorizer.FallbackOnlyAfterMisses | server/utils/categorizer.ts:79-83 | the model makes no difference when a rule or hint decides |
| Categorizer.HintOnlyWithoutRule | server/utils/categorizer.ts:52-54 | the hint makes no difference when a rule matches |
| Categorizer.ResultIsACategory | server/utils/categorizer.ts:5-93 | when rules and model only name stored categories, every answer is a stored category |
| ImportHandler.FindItem | server/api/import.post.ts:31-32 | the first form part with the given name; none exactly when no part has it |
| ImportHandler.OwnedAccount | server/api/import.post.ts:52-61 | an account of the store with this id that belongs to this user; none exactly when there is no such account |
| ImportHandler.ValidateUpload | server/api/import.post.ts:27-61 | an empty form is "No file uploaded"; an accepted upload has a file part, an `accountId` that parses to the id of an account the user owns, and at most 10 MB of data |
| ImportHandler.UploadFilename | server/api/import.post.ts:63 | the file name, or 'unknown' when there is none; never empty |
| ImportHandler.ParseUpload | server/api/import.post.ts:65-79 | names ending in ".pdf" in any case take the PDF path with source type 'pdf'; others take the detected CSV strategy and its name; no strategy gives the detection error |
| ImportHandler.UserCategories | server/api/import.post.ts:81-84 | at most one offered category per stored category |
| ImportHandler.UserCategoriesAreTheUsers | server/api/import.post.ts:81-84 | exactly the acting user's categories are offered to the model |
| ImportHandler.CategorizeRecord | server/api/import.post.ts:89-105 | the memo stays consistent, and is untouched without a strategy |
| ImportHandler.CategorizeRecordIsChain | server/api/import.post.ts:142-148 | the memoised chain gives what `autoCategorizeMerchant` gives with the handler's fallback closure |
| ImportHandler.Staged | server/api/import.post.ts:150-164 | a staged row is under the session, carries the record's fingerprint, and is flagged a duplicate exactly when it is not selected, exactly when the fingerprint is stored |
| ImportHandler.FoldAccountsForEveryRow | server/api/import.post.ts:121-172 | every row is staged or reported, never both; the errors are exactly the failed rows' messages in row order |
| ImportHandler.FoldErrorsAreFailedRows | server/api/import.post.ts:167-171 | the error list is "Row n: message" for each failed row, in order |
| ImportHandler.FoldStagesEachOkRow | server/api/import.post.ts:150-166 | the staged count is the number of rows that did not fail, and one insert was made for each |
| ImportHandler.EachRowOkOrFailed | server/api/import.post.ts:121-172 | the rows that succeed and the rows that fail together make up all rows |
| ImportHandler.StepAccounts | server/api/import.post.ts:122-171 | one pass adds one staged row or one error, never both |
| ImportHandler.FoldStagesOkRows | server/api/import.post.ts:150-164 | each staged row is the staging form of the matching successful record |
| ImportHandler.FoldCountsDuplicates | server/api/import.post.ts:130-140 | the duplicate count counts each row that reached the lookup and found its fingerprint, so it never exceeds the row count |
| ImportHandler.FoldAsksOncePerName | server/api/import.post.ts:86-105 | the model is asked about each merchant name at most once per import, and never without a strategy |
| ImportHandler.CountDuplicate | server/api/import.post.ts:130-140 | the count goes up exactly when the fingerprint is already in the ledger |
| ImportHandler.AppendStaged | server/api/import.post.ts:150-164 | the staging table grows by exactly the new row, numbered next |
| ImportHandler.StageRow | server/api/import.post.ts:122-171 | one pass of the loop body changes the tally as one fold step does and appends only the rows of that step |
| ImportHandler.FailRow | server/api/import.post.ts:167-171 | a failing row adds its error and stages nothing |
| ImportHandler.StageAll | server/api/import.post.ts:117-172 | the loop's tally is the fold over all records, and the staging table gains exactly the fold's rows, numbered in order |
| ImportHandler.Import | server/api/import.post.ts:19-188 | a failed check or parse is a 500 with its message and writes nothing; otherwise one session and the fold's staging rows are written and the counts and errors reported |
| ImportHandler.StageUpload | server/api/import.post.ts:107-180 | the session is written first, then every record is staged under it |
| Schema.AccountRow | server/db/schema.ts:13-21 | an account's type defaults to 'credit_card' and its colour to '#6366f1' when the insert leaves them out |
| Schema.CategoryRow | server/db/schema.ts:26-34 | a category's sort order defaults to 0; owner, name and parent are as inserted |
| Schema.MerchantRow | server/db/schema.ts:40-45 | a merchant's raw names default to the empty list |
| Schema.RuleRow | server/db/schema.ts:50-56 | a rule's priority defaults to 0 |
| Schema.SessionRow | server/db/schema.ts:63-70 | a session's source type defaults to 'apple_card' and its status to 'pending_review' |
| Schema.TransactionRow | server/db/schema.ts:76-93 | a new transaction has no tags, is not duplicate-flagged and belongs to no import session |
| Schema.StagingRow | server/db/schema.ts:103-118 | a staging row defaults to merchant name '', not a duplicate, selected, and no duplicate-of link |
| Schema.RuleRows | server/db/schema.ts:50-56 | a run of rule inserts gets consecutive ids, keeping each insert's owner, pattern and category |
| Schema.CategoryInsertError | server/db/schema.ts:28-30 | a category insert is refused exactly when it has no owner or names a parent that is not a category |
| Schema.RuleInsertError | server/db/schema.ts:52-54 | a rule insert is refused exactly when it has no owner or its category does not exist |
| Schema.CategoryAppendKeeps | server/db/schema.ts:26-38 | an accepted category keeps ids ascending, every parent a category and every rule's target a category |
| Schema.Db.constructor | server/db/schema.ts:4-121 | an empty store satisfies every constraint |
| Schema.Db.InsertAccount | server/db/schema.ts:13-24 | appends the account row under the next serial id and keeps the constraints |
| Schema.Db.InsertCategory | server/db/schema.ts:26-38 | a refused insert (no owner, or a parent that is not a category) is reported, adds no row and still uses up the next serial id; otherwise the row is appended under the next id |
| Schema.Db.InsertMerchant | server/db/schema.ts:40-48 | a second merchant under the same (normalized name, user) is refused, adds no row and still uses up the next serial id; otherwise the row is appended under the next id |
| Schema.Db.SetMerchantRawNames | server/db/schema.ts:44 | replaces one merchant's raw names and nothing else |
| Schema.Db.InsertRule | server/db/schema.ts:50-61 | a refused insert (no owner, or a category that does not exist) is reported, adds no row and still uses up the next serial id; otherwise the row is appended under the next id |
| Schema.Db.InsertSession | server/db/schema.ts:63-74 | appends the session row under the next id |
| Schema.Db.InsertStaging | server/db/schema.ts:103-121 | appends the staging row under the next id |
| Schema.Db.InsertTransaction | server/db/schema.ts:76-101 | a transaction whose fingerprint is already stored is refused, adds no row and still uses up the next serial id; otherwise the row is appended under the next id |
| Schema.Db.FingerprintExists | server/db/schema.ts:88-95 | the lookup finds a transaction exactly when one with this fingerprint is stored |
| Schema.Db.SetTransactionCategory | server/db/schema.ts:83 | sets one transaction's category and changes nothing else |
| ManualCreate.StoredDateOfIsoDate | server/api/transactions/index.post.ts:51-53 | a "Y-M-D" date is stored as "M/D/Y" |
| ManualCreate.StoredDateWithoutDashes | server/api/transactions/index.post.ts:51-53 | a date with no '-' is stored with month and day "undefined" |
| ManualCreate.AppendOnce | server/api/transactions/index.post.ts:81-87 | the description is among the raw names afterwards, added only when it was missing |
| ManualCreate.AppendOnceIdempotent | server/api/transactions/index.post.ts:82 | recording a description twice is recording it once; the set of names grows by exactly that description |
| ManualCreate.MerchantIndex | server/api/transactions/index.post.ts:73-77 | the first of the user's merchants with exactly this name; none exactly when the user has no such merchant |
| ManualCreate.ResolveMerchant | server/api/transactions/index.post.ts:68-96 | a blank name gives no merchant and no change; a known merchant is reused and records the description; an unknown one is created with the description as its only raw name |
| ManualCreate.ResolveMerchantTwice | server/api/transactions/index.post.ts:68-96 | resolving the same merchant and description again gives the same merchant and changes nothing |
| ManualCreate.Rejection | server/api/transactions/index.post.ts:23-66 | the request is accepted exactly when the required fields are present, the user owns the account and any given category, and the fingerprint is new; a known fingerprint, and nothing else, is a 409 |
| ManualCreate.NewTransaction | server/api/transactions/index.post.ts:98-110 | the row has the converted date, the fingerprint, source file 'manual', trimmed-or-null payer and notes, and a category exactly when a non-zero one was given |
| ManualCreate.CreateTransaction | server/api/transactions/index.post.ts:6-113 | a refused request writes nothing; an accepted one resolves the merchant and appends exactly one transaction, which it returns |
| ManualCreate.CheckRequest | server/api/transactions/index.post.ts:23-66 | the checks, made in the handler's order, give exactly the rejection |
| ManualCreate.FindOrCreateMerchant | server/api/transactions/index.post.ts:68-96 | the merchants table and the merchant id become what the resolution says |
| Http.StoreFailure | server/api/merchant-rules/index.post.ts:29-34 | a store error the handler does not catch answers 500, naming the refused column |
| Http.NonEmptyOrNull | server/api/categories/index.post.ts:28-29 | `s \|\| null`: null exactly when the string is empty |
| Http.TrimmedOrNull | server/api/accounts/index.post.ts:17-18 | `s?.trim() \|\| null`: null exactly when the field is missing or blank, else the trimmed text, which is non-empty and trims to itself |
| CreateEndpoints.RuleRejection | server/api/merchant-rules/index.post.ts:15-27 | refused exactly when the pattern is blank ("Pattern is required") or the category id is missing or zero ("Category ID is required"), both 400, the pattern checked first |
| CreateEndpoints.LowerCharKeepsSpace | server/api/merchant-rules/index.post.ts:31 | lower-casing never turns a character into white space or back |
| CreateEndpoints.NormalizePatternIsFixed | server/api/merchant-rules/index.post.ts:31 | the stored pattern is already trimmed and lower-case: normalising it again changes nothing |
| CreateEndpoints.RulePriority | server/api/merchant-rules/index.post.ts:33 | `priority \|\| 100`: never 0, and a non-zero given priority is kept |
| CreateEndpoints.RuleForStored | server/api/merchant-rules/index.post.ts:29-34 | the stored rule is the user's, keeps the normalised pattern and the category, and has priority 100 when none or 0 was given |
| CreateEndpoints.CreateRule | server/api/merchant-rules/index.post.ts:10-37 | a rule is created exactly when the pattern is not blank, the category id is non-zero and the category exists; a missing category is the store's foreign-key failure, which uses up a rule id; a refusal writes no row |
| CreateEndpoints.CategoryForStored | server/api/categories/index.post.ts:24-31 | the stored category is the user's under the trimmed name; a missing or zero parent makes it top-level; an empty colour or icon is null; the sort order is the given one or 0 |
| CreateEndpoints.CreateCategory | server/api/categories/index.post.ts:12-34 | a blank name is a 400; otherwise the category is created exactly when its parent, if given, exists, and the store's refusal uses up a category id; a refusal writes no row |
| CreateEndpoints.AccountForStored | server/api/accounts/index.post.ts:13-20 | the stored account is the user's under the trimmed name, with type 'credit_card' and colour '#6366f1' unless given, and institution and last four trimmed or null |
| CreateEndpoints.AccountDefaultsAgree | server/api/accounts/index.post.ts:16-19 | without a type or colour in the request the endpoint stores what the table defaults would |
| CreateEndpoints.CreateAccount | server/api/accounts/index.post.ts:4-23 | an account is created exactly when the name is not blank, under the next id; a blank name is a 400 and writes nothing |
| Sweep.SweptIndices | server/api/transactions/auto-categorize.post.ts:20-34 | the rows the query returns: exactly those with no category, or the catch-all category when its id is non-zero, each once, in table order |
| Sweep.MerchantNameFor | server/api/transactions/auto-categorize.post.ts:45-75 | the merchant's normalised name when the merchant id is non-zero and known, otherwise the description |
| Sweep.CategoryRefs | server/api/transactions/auto-categorize.post.ts:48-50 | every category, of every user, is offered to the model |
| Sweep.SweepAnswer | server/api/transactions/auto-categorize.post.ts:55-82 | the memo stays consistent, and is untouched without a strategy |
| Sweep.SweepAnswerIsChain | server/api/transactions/auto-categorize.post.ts:77-82 | the memoised answer is what `autoCategorizeMerchant` gives with no source hint and the handler's fallback closure |
| Sweep.SweepCountsAndMemo | server/api/transactions/auto-categorize.post.ts:53-93 | no more rows are counted than swept; the model is asked about each name at most once, and never without a strategy |
| Sweep.SweepOnlyRecategorizes | server/api/transactions/auto-categorize.post.ts:84-92 | the sweep changes nothing but category ids, and only of swept rows |
| Sweep.StepEffect | server/api/transactions/auto-categorize.post.ts:84-92 | one pass writes a real answer into its own row only, and counts it |
| Sweep.LastIsNew | server/api/transactions/auto-categorize.post.ts:74 | the query returns each row once |
| Sweep.SweepRowOutcome | server/api/transactions/auto-categorize.post.ts:74-93 | each swept row ends with the chain's answer when that is a category other than the catch-all, and keeps its category otherwise |
| Sweep.ChangedStep | server/api/transactions/auto-categorize.post.ts:84-92 | a pass changes its row exactly when it counts one more |
| Sweep.SweepCountsChanges | server/api/transactions/auto-categorize.post.ts:72-95 | the reported count is exactly the number of rows whose category changed, all of them swept rows |
| Sweep.SweepRows | server/api/transactions/auto-categorize.post.ts:72-93 | the loop leaves the table and the count as the fold over the swept rows says |
| Sweep.SweepOne | server/api/transactions/auto-categorize.post.ts:75-92 | one pass of the loop is one fold step |
| Sweep.AutoCategorize | server/api/transactions/auto-categorize.post.ts:7-96 | the table becomes the fold over the swept rows, and the report is the fold's count out of the number swept (0 of 0 when none) |
| Sweep.SweepReport | server/api/transactions/auto-categorize.post.ts:95 | the reported count is at most the total and equals the number of rows changed |
| Suggest.Entries | server/api/categories/suggest.post.ts:52-53 | each swept row is grouped under its merchant name, keeping its description and amount, in query order |
| Suggest.KeyIndex | server/api/categories/suggest.post.ts:55 | `summaryMap.get`: the summary with this name, if there is one |
| Suggest.TotalCountUpdate | server/api/categories/suggest.post.ts:57 | replacing one summary changes the total count by the difference of the two counts |
| Suggest.TotalCountSnoc | server/api/categories/suggest.post.ts:63-68 | a new summary adds its count to the total count |
| Suggest.AddEntryStep | server/api/categories/suggest.post.ts:52-70 | one pass keeps the summaries correct for the entries seen so far and adds one to the total count |
| Suggest.OtherKey | server/api/categories/suggest.post.ts:55-69 | an entry leaves every other name's count, total and first description as they were |
| Suggest.SameKey | server/api/categories/suggest.post.ts:55-69 | an entry adds one to its name's count and its amount to the total, and keeps an existing first description |
| Suggest.BumpedFacts | server/api/categories/suggest.post.ts:56-61 | bumping a summary keeps it right: count and total grow, and the samples stay one or two distinct descriptions with the first one first |
| Suggest.AddToExisting | server/api/categories/suggest.post.ts:56-61 | bumping the entry's summary keeps every summary correct |
| Suggest.ExistingKeys | server/api/categories/suggest.post.ts:56-61 | bumping a summary keeps one summary per name |
| Suggest.ExistingFacts | server/api/categories/suggest.post.ts:56-61 | after bumping, every summary still has its group's count, total and samples |
| Suggest.ExistingCovers | server/api/categories/suggest.post.ts:56-61 | after bumping, every entry's name still has a summary |
| Suggest.AddNew | server/api/categories/suggest.post.ts:62-68 | a new name's fresh summary keeps every summary correct |
| Suggest.NewFacts | server/api/categories/suggest.post.ts:62-68 | a fresh summary has count 1, the entry's amount and its description as the only sample |
| Suggest.NewCovers | server/api/categories/suggest.post.ts:62-68 | after adding a fresh summary every entry's name has one |
| Suggest.CoversInit | server/api/categories/suggest.post.ts:55 | a name with no summary was not the last entry's, and has no summary for the earlier entries either |
| Suggest.CountOfAbsent | server/api/categories/suggest.post.ts:55 | a name with no summary has no entries |
| Suggest.SumOfAbsent | server/api/categories/suggest.post.ts:55 | a name with no summary has a zero total |
| Suggest.FirstDescriptionAbsent | server/api/categories/suggest.post.ts:55 | a name with no summary has no first description |
| Suggest.GroupSummarises | server/api/categories/suggest.post.ts:50-70 | the grouping has one summary per name, each with its group's count, total and samples, every entry covered, and the counts add up to the number of entries |
| Suggest.GroupEntries | server/api/categories/suggest.post.ts:50-72 | the loop builds exactly the grouping of the entries, in first-seen order |
| Suggest.AddToSummaries | server/api/categories/suggest.post.ts:55-69 | one pass bumps the entry's summary or appends a fresh one |
| Suggest.RankedIsRanking | server/api/categories/suggest.post.ts:72-73 | ranking keeps every summary and puts the largest totals first |
| Suggest.CategoryNames | server/api/categories/suggest.post.ts:43-47 | every category's name, of every user, in table order |
| Suggest.SuggestCategories | server/api/categories/suggest.post.ts:6-78 | 503 without a strategy; no suggestions when nothing is uncategorised; otherwise the model's suggestions for the ranked summaries and all category names |
| Suggest.SummariesCoverSweep | server/api/categories/suggest.post.ts:28-72 | every uncategorised row is counted in exactly one summary |
| ApplySuggestions.PatternRules | server/api/categories/apply-suggestions.post.ts:32-39 | no patterns give no rules; otherwise one rule per pattern |
| ApplySuggestions.PatternRulesRanked | server/api/categories/apply-suggestions.post.ts:34-38 | each rule is its lower-cased pattern for the new category, priorities run from the pattern count down to 1 and strictly decrease, so an earlier pattern outranks a later one |
| ApplySuggestions.RuleRowsSnoc | server/api/categories/apply-suggestions.post.ts:33-39 | inserting one more rule appends its row under the next consecutive id |
| ApplySuggestions.AddAllEffect | server/api/categories/apply-suggestions.post.ts:20-41 | the creation loop keeps every existing row, adds one category per suggestion in order under consecutive ids, and one rule per pattern, each owned by the user and pointing at one of the new categories |
| ApplySuggestions.InsertRules | server/api/categories/apply-suggestions.post.ts:33-39 | the multi-row rule insert appends every rule in order under consecutive ids |
| ApplySuggestions.InsertRuleAt | server/api/categories/apply-suggestions.post.ts:33-39 | one row of the rule insert goes in after the rows before it |
| ApplySuggestions.RulesTargetNewCategory | server/api/categories/apply-suggestions.post.ts:36 | the rules for a category just inserted have an owner and point at an existing category, so the store accepts them |
| ApplySuggestions.CreateOne | server/api/categories/apply-suggestions.post.ts:21-40 | one pass inserts the suggestion's category and then its rules pointing at the new id |
| ApplySuggestions.CreateAll | server/api/categories/apply-suggestions.post.ts:18-41 | the creation loop counts every suggestion and leaves the tables as the creation fold describes |
| ApplySuggestions.AddAllSnoc | server/api/categories/apply-suggestions.post.ts:20-41 | the fold over one more suggestion is one more creation pass |
| ApplySuggestions.ApplySuggestions | server/api/categories/apply-suggestions.post.ts:7-120 | a missing or empty list is a 400 that writes nothing; otherwise every suggestion is created and then the uncategorised rows are swept with the new rules; `created` and `categorized` report both |
| ApplySuggestions.CreateAndSweep | server/api/categories/apply-suggestions.post.ts:14-119 | the creation loop followed by the sweep over the rows with no category or the catch-all |
| ApplySuggestions.ApplyAsWritten | server/api/categories/apply-suggestions.post.ts:7-30 | as written, the first category insert has no owner: a non-empty request fails with the store's NOT NULL error and writes no row, only using up one category id |
| ApplySuggestions.AsWrittenCreatesNothing | server/api/categories/apply-suggestions.post.ts:21-28 | an ownerless category is refused by the owner column's NOT NULL constraint, while the owned one is accepted |
| CategoryTree.TextLeTotal | server/api/categories/index.get.ts:13 | any two names are ordered one way or the other |
| CategoryTree.TextLeTransitive | server/api/categories/index.get.ts:13 | the name order is transitive |
| CategoryTree.ByPositionIsTotalPreorder | server/api/categories/index.get.ts:13 | ordering by sort order (nulls last) and then name is total and transitive, so sorting by it is well defined |
| CategoryTree.OwnedBy | server/api/categories/index.get.ts:12 | exactly the categories of the acting user |
| CategoryTree.ListedIsOrdered | server/api/categories/index.get.ts:9-13 | the listing holds exactly the user's categories, each as often as stored, ordered by sort order and then name |
| CategoryTree.NodeMap | server/api/categories/index.get.ts:19-21 | the first pass makes one node per listed id |
| CategoryTree.NodeMapIsListed | server/api/categories/index.get.ts:19-21 | every node is a listed category stored under its own id |
| CategoryTree.IdsWhere | server/api/categories/index.get.ts:23-33 | the ids filed under one parent are no more than the categories |
| CategoryTree.IdsWhereMembers | server/api/categories/index.get.ts:25-31 | an id is filed under a parent exactly when a category with that id has that parent |
| CategoryTree.IdsWhereNoRepeats | server/api/categories/index.get.ts:23-33 | with distinct ids no id is filed twice under the same parent |
| CategoryTree.PlaceAllFilters | server/api/categories/index.get.ts:23-33 | the second pass puts the parentless ids in the root list and each node's children in its list, in listing order |
| CategoryTree.PlaceChildren | server/api/categories/index.get.ts:27-31 | filing one category extends its parent's children only when the parent is a node |
| CategoryTree.OrphansAreDropped | server/api/categories/index.get.ts:28-31 | a category whose parent is not listed is neither a root nor anyone's child |
| CategoryTree.PlacedAtMostOnce | server/api/categories/index.get.ts:25-31 | a category is filed only under its own parent and only once there |
| CategoryTree.ChildIsPlaced | server/api/categories/index.get.ts:28-30 | a category whose parent is listed is among that parent's children |
| CategoryTree.MakeNodes | server/api/categories/index.get.ts:16-21 | the first loop builds the node map and an empty children list per node |
| CategoryTree.PlaceNodes | server/api/categories/index.get.ts:17-33 | the second loop leaves the root list and children lists that the filing describes |
| CategoryTree.BuildTree | server/api/categories/index.get.ts:15-33 | the two passes together |
| CategoryTree.ListCategories | server/api/categories/index.get.ts:5-39 | `GET /api/categories`: the ordered listing of the user's categories and the tree built from it |
| Seed.OneTopLevelUncategorized | server/db/seed.ts:81-85 | the seed tree has exactly one top-level "Uncategorized" category, the last one |
| Seed.Size | server/db/seed.ts:170-186 | a subtree holds at least its own category |
| Seed.SizeAll | server/db/seed.ts:188-190 | a run of siblings holds at least one category per sibling |
| Seed.PlanOneSize | server/db/seed.ts:170-186 | `insertCategory` makes one insert per category of the subtree |
| Seed.PlanAllSize | server/db/seed.ts:181-190 | a run of siblings makes one insert per category of its subtrees |
| Seed.ParentsFirstOne | server/db/seed.ts:170-186 | within a subtree every insert names as parent the subtree's parent or a category inserted before it |
| Seed.ParentsFirstAll | server/db/seed.ts:181-190 | the same for a run of siblings, so no insert names a parent that is not there yet |
| Seed.SiblingInsert | server/db/seed.ts:188-190 | sibling i is inserted right after the subtrees of the siblings before it, under the run's parent, with sort order i |
| Seed.ChildInsert | server/db/seed.ts:181-184 | a category's i-th child is inserted with that category's id as parent and sort order i |
| Seed.SeedRows | server/db/seed.ts:171-177 | one row per planned insert |
| Seed.SeedRowsAppend | server/db/seed.ts:171-177 | the rows of two plans in a row are the rows of their concatenation, numbered on |
| Seed.NameMapKeys | server/db/seed.ts:168-179 | `categoryMap` knows every inserted name |
| Seed.NameMapValues | server/db/seed.ts:168-179 | `categoryMap` sends each name to the id of an insert of that name |
| Seed.NameMapAppend | server/db/seed.ts:179 | recording two plans in a row records their concatenation |
| Seed.AppendStep | server/db/seed.ts:170-190 | inserting one plan after another inserts their concatenation |
| Seed.RulePlan | server/db/seed.ts:195-204 | no more rule inserts than rules |
| Seed.RulePlanMembers | server/db/seed.ts:195-204 | a rule is inserted exactly when its category name has a non-zero id, with its pattern, priority and that category |
| Seed.SeedRuleRows | server/db/seed.ts:198-202 | one rule row per planned rule insert |
| Seed.SeedRuleRowsAt | server/db/seed.ts:198-202 | row k is planned rule insert k under id first + k |
| Seed.SeedRuleRowsAppend | server/db/seed.ts:195-204 | the rule rows of two plans in a row are those of their concatenation |
| Seed.InsertSubtree | server/db/seed.ts:170-186 | `insertCategory` appends exactly its subtree's planned rows and records them in the name map |
| Seed.SubtreeStep | server/db/seed.ts:170-186 | a subtree's inserts are its own followed by its children's |
| Seed.InsertOwn | server/db/seed.ts:171-179 | the category's own insert goes in under the next id and is recorded under its name |
| Seed.OneInserted | server/db/seed.ts:171-179 | one insert added as the next row is the one-step plan |
| Seed.InsertRun | server/db/seed.ts:182-190 | a run of siblings, sibling i with sort order i, appends exactly the run's planned rows |
| Seed.RunStep | server/db/seed.ts:182-190 | one sibling's subtree extends the plan of the siblings before it and keeps the ids already there |
| Seed.MapPointsAtRows | server/db/seed.ts:179-196 | every id in `categoryMap` is a category the seed inserted, so every rule insert points at an existing category |
| Seed.InsertSeedRules | server/db/seed.ts:195-204 | the rule loop appends exactly the planned rule rows |
| Seed.InsertSeedRule | server/db/seed.ts:196-203 | rule i is inserted exactly when its category name has a non-zero id |
| Seed.SeedRuleRowsOne | server/db/seed.ts:198-202 | a single rule insert is one row under the next id |
| Seed.RulesStep | server/db/seed.ts:195-204 | one rule extends the inserts of the rules before it |
| Seed.SeedDatabase | server/db/seed.ts:155-208 | with an owner: a store that has any category is left alone; otherwise the seed tree goes in as planned and then every rule whose category it created |
| Seed.SeedAsWritten | server/db/seed.ts:160-177 | as written, the first insert names no owner and is refused by the NOT NULL constraint, so an empty store stays empty, one category id used up |
| Seed.SeedOwnerMissing | server/db/seed.ts:170-177 | the ownerless first insert is refused and the owned one accepted, and no later insert names a missing parent |

## Left out

- The database connection, migrations and `getDb` (server/db/index.ts is not part of this model); each handler works on one `Schema.Db` object, and every `await` is one sequential step with no concurrency.
- SQL execution: each query is written as a function over the table `seq`s (a filter in table order, a sort, a first match); the engine's collation is plain character order and ties keep table order.
- Unique-constraint races: a concurrent insert between a handler's duplicate lookup and its own insert cannot happen in the model, so the handlers never reach the store's unique-violation error.
- Foreign keys other than a category's and a rule's: the store does not check that a transaction's account, category or merchant, or any row's user, exists; the handlers check ownership where the source does.
- The `users` table and authentication: the acting user is a parameter.
- SHA-256, the CSV tokeniser, PDF text extraction, `JSON.parse`, the chat-completion service, the regular-expression engine and number-to-text conversion are parameters; only what the code does with their results is modelled.
- Floating point: amounts are whole cents (`int`), so `parseFloat`, `Math.abs`, the running totals and `toFixed` are exact in the model; the amount's text in the fingerprint is a parameter.
- Text.ToLower: lower-cases ASCII and the Latin-1 capitals only, not the whole Unicode case mapping.
- Pdf.Truncate: when the 80 000th code unit is the first half of a surrogate pair, `slice` keeps that lone half; a string of scalar values cannot hold it, so the model ends the text one code unit earlier.
- AppleCard.Parse: the tokeniser keys each row by the exact header text, while recognition only tests that each title occurs in the first line; a header such as `Amount (USD) (converted)` is recognised, and the source then throws on the missing `Amount (USD)` column. The model can represent such a file only as a tokeniser error.
- Fingerprint.Utf8: encodes code points as single characters; UTF-16 surrogate pairs are not joined.
- Categorizer.HintCategory: the hint table is a `map`, so a hint naming a property every JavaScript object inherits (`constructor`, say) is simply absent.
- Prompt texts sent to the model are abstract: the model sees the request's fields, not the wording around them.
- Timestamps (`createdAt`, `importedAt`) are not modelled.
- Request bodies whose fields have the wrong JavaScript type (a number where `.trim()` is called, which throws) are not modelled; fields are either missing or of the declared type.
- Store error messages: a store failure carries the violated column, not the driver's message text.
- ImportHandler.Import: the session insert is assumed to succeed; a store failure inside a row is modelled by the `fault` parameter, as the source's `try` catches it per row.
- ApplySuggestions.InsertRules: the multi-row rule insert is modelled as one insert per row in order, which gives the same rows and ids.
- CategoryTree.OrphansAreDropped: stated for listings whose ids are distinct, which the primary key guarantees.
- Sweep.AutoCategorize: sweeps the matching rows of every user and reads every user's rules and categories, as the source's queries have no user filter.
- The seed endpoint's wrapper (server/api/seed.post.ts) and the staging review and commit endpoints are not part of this model.
- The browser application and the SQL-only reporting endpoints are not part of this model.

## Findings

| source | as written | input that shows it | evidently intended | confidence | as-written member | corrected member |
|---|---|---|---|---|---|---|
| server/db/seed.ts:171-177 | the category insert sets no `user_id`, which the schema declares NOT NULL | an empty categories table | each seeded category and rule owned by the user being seeded | not executed | Seed.SeedAsWritten | Seed.SeedDatabase |
| server/api/categories/apply-suggestions.post.ts:21-39 | the category and rule inserts set no `user_id` | any non-empty `approved` list | the new categories and rules owned by the acting user | not executed | ApplySuggestions.ApplyAsWritten | ApplySuggestions.ApplySuggestions |
