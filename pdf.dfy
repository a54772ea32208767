/** Bank statements in PDF form (server/utils/import-strategies/pdf.ts): the
    text layer is extracted, checked for legibility, cut to a maximum size
    and handed to a language model, whose JSON answer is checked for shape
    and turned into normalised records. Text extraction, the model and the
    decoding of its answer are parameters. */
module Pdf {
  import opened Wrappers
  import opened Text
  import opened Schema
  import opened ImportTypes
  import opened Llm

  /** Fewer trimmed UTF-16 code units than this means the PDF is a scanned image. */
  const MinExtractableTextLength := 100
  /** At most this many UTF-16 code units of text are sent to the model. */
  const MaxTextChars := 80000

  /** An amount as the model wrote it: a number, or something else that is
      read back through its string form. */
  datatype LlmAmount = Number(value: Amount) | NotNumber(text: string)

  datatype LlmTransaction = LlmTransaction(
    transactionDate: string, clearingDate: Option<string>, description: string,
    merchantName: string, amount: LlmAmount, txType: string)

  /** The decoded answer, read as `{ transactions?: LLMTransaction[] }`:
      JSON `null`, or a value whose `transactions` member is or is not an
      array. */
  datatype Payload = NullPayload | Value(transactions: Option<seq<LlmTransaction>>)

  /** The outside services the PDF path uses: text extraction (failing with
      a message), the chat model, `JSON.parse` of its answer (`None` when it
      throws) and `parseFloat`. */
  datatype Services = Services(
    extractText: seq<int> -> Result<string, string>,
    chat: ChatRequest -> ChatReply,
    parsePayload: string -> Option<Payload>,
    parseFloat: string -> Amount)

  datatype PdfError =
    | MissingApiKey
    | ReadFailed(detail: string)
    | ScannedImage
    | ChatFailed(detail: string)
    | EmptyResponse
    | InvalidJson
    | NullAnswer
    | UnexpectedStructure
  {
    function Message(): string {
      match this
      case MissingApiKey =>
        "An OpenAI API key is required to parse PDF bank statements. Please add OPENAI_API_KEY to your .env file."
      case ReadFailed(d) => "Failed to read the PDF file: " + d
      case ScannedImage =>
        "This PDF appears to be a scanned image rather than a digitally-generated document, "
        + "so its text could not be extracted automatically. "
        + "Please download your statement directly from your bank's website (as a generated PDF), "
        + "or export it as a CSV file instead."
      case ChatFailed(d) => d
      case EmptyResponse => "LLM returned an empty response when parsing the PDF statement."
      case InvalidJson => "LLM returned invalid JSON when parsing PDF transactions."
      case NullAnswer => "Cannot read properties of null (reading 'transactions')"
      case UnexpectedStructure => "LLM returned an unexpected structure when parsing PDF transactions."
    }
  }

  /** What one call did: its outcome, whether the PDF was read, and the
      request sent to the model, if any. */
  datatype PdfRun = PdfRun(
    result: Result<seq<NormalizedTransaction>, PdfError>,
    readPdf: bool,
    request: Option<ChatRequest>)

  function Abs(a: Amount): (r: Amount)
    ensures r >= 0 && (r == a || r == -a)
  {
    if a < 0 then -a else a
  }

  /** The text cut to its first `MaxTextChars` code units; a character whose
      surrogate pair the cut would split is left out whole. */
  function Truncate(text: string): (t: string)
    ensures StartsWith(text, t)
    ensures Utf16Length(text) <= MaxTextChars ==> t == text
    ensures Utf16Length(text) > MaxTextChars ==>
              MaxTextChars - 1 <= Utf16Length(t) <= MaxTextChars && |t| < |text|
  {
    if Utf16Length(text) > MaxTextChars then Utf16Take(text, MaxTextChars) else text
  }

  /** For text without surrogate pairs the cut keeps exactly the first
      `MaxTextChars` characters. */
  lemma TruncateBmp(text: string)
    requires forall i :: 0 <= i < |text| ==> text[i] as int < 0x10000
    ensures |text| > MaxTextChars ==> Truncate(text) == text[..MaxTextChars]
    ensures |text| <= MaxTextChars ==> Truncate(text) == text
  {
    Utf16LengthBmp(text);
    if |text| > MaxTextChars {
      Utf16TakeBmp(text, MaxTextChars);
    }
  }

  function InstitutionHint(institution: Option<string>): string {
    if institution.Some? && institution.value != [] then "Institution: " + institution.value + "\n" else ""
  }

  function UserMessage(text: string, institution: Option<string>): string {
    InstitutionHint(institution) + "Extract all transactions from this bank statement:\n\n" + Truncate(text)
  }

  /** One transaction from the model as a normalised record. */
  function ToRecord(t: LlmTransaction, parseFloat: string -> Amount): (r: NormalizedTransaction)
    ensures r.transactionDate == t.transactionDate && r.description == t.description
    ensures r.clearingDate == t.clearingDate
    ensures r.amount >= 0
    ensures t.amount.Number? ==> r.amount == Abs(t.amount.value)
    ensures t.merchantName != [] ==> r.merchantName == t.merchantName
    ensures t.merchantName == [] ==> r.merchantName == t.description
    ensures t.txType != [] ==> r.txType == t.txType
    ensures t.txType == [] ==> r.txType == "Purchase"
    ensures r.purchasedBy.None? && r.sourceCategory.None?
  {
    var amount := match t.amount
      case Number(a) => Abs(a)
      case NotNumber(s) => Abs(parseFloat(s));
    NormalizedTransaction(t.transactionDate, t.clearingDate, t.description,
                          OrElse(t.merchantName, t.description), amount,
                          OrElse(t.txType, "Purchase"), None, None)
  }

  /** `extractTransactionsWithLLM` once the request has been answered. */
  function ReadAnswer(reply: ChatReply, services: Services): (r: Result<seq<NormalizedTransaction>, PdfError>)
    ensures reply.Threw? ==> r == Err(ChatFailed(reply.message))
    ensures reply.Answered? && ReplyContent(reply).None? ==> r == Err(EmptyResponse)
    ensures r.Ok? ==>
              var payload := services.parsePayload(ReplyContent(reply).value);
              && payload.Some? && payload.value.Value? && payload.value.transactions.Some?
              && |r.value| == |payload.value.transactions.value|
              && forall i :: 0 <= i < |r.value| ==>
                   r.value[i] == ToRecord(payload.value.transactions.value[i], services.parseFloat)
  {
    if reply.Threw? then Err(ChatFailed(reply.message))
    else match ReplyContent(reply)
      case None => Err(EmptyResponse)
      case Some(content) =>
        match services.parsePayload(content)
        case None => Err(InvalidJson)
        case Some(NullPayload) => Err(NullAnswer)
        case Some(Value(None)) => Err(UnexpectedStructure)
        case Some(Value(Some(ts))) =>
          Ok(seq(|ts|, i requires 0 <= i < |ts| => ToRecord(ts[i], services.parseFloat)))
  }

  /** `parsePdfStatement`. */
  function ParsePdfStatement(buffer: seq<int>, openaiApiKey: string, institution: Option<string>,
                             services: Services): (run: PdfRun)
    ensures openaiApiKey == [] ==> run == PdfRun(Err(MissingApiKey), false, None)
    ensures run.request.Some? ==> run.readPdf
    ensures run.request.Some? <==>
              openaiApiKey != [] && services.extractText(buffer).Ok? &&
              Utf16Length(Trim(services.extractText(buffer).value)) >= MinExtractableTextLength
    ensures run.request.Some? ==>
              run.request.value == ExtractStatement(UserMessage(services.extractText(buffer).value, institution))
    ensures run.request.Some? ==> run.result == ReadAnswer(services.chat(run.request.value), services)
  {
    if openaiApiKey == [] then PdfRun(Err(MissingApiKey), false, None)
    else match services.extractText(buffer)
      case Err(e) => PdfRun(Err(ReadFailed(e)), true, None)
      case Ok(text) =>
        if Utf16Length(Trim(text)) < MinExtractableTextLength then PdfRun(Err(ScannedImage), true, None)
        else
          var request := ExtractStatement(UserMessage(text, institution));
          PdfRun(ReadAnswer(services.chat(request), services), true, Some(request))
  }

  /** A failed extraction is reported as a read failure carrying its
      message, and text too short to be a digital statement as a scanned
      image; neither reaches the model. */
  lemma ParseGuards(buffer: seq<int>, openaiApiKey: string, institution: Option<string>, services: Services)
    requires openaiApiKey != []
    ensures services.extractText(buffer).Err? ==>
              ParsePdfStatement(buffer, openaiApiKey, institution, services).result ==
                Err(ReadFailed(services.extractText(buffer).error))
    ensures services.extractText(buffer).Ok? &&
            Utf16Length(Trim(services.extractText(buffer).value)) < MinExtractableTextLength ==>
              ParsePdfStatement(buffer, openaiApiKey, institution, services).result == Err(ScannedImage)
    ensures ParsePdfStatement(buffer, openaiApiKey, institution, services).result.Err? &&
            ParsePdfStatement(buffer, openaiApiKey, institution, services).result.error.ReadFailed? ==>
              StartsWith(ParsePdfStatement(buffer, openaiApiKey, institution, services).result.error.Message(),
                         "Failed to read the PDF file: ")
  {
    var result := ParsePdfStatement(buffer, openaiApiKey, institution, services).result;
    if result.Err? && result.error.ReadFailed? {
      var prefix := "Failed to read the PDF file: ";
      assert result.error.Message() == prefix + result.error.detail;
      assert (prefix + result.error.detail)[..|prefix|] == prefix;
    }
  }

  /** Whatever the model answers, a successful parse gives one record per
      transaction it listed, none with a negative amount, a payer or a
      source category. */
  lemma ParsedRecordsShape(buffer: seq<int>, openaiApiKey: string, institution: Option<string>, services: Services)
    ensures var r := ParsePdfStatement(buffer, openaiApiKey, institution, services).result;
            r.Ok? ==> forall i :: 0 <= i < |r.value| ==>
              r.value[i].amount >= 0 && r.value[i].purchasedBy.None? && r.value[i].sourceCategory.None?
  {
  }

  /** The statement text the model sees ends the request, and is the
      extracted text cut to at most `MaxTextChars` code units. */
  lemma UserMessageEndsWithTruncatedText(text: string, institution: Option<string>)
    ensures EndsWith(UserMessage(text, institution), Truncate(text))
    ensures |UserMessage(text, institution)| >= |Truncate(text)|
    ensures institution.None? ==>
              UserMessage(text, institution) == "Extract all transactions from this bank statement:\n\n" + Truncate(text)
  {
  }
}
