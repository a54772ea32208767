/** The language-model side of the system as the rest of the code sees it
    (server/utils/llmCategorizer.ts): the records exchanged with a
    categoriser strategy, the chat completion service and JSON decoding as
    parameters, and the choice of strategy from configuration. */
module Llm {
  import opened Wrappers
  import opened Schema

  /** A category as offered to the model: its id and name. */
  datatype CategoryRef = CategoryRef(id: Id, name: string)

  datatype CategorizationInput = CategorizationInput(
    merchantName: string, description: string, amount: Amount, txType: string,
    sourceCategory: Option<string>, categories: seq<CategoryRef>)

  datatype MerchantSummary = MerchantSummary(
    normalizedName: string, transactionCount: nat, totalAmount: Amount,
    sampleDescriptions: seq<string>)

  /** A suggestion as a client sends it back for approval. `patterns` may be
      absent. */
  datatype CategorySuggestion = CategorySuggestion(
    name: string, icon: string, color: string, patterns: Option<seq<string>>,
    rationale: string)

  /** A decoded JSON value (section 3 of RFC 8259). Numbers are whole
      cents. */
  datatype Json =
    | JNull
    | JBool(b: bool)
    | JNum(n: int)
    | JStr(s: string)
    | JArr(items: seq<Json>)
    | JObj(fields: map<string, Json>)

  /** What a chat completion is asked to do; the prompt wording is fixed
      text around these values. */
  datatype ChatRequest =
    | ExtractStatement(userMessage: string)
    | CategorizeTransaction(input: CategorizationInput)
    | SuggestCategories(merchants: seq<MerchantSummary>, existingCategories: seq<string>)

  /** A completion either fails (network, quota, refusal) with a message, or
      answers with the first choice's content, which may be missing. */
  datatype ChatReply = Threw(message: string) | Answered(content: Option<string>)

  /** The model behind a strategy: the chat service and `JSON.parse`
      (`None` when the text is not JSON). */
  datatype Model = Model(chat: ChatRequest -> ChatReply, parseJson: string -> Option<Json>)

  /** The only strategy: OpenAI chat completions. */
  datatype CategorizerStrategy = OpenAiStrategy(model: Model)

  const DefaultModelName := "gpt-4o-mini"

  /** `createCategorizerStrategy`: a strategy exactly when an API key is
      configured. */
  function CreateCategorizerStrategy(openaiApiKey: Option<string>, model: Model): (s: Option<CategorizerStrategy>)
    ensures s.Some? <==> openaiApiKey.Some? && openaiApiKey.value != []
    ensures s.Some? ==> s.value.model == model
  {
    if openaiApiKey.Some? && openaiApiKey.value != [] then Some(OpenAiStrategy(model)) else None
  }

  /** The first choice's content, when it is a non-empty string
      (`if (!content)` rejects both a missing and an empty one). */
  function ReplyContent(reply: ChatReply): (c: Option<string>)
    ensures c.Some? <==> reply.Answered? && reply.content.Some? && reply.content.value != []
    ensures c.Some? ==> c.value == reply.content.value
  {
    if reply.Answered? && reply.content.Some? && reply.content.value != [] then reply.content else None
  }
}
