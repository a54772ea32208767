/** How the OpenAI strategy reads the model's answers
    (server/utils/llm-strategies/openai.ts). Every failure along the way, a
    thrown call, missing content, text that is not JSON, or a reply of the
    wrong shape, ends as "no category" or "no suggestions". */
module OpenAi {
  import opened Wrappers
  import opened Text
  import opened Schema
  import opened Lists
  import opened Llm

  /** The request `categorize` sends, or none when there is nothing to
      choose from. */
  function CategorizeRequest(input: CategorizationInput): (q: Option<ChatRequest>)
    ensures q.None? <==> input.categories == []
    ensures q.Some? ==> q.value == CategorizeTransaction(input)
  {
    if input.categories == [] then None else Some(CategorizeTransaction(input))
  }

  /** The category name a reply asks for, trimmed and lower-cased: present
      only when the reply is a JSON object whose `category` is a string that
      is not blank. Any other shape either reads as undefined or throws, and
      both end in null. */
  function RequestedName(reply: ChatReply, parseJson: string -> Option<Json>): (n: Option<string>)
    ensures n.Some? ==>
              && n.value != []
              && ReplyContent(reply).Some?
              && parseJson(ReplyContent(reply).value).Some?
              && parseJson(ReplyContent(reply).value).value.JObj?
              && "category" in parseJson(ReplyContent(reply).value).value.fields
              && parseJson(ReplyContent(reply).value).value.fields["category"].JStr?
              && n.value == ToLower(Trim(parseJson(ReplyContent(reply).value).value.fields["category"].s))
    ensures ReplyContent(reply).None? ==> n.None?
    ensures ReplyContent(reply).Some? && parseJson(ReplyContent(reply).value).None? ==> n.None?
  {
    match ReplyContent(reply)
    case None => None
    case Some(content) =>
      match parseJson(content)
      case Some(JObj(fields)) =>
        if "category" in fields && fields["category"].JStr? then
          var name := ToLower(Trim(fields["category"].s));
          if name == [] then None else Some(name)
        else None
      case _ => None
  }

  /** The test `categorize` applies to an offered category. */
  function NameIs(name: string): CategoryRef -> bool {
    (c: CategoryRef) => ToLower(c.name) == name
  }

  /** `categorize`: the id of the first offered category whose lower-cased
      name equals the requested name. */
  function Categorize(model: Model, input: CategorizationInput): (r: Option<Id>)
    ensures input.categories == [] ==> r.None?
    ensures r.Some? ==> exists k :: 0 <= k < |input.categories| && input.categories[k].id == r.value
  {
    match CategorizeRequest(input)
    case None => None
    case Some(q) =>
      match RequestedName(model.chat(q), model.parseJson)
      case None => None
      case Some(name) =>
        match FindFirst(input.categories, NameIs(name))
        case None => None
        case Some(k) => Some(input.categories[k].id)
  }

  /** The answer is a category the caller offered, named (ignoring case) as
      the reply asked, and the first such; there is an answer exactly when
      the reply names some offered category. */
  lemma CategorizeMatchesName(model: Model, input: CategorizationInput)
    requires input.categories != []
    ensures var name := RequestedName(model.chat(CategorizeTransaction(input)), model.parseJson);
            Categorize(model, input).Some? <==>
              name.Some? && exists k :: 0 <= k < |input.categories| && ToLower(input.categories[k].name) == name.value
    ensures var name := RequestedName(model.chat(CategorizeTransaction(input)), model.parseJson);
            Categorize(model, input).Some? ==>
              exists k :: 0 <= k < |input.categories| && input.categories[k].id == Categorize(model, input).value &&
                ToLower(input.categories[k].name) == name.value &&
                forall j :: 0 <= j < k ==> ToLower(input.categories[j].name) != name.value
  {
    var name := RequestedName(model.chat(CategorizeTransaction(input)), model.parseJson);
    var cats := input.categories;
    assert CategorizeRequest(input) == Some(CategorizeTransaction(input));
    if name.Some? {
      var found := FindFirst(cats, NameIs(name.value));
      if found.Some? {
        var k := found.value;
        assert Categorize(model, input) == Some(cats[k].id);
        assert NameIs(name.value)(cats[k]);
        assert forall j :: 0 <= j < k ==> !NameIs(name.value)(cats[j]);
      } else {
        assert Categorize(model, input).None?;
        assert forall k :: 0 <= k < |cats| ==> !NameIs(name.value)(cats[k]);
      }
    } else {
      assert Categorize(model, input).None?;
    }
  }

  /** A failed call, or a reply without usable content, gives no category. */
  lemma CategorizeFailuresAreNull(model: Model, input: CategorizationInput)
    requires input.categories != []
    requires var reply := model.chat(CategorizeTransaction(input));
             reply.Threw? || ReplyContent(reply).None? ||
             model.parseJson(ReplyContent(reply).value).None?
    ensures Categorize(model, input).None?
  {
  }

  /** The request `suggestNewCategories` sends, or none without merchants. */
  function SuggestRequest(merchants: seq<MerchantSummary>, existing: seq<string>): (q: Option<ChatRequest>)
    ensures q.None? <==> merchants == []
    ensures q.Some? ==> q.value == SuggestCategories(merchants, existing)
  {
    if merchants == [] then None else Some(SuggestCategories(merchants, existing))
  }

  /** `suggestNewCategories`: the `suggestions` array of a JSON object reply,
      passed on unchecked, or nothing. */
  function SuggestNewCategories(model: Model, merchants: seq<MerchantSummary>, existing: seq<string>): (r: seq<Json>)
    ensures merchants == [] ==> r == []
    ensures r != [] ==>
              var reply := model.chat(SuggestCategories(merchants, existing));
              && ReplyContent(reply).Some?
              && model.parseJson(ReplyContent(reply).value).Some?
              && model.parseJson(ReplyContent(reply).value).value.JObj?
              && "suggestions" in model.parseJson(ReplyContent(reply).value).value.fields
              && model.parseJson(ReplyContent(reply).value).value.fields["suggestions"] == JArr(r)
    ensures merchants != [] ==>
              var reply := model.chat(SuggestCategories(merchants, existing));
              ReplyContent(reply).Some? && model.parseJson(ReplyContent(reply).value).Some? &&
              model.parseJson(ReplyContent(reply).value).value.JObj? &&
              "suggestions" in model.parseJson(ReplyContent(reply).value).value.fields &&
              model.parseJson(ReplyContent(reply).value).value.fields["suggestions"].JArr? ==>
                r == model.parseJson(ReplyContent(reply).value).value.fields["suggestions"].items
  {
    match SuggestRequest(merchants, existing)
    case None => []
    case Some(q) =>
      match ReplyContent(model.chat(q))
      case None => []
      case Some(content) =>
        match model.parseJson(content)
        case Some(JObj(fields)) =>
          if "suggestions" in fields && fields["suggestions"].JArr? then fields["suggestions"].items else []
        case _ => []
  }

  /** A failed call, unusable content, text that is not JSON, or a
      `suggestions` member that is not an array all give no suggestions. */
  lemma SuggestFailuresAreEmpty(model: Model, merchants: seq<MerchantSummary>, existing: seq<string>)
    requires merchants != []
    requires var reply := model.chat(SuggestCategories(merchants, existing));
             reply.Threw? || ReplyContent(reply).None? ||
             model.parseJson(ReplyContent(reply).value).None? ||
             (model.parseJson(ReplyContent(reply).value).value.JObj? &&
              "suggestions" in model.parseJson(ReplyContent(reply).value).value.fields &&
              !model.parseJson(ReplyContent(reply).value).value.fields["suggestions"].JArr?)
    ensures SuggestNewCategories(model, merchants, existing) == []
  {
  }
}
