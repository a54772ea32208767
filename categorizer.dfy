/** The categoriser chain (server/utils/categorizer.ts): a merchant's
    category comes from the first matching merchant rule in priority order,
    else from the statement's own category hint through a fixed table, else
    from the language model, else it is "Uncategorized". Rules and categories
    are read from the whole store, whoever owns them. The regular expression
    engine is a parameter. */
module Categorizer {
  import opened Wrappers
  import opened Text
  import opened Lists
  import opened Sorting
  import opened Schema

  /** What `new RegExp(pattern, 'i').test(text)` does: the pattern fails to
      compile (the constructor throws), or the test answers. */
  datatype RegexOutcome = CompileError | Evaluated(matched: bool)

  type RegexEngine = (string, string) -> RegexOutcome

  /** The text rules are matched against. */
  function SearchText(merchantName: string, description: string): (t: string)
    ensures |t| == |merchantName| + 1 + |description|
    ensures t == ToLower(merchantName) + " " + ToLower(description)
  {
    var t := ToLower(merchantName + " " + description);
    assert t == ToLower(merchantName) + " " + ToLower(description);
    t
  }

  /** A pattern is treated as a regular expression when it holds a
      backslash or a bar. */
  predicate IsRegexPattern(pattern: string) {
    Contains(pattern, "\\") || Contains(pattern, "|")
  }

  /** Whether one rule matches; a pattern that fails to compile falls back
      to a substring test. */
  predicate RuleMatches(rule: MerchantRule, searchText: string, regex: RegexEngine) {
    var pattern := ToLower(rule.pattern);
    if IsRegexPattern(pattern) then
      match regex(pattern, searchText)
      case Evaluated(b) => b
      case CompileError => Contains(searchText, pattern)
    else Contains(searchText, pattern)
  }

  /** A pattern with neither '\' nor '|' matches exactly when its lower-case
      form occurs in the search text; the regex engine is never asked. */
  lemma PlainPatternIsSubstring(rule: MerchantRule, searchText: string, regex: RegexEngine)
    requires '\\' !in rule.pattern && '|' !in rule.pattern
    ensures RuleMatches(rule, searchText, regex) <==> exists i :: OccursAt(searchText, ToLower(rule.pattern), i)
  {
    var p := ToLower(rule.pattern);
    ContainsChar(p, '\\');
    ContainsChar(p, '|');
    assert '\\' !in p && '|' !in p by {
      forall k | 0 <= k < |p| ensures p[k] != '\\' && p[k] != '|' {
        assert p[k] == LowerChar(rule.pattern[k]);
      }
    }
  }

  /** A regex pattern the engine rejects degrades to a substring test
      instead of failing. */
  lemma BrokenRegexIsSubstring(rule: MerchantRule, searchText: string, regex: RegexEngine)
    requires regex(ToLower(rule.pattern), searchText) == CompileError
    ensures RuleMatches(rule, searchText, regex) <==> Contains(searchText, ToLower(rule.pattern))
  {
  }

  /** `ORDER BY priority DESC`: a missing priority sorts first, as NULL
      does in a descending order. */
  predicate NoLaterByPriority(a: MerchantRule, b: MerchantRule) {
    a.priority.None? || (b.priority.Some? && a.priority.value >= b.priority.value)
  }

  function PriorityFirst(): (le: (MerchantRule, MerchantRule) -> bool)
    ensures TotalPreorder(le)
  {
    var le := NoLaterByPriority;
    forall a, b ensures le(a, b) || le(b, a) {
    }
    forall a, b, c | le(a, b) && le(b, c) ensures le(a, c) {
    }
    le
  }

  function RulesByPriority(rules: seq<MerchantRule>): (r: seq<MerchantRule>)
    ensures multiset(r) == multiset(rules)
    ensures Sorted(r, PriorityFirst())
  {
    SortSorted(rules, PriorityFirst());
    Sort(rules, PriorityFirst())
  }

  /** The category of the first rule, in the given order, that matches. */
  function MatchRules(rules: seq<MerchantRule>, searchText: string, regex: RegexEngine): (r: Option<Id>)
    ensures r.None? <==> forall k :: 0 <= k < |rules| ==> !RuleMatches(rules[k], searchText, regex)
    ensures r.Some? ==> exists k :: 0 <= k < |rules| && RuleMatches(rules[k], searchText, regex) &&
                          r.value == rules[k].categoryId &&
                          forall j :: 0 <= j < k ==> !RuleMatches(rules[j], searchText, regex)
  {
    match FindFirst(rules, (rule: MerchantRule) => RuleMatches(rule, searchText, regex))
    case None => None
    case Some(k) => Some(rules[k].categoryId)
  }

  /** The rule that decides has the highest priority among all rules that
      match. */
  lemma {:induction false} WinningRuleHasTopPriority(rules: seq<MerchantRule>, searchText: string, regex: RegexEngine)
    requires MatchRules(RulesByPriority(rules), searchText, regex).Some?
    ensures exists w :: w in rules && RuleMatches(w, searchText, regex) &&
              w.categoryId == MatchRules(RulesByPriority(rules), searchText, regex).value &&
              forall x :: x in rules && RuleMatches(x, searchText, regex) ==> PriorityFirst()(w, x)
  {
    var sorted := RulesByPriority(rules);
    var p := (rule: MerchantRule) => RuleMatches(rule, searchText, regex);
    var k :| 0 <= k < |sorted| && RuleMatches(sorted[k], searchText, regex) &&
             MatchRules(sorted, searchText, regex).value == sorted[k].categoryId &&
             forall j :: 0 <= j < k ==> !RuleMatches(sorted[j], searchText, regex);
    FirstPassingIsLeastOf(rules, sorted, PriorityFirst(), p, k);
  }

  /** The source hints an Apple Card export uses, and the category name each
      stands for. */
  const HintTable: map<string, string> := map[
    "Restaurants" := "Restaurants",
    "Grocery" := "Supermarket",
    "Gas" := "Gas",
    "Transportation" := "Transportation",
    "Entertainment" := "Entertainment",
    "Shopping" := "General Retail",
    "Other" := "Other"]

  /** The id of the first category with exactly this name. */
  function CategoryNamed(cats: seq<Category>, name: string): (r: Option<Id>)
    ensures r.None? <==> forall k :: 0 <= k < |cats| ==> cats[k].name != name
    ensures r.Some? ==> exists k :: 0 <= k < |cats| && cats[k].name == name && cats[k].id == r.value &&
                          forall j :: 0 <= j < k ==> cats[j].name != name
  {
    match FindFirst(cats, (c: Category) => c.name == name)
    case None => None
    case Some(k) => Some(cats[k].id)
  }

  /** The category a source hint maps to, if the hint is in the table and
      a category of that name exists. */
  function HintCategory(sourceCategory: Option<string>, cats: seq<Category>): (r: Option<Id>)
    ensures r.Some? ==> sourceCategory.Some? && sourceCategory.value in HintTable &&
                        r == CategoryNamed(cats, HintTable[sourceCategory.value])
    ensures sourceCategory.Some? && sourceCategory.value in HintTable ==>
              r == CategoryNamed(cats, HintTable[sourceCategory.value])
  {
    if sourceCategory.Some? && sourceCategory.value != [] && sourceCategory.value in HintTable then
      var name := HintTable[sourceCategory.value];
      if name != [] then CategoryNamed(cats, name) else None
    else None
  }

  const UncategorizedName := "Uncategorized"

  /** The last resort: the first "Uncategorized" category (a zero id reads
      as none, through `|| null`). */
  function UncategorizedId(cats: seq<Category>): (r: Option<Id>)
    ensures r.Some? ==> r == CategoryNamed(cats, UncategorizedName) && r.value != 0
    ensures CategoryNamed(cats, UncategorizedName).Some? && CategoryNamed(cats, UncategorizedName).value != 0 ==>
              r == CategoryNamed(cats, UncategorizedName)
  {
    match CategoryNamed(cats, UncategorizedName)
    case Some(id) => if id == 0 then None else Some(id)
    case None => None
  }

  /** The part of the chain that needs no model: rules, then the hint. */
  function Predetermined(merchantName: string, description: string, sourceCategory: Option<string>,
                         rules: seq<MerchantRule>, cats: seq<Category>, regex: RegexEngine): (r: Option<Id>)
    ensures MatchRules(RulesByPriority(rules), SearchText(merchantName, description), regex).Some? ==>
              r == MatchRules(RulesByPriority(rules), SearchText(merchantName, description), regex)
    ensures MatchRules(RulesByPriority(rules), SearchText(merchantName, description), regex).None? ==>
              r == HintCategory(sourceCategory, cats)
  {
    var byRule := MatchRules(RulesByPriority(rules), SearchText(merchantName, description), regex);
    if byRule.Some? then byRule else HintCategory(sourceCategory, cats)
  }

  /** The end of the chain, given what the model answered (or `None` when
      there is no model). */
  function Finish(answer: Option<Id>, cats: seq<Category>): (r: Option<Id>)
    ensures answer.Some? ==> r == answer
    ensures answer.None? ==> r == UncategorizedId(cats)
  {
    if answer.Some? then answer else UncategorizedId(cats)
  }

  /** `autoCategorizeMerchant`, with the model fallback as an optional
      function of the merchant name. */
  function AutoCategorizeMerchant(merchantName: string, description: string, sourceCategory: Option<string>,
                                  llmFallback: Option<string -> Option<Id>>,
                                  rules: seq<MerchantRule>, cats: seq<Category>, regex: RegexEngine): (r: Option<Id>)
    ensures Predetermined(merchantName, description, sourceCategory, rules, cats, regex).Some? ==>
              r == Predetermined(merchantName, description, sourceCategory, rules, cats, regex)
    ensures llmFallback.None? && Predetermined(merchantName, description, sourceCategory, rules, cats, regex).None? ==>
              r == UncategorizedId(cats)
    ensures Predetermined(merchantName, description, sourceCategory, rules, cats, regex).None? &&
            llmFallback.Some? && llmFallback.value(merchantName).Some? ==>
              r == llmFallback.value(merchantName)
    ensures Predetermined(merchantName, description, sourceCategory, rules, cats, regex).None? &&
            llmFallback.Some? && llmFallback.value(merchantName).None? ==>
              r == UncategorizedId(cats)
  {
    var pre := Predetermined(merchantName, description, sourceCategory, rules, cats, regex);
    if pre.Some? then pre
    else Finish(if llmFallback.Some? then llmFallback.value(merchantName) else None, cats)
  }

  /** The model is only consulted when rules and hint both miss: before
      that, any two fallbacks give the same answer. */
  lemma FallbackOnlyAfterMisses(merchantName: string, description: string, sourceCategory: Option<string>,
                                f: Option<string -> Option<Id>>, g: Option<string -> Option<Id>>,
                                rules: seq<MerchantRule>, cats: seq<Category>, regex: RegexEngine)
    requires Predetermined(merchantName, description, sourceCategory, rules, cats, regex).Some?
    ensures AutoCategorizeMerchant(merchantName, description, sourceCategory, f, rules, cats, regex) ==
            AutoCategorizeMerchant(merchantName, description, sourceCategory, g, rules, cats, regex)
  {
  }

  /** A hint is only looked at when no rule matches: with a matching rule
      the hint makes no difference. */
  lemma HintOnlyWithoutRule(merchantName: string, description: string, h1: Option<string>, h2: Option<string>,
                            rules: seq<MerchantRule>, cats: seq<Category>, regex: RegexEngine)
    requires MatchRules(RulesByPriority(rules), SearchText(merchantName, description), regex).Some?
    ensures Predetermined(merchantName, description, h1, rules, cats, regex) ==
            Predetermined(merchantName, description, h2, rules, cats, regex)
  {
  }

  /** When every rule points at a category and the model only names
      categories, the chain only ever yields a category of the store. */
  lemma ResultIsACategory(merchantName: string, description: string, sourceCategory: Option<string>,
                          llmFallback: Option<string -> Option<Id>>,
                          rules: seq<MerchantRule>, cats: seq<Category>, regex: RegexEngine)
    requires RuleTargetsExist(rules, cats)
    requires llmFallback.Some? && llmFallback.value(merchantName).Some? ==>
               llmFallback.value(merchantName).value in CategoryIds(cats)
    ensures var r := AutoCategorizeMerchant(merchantName, description, sourceCategory, llmFallback, rules, cats, regex);
            r.Some? ==> r.value in CategoryIds(cats)
  {
    var sorted := RulesByPriority(rules);
    var text := SearchText(merchantName, description);
    var m := MatchRules(sorted, text, regex);
    if m.Some? {
      var k :| 0 <= k < |sorted| && m.value == sorted[k].categoryId;
      assert sorted[k] in multiset(rules) by { assert sorted[k] in multiset(sorted); }
      var i :| 0 <= i < |rules| && rules[i] == sorted[k];
    }
  }
}
