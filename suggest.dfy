/** Category suggestions (server/api/categories/suggest.post.ts): the
    uncategorised transactions are grouped by merchant name into summaries
    (count, total, up to two sample descriptions), the summaries are sorted
    by total, largest first, and handed to the model with the names of the
    existing categories. */
module Suggest {
  import opened Wrappers
  import opened Schema
  import opened Lists
  import opened Sorting
  import opened Llm
  import opened Categorizer
  import opened Sweep
  import OpenAi
  import opened Http

  /** A swept row as the grouping sees it: its group key, description and
      amount. */
  datatype Entry = Entry(name: string, description: string, amount: Amount)

  function Entries(merchants: seq<Merchant>, ts: seq<Transaction>, idx: seq<nat>): (es: seq<Entry>)
    requires IndicesIn(idx, |ts|)
    ensures |es| == |idx|
    ensures forall p :: 0 <= p < |idx| ==>
              es[p] == Entry(MerchantNameFor(merchants, ts[idx[p]]), ts[idx[p]].description, ts[idx[p]].amount)
  {
    seq(|idx|, p requires 0 <= p < |idx| =>
      Entry(MerchantNameFor(merchants, ts[idx[p]]), ts[idx[p]].description, ts[idx[p]].amount))
  }

  // ---------------------------------------------------------------------------
  // What a group is: counted, summed and first-described over the entries
  // ---------------------------------------------------------------------------

  function CountOf(es: seq<Entry>, key: string): nat {
    if es == [] then 0
    else CountOf(es[..|es| - 1], key) + (if es[|es| - 1].name == key then 1 else 0)
  }

  function SumOf(es: seq<Entry>, key: string): int {
    if es == [] then 0
    else SumOf(es[..|es| - 1], key) + (if es[|es| - 1].name == key then es[|es| - 1].amount else 0)
  }

  /** The description of the first entry with this key. */
  function FirstDescription(es: seq<Entry>, key: string): Option<string> {
    if es == [] then None
    else
      var earlier := FirstDescription(es[..|es| - 1], key);
      if earlier.Some? then earlier
      else if es[|es| - 1].name == key then Some(es[|es| - 1].description)
      else None
  }

  predicate NoRepeats(s: seq<string>) {
    forall i, j :: 0 <= i < j < |s| ==> s[i] != s[j]
  }

  predicate KeysUnique(sums: seq<MerchantSummary>) {
    forall i, j :: 0 <= i < j < |sums| ==> sums[i].normalizedName != sums[j].normalizedName
  }

  /** Each summary has its group's size and total, and one or two distinct
      sample descriptions, the group's first description first. */
  predicate GroupFacts(sums: seq<MerchantSummary>, es: seq<Entry>) {
    forall j :: 0 <= j < |sums| ==>
      && sums[j].transactionCount == CountOf(es, sums[j].normalizedName) >= 1
      && sums[j].totalAmount == SumOf(es, sums[j].normalizedName)
      && 1 <= |sums[j].sampleDescriptions| <= 2
      && NoRepeats(sums[j].sampleDescriptions)
      && FirstDescription(es, sums[j].normalizedName) == Some(sums[j].sampleDescriptions[0])
  }

  /** Every entry's key has a summary. */
  predicate Covers(sums: seq<MerchantSummary>, es: seq<Entry>) {
    forall p :: 0 <= p < |es| ==> exists j :: 0 <= j < |sums| && sums[j].normalizedName == es[p].name
  }

  /** `sums` summarises `es`: one summary per key, each right about its
      group, and no key left out. */
  predicate Summarises(sums: seq<MerchantSummary>, es: seq<Entry>) {
    KeysUnique(sums) && GroupFacts(sums, es) && Covers(sums, es)
  }

  // ---------------------------------------------------------------------------
  // The grouping loop
  // ---------------------------------------------------------------------------

  /** Where the summary for `key` is, if there is one (`summaryMap.get`). */
  function KeyIndex(sums: seq<MerchantSummary>, key: string): (r: Option<nat>)
    ensures r.Some? ==> r.value < |sums| && sums[r.value].normalizedName == key
    ensures r.None? ==> forall j :: 0 <= j < |sums| ==> sums[j].normalizedName != key
  {
    FindFirst(sums, (s: MerchantSummary) => s.normalizedName == key)
  }

  /** One pass: bump the entry's summary, or start a new one. */
  function AddEntry(sums: seq<MerchantSummary>, e: Entry): (r: seq<MerchantSummary>) {
    match KeyIndex(sums, e.name)
    case Some(j) => sums[j := Bumped(sums[j], e)]
    case None => sums + [Fresh(e)]
  }

  /** The summaries after the loop has run over `es`. */
  function Group(es: seq<Entry>): seq<MerchantSummary> {
    if es == [] then [] else AddEntry(Group(es[..|es| - 1]), es[|es| - 1])
  }

  /** The sum of the counts. */
  function TotalCount(sums: seq<MerchantSummary>): nat {
    if sums == [] then 0 else sums[0].transactionCount + TotalCount(sums[1..])
  }

  lemma {:induction false} TotalCountUpdate(sums: seq<MerchantSummary>, j: nat, x: MerchantSummary)
    requires j < |sums|
    ensures TotalCount(sums[j := x]) + sums[j].transactionCount == TotalCount(sums) + x.transactionCount
  {
    if j > 0 {
      TotalCountUpdate(sums[1..], j - 1, x);
      assert sums[j := x][1..] == sums[1..][j - 1 := x];
    }
  }

  lemma {:induction false} TotalCountSnoc(sums: seq<MerchantSummary>, x: MerchantSummary)
    ensures TotalCount(sums + [x]) == TotalCount(sums) + x.transactionCount
  {
    if sums != [] {
      TotalCountSnoc(sums[1..], x);
      assert (sums + [x])[1..] == sums[1..] + [x];
    }
  }

  /** One entry added to a correct summary list gives a correct summary
      list for one entry more, one more in the total count. */
  lemma AddEntryStep(es: seq<Entry>, sums: seq<MerchantSummary>, e: Entry)
    requires Summarises(sums, es)
    ensures Summarises(AddEntry(sums, e), es + [e])
    ensures TotalCount(AddEntry(sums, e)) == TotalCount(sums) + 1
  {
    match KeyIndex(sums, e.name)
    case Some(j) => AddToExisting(es, sums, e, j);
    case None => AddNew(es, sums, e);
  }

  /** Adding an entry changes nothing about other keys' groups. */
  lemma OtherKey(es: seq<Entry>, e: Entry, key: string)
    requires key != e.name
    ensures CountOf(es + [e], key) == CountOf(es, key)
    ensures SumOf(es + [e], key) == SumOf(es, key)
    ensures FirstDescription(es + [e], key) == FirstDescription(es, key)
  {
    assert (es + [e])[..|es|] == es;
  }

  /** Adding an entry counts it, sums it, and keeps an existing first
      description in its own group. */
  lemma SameKey(es: seq<Entry>, e: Entry)
    ensures CountOf(es + [e], e.name) == CountOf(es, e.name) + 1
    ensures SumOf(es + [e], e.name) == SumOf(es, e.name) + e.amount
    ensures FirstDescription(es, e.name).Some? ==> FirstDescription(es + [e], e.name) == FirstDescription(es, e.name)
    ensures FirstDescription(es, e.name).None? ==> FirstDescription(es + [e], e.name) == Some(e.description)
  {
    assert (es + [e])[..|es|] == es;
  }

  function Bumped(s: MerchantSummary, e: Entry): MerchantSummary {
    var samples := if |s.sampleDescriptions| < 2 && e.description !in s.sampleDescriptions
                   then s.sampleDescriptions + [e.description] else s.sampleDescriptions;
    MerchantSummary(s.normalizedName, s.transactionCount + 1, s.totalAmount + e.amount, samples)
  }

  lemma BumpedFacts(es: seq<Entry>, s: MerchantSummary, e: Entry)
    requires s.normalizedName == e.name
    requires s.transactionCount == CountOf(es, s.normalizedName) >= 1
    requires s.totalAmount == SumOf(es, s.normalizedName)
    requires 1 <= |s.sampleDescriptions| <= 2 && NoRepeats(s.sampleDescriptions)
    requires FirstDescription(es, s.normalizedName) == Some(s.sampleDescriptions[0])
    ensures var b := Bumped(s, e);
            && b.normalizedName == s.normalizedName
            && b.transactionCount == CountOf(es + [e], b.normalizedName) >= 1
            && b.totalAmount == SumOf(es + [e], b.normalizedName)
            && 1 <= |b.sampleDescriptions| <= 2 && NoRepeats(b.sampleDescriptions)
            && FirstDescription(es + [e], b.normalizedName) == Some(b.sampleDescriptions[0])
  {
    SameKey(es, e);
  }

  /** The entry's key already has a summary at `j`. */
  lemma AddToExisting(es: seq<Entry>, sums: seq<MerchantSummary>, e: Entry, j: nat)
    requires Summarises(sums, es)
    requires j < |sums| && sums[j].normalizedName == e.name
    ensures Summarises(sums[j := Bumped(sums[j], e)], es + [e])
    ensures TotalCount(sums[j := Bumped(sums[j], e)]) == TotalCount(sums) + 1
  {
    var r := sums[j := Bumped(sums[j], e)];
    TotalCountUpdate(sums, j, r[j]);
    ExistingKeys(sums, j, e);
    ExistingFacts(es, sums, e, j);
    ExistingCovers(es, sums, e, j);
  }

  lemma ExistingKeys(sums: seq<MerchantSummary>, j: nat, e: Entry)
    requires KeysUnique(sums) && j < |sums|
    ensures KeysUnique(sums[j := Bumped(sums[j], e)])
  {
    var r := sums[j := Bumped(sums[j], e)];
    assert forall i :: 0 <= i < |r| ==> r[i].normalizedName == sums[i].normalizedName;
  }

  lemma ExistingFacts(es: seq<Entry>, sums: seq<MerchantSummary>, e: Entry, j: nat)
    requires KeysUnique(sums) && GroupFacts(sums, es)
    requires j < |sums| && sums[j].normalizedName == e.name
    ensures GroupFacts(sums[j := Bumped(sums[j], e)], es + [e])
  {
    var r := sums[j := Bumped(sums[j], e)];
    forall i | 0 <= i < |r|
      ensures r[i].transactionCount == CountOf(es + [e], r[i].normalizedName) >= 1
      ensures r[i].totalAmount == SumOf(es + [e], r[i].normalizedName)
      ensures 1 <= |r[i].sampleDescriptions| <= 2
      ensures NoRepeats(r[i].sampleDescriptions)
      ensures FirstDescription(es + [e], r[i].normalizedName) == Some(r[i].sampleDescriptions[0])
    {
      if i == j {
        BumpedFacts(es, sums[j], e);
      } else {
        OtherKey(es, e, sums[i].normalizedName);
      }
    }
  }

  lemma ExistingCovers(es: seq<Entry>, sums: seq<MerchantSummary>, e: Entry, j: nat)
    requires Covers(sums, es)
    requires j < |sums| && sums[j].normalizedName == e.name
    ensures Covers(sums[j := Bumped(sums[j], e)], es + [e])
  {
    var r := sums[j := Bumped(sums[j], e)];
    forall p | 0 <= p < |es + [e]|
      ensures exists i :: 0 <= i < |r| && r[i].normalizedName == (es + [e])[p].name
    {
      if p < |es| {
        var i :| 0 <= i < |sums| && sums[i].normalizedName == es[p].name;
        assert (es + [e])[p] == es[p];
        assert 0 <= i < |r| && r[i].normalizedName == (es + [e])[p].name;
      } else {
        assert r[j].normalizedName == (es + [e])[p].name;
      }
    }
    assert forall p :: 0 <= p < |es + [e]| ==> exists i :: 0 <= i < |r| && r[i].normalizedName == (es + [e])[p].name;
  }


  function Fresh(e: Entry): MerchantSummary {
    MerchantSummary(e.name, 1, e.amount, [e.description])
  }

  /** The entry's key has no summary yet. */
  lemma AddNew(es: seq<Entry>, sums: seq<MerchantSummary>, e: Entry)
    requires Summarises(sums, es)
    requires forall j :: 0 <= j < |sums| ==> sums[j].normalizedName != e.name
    ensures Summarises(sums + [Fresh(e)], es + [e])
    ensures TotalCount(sums + [Fresh(e)]) == TotalCount(sums) + 1
  {
    TotalCountSnoc(sums, Fresh(e));
    NewFacts(es, sums, e);
    NewCovers(es, sums, e);
  }

  lemma NewFacts(es: seq<Entry>, sums: seq<MerchantSummary>, e: Entry)
    requires GroupFacts(sums, es) && Covers(sums, es)
    requires forall j :: 0 <= j < |sums| ==> sums[j].normalizedName != e.name
    ensures GroupFacts(sums + [Fresh(e)], es + [e])
  {
    var r := sums + [Fresh(e)];
    CountOfAbsent(es, e.name, sums);
    SumOfAbsent(es, e.name, sums);
    FirstDescriptionAbsent(es, e.name, sums);
    SameKey(es, e);
    forall i | 0 <= i < |sums|
      ensures r[i].transactionCount == CountOf(es + [e], r[i].normalizedName) >= 1
      ensures r[i].totalAmount == SumOf(es + [e], r[i].normalizedName)
      ensures FirstDescription(es + [e], r[i].normalizedName) == Some(r[i].sampleDescriptions[0])
    {
      assert r[i] == sums[i];
      OtherKey(es, e, sums[i].normalizedName);
    }
  }

  lemma NewCovers(es: seq<Entry>, sums: seq<MerchantSummary>, e: Entry)
    requires Covers(sums, es)
    ensures Covers(sums + [Fresh(e)], es + [e])
  {
    var r := sums + [Fresh(e)];
    forall p | 0 <= p < |es + [e]|
      ensures exists i :: 0 <= i < |r| && r[i].normalizedName == (es + [e])[p].name
    {
      if p < |es| {
        var i :| 0 <= i < |sums| && sums[i].normalizedName == es[p].name;
        assert (es + [e])[p] == es[p];
        assert 0 <= i < |r| && r[i].normalizedName == (es + [e])[p].name;
      } else {
        assert r[|sums|].normalizedName == (es + [e])[p].name;
      }
    }
    assert forall p :: 0 <= p < |es + [e]| ==> exists i :: 0 <= i < |r| && r[i].normalizedName == (es + [e])[p].name;
  }


  /** Without the key among the summaries, the last entry is not the
      key's and the earlier entries are covered too. */
  lemma CoversInit(sums: seq<MerchantSummary>, es: seq<Entry>, key: string)
    requires Covers(sums, es) && es != []
    requires forall j :: 0 <= j < |sums| ==> sums[j].normalizedName != key
    ensures es[|es| - 1].name != key
    ensures Covers(sums, es[..|es| - 1])
  {
    var n := |es| - 1;
    assert 0 <= n < |es|;
    var j :| 0 <= j < |sums| && sums[j].normalizedName == es[n].name;
    forall p | 0 <= p < n ensures exists j :: 0 <= j < |sums| && sums[j].normalizedName == es[..n][p].name {
      assert es[..n][p] == es[p];
    }
  }

  /** A key with no summary has no entries. */
  lemma {:induction false} CountOfAbsent(es: seq<Entry>, key: string, sums: seq<MerchantSummary>)
    requires Covers(sums, es)
    requires forall j :: 0 <= j < |sums| ==> sums[j].normalizedName != key
    ensures CountOf(es, key) == 0
  {
    if es != [] {
      var n := |es| - 1;
      CoversInit(sums, es, key);
      CountOfAbsent(es[..n], key, sums);
    }
  }

  lemma {:induction false} SumOfAbsent(es: seq<Entry>, key: string, sums: seq<MerchantSummary>)
    requires Covers(sums, es)
    requires forall j :: 0 <= j < |sums| ==> sums[j].normalizedName != key
    ensures SumOf(es, key) == 0
  {
    if es != [] {
      var n := |es| - 1;
      CoversInit(sums, es, key);
      SumOfAbsent(es[..n], key, sums);
    }
  }

  lemma {:induction false} FirstDescriptionAbsent(es: seq<Entry>, key: string, sums: seq<MerchantSummary>)
    requires Covers(sums, es)
    requires forall j :: 0 <= j < |sums| ==> sums[j].normalizedName != key
    ensures FirstDescription(es, key) == None
  {
    if es != [] {
      var n := |es| - 1;
      CoversInit(sums, es, key);
      FirstDescriptionAbsent(es[..n], key, sums);
    }
  }

  /** The grouping summarises its entries, and the counts add up to the
      number of entries. */
  lemma {:induction false} GroupSummarises(es: seq<Entry>)
    ensures Summarises(Group(es), es)
    ensures TotalCount(Group(es)) == |es|
  {
    if es != [] {
      var n := |es| - 1;
      GroupSummarises(es[..n]);
      AddEntryStep(es[..n], Group(es[..n]), es[n]);
      assert es[..n] + [es[n]] == es;
    }
  }

  lemma GroupSnoc(es: seq<Entry>, i: nat)
    requires i < |es|
    ensures Group(es[..i + 1]) == AddEntry(Group(es[..i]), es[i])
  {
    assert es[..i + 1][..i] == es[..i];
  }

  /** The grouping loop: the map of summaries, kept in insertion order,
      updated entry by entry. */
  method GroupEntries(es: seq<Entry>) returns (sums: seq<MerchantSummary>)
    ensures sums == Group(es)
  {
    sums := [];
    for i := 0 to |es|
      invariant sums == Group(es[..i])
    {
      GroupSnoc(es, i);
      sums := AddToSummaries(sums, es[i]);
    }
    assert es[..|es|] == es;
  }

  /** One pass of the grouping loop: the entry's summary is bumped in
      place, or a new summary is appended. */
  method AddToSummaries(sums: seq<MerchantSummary>, e: Entry) returns (r: seq<MerchantSummary>)
    ensures r == AddEntry(sums, e)
  {
    var found := KeyIndex(sums, e.name);
    match found {
      case Some(j) =>
        var s := sums[j];
        var samples := s.sampleDescriptions;
        if |samples| < 2 && e.description !in samples {
          samples := samples + [e.description];
        }
        r := sums[j := MerchantSummary(s.normalizedName, s.transactionCount + 1, s.totalAmount + e.amount, samples)];
      case None =>
        r := sums + [MerchantSummary(e.name, 1, e.amount, [e.description])];
    }
  }

  // ---------------------------------------------------------------------------
  // The handler
  // ---------------------------------------------------------------------------

  const NotConfiguredMessage := "LLM categorization is not configured. Set OPENAI_API_KEY to enable this feature."

  function TotalOf(s: MerchantSummary): int {
    s.totalAmount
  }

  /** The summaries in the order they are sent: largest total first. */
  function Ranked(sums: seq<MerchantSummary>): seq<MerchantSummary> {
    Sort(sums, ByKeyDesc(TotalOf))
  }

  /** Ranking keeps every summary and orders them by total, descending. */
  lemma RankedIsRanking(sums: seq<MerchantSummary>)
    ensures multiset(Ranked(sums)) == multiset(sums)
    ensures forall i, j :: 0 <= i < j < |sums| ==> Ranked(sums)[i].totalAmount >= Ranked(sums)[j].totalAmount
  {
    SortByKeyDesc(sums, TotalOf);
  }

  function CategoryNames(cats: seq<Category>): (names: seq<string>)
    ensures |names| == |cats| && forall k :: 0 <= k < |cats| ==> names[k] == cats[k].name
  {
    seq(|cats|, k requires 0 <= k < |cats| => cats[k].name)
  }

  /** The summaries the handler would send for the store's swept rows. */
  function SweptSummaries(db: Db): seq<MerchantSummary>
    reads db`transactions, db`categories, db`merchants
  {
    var idx := SweptIndices(db.transactions, CategoryNamed(db.categories, UncategorizedName));
    Ranked(Group(Entries(db.merchants, db.transactions, idx)))
  }

  /** `POST /api/categories/suggest`: 503 without a strategy; no
      suggestions when nothing is uncategorised; otherwise the model's
      suggestions for the ranked summaries and all category names. */
  method SuggestCategories(db: Db, openaiApiKey: Option<string>, model: Model)
    returns (r: Result<seq<Json>, HttpError>)
    ensures CreateCategorizerStrategy(openaiApiKey, model).None? ==>
              r == Err(HttpError(503, NotConfiguredMessage))
    ensures CreateCategorizerStrategy(openaiApiKey, model).Some? &&
            SweptIndices(db.transactions, CategoryNamed(db.categories, UncategorizedName)) == [] ==>
              r == Ok([])
    ensures CreateCategorizerStrategy(openaiApiKey, model).Some? &&
            SweptIndices(db.transactions, CategoryNamed(db.categories, UncategorizedName)) != [] ==>
              r == Ok(OpenAi.SuggestNewCategories(model, SweptSummaries(db), CategoryNames(db.categories)))
  {
    var strategy := CreateCategorizerStrategy(openaiApiKey, model);
    if strategy.None? {
      return Err(HttpError(503, NotConfiguredMessage));
    }
    var uncategorizedId := CategoryNamed(db.categories, UncategorizedName);
    var idx := SweptIndices(db.transactions, uncategorizedId);
    if |idx| == 0 {
      return Ok([]);
    }
    var sums := GroupEntries(Entries(db.merchants, db.transactions, idx));
    var ranked := Ranked(sums);
    r := Ok(OpenAi.SuggestNewCategories(strategy.value.model, ranked, CategoryNames(db.categories)));
  }

  /** Every uncategorised row is counted in exactly one summary. */
  lemma SummariesCoverSweep(db: Db)
    ensures var idx := SweptIndices(db.transactions, CategoryNamed(db.categories, UncategorizedName));
            TotalCount(Group(Entries(db.merchants, db.transactions, idx))) == |idx|
  {
    var idx := SweptIndices(db.transactions, CategoryNamed(db.categories, UncategorizedName));
    GroupSummarises(Entries(db.merchants, db.transactions, idx));
  }
}
