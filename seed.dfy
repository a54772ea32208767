/** The initial data (server/db/seed.ts): a fixed tree of categories and a
    fixed list of merchant rules naming their category by name. Seeding
    does nothing when the categories table has any row; otherwise it
    inserts the tree depth-first in pre-order (each category before its
    children, each child pointing at its parent's new id, the sort order
    being the index among siblings), remembers each name's id, and inserts
    each rule whose category name it knows.

    As written, neither insert names an owner, which the NOT NULL owner
    columns refuse, so seeding an empty store fails on its first insert.
    `SeedAsWritten` models that; `SeedDatabase` is the routine with an
    owner given to every insert. */
module Seed {
  import opened Wrappers
  import opened Schema
  import opened Categorizer

  datatype SeedCategory = SeedCategory(
    name: string, color: Option<string>, icon: Option<string>, children: seq<SeedCategory>)

  datatype SeedRule = SeedRule(pattern: string, categoryName: string, priority: int)

  /** The category tree, in insertion order. */
  const SeedCategories: seq<SeedCategory> := [
    SeedCategory("Food & Dining", Some("#f59e0b"), Some("\U{1F37D}\U{FE0F}"), [
      SeedCategory("Restaurants", Some("#f59e0b"), Some("\U{1F37D}\U{FE0F}"), []),
      SeedCategory("Coffee & Drinks", Some("#92400e"), Some("\U{2615}"), []),
      SeedCategory("Fast Food", Some("#dc2626"), Some("\U{1F354}"), [])]),
    SeedCategory("Groceries", Some("#10b981"), Some("\U{1F6D2}"), [
      SeedCategory("Supermarket", Some("#10b981"), Some("\U{1F6D2}"), []),
      SeedCategory("Specialty Foods", Some("#059669"), Some("\U{1F96C}"), [])]),
    SeedCategory("Transportation", Some("#3b82f6"), Some("\U{1F697}"), [
      SeedCategory("Gas", Some("#2563eb"), Some("\U{26FD}"), []),
      SeedCategory("Rideshare", Some("#1d4ed8"), Some("\U{1F695}"), []),
      SeedCategory("Public Transit", Some("#1e40af"), Some("\U{1F687}"), [])]),
    SeedCategory("Shopping", Some("#ec4899"), Some("\U{1F6CD}\U{FE0F}"), [
      SeedCategory("Clothing", Some("#db2777"), Some("\U{1F454}"), []),
      SeedCategory("General Retail", Some("#be185d"), Some("\U{1F3EC}"), [])]),
    SeedCategory("Entertainment", Some("#8b5cf6"), Some("\U{1F3AC}"), []),
    SeedCategory("Bills & Utilities", Some("#6b7280"), Some("\U{1F4A1}"), []),
    SeedCategory("Health & Wellness", Some("#14b8a6"), Some("\U{2695}\U{FE0F}"), []),
    SeedCategory("Travel", Some("#06b6d4"), Some("\U{2708}\U{FE0F}"), []),
    SeedCategory("Personal Care", Some("#a855f7"), Some("\U{1F487}"), []),
    SeedCategory("Other", Some("#9ca3af"), Some("\U{1F4E6}"), []),
    SeedCategory("Uncategorized", Some("#d1d5db"), Some("\U{2753}"), [])
  ]

  /** The merchant rules, each naming its category. */
  const SeedRules: seq<SeedRule> := [
    SeedRule("publix", "Supermarket", 100),
    SeedRule("instacart", "Supermarket", 100),
    SeedRule("whole foods", "Supermarket", 100),
    SeedRule("trader joe", "Supermarket", 100),
    SeedRule("fresh market", "Supermarket", 100),
    SeedRule("gilead natural foods", "Specialty Foods", 100),
    SeedRule("shell oil", "Gas", 100),
    SeedRule("exxon", "Gas", 100),
    SeedRule("speedway", "Gas", 100),
    SeedRule("chevron", "Gas", 100),
    SeedRule("bp gas", "Gas", 100),
    SeedRule("uber", "Rideshare", 100),
    SeedRule("lyft", "Rideshare", 100),
    SeedRule("taco bell", "Fast Food", 100),
    SeedRule("chipotle", "Fast Food", 100),
    SeedRule("chick-fil", "Fast Food", 100),
    SeedRule("doordash", "Fast Food", 90),
    SeedRule("pollo tropical", "Fast Food", 100),
    SeedRule("coffee", "Coffee & Drinks", 100),
    SeedRule("starbucks", "Coffee & Drinks", 100),
    SeedRule("kava", "Coffee & Drinks", 100),
    SeedRule("restaurant", "Restaurants", 80),
    SeedRule("tst\\*", "Restaurants", 70),
    SeedRule("first watch", "Restaurants", 100),
    SeedRule("jason's deli", "Restaurants", 100),
    SeedRule("burlington", "Clothing", 100),
    SeedRule("target", "General Retail", 100),
    SeedRule("walmart", "General Retail", 100),
    SeedRule("hobby-lobby", "General Retail", 100),
    SeedRule("disney", "Entertainment", 100),
    SeedRule("universal studios", "Entertainment", 100),
    SeedRule("wdw", "Entertainment", 100),
    SeedRule("hemingway", "Entertainment", 100),
    SeedRule("airport", "Travel", 100),
    SeedRule("hotel", "Travel", 100),
    SeedRule("brightline", "Public Transit", 100),
    SeedRule("barber", "Personal Care", 100),
    SeedRule("salon", "Personal Care", 100),
    SeedRule("walgreens", "Personal Care", 90)
  ]

  /** The seed tree has exactly one top-level "Uncategorized" category, the
      catch-all the categoriser falls back to. */
  lemma OneTopLevelUncategorized()
    ensures SeedCategories[|SeedCategories| - 1].name == UncategorizedName
    ensures forall i :: 0 <= i < |SeedCategories| - 1 ==> SeedCategories[i].name != UncategorizedName
  {
    assert forall i :: 0 <= i < |SeedCategories| - 1 ==> SeedCategories[i].name[0] != 'U';
  }

  // ---------------------------------------------------------------------------
  // The insertion plan
  // ---------------------------------------------------------------------------

  /** The number of categories in a subtree, and in a run of sibling
      subtrees. */
  function Size(cat: SeedCategory): (n: nat)
    ensures n >= 1
  {
    1 + SizeAll(cat.children)
  }

  function SizeAll(cs: seq<SeedCategory>): (n: nat)
    ensures n >= |cs|
  {
    if cs == [] then 0 else SizeAll(cs[..|cs| - 1]) + Size(cs[|cs| - 1])
  }

  /** The columns of one planned category insert, the owner apart. */
  datatype Planned = Planned(name: string, parentId: Option<Id>, color: Option<string>, icon: Option<string>,
                             sortOrder: nat)

  /** The insert for a planned category, with `owner` as its owner column. */
  function AsInsert(owner: Option<UserId>, p: Planned): CategoryInsert {
    CategoryInsert(owner, p.name, p.parentId, p.color, p.icon, Given(Some(p.sortOrder)))
  }

  /** The inserts for one subtree, the category numbered `first`: the
      category itself under `parent`, then its children's subtrees. */
  function PlanOne(cat: SeedCategory, parent: Option<Id>, sortOrder: nat, first: Id): seq<Planned> {
    [Planned(cat.name, parent, cat.color, cat.icon, sortOrder)] + PlanAll(cat.children, Some(first), first + 1)
  }

  /** The inserts for a run of siblings under `parent`, numbered from
      `first`: the k-th sibling's subtree, with sort order k, after the
      subtrees of the siblings before it. */
  function PlanAll(cs: seq<SeedCategory>, parent: Option<Id>, first: Id): seq<Planned> {
    if cs == [] then []
    else
      var n := |cs| - 1;
      var before := PlanAll(cs[..n], parent, first);
      before + PlanOne(cs[n], parent, n, first + |before|)
  }

  /** A subtree plans one insert per category in it. */
  lemma {:induction false} PlanOneSize(cat: SeedCategory, parent: Option<Id>, sortOrder: nat, first: Id)
    ensures |PlanOne(cat, parent, sortOrder, first)| == Size(cat)
    decreases cat, 1
  {
    PlanAllSize(cat.children, Some(first), first + 1);
  }

  lemma {:induction false} PlanAllSize(cs: seq<SeedCategory>, parent: Option<Id>, first: Id)
    ensures |PlanAll(cs, parent, first)| == SizeAll(cs)
    decreases cs, 0
  {
    if cs != [] {
      var n := |cs| - 1;
      PlanAllSize(cs[..n], parent, first);
      PlanOneSize(cs[n], parent, n, first + |PlanAll(cs[..n], parent, first)|);
    }
  }

  /** Each planned insert names as parent either `parent` or a category
      numbered before it. */
  predicate ParentsBefore(plan: seq<Planned>, parent: Option<Id>, first: Id) {
    forall k :: 0 <= k < |plan| ==>
      plan[k].parentId == parent || (plan[k].parentId.Some? && first <= plan[k].parentId.value < first + k)
  }

  /** Every category is inserted after its parent: its parent is the
      subtree's own parent or a category numbered before it. So no insert
      of the plan names a parent that is not there yet. */
  lemma {:induction false} ParentsFirstOne(cat: SeedCategory, parent: Option<Id>, sortOrder: nat, first: Id)
    ensures ParentsBefore(PlanOne(cat, parent, sortOrder, first), parent, first)
    decreases cat, 1
  {
    var plan := PlanOne(cat, parent, sortOrder, first);
    var kids := PlanAll(cat.children, Some(first), first + 1);
    ParentsFirstAll(cat.children, Some(first), first + 1);
    assert plan == [Planned(cat.name, parent, cat.color, cat.icon, sortOrder)] + kids;
    assert forall k :: 1 <= k < |plan| ==> plan[k] == kids[k - 1];
  }

  lemma {:induction false} ParentsFirstAll(cs: seq<SeedCategory>, parent: Option<Id>, first: Id)
    ensures ParentsBefore(PlanAll(cs, parent, first), parent, first)
    decreases cs, 0
  {
    if cs != [] {
      var n := |cs| - 1;
      var before := PlanAll(cs[..n], parent, first);
      ParentsFirstAll(cs[..n], parent, first);
      ParentsFirstOne(cs[n], parent, n, first + |before|);
      var last := PlanOne(cs[n], parent, n, first + |before|);
      var plan := PlanAll(cs, parent, first);
      assert plan == before + last;
      assert forall k :: 0 <= k < |before| ==> plan[k] == before[k];
      assert forall k :: |before| <= k < |plan| ==> plan[k] == last[k - |before|];
    }
  }

  /** Sibling i's own insert sits after the subtrees of siblings 0..i-1,
      under the run's parent, with sort order i. */
  lemma {:induction false} SiblingInsert(cs: seq<SeedCategory>, parent: Option<Id>, first: Id, i: nat)
    requires i < |cs|
    ensures SizeAll(cs[..i]) < |PlanAll(cs, parent, first)| &&
            PlanAll(cs, parent, first)[SizeAll(cs[..i])] == Planned(cs[i].name, parent, cs[i].color, cs[i].icon, i)
  {
    PlanAllSize(cs[..i], parent, first);
    var n := |cs| - 1;
    var before := PlanAll(cs[..n], parent, first);
    assert PlanAll(cs, parent, first) == before + PlanOne(cs[n], parent, n, first + |before|);
    if i < n {
      assert cs[..n][..i] == cs[..i];
      SiblingInsert(cs[..n], parent, first, i);
    } else {
      assert cs[..i] == cs[..n];
    }
  }

  /** A category's i-th child is inserted with the category's id as parent
      and sort order i. */
  lemma ChildInsert(cat: SeedCategory, parent: Option<Id>, sortOrder: nat, first: Id, i: nat)
    requires i < |cat.children|
    ensures 1 + SizeAll(cat.children[..i]) < |PlanOne(cat, parent, sortOrder, first)| &&
            PlanOne(cat, parent, sortOrder, first)[1 + SizeAll(cat.children[..i])] ==
            Planned(cat.children[i].name, Some(first), cat.children[i].color, cat.children[i].icon, i)
  {
    SiblingInsert(cat.children, Some(first), first + 1, i);
  }

  /** The rows the planned inserts add, owned by `owner`, numbered from
      `first`. */
  function SeedRows(first: Id, owner: UserId, plan: seq<Planned>): (rows: seq<Category>)
    ensures |rows| == |plan|
  {
    seq(|plan|, k requires 0 <= k < |plan| => CategoryRow(first + k, AsInsert(Some(owner), plan[k])))
  }

  lemma SeedRowsAppend(first: Id, owner: UserId, a: seq<Planned>, b: seq<Planned>)
    ensures SeedRows(first, owner, a + b) == SeedRows(first, owner, a) + SeedRows(first + |a|, owner, b)
  {
    assert forall k :: 0 <= k < |a + b| ==> (a + b)[k] == if k < |a| then a[k] else b[k - |a|];
  }

  // ---------------------------------------------------------------------------
  // The name-to-id map
  // ---------------------------------------------------------------------------

  /** `categoryMap` after the planned inserts, numbered from `first`: each
      name maps to the id of its latest insert. */
  function NameMapFrom(m: map<string, Id>, first: Id, plan: seq<Planned>): map<string, Id> {
    if plan == [] then m
    else
      var n := |plan| - 1;
      NameMapFrom(m, first, plan[..n])[plan[n].name := first + n]
  }

  /** Starting empty, the map knows every inserted name. */
  lemma {:induction false} NameMapKeys(first: Id, plan: seq<Planned>)
    ensures forall k :: 0 <= k < |plan| ==> plan[k].name in NameMapFrom(map[], first, plan)
  {
    if plan != [] {
      var n := |plan| - 1;
      NameMapKeys(first, plan[..n]);
      assert forall k :: 0 <= k < n ==> plan[..n][k] == plan[k];
    }
  }

  /** Starting empty, the map sends each name it knows to the id of an
      insert of that name. */
  predicate PointsAtInserts(m: map<string, Id>, first: Id, plan: seq<Planned>) {
    forall name :: name in m ==> first <= m[name] < first + |plan| && plan[m[name] - first].name == name
  }

  lemma {:induction false} NameMapValues(first: Id, plan: seq<Planned>)
    ensures PointsAtInserts(NameMapFrom(map[], first, plan), first, plan)
  {
    if plan != [] {
      var n := |plan| - 1;
      NameMapValues(first, plan[..n]);
      var prev := NameMapFrom(map[], first, plan[..n]);
      forall name | name in prev && name != plan[n].name
        ensures first <= prev[name] < first + n && plan[prev[name] - first].name == name
      {
        assert plan[..n][prev[name] - first] == plan[prev[name] - first];
      }
    }
  }

  lemma {:induction false} NameMapAppend(m: map<string, Id>, first: Id, a: seq<Planned>, b: seq<Planned>)
    ensures NameMapFrom(m, first, a + b) == NameMapFrom(NameMapFrom(m, first, a), first + |a|, b)
  {
    if b == [] {
      assert a + b == a;
    } else {
      var n := |b| - 1;
      assert (a + b)[..|a| + n] == a + b[..n];
      NameMapAppend(m, first, a, b[..n]);
    }
  }

  /** After the planned inserts numbered from `first`, the categories are
      `base` followed by their rows, the next id is just past them and the
      name map has recorded them over `m`. */
  predicate Inserted(cats: seq<Category>, next: Id, m1: map<string, Id>,
                     base: seq<Category>, m: map<string, Id>, first: Id, owner: UserId, plan: seq<Planned>) {
    && cats == base + SeedRows(first, owner, plan)
    && next == first + |plan|
    && m1 == NameMapFrom(m, first, plan)
  }

  /** Inserting the rows of `b` after those of `a` gives the rows of
      `a + b`, and likewise for the name map. */
  lemma AppendStep(base: seq<Category>, cats0: seq<Category>, cats1: seq<Category>, next0: Id, next1: Id,
                   first: Id, owner: UserId, a: seq<Planned>, b: seq<Planned>,
                   m: map<string, Id>, m0: map<string, Id>, m1: map<string, Id>)
    requires Inserted(cats0, next0, m0, base, m, first, owner, a)
    requires Inserted(cats1, next1, m1, cats0, m0, next0, owner, b)
    ensures Inserted(cats1, next1, m1, base, m, first, owner, a + b)
  {
    SeedRowsAppend(first, owner, a, b);
    NameMapAppend(m, first, a, b);
  }

  // ---------------------------------------------------------------------------
  // The rules
  // ---------------------------------------------------------------------------

  /** The columns of one planned rule insert, the owner apart. */
  datatype PlannedRule = PlannedRule(pattern: string, categoryId: Id, priority: int)

  /** The insert for a planned rule, with `owner` as its owner column. */
  function RuleAsInsert(owner: Option<UserId>, p: PlannedRule): RuleInsert {
    RuleInsert(owner, p.pattern, p.categoryId, Given(Some(p.priority)))
  }

  /** What the rule loop does with one rule: insert it when its category
      name has a truthy id. */
  function PlanRule(rule: SeedRule, m: map<string, Id>): seq<PlannedRule> {
    if rule.categoryName in m && m[rule.categoryName] != 0
    then [PlannedRule(rule.pattern, m[rule.categoryName], rule.priority)] else []
  }

  /** The rule inserts: each rule whose category name has a truthy id, in
      order, with its pattern and priority. */
  function RulePlan(rules: seq<SeedRule>, m: map<string, Id>): (plan: seq<PlannedRule>)
    ensures |plan| <= |rules|
  {
    if rules == [] then []
    else
      var n := |rules| - 1;
      RulePlan(rules[..n], m) + PlanRule(rules[n], m)
  }

  /** A rule is inserted exactly when its category name is known (with a
      truthy id), keeping its pattern and priority and pointing at that
      category. */
  lemma {:induction false} RulePlanMembers(rules: seq<SeedRule>, m: map<string, Id>)
    ensures forall j :: 0 <= j < |rules| && rules[j].categoryName in m && m[rules[j].categoryName] != 0 ==>
              PlannedRule(rules[j].pattern, m[rules[j].categoryName], rules[j].priority) in RulePlan(rules, m)
    ensures forall x :: x in RulePlan(rules, m) ==>
              exists j :: 0 <= j < |rules| && rules[j].categoryName in m && m[rules[j].categoryName] != 0 &&
                          x == PlannedRule(rules[j].pattern, m[rules[j].categoryName], rules[j].priority)
  {
    if rules != [] {
      var n := |rules| - 1;
      RulePlanMembers(rules[..n], m);
      assert forall j :: 0 <= j < n ==> rules[..n][j] == rules[j];
    }
  }

  /** The rows the planned rule inserts add, owned by `owner`, numbered
      from `first`. */
  function SeedRuleRows(first: Id, owner: UserId, plan: seq<PlannedRule>): (rows: seq<MerchantRule>)
    ensures |rows| == |plan|
  {
    if plan == [] then []
    else
      var n := |plan| - 1;
      SeedRuleRows(first, owner, plan[..n]) + [RuleRow(first + n, RuleAsInsert(Some(owner), plan[n]))]
  }

  /** Row k is planned rule insert k, under id first + k. */
  lemma {:induction false} SeedRuleRowsAt(first: Id, owner: UserId, plan: seq<PlannedRule>)
    ensures forall k :: 0 <= k < |plan| ==>
              SeedRuleRows(first, owner, plan)[k] == RuleRow(first + k, RuleAsInsert(Some(owner), plan[k]))
  {
    if plan != [] {
      var n := |plan| - 1;
      SeedRuleRowsAt(first, owner, plan[..n]);
      assert forall k :: 0 <= k < n ==> plan[..n][k] == plan[k];
    }
  }

  lemma {:induction false} SeedRuleRowsAppend(first: Id, owner: UserId, a: seq<PlannedRule>, b: seq<PlannedRule>)
    ensures SeedRuleRows(first, owner, a + b) == SeedRuleRows(first, owner, a) + SeedRuleRows(first + |a|, owner, b)
  {
    if b == [] {
      assert a + b == a;
    } else {
      var n := |b| - 1;
      assert (a + b)[..|a| + n] == a + b[..n];
      SeedRuleRowsAppend(first, owner, a, b[..n]);
    }
  }

  // ---------------------------------------------------------------------------
  // The routine
  // ---------------------------------------------------------------------------

  /** `insertCategory`: insert the category, record its id under its name,
      then insert each child's subtree with this id as parent. */
  method InsertSubtree(db: Db, cat: SeedCategory, owner: UserId, parent: Option<Id>, sortOrder: nat,
                       m: map<string, Id>)
    returns (m': map<string, Id>)
    requires db.Valid()
    requires parent.Some? ==> parent.value in CategoryIds(db.categories)
    modifies db`categories, db`nextCategoryId
    ensures db.Valid()
    ensures Inserted(db.categories, db.nextCategoryId, m', old(db.categories), m, old(db.nextCategoryId), owner,
                     PlanOne(cat, parent, sortOrder, old(db.nextCategoryId)))
    decreases cat, 1
  {
    var base := db.categories;
    var own := Planned(cat.name, parent, cat.color, cat.icon, sortOrder);
    var id;
    id, m' := InsertOwn(db, own, owner, m);
    var cats0, next0, m0 := db.categories, db.nextCategoryId, m';
    m' := InsertRun(db, cat.children, owner, Some(id), m');
    SubtreeStep(cat, parent, sortOrder, owner, base, cats0, db.categories, next0, db.nextCategoryId,
                id, m, m0, m');
  }

  /** A subtree's inserts are its own insert followed by its children's. */
  lemma SubtreeStep(cat: SeedCategory, parent: Option<Id>, sortOrder: nat, owner: UserId,
                    base: seq<Category>, cats0: seq<Category>, cats1: seq<Category>, next0: Id, next1: Id, id: Id,
                    m: map<string, Id>, m0: map<string, Id>, m1: map<string, Id>)
    requires Inserted(cats0, next0, m0, base, m, id, owner, [Planned(cat.name, parent, cat.color, cat.icon, sortOrder)])
    requires Inserted(cats1, next1, m1, cats0, m0, next0, owner, PlanAll(cat.children, Some(id), id + 1))
    ensures Inserted(cats1, next1, m1, base, m, id, owner, PlanOne(cat, parent, sortOrder, id))
  {
    AppendStep(base, cats0, cats1, next0, next1, id, owner, [Planned(cat.name, parent, cat.color, cat.icon, sortOrder)],
               PlanAll(cat.children, Some(id), id + 1), m, m0, m1);
  }

  /** The category's own insert, recorded in the name map. */
  method InsertOwn(db: Db, own: Planned, owner: UserId, m: map<string, Id>) returns (id: Id, m': map<string, Id>)
    requires db.Valid()
    requires own.parentId.Some? ==> own.parentId.value in CategoryIds(db.categories)
    modifies db`categories, db`nextCategoryId
    ensures db.Valid()
    ensures id == old(db.nextCategoryId) && id in CategoryIds(db.categories)
    ensures Inserted(db.categories, db.nextCategoryId, m', old(db.categories), m, id, owner, [own])
  {
    var inserted := db.InsertCategory(AsInsert(Some(owner), own));
    id := inserted.value;
    m' := m[own.name := id];
    OneInserted(old(db.categories), db.categories, id, db.nextCategoryId, owner, own, m, m');
  }

  /** One planned insert, added as row `id`. */
  lemma OneInserted(base: seq<Category>, cats: seq<Category>, id: Id, next: Id, owner: UserId, own: Planned,
                    m: map<string, Id>, m1: map<string, Id>)
    requires cats == base + [CategoryRow(id, AsInsert(Some(owner), own))] && next == id + 1
    requires m1 == m[own.name := id]
    ensures Inserted(cats, next, m1, base, m, id, owner, [own])
    ensures id in CategoryIds(cats)
  {
    assert SeedRows(id, owner, [own]) == [CategoryRow(id, AsInsert(Some(owner), own))];
    assert cats[|cats| - 1].id == id;
  }

  /** A run of siblings under `parent`: sibling i gets sort order i. */
  method InsertRun(db: Db, cs: seq<SeedCategory>, owner: UserId, parent: Option<Id>, m: map<string, Id>)
    returns (m': map<string, Id>)
    requires db.Valid()
    requires parent.Some? ==> parent.value in CategoryIds(db.categories)
    modifies db`categories, db`nextCategoryId
    ensures db.Valid()
    ensures Inserted(db.categories, db.nextCategoryId, m', old(db.categories), m, old(db.nextCategoryId), owner,
                     PlanAll(cs, parent, old(db.nextCategoryId)))
    decreases cs, 0
  {
    var first := db.nextCategoryId;
    m' := m;
    assert SeedRows(first, owner, []) == [];
    for i := 0 to |cs|
      invariant db.Valid()
      invariant parent.Some? ==> parent.value in CategoryIds(db.categories)
      invariant Inserted(db.categories, db.nextCategoryId, m', old(db.categories), m, first, owner,
                         PlanAll(cs[..i], parent, first))
    {
      var cats0, next0, m0 := db.categories, db.nextCategoryId, m';
      m' := InsertSubtree(db, cs[i], owner, parent, i, m');
      RunStep(cs, i, parent, first, owner, old(db.categories), cats0, db.categories, next0, db.nextCategoryId,
              m, m0, m');
    }
    assert cs[..|cs|] == cs;
  }

  /** The loop step of `InsertRun`: sibling i's subtree extends the plan
      of siblings 0..i-1 to that of siblings 0..i, and keeps the ids
      already there. */
  lemma RunStep(cs: seq<SeedCategory>, i: nat, parent: Option<Id>, first: Id, owner: UserId,
                base: seq<Category>, cats0: seq<Category>, cats1: seq<Category>, next0: Id, next1: Id,
                m: map<string, Id>, m0: map<string, Id>, m1: map<string, Id>)
    requires i < |cs|
    requires Inserted(cats0, next0, m0, base, m, first, owner, PlanAll(cs[..i], parent, first))
    requires Inserted(cats1, next1, m1, cats0, m0, next0, owner, PlanOne(cs[i], parent, i, next0))
    ensures Inserted(cats1, next1, m1, base, m, first, owner, PlanAll(cs[..i + 1], parent, first))
    ensures CategoryIds(cats0) <= CategoryIds(cats1)
  {
    var before := PlanAll(cs[..i], parent, first);
    assert cs[..i + 1][..i] == cs[..i];
    assert PlanAll(cs[..i + 1], parent, first) == before + PlanOne(cs[i], parent, i, first + |before|);
    AppendStep(base, cats0, cats1, next0, next1, first, owner, before, PlanOne(cs[i], parent, i, next0), m, m0, m1);
    KeepsIds(cats0, SeedRows(next0, owner, PlanOne(cs[i], parent, i, next0)));
  }

  lemma KeepsIds(a: seq<Category>, b: seq<Category>)
    ensures CategoryIds(a) <= CategoryIds(a + b)
  {
  }

  predicate IdsIn(m: map<string, Id>, cats: seq<Category>) {
    forall name :: name in m ==> m[name] in CategoryIds(cats)
  }

  /** Every id in the map built from the plan is a category of the rows
      the plan inserted. */
  lemma MapPointsAtRows(first: Id, owner: UserId, plan: seq<Planned>)
    ensures IdsIn(NameMapFrom(map[], first, plan), SeedRows(first, owner, plan))
  {
    NameMapValues(first, plan);
    var m := NameMapFrom(map[], first, plan);
    var rows := SeedRows(first, owner, plan);
    forall name | name in m ensures m[name] in CategoryIds(rows) {
      assert rows[m[name] - first].id == m[name];
    }
  }

  /** The rule loop: a rule whose category name has a truthy id is
      inserted with that category, its pattern and its priority. */
  method InsertSeedRules(db: Db, rules: seq<SeedRule>, owner: UserId, m: map<string, Id>)
    requires db.Valid()
    requires IdsIn(m, db.categories)
    modifies db`rules, db`nextRuleId
    ensures db.Valid()
    ensures RulesInserted(db.rules, db.nextRuleId, old(db.rules), old(db.nextRuleId), owner, RulePlan(rules, m))
  {
    var base, first := db.rules, db.nextRuleId;
    assert SeedRuleRows(first, owner, []) == [];
    for i := 0 to |rules|
      invariant db.Valid()
      invariant RulesInserted(db.rules, db.nextRuleId, base, first, owner, RulePlan(rules[..i], m))
    {
      InsertSeedRule(db, rules, i, owner, m, base, first);
    }
    assert rules[..|rules|] == rules;
  }

  /** After the planned rule inserts, numbered from `first`, the rules are
      `base` followed by their rows and the next id is just past them. */
  predicate RulesInserted(rules: seq<MerchantRule>, next: Id, base: seq<MerchantRule>, first: Id, owner: UserId,
                          plan: seq<PlannedRule>)
  {
    rules == base + SeedRuleRows(first, owner, plan) && next == first + |plan|
  }

  /** One pass of the rule loop: rule i is inserted exactly when its
      category name has a truthy id, extending the inserts of the rules
      before it. */
  method InsertSeedRule(db: Db, rules: seq<SeedRule>, i: nat, owner: UserId, m: map<string, Id>,
                        base: seq<MerchantRule>, first: Id)
    requires db.Valid()
    requires IdsIn(m, db.categories)
    requires i < |rules|
    requires RulesInserted(db.rules, db.nextRuleId, base, first, owner, RulePlan(rules[..i], m))
    modifies db`rules, db`nextRuleId
    ensures db.Valid()
    ensures RulesInserted(db.rules, db.nextRuleId, base, first, owner, RulePlan(rules[..i + 1], m))
  {
    var rule := rules[i];
    if rule.categoryName in m && m[rule.categoryName] != 0 {
      var p := PlannedRule(rule.pattern, m[rule.categoryName], rule.priority);
      var inserted := db.InsertRule(RuleAsInsert(Some(owner), p));
      SeedRuleRowsOne(old(db.nextRuleId), owner, p);
    }
    RulesStep(rules, i, m, owner, base, first, old(db.rules), old(db.nextRuleId), db.rules, db.nextRuleId);
  }

  lemma SeedRuleRowsOne(first: Id, owner: UserId, p: PlannedRule)
    ensures SeedRuleRows(first, owner, [p]) == [RuleRow(first, RuleAsInsert(Some(owner), p))]
  {
    assert [p][..0] == [];
  }

  /** The loop step of `InsertSeedRules`: rule i's inserts extend those of
      rules 0..i-1 to those of rules 0..i. */
  lemma RulesStep(rules: seq<SeedRule>, i: nat, m: map<string, Id>, owner: UserId,
                  base: seq<MerchantRule>, first: Id, rules0: seq<MerchantRule>, next0: Id,
                  rules1: seq<MerchantRule>, next1: Id)
    requires i < |rules|
    requires RulesInserted(rules0, next0, base, first, owner, RulePlan(rules[..i], m))
    requires RulesInserted(rules1, next1, rules0, next0, owner, PlanRule(rules[i], m))
    ensures RulesInserted(rules1, next1, base, first, owner, RulePlan(rules[..i + 1], m))
  {
    assert rules[..i + 1][..i] == rules[..i];
    var a, b := RulePlan(rules[..i], m), PlanRule(rules[i], m);
    assert RulePlan(rules[..i + 1], m) == a + b;
    SeedRuleRowsAppend(first, owner, a, b);
    Associative(base, SeedRuleRows(first, owner, a), SeedRuleRows(next0, owner, b));
  }

  lemma Associative<T>(x: seq<T>, y: seq<T>, z: seq<T>)
    ensures (x + y) + z == x + (y + z)
  {
  }

  /** `seedDatabase`, with every insert owned by `owner`. A store with any
      category is left alone. Otherwise the seed tree goes in as planned,
      numbered from the next category id, and then the rules whose
      category it created. */
  method SeedDatabase(db: Db, owner: UserId) returns (seeded: bool)
    requires db.Valid()
    modifies db`categories, db`nextCategoryId, db`rules, db`nextRuleId
    ensures db.Valid()
    ensures seeded <==> old(db.categories) == []
    ensures !seeded ==> db.categories == old(db.categories) && db.rules == old(db.rules)
    ensures seeded ==>
              var plan := PlanAll(SeedCategories, None, old(db.nextCategoryId));
              var m := NameMapFrom(map[], old(db.nextCategoryId), plan);
              && db.categories == SeedRows(old(db.nextCategoryId), owner, plan)
              && RulesInserted(db.rules, db.nextRuleId, old(db.rules), old(db.nextRuleId), owner, RulePlan(SeedRules, m))
  {
    if db.categories != [] {
      return false;
    }
    var first := db.nextCategoryId;
    var m := InsertRun(db, SeedCategories, owner, None, map[]);
    MapPointsAtRows(first, owner, PlanAll(SeedCategories, None, first));
    InsertSeedRules(db, SeedRules, owner, m);
    seeded := true;
  }

  /** `seedDatabase` as written: the first category insert names no owner
      and is refused, which ends the routine with no row written; the
      refused insert still uses up a category id. */
  method SeedAsWritten(db: Db) returns (r: Result<bool, DbError>)
    requires db.Valid()
    modifies db`categories, db`nextCategoryId
    ensures db.Valid()
    ensures db.categories == old(db.categories)
    ensures old(db.categories) != [] ==> r == Ok(false)
    ensures old(db.categories) == [] ==> r == Err(NotNullViolation("user_id")) && db.nextCategoryId == old(db.nextCategoryId) + 1
    ensures old(db.categories) != [] ==> db.nextCategoryId == old(db.nextCategoryId)
  {
    if db.categories != [] {
      return Ok(false);
    }
    var top := SeedCategories[0];
    var inserted := db.InsertCategory(AsInsert(None, Planned(top.name, None, top.color, top.icon, 0)));
    r := Err(inserted.error);
  }

  /** The discrepancy, for every store: the first insert as written has no
      owner and is refused, while with an owner it is accepted, and no
      later insert names a parent that is not already inserted. */
  lemma SeedOwnerMissing(cats: seq<Category>, first: Id, owner: UserId)
    ensures |PlanAll(SeedCategories, None, first)| > 0
    ensures CategoryInsertError(cats, AsInsert(None, PlanAll(SeedCategories, None, first)[0])) ==
            Some(NotNullViolation("user_id"))
    ensures CategoryInsertError(cats, AsInsert(Some(owner), PlanAll(SeedCategories, None, first)[0])).None?
    ensures ParentsBefore(PlanAll(SeedCategories, None, first), None, first)
  {
    ParentsFirstAll(SeedCategories, None, first);
    SiblingInsert(SeedCategories, None, first, 0);
    assert SeedCategories[..0] == [];
  }
}
