/** The category listing (server/api/categories/index.get.ts): the acting
    user's categories ordered by sort order and then name, and the tree
    built from them in two passes. The first pass makes one node per
    category, keyed by id; the second appends each node to the root list
    (no parent) or to its parent node's children (parent present), and
    drops it when the parent is not among the listed categories.

    Nodes are shared objects in the handler, so a node appended to its
    parent's children is the same node wherever the parent sits; the model
    keeps that sharing by naming nodes by id: `roots` lists root ids and
    `children` maps each node's id to its children's ids. */
module CategoryTree {
  import opened Wrappers
  import opened Schema
  import opened Sorting

  // ---------------------------------------------------------------------------
  // The query: the user's categories by (sortOrder, name)
  // ---------------------------------------------------------------------------

  /** Text order, character by character; a prefix comes first. */
  predicate TextLe(a: string, b: string) {
    a == [] || (b != [] && (a[0] < b[0] || (a[0] == b[0] && TextLe(a[1..], b[1..]))))
  }

  lemma {:induction false} TextLeTotal(a: string, b: string)
    ensures TextLe(a, b) || TextLe(b, a)
  {
    if a != [] && b != [] && a[0] == b[0] {
      TextLeTotal(a[1..], b[1..]);
    }
  }

  lemma {:induction false} TextLeTransitive(a: string, b: string, c: string)
    requires TextLe(a, b) && TextLe(b, c)
    ensures TextLe(a, c)
  {
    if a != [] && a[0] == b[0] && b[0] == c[0] {
      TextLeTransitive(a[1..], b[1..], c[1..]);
    }
  }

  /** `ORDER BY sort_order ASC`: a null sort order comes after every number. */
  predicate SortOrderLt(x: Option<int>, y: Option<int>) {
    x.Some? && (y.None? || x.value < y.value)
  }

  /** `ORDER BY sort_order ASC, name ASC`. */
  predicate ListedBefore(a: Category, b: Category) {
    SortOrderLt(a.sortOrder, b.sortOrder) || (a.sortOrder == b.sortOrder && TextLe(a.name, b.name))
  }

  function ByPosition(): (Category, Category) -> bool {
    (a: Category, b: Category) => ListedBefore(a, b)
  }

  lemma ByPositionIsTotalPreorder()
    ensures TotalPreorder(ByPosition())
  {
    forall a: Category, b: Category ensures ListedBefore(a, b) || ListedBefore(b, a) {
      TextLeTotal(a.name, b.name);
    }
    forall a: Category, b: Category, c: Category | ListedBefore(a, b) && ListedBefore(b, c)
      ensures ListedBefore(a, c)
    {
      if a.sortOrder == b.sortOrder && b.sortOrder == c.sortOrder {
        TextLeTransitive(a.name, b.name, c.name);
      }
    }
  }

  /** `WHERE user_id = userId`, in table order. */
  function OwnedBy(cats: seq<Category>, userId: UserId): (r: seq<Category>)
    ensures forall c :: c in r ==> c in cats && c.userId == userId
    ensures forall c :: c in cats && c.userId == userId ==> c in r
  {
    if cats == [] then []
    else
      var n := |cats| - 1;
      assert cats == cats[..n] + [cats[n]];
      OwnedBy(cats[..n], userId) + (if cats[n].userId == userId then [cats[n]] else [])
  }

  /** The listing query. Ties in (sortOrder, name) keep table order. */
  function Listed(cats: seq<Category>, userId: UserId): seq<Category> {
    Sort(OwnedBy(cats, userId), ByPosition())
  }

  /** The listing holds exactly the user's categories, each as often as in
      the table, in (sortOrder, name) order. */
  lemma ListedIsOrdered(cats: seq<Category>, userId: UserId)
    ensures multiset(Listed(cats, userId)) == multiset(OwnedBy(cats, userId))
    ensures forall c :: c in Listed(cats, userId) <==> c in cats && c.userId == userId
    ensures forall i, j :: 0 <= i < j < |Listed(cats, userId)| ==>
              ListedBefore(Listed(cats, userId)[i], Listed(cats, userId)[j])
  {
    var r := Listed(cats, userId);
    ByPositionIsTotalPreorder();
    SortSorted(OwnedBy(cats, userId), ByPosition());
    forall c ensures c in r <==> c in OwnedBy(cats, userId) {
      assert c in r <==> c in multiset(r);
    }
  }

  // ---------------------------------------------------------------------------
  // The tree
  // ---------------------------------------------------------------------------

  function Ids(cats: seq<Category>): set<Id> {
    set k | 0 <= k < |cats| :: cats[k].id
  }

  predicate IdsDistinct(cats: seq<Category>) {
    forall i, j :: 0 <= i < j < |cats| ==> cats[i].id != cats[j].id
  }

  /** The first pass: each id's node carries the fields of the last
      category with that id. */
  function NodeMap(cats: seq<Category>): (nodes: map<Id, Category>)
    ensures nodes.Keys == Ids(cats)
  {
    if cats == [] then map[]
    else
      var n := |cats| - 1;
      assert Ids(cats) == Ids(cats[..n]) + {cats[n].id};
      NodeMap(cats[..n])[cats[n].id := cats[n]]
  }

  /** Every node is a listed category under its own id. */
  lemma {:induction false} NodeMapIsListed(cats: seq<Category>)
    ensures forall x :: x in NodeMap(cats) ==> NodeMap(cats)[x] in cats && NodeMap(cats)[x].id == x
  {
    if cats != [] {
      var n := |cats| - 1;
      NodeMapIsListed(cats[..n]);
      assert forall c :: c in cats[..n] ==> c in cats;
    }
  }

  /** The ids of the categories whose parent is `parent`, in input order. */
  function IdsWhere(cats: seq<Category>, parent: Option<Id>): (r: seq<Id>)
    ensures |r| <= |cats|
  {
    if cats == [] then []
    else
      var n := |cats| - 1;
      IdsWhere(cats[..n], parent) + (if cats[n].parentId == parent then [cats[n].id] else [])
  }

  /** An id is listed under `parent` exactly when some category with that
      id has that parent. */
  lemma {:induction false} IdsWhereMembers(cats: seq<Category>, parent: Option<Id>)
    ensures forall x :: x in IdsWhere(cats, parent) <==>
              exists k :: 0 <= k < |cats| && cats[k].id == x && cats[k].parentId == parent
  {
    if cats != [] {
      var n := |cats| - 1;
      IdsWhereMembers(cats[..n], parent);
      forall x ensures x in IdsWhere(cats, parent) <==>
                       exists k :: 0 <= k < |cats| && cats[k].id == x && cats[k].parentId == parent
      {
        if x in IdsWhere(cats[..n], parent) {
          var k :| 0 <= k < n && cats[..n][k].id == x && cats[..n][k].parentId == parent;
          assert cats[k].id == x && cats[k].parentId == parent;
        }
        if exists k :: 0 <= k < |cats| && cats[k].id == x && cats[k].parentId == parent {
          var k :| 0 <= k < |cats| && cats[k].id == x && cats[k].parentId == parent;
          if k < n {
            assert cats[..n][k] == cats[k];
          }
        }
      }
    }
  }

  predicate NoRepeats(ids: seq<Id>) {
    forall i, j :: 0 <= i < j < |ids| ==> ids[i] != ids[j]
  }

  /** With distinct ids, no id is listed twice under the same parent. */
  lemma {:induction false} IdsWhereNoRepeats(cats: seq<Category>, parent: Option<Id>)
    requires IdsDistinct(cats)
    ensures NoRepeats(IdsWhere(cats, parent))
  {
    if cats != [] {
      var n := |cats| - 1;
      IdsWhereNoRepeats(cats[..n], parent);
      IdsWhereMembers(cats[..n], parent);
      var prev := IdsWhere(cats[..n], parent);
      assert forall k :: 0 <= k < n ==> cats[..n][k].id != cats[n].id;
      assert cats[n].id !in prev;
      var r := IdsWhere(cats, parent);
      assert r == prev + (if cats[n].parentId == parent then [cats[n].id] else []);
      forall i, j | 0 <= i < j < |r| ensures r[i] != r[j] {
        if j == |prev| {
          assert r[i] == prev[i] && prev[i] in prev && r[j] == cats[n].id;
        } else {
          assert r[i] == prev[i] && r[j] == prev[j];
          assert prev[i] != prev[j];
        }
      }
    }
  }

  /** The children lists of the second pass: one per node, possibly empty. */
  function ChildMap(cats: seq<Category>): map<Id, seq<Id>> {
    ChildrenIn(Ids(cats), cats)
  }

  /** The second pass's state. */
  datatype Placement = Placement(roots: seq<Id>, children: map<Id, seq<Id>>)

  /** One step of the second pass: a category with no parent becomes a
      root; one whose parent has a node goes to that node's children; any
      other is dropped. */
  function Place(pl: Placement, cat: Category): Placement {
    if cat.parentId.None? then pl.(roots := pl.roots + [cat.id])
    else if cat.parentId.value in pl.children then
      pl.(children := pl.children[cat.parentId.value := pl.children[cat.parentId.value] + [cat.id]])
    else pl
  }

  function PlaceAll(keys: set<Id>, cats: seq<Category>): Placement {
    if cats == [] then Placement([], map p | p in keys :: [])
    else
      var n := |cats| - 1;
      Place(PlaceAll(keys, cats[..n]), cats[n])
  }

  /** The second pass files every category under its parent in input
      order: the roots are the parentless ids, and each node's children are
      the ids whose parent it is. */
  lemma {:induction false} PlaceAllFilters(keys: set<Id>, cats: seq<Category>)
    ensures PlaceAll(keys, cats) == Placement(IdsWhere(cats, None), ChildrenIn(keys, cats))
  {
    if cats != [] {
      var n := |cats| - 1;
      PlaceAllFilters(keys, cats[..n]);
      PlaceChildren(keys, cats, IdsWhere(cats[..n], None));
    } else {
      assert forall p :: p in keys ==> ChildrenIn(keys, cats)[p] == [];
    }
  }

  /** The children lists, for the nodes `keys`. */
  function ChildrenIn(keys: set<Id>, cats: seq<Category>): map<Id, seq<Id>> {
    map p | p in keys :: IdsWhere(cats, Some(p))
  }

  /** Placing the last category extends its parent's list, if the parent
      is a node, and no other. */
  lemma PlaceChildren(keys: set<Id>, cats: seq<Category>, roots: seq<Id>)
    requires cats != []
    ensures Place(Placement(roots, ChildrenIn(keys, cats[..|cats| - 1])), cats[|cats| - 1]).children ==
            ChildrenIn(keys, cats)
  {
    var n := |cats| - 1;
    var before := ChildrenIn(keys, cats[..n]);
    var after := ChildrenIn(keys, cats);
    assert forall p :: p in keys ==>
      after[p] == before[p] + (if cats[n].parentId == Some(p) then [cats[n].id] else []);
    if cats[n].parentId.Some? && cats[n].parentId.value in keys {
      var q := cats[n].parentId.value;
      var placed := before[q := before[q] + [cats[n].id]];
      assert placed.Keys == after.Keys;
      assert forall p :: p in keys ==> placed[p] == after[p];
    } else {
      assert before.Keys == after.Keys;
      assert forall p :: p in keys ==> before[p] == after[p];
    }
  }

  /** A category whose parent is not listed appears nowhere in the tree. */
  lemma OrphansAreDropped(cats: seq<Category>, k: nat)
    requires IdsDistinct(cats)
    requires k < |cats| && cats[k].parentId.Some? && cats[k].parentId.value !in Ids(cats)
    ensures cats[k].id !in IdsWhere(cats, None)
    ensures forall p :: p in ChildMap(cats) ==> cats[k].id !in ChildMap(cats)[p]
  {
    IdsWhereMembers(cats, None);
    forall p | p in ChildMap(cats) ensures cats[k].id !in ChildMap(cats)[p] {
      IdsWhereMembers(cats, Some(p));
    }
  }

  /** Every category is placed at most once: it sits under its own parent
      only, and at most once there. */
  lemma PlacedAtMostOnce(cats: seq<Category>, k: nat, parent: Option<Id>)
    requires IdsDistinct(cats)
    requires k < |cats| && cats[k].id in IdsWhere(cats, parent)
    ensures parent == cats[k].parentId
    ensures NoRepeats(IdsWhere(cats, parent))
  {
    IdsWhereMembers(cats, parent);
    IdsWhereNoRepeats(cats, parent);
  }

  /** A category whose parent is listed sits in that parent's children. */
  lemma ChildIsPlaced(cats: seq<Category>, k: nat)
    requires k < |cats| && cats[k].parentId.Some? && cats[k].parentId.value in Ids(cats)
    ensures cats[k].id in ChildMap(cats)[cats[k].parentId.value]
  {
    IdsWhereMembers(cats, cats[k].parentId);
  }

  /** The first pass: a node per category, and an empty children list
      per node. */
  method MakeNodes(cats: seq<Category>) returns (nodes: map<Id, Category>, empty: map<Id, seq<Id>>)
    ensures nodes == NodeMap(cats)
    ensures empty == map p | p in Ids(cats) :: []
  {
    nodes := map[];
    empty := map[];
    var i := 0;
    while i < |cats|
      invariant 0 <= i <= |cats|
      invariant nodes == NodeMap(cats[..i])
      invariant empty == map p | p in Ids(cats[..i]) :: []
    {
      assert cats[..i + 1][..i] == cats[..i];
      assert Ids(cats[..i + 1]) == Ids(cats[..i]) + {cats[i].id};
      nodes := nodes[cats[i].id := cats[i]];
      empty := empty[cats[i].id := []];
      i := i + 1;
    }
    assert cats[..|cats|] == cats;
  }

  /** The second pass, over the children lists the first pass made. */
  method PlaceNodes(cats: seq<Category>, empty: map<Id, seq<Id>>) returns (roots: seq<Id>, children: map<Id, seq<Id>>)
    requires empty == map p | p in Ids(cats) :: []
    ensures roots == IdsWhere(cats, None)
    ensures children == ChildMap(cats)
  {
    roots := [];
    children := empty;
    var i := 0;
    while i < |cats|
      invariant 0 <= i <= |cats|
      invariant Placement(roots, children) == PlaceAll(Ids(cats), cats[..i])
    {
      assert cats[..i + 1][..i] == cats[..i];
      var cat := cats[i];
      if cat.parentId.None? {
        roots := roots + [cat.id];
      } else if cat.parentId.value in children {
        var p := cat.parentId.value;
        children := children[p := children[p] + [cat.id]];
      }
      i := i + 1;
    }
    assert cats[..|cats|] == cats;
    PlaceAllFilters(Ids(cats), cats);
  }

  /** The two passes of the handler. */
  method BuildTree(cats: seq<Category>) returns (nodes: map<Id, Category>, roots: seq<Id>, children: map<Id, seq<Id>>)
    ensures nodes == NodeMap(cats)
    ensures roots == IdsWhere(cats, None)
    ensures children == ChildMap(cats)
  {
    var empty;
    nodes, empty := MakeNodes(cats);
    roots, children := PlaceNodes(cats, empty);
  }

  datatype Listing = Listing(categories: seq<Category>, nodes: map<Id, Category>, roots: seq<Id>,
                             children: map<Id, seq<Id>>)

  /** `GET /api/categories`: the flat listing, unchanged, next to the tree
      built from it. */
  method ListCategories(db: Db, userId: UserId) returns (r: Listing)
    ensures r.categories == Listed(db.categories, userId)
    ensures r.nodes == NodeMap(r.categories)
    ensures r.roots == IdsWhere(r.categories, None)
    ensures r.children == ChildMap(r.categories)
  {
    var cats := Listed(db.categories, userId);
    var nodes, roots, children := BuildTree(cats);
    r := Listing(cats, nodes, roots, children);
  }
}
