/** The Inventory page: item search and category filter, the category
    buttons, the stock-status badge, the summary counts, and the warehouse
    robot's motion. */
module Inventory {
  import opened Wrappers
  import opened Trig
  import opened Text
  import opened Seqs

  datatype Item = Item(
    id: int,
    name: string,
    category: string,
    stock: int,
    critical: bool,
    reorder: int)

  /** `inventoryItems`. */
  const Items: seq<Item> := [
    Item(1, "Carbon Fiber Sheets", "Materials", 124, false, 50),
    Item(2, "Aircraft Grade Aluminum", "Materials", 78, false, 40),
    Item(3, "Hydraulic Actuators", "Components", 32, false, 20),
    Item(4, "Engine Control Units", "Electronics", 15, true, 20),
    Item(5, "Drone Camera Assemblies", "Electronics", 43, false, 25),
    Item(6, "Aircraft Bolts (Titanium)", "Fasteners", 542, false, 200),
    Item(7, "Jet Fuel Injectors", "Engine Parts", 18, true, 30),
    Item(8, "Circuit Board Assemblies", "Electronics", 64, false, 30),
    Item(9, "Sensor Arrays", "Electronics", 28, false, 15),
    Item(10, "Flight Control Software", "Digital", 5, true, 10)
  ]

  /** `selectedCategory ? item.category === selectedCategory : true`; the
      empty string is falsy, so it selects nothing, like null. */
  predicate CategoryMatches(item: Item, selected: Option<string>) {
    if selected.Some? && selected.value != "" then item.category == selected.value else true
  }

  predicate ItemKept(item: Item, query: string, selected: Option<string>) {
    Contains(Lower(item.name), Lower(query)) && CategoryMatches(item, selected)
  }

  /** `filteredItems`: an item is kept iff its name contains the query,
      ignoring case, and its category is the selected one (if any); order is
      preserved. */
  function FilterItems(items: seq<Item>, query: string, selected: Option<string>): (r: seq<Item>)
    ensures forall it :: it in r <==> it in items && ItemKept(it, query, selected)
    ensures Subseq(r, items)
    ensures forall it :: multiset(r)[it] == if ItemKept(it, query, selected) then multiset(items)[it] else 0
  {
    FilterIsSubseq(items, it => ItemKept(it, query, selected));
    FilterMultiplicity(items, it => ItemKept(it, query, selected));
    Filter(items, it => ItemKept(it, query, selected))
  }

  /** The search looks at the name only: changing an item's category does
      not change whether it matches when no category is selected. */
  lemma SearchIgnoresCategory(item: Item, query: string, category: string)
    ensures ItemKept(item.(category := category), query, None) == ItemKept(item, query, None)
  {
  }

  /** With no category and an empty query all ten items are listed, in
      their original order. */
  lemma UnfilteredInventory()
    ensures |Items| == 10
    ensures FilterItems(Items, "", None) == Items
  {
    assert Lower("") == "";
    forall it | it in Items
      ensures ItemKept(it, "", None)
    {
      ContainsEmpty(Lower(it.name));
    }
    FilterKeepsAll(Items, it => ItemKept(it, "", None));
  }

  function CategoryList(items: seq<Item>): (r: seq<string>)
    ensures |r| == |items|
    ensures forall k :: 0 <= k < |items| ==> r[k] == items[k].category
  {
    seq(|items|, k requires 0 <= k < |items| => items[k].category)
  }

  /** `Array.from(new Set(inventoryItems.map(item => item.category)))`: no
      repeats, exactly the categories that occur, and in the order of their
      first occurrence. */
  function Categories(items: seq<Item>): (r: seq<string>)
    ensures NoDuplicates(r)
    ensures forall c :: c in r <==> c in CategoryList(items)
    ensures forall c :: c in r <==> exists k :: 0 <= k < |items| && items[k].category == c
    ensures forall i, j :: 0 <= i < j < |r| ==>
      FirstIndex(CategoryList(items), r[i]) < FirstIndex(CategoryList(items), r[j])
  {
    var cats := CategoryList(items);
    UniqueFirstOccurrenceOrder(cats);
    assert forall c :: c in cats <==> exists k :: 0 <= k < |items| && items[k].category == c;
    Unique(cats)
  }

  /** The category of each item, in page order. */
  const ItemCategories: seq<string> :=
    ["Materials", "Materials", "Components", "Electronics", "Electronics",
     "Fasteners", "Engine Parts", "Electronics", "Electronics", "Digital"]

  /** The distinct categories among the first `k` items. */
  function DistinctAmongFirst(k: nat): seq<string> {
    var all := ["Materials", "Components", "Electronics", "Fasteners", "Engine Parts", "Digital"];
    if k == 0 then []
    else if k <= 2 then all[..1]
    else if k == 3 then all[..2]
    else if k <= 5 then all[..3]
    else if k == 6 then all[..4]
    else if k <= 9 then all[..5]
    else all
  }

  lemma {:induction false} UniqueOfFirst(k: nat)
    requires k <= |ItemCategories|
    ensures Unique(ItemCategories[..k]) == DistinctAmongFirst(k)
  {
    if k == 0 {
      assert ItemCategories[..0] == [];
    } else {
      UniqueOfFirst(k - 1);
      UniqueStep(ItemCategories, k);
      CategoryStep(k);
    }
  }

  /** The `k`-th item's category either repeats an earlier one or is the
      next new one. */
  lemma CategoryStep(k: nat)
    requires 1 <= k <= |ItemCategories|
    ensures Insert(DistinctAmongFirst(k - 1), ItemCategories[k - 1]) == DistinctAmongFirst(k)
  {
    var prev, x := DistinctAmongFirst(k - 1), ItemCategories[k - 1];
    if k == 2 {
      assert x == prev[0];
    } else if k == 5 || k == 8 || k == 9 {
      assert x == prev[2];
    } else {
      assert x !in prev by {
        forall c | c in prev
          ensures c != x
        {
          assert |c| != |x| || c[0] != x[0];
        }
      }
    }
  }

  /** The six category buttons, in the order of their first appearance. */
  lemma InventoryCategories()
    ensures Categories(Items) ==
      ["Materials", "Components", "Electronics", "Fasteners", "Engine Parts", "Digital"]
  {
    assert CategoryList(Items) == ItemCategories;
    UniqueOfFirst(10);
    assert ItemCategories[..10] == ItemCategories;
  }

  /** The badge text: the first comparison is `stock < reorder`, the
      second `stock < reorder * 1.5` in floating point. */
  function BadgeText(item: Item): string {
    if item.stock < item.reorder then "Low Stock"
    else if (item.stock as real) < (item.reorder as real) * 1.5 then "Moderate"
    else "Optimal"
  }

  /** The badge colour class, written in the source as a separate chain
      with the same comparisons. */
  function BadgeClass(item: Item): string {
    if item.stock < item.reorder then "bg-red-500/20 text-red-400"
    else if (item.stock as real) < (item.reorder as real) * 1.5 then "bg-yellow-500/20 text-yellow-400"
    else "bg-green-500/20 text-green-400"
  }

  /** The three statuses, stated over the integers: Low Stock iff
      `stock < reorder`, Moderate iff `reorder <= stock` and
      `2*stock < 3*reorder`, Optimal otherwise; exactly one holds. */
  lemma BadgeTextClassification(item: Item)
    ensures BadgeText(item) == "Low Stock" <==> item.stock < item.reorder
    ensures BadgeText(item) == "Moderate" <==>
      item.reorder <= item.stock && 2 * item.stock < 3 * item.reorder
    ensures BadgeText(item) == "Optimal" <==>
      item.reorder <= item.stock && 3 * item.reorder <= 2 * item.stock
  {
    var s, o := item.stock as real, item.reorder as real;
    assert (s < o * 1.5) <==> (2 * item.stock < 3 * item.reorder);
  }

  /** The colour class and the text always come from the same branch. */
  lemma BadgeClassMatchesText(item: Item)
    ensures BadgeText(item) == "Low Stock" <==> BadgeClass(item) == "bg-red-500/20 text-red-400"
    ensures BadgeText(item) == "Moderate" <==> BadgeClass(item) == "bg-yellow-500/20 text-yellow-400"
    ensures BadgeText(item) == "Optimal" <==> BadgeClass(item) == "bg-green-500/20 text-green-400"
  {
  }

  predicate IsCritical(it: Item) {
    it.critical
  }

  /** The "Critical Stock" card: how many items are flagged critical. */
  function CriticalCount(items: seq<Item>): (n: nat)
    ensures n <= |items|
    ensures n == 0 <==> forall it :: it in items ==> !it.critical
    ensures forall marks :: CriticalExactlyAt(items, marks) ==> n == MarksFrom(marks, 0, |items|)
  {
    var flagged := Filter(items, IsCritical);
    assert flagged != [] ==> flagged[0] in flagged;
    assert forall marks :: CriticalExactlyAt(items, marks) ==> |flagged| == MarksFrom(marks, 0, |items|) by {
      forall marks | CriticalExactlyAt(items, marks)
        ensures |flagged| == MarksFrom(marks, 0, |items|)
      {
        CriticalFrom(items, marks, 0);
        assert items[0..] == items;
      }
    }
    |flagged|
  }

  /** Which positions of a list hold critical items. */
  ghost predicate CriticalExactlyAt(items: seq<Item>, marks: set<nat>) {
    forall k :: 0 <= k < |items| ==> (IsCritical(items[k]) <==> k in marks)
  }

  /** How many of the positions `k .. n - 1` are in `marks`. */
  function MarksFrom(marks: set<nat>, k: nat, n: nat): nat
    decreases n - k
  {
    if k >= n then 0 else (if k in marks then 1 else 0) + MarksFrom(marks, k + 1, n)
  }

  /** From position `k` on, a list has as many critical items as marked
      positions. */
  lemma {:induction false} CriticalFrom(items: seq<Item>, marks: set<nat>, k: nat)
    requires CriticalExactlyAt(items, marks)
    requires k <= |items|
    ensures |Filter(items[k..], IsCritical)| == MarksFrom(marks, k, |items|)
    decreases |items| - k
  {
    if k < |items| {
      CriticalFrom(items, marks, k + 1);
      FilterCountStep(items, IsCritical, k);
    } else {
      assert items[k..] == [];
    }
  }

  /** The listed items are critical at positions 3, 6 and 9 only. */
  lemma CriticalFlags()
    ensures CriticalExactlyAt(Items, {3, 6, 9})
  {
  }

  /** Counting the critical items is counting the marked positions. */
  lemma CountByMarks(items: seq<Item>, marks: set<nat>)
    requires CriticalExactlyAt(items, marks)
    ensures CriticalCount(items) == MarksFrom(marks, 0, |items|)
  {
  }

  /** The summary cards read 10 total items and 3 critical ones. */
  lemma InventoryCounts()
    ensures |Items| == 10
    ensures CriticalCount(Items) == 3
  {
    CriticalFlags();
    CountByMarks(Items, {3, 6, 9});
    assert MarksFrom({3, 6, 9}, 0, 10) == 3;
  }

  datatype RobotPose = RobotPose(x: real, y: real)

  /** The shelf robot at elapsed time `t`: x follows `sin(t*0.5)*4`; the arm
      rises and falls with `sin(t*2)` only while `sin(t*0.2) > 0.8`. The
      facing angle (an `atan2`) is not modelled. */
  function RobotAt(sin: Sine, t: real): (p: RobotPose)
    ensures -4.0 <= p.x <= 4.0
    ensures sin(t * 0.2) <= 0.8 ==> p.y == 0.5
    ensures sin(t * 0.2) > 0.8 ==> 0.2 <= p.y <= 0.8
  {
    RobotPose(sin(t * 0.5) * 4.0,
              if sin(t * 0.2) > 0.8 then 0.5 + sin(t * 2.0) * 0.3 else 0.5)
  }
}
