/** What every run of edits keeps of a category tree. */
module CategoryTreeProofs {
  import opened Wrappers
  import opened CategoryTree

  // ------------------------------------------------------------------ plan items

  function Weight(x: Item, plan: nat, member: Option<nat>, categories: set<nat>): int {
    if x.plan == plan && x.member == member && x.category in categories then x.amount else 0
  }

  lemma {:induction false} WithoutMeans(items: seq<Item>, id: nat)
    ensures forall y :: y in Without(items, id) <==> y in items && y.id != id
    ensures UniqueIds(items) ==> UniqueIds(Without(items, id))
  {
    if items != [] {
      var front := items[..|items| - 1];
      WithoutMeans(front, id);
      assert items == front + [items[|items| - 1]];
      var rest := Without(front, id);
      assert forall k :: 0 <= k < |rest| ==> rest[k] in front;
    }
  }

  lemma FrontUnique(items: seq<Item>)
    requires UniqueIds(items) && items != []
    ensures UniqueIds(items[..|items| - 1])
    ensures forall y :: y in items[..|items| - 1] ==> y.id != items[|items| - 1].id
    ensures items == items[..|items| - 1] + [items[|items| - 1]]
  {
  }

  lemma TotalSnoc(items: seq<Item>, last: Item, plan: nat, member: Option<nat>, categories: set<nat>)
    ensures Total(items + [last], plan, member, categories) == Total(items, plan, member, categories) + Weight(last, plan, member, categories)
  {
    assert (items + [last])[..|items|] == items;
  }

  lemma {:induction false} WithoutNone(items: seq<Item>, id: nat)
    requires forall y :: y in items ==> y.id != id
    ensures Without(items, id) == items
  {
    if items != [] { WithoutNone(items[..|items| - 1], id); }
  }

  lemma {:induction false} WithoutTotal(items: seq<Item>, x: Item, plan: nat, member: Option<nat>, categories: set<nat>)
    requires UniqueIds(items) && x in items
    ensures Total(Without(items, x.id), plan, member, categories) == Total(items, plan, member, categories) - Weight(x, plan, member, categories)
  {
    hide UniqueIds, Weight, Total;
    var front, last := items[..|items| - 1], items[|items| - 1];
    FrontUnique(items);
    TotalSnoc(front, last, plan, member, categories);
    if last == x {
      WithoutNone(front, x.id);
    } else {
      WithoutTotal(front, x, plan, member, categories);
      TotalSnoc(Without(front, x.id), last, plan, member, categories);
    }
  }

  function Changed(x: Item, category: nat, amount: int): Item {
    x.(category := category, amount := amount)
  }

  lemma {:induction false} RewrittenMeans(items: seq<Item>, x: Item, category: nat, amount: int)
    requires UniqueIds(items) && x in items
    ensures forall y :: y in Rewritten(items, x.id, category, amount) <==>
              (y in items && y.id != x.id) || y == Changed(x, category, amount)
    ensures UniqueIds(Rewritten(items, x.id, category, amount))
  {
    RewrittenAt(items, x.id, category, amount);
    var after := Rewritten(items, x.id, category, amount);
    var k :| 0 <= k < |items| && items[k] == x;
    assert after[k] == Changed(x, category, amount);
    forall y | y in items && y.id != x.id
      ensures y in after
    {
      var j :| 0 <= j < |items| && items[j] == y;
      assert after[j] == y;
    }
  }

  lemma {:induction false} RewrittenAt(items: seq<Item>, id: nat, category: nat, amount: int)
    ensures |Rewritten(items, id, category, amount)| == |items|
    ensures forall k :: 0 <= k < |items| ==>
              Rewritten(items, id, category, amount)[k] == if items[k].id == id then Changed(items[k], category, amount) else items[k]
  {
    if items != [] { RewrittenAt(items[..|items| - 1], id, category, amount); }
  }

  lemma {:induction false} RewrittenNone(items: seq<Item>, id: nat, category: nat, amount: int)
    requires forall y :: y in items ==> y.id != id
    ensures Rewritten(items, id, category, amount) == items
  {
    if items != [] { RewrittenNone(items[..|items| - 1], id, category, amount); }
  }

  lemma {:induction false} RewrittenTotal(items: seq<Item>, x: Item, category: nat, amount: int, plan: nat,
        member: Option<nat>, categories: set<nat>)
    requires UniqueIds(items) && x in items
    ensures Total(Rewritten(items, x.id, category, amount), plan, member, categories)
            == Total(items, plan, member, categories) - Weight(x, plan, member, categories)
               + Weight(Changed(x, category, amount), plan, member, categories)
  {
    hide UniqueIds, Weight, Total;
    var front, last := items[..|items| - 1], items[|items| - 1];
    FrontUnique(items);
    TotalSnoc(front, last, plan, member, categories);
    if last == x {
      RewrittenNone(front, x.id, category, amount);
      TotalSnoc(front, Changed(x, category, amount), plan, member, categories);
    } else {
      RewrittenTotal(front, x, category, amount, plan, member, categories);
      TotalSnoc(Rewritten(front, x.id, category, amount), last, plan, member, categories);
    }
  }

  /** One plan item gone, and any number of others put on the destination: the others stay, the total is as before. */
  ghost predicate Moves(items: seq<Item>, after: seq<Item>, x: Item, to: Option<nat>, plan: nat, member: Option<nat>,
        categories: set<nat>) {
    && UniqueIds(after)
    && Total(after, plan, member, categories) == Total(items, plan, member, categories)
    && (forall y :: y in after && Some(y.category) != to ==> y in items && y.id != x.id)
    && (forall y :: y in items && y.id != x.id && Some(y.category) != to ==> y in after)
  }

  lemma ItemDropped(items: seq<Item>, x: Item, plan: nat, member: Option<nat>, categories: set<nat>)
    requires UniqueIds(items) && x in items && x.category !in categories
    ensures Moves(items, Without(items, x.id), x, None, plan, member, categories)
  {
    hide Total, Without, UniqueIds;
    WithoutMeans(items, x.id);
    WithoutTotal(items, x, plan, member, categories);
  }

  lemma ItemRelabelled(items: seq<Item>, x: Item, to: nat, plan: nat, member: Option<nat>, categories: set<nat>)
    requires UniqueIds(items) && x in items && x.category != to && (x.category in categories <==> to in categories)
    ensures Moves(items, Rewritten(items, x.id, to, x.amount), x, Some(to), plan, member, categories)
  {
    hide Total, Rewritten, UniqueIds;
    RewrittenMeans(items, x, to, x.amount);
    RewrittenTotal(items, x, to, x.amount, plan, member, categories);
  }

  lemma ItemMerged(items: seq<Item>, x: Item, target: Item, plan: nat, member: Option<nat>, categories: set<nat>)
    requires UniqueIds(items) && x in items && target in items && x.category != target.category
    requires Matches(target, x.plan, target.category, x.member) && (x.category in categories <==> target.category in categories)
    ensures Moves(items, Without(Rewritten(items, target.id, target.category, target.amount + x.amount), x.id), x, Some(target.category),
                  plan, member, categories)
  {
    MergedMembers(items, x, target);
    MergedTotal(items, x, target, plan, member, categories);
    hide Total, Rewritten, Without, UniqueIds;
  }

  lemma MergedMembers(items: seq<Item>, x: Item, target: Item)
    requires UniqueIds(items) && x in items && target in items && x.category != target.category
    ensures var merged := Rewritten(items, target.id, target.category, target.amount + x.amount);
            && UniqueIds(merged) && UniqueIds(Without(merged, x.id)) && x in merged
            && (forall y :: y in Without(merged, x.id) <==>
                  y.id != x.id && ((y in items && y.id != target.id) || y == Changed(target, target.category, target.amount + x.amount)))
  {
    var merged := Rewritten(items, target.id, target.category, target.amount + x.amount);
    SameId(items, x, target);
    hide Rewritten, Without, UniqueIds;
    RewrittenMeans(items, target, target.category, target.amount + x.amount);
    WithoutMeans(merged, x.id);
  }

  lemma MergedWeight(x: Item, target: Item, plan: nat, member: Option<nat>, categories: set<nat>)
    requires Matches(target, x.plan, target.category, x.member) && (x.category in categories <==> target.category in categories)
    ensures Weight(Changed(target, target.category, target.amount + x.amount), plan, member, categories)
            == Weight(target, plan, member, categories) + Weight(x, plan, member, categories)
  {
  }

  lemma MergedTotal(items: seq<Item>, x: Item, target: Item, plan: nat, member: Option<nat>, categories: set<nat>)
    requires UniqueIds(items) && x in items && target in items && x.category != target.category
    requires Matches(target, x.plan, target.category, x.member) && (x.category in categories <==> target.category in categories)
    ensures Total(Without(Rewritten(items, target.id, target.category, target.amount + x.amount), x.id), plan, member, categories)
            == Total(items, plan, member, categories)
  {
    var merged := Rewritten(items, target.id, target.category, target.amount + x.amount);
    MergedWeight(x, target, plan, member, categories);
    assert UniqueIds(merged) && x in merged by { MergedMembers(items, x, target); }
    hide Total, Rewritten, Without, UniqueIds, Weight, Matches, Changed;
    RewrittenTotal(items, target, target.category, target.amount + x.amount, plan, member, categories);
    WithoutTotal(merged, x, plan, member, categories);
  }

  /** One plan item on its way: what it leaves, and what it does to any total that counts both ends or neither. */
  lemma MoveItemMeans(items: seq<Item>, x: Item, to: Option<nat>, plan: nat, member: Option<nat>, categories: set<nat>)
    requires UniqueIds(items) && x in items && Some(x.category) != to
    requires if to.Some? then (x.category in categories <==> to.value in categories) else x.category !in categories
    ensures Moves(items, MoveItem(items, x, to), x, to, plan, member, categories)
  {
    hide Moves, FirstMatch, Rewritten, Without, UniqueIds;
    if to.None? {
      ItemDropped(items, x, plan, member, categories);
    } else {
      var target := FirstMatch(items, x.plan, to.value, x.member);
      if target.Some? {
        ItemMerged(items, x, target.value, plan, member, categories);
      } else {
        ItemRelabelled(items, x, to.value, plan, member, categories);
      }
    }
  }

  lemma SameId(items: seq<Item>, x: Item, y: Item)
    requires UniqueIds(items) && x in items && y in items && x != y
    ensures x.id != y.id
  {
    var i :| 0 <= i < |items| && items[i] == x;
    var j :| 0 <= j < |items| && items[j] == y;
  }

  lemma {:induction false} ItemsOfMeans(items: seq<Item>, category: nat)
    ensures forall x :: x in ItemsOf(items, category) <==> x in items && x.category == category
    ensures UniqueIds(items) ==> UniqueIds(ItemsOf(items, category))
  {
    if items != [] {
      var front := items[..|items| - 1];
      ItemsOfMeans(front, category);
      assert items == front + [items[|items| - 1]];
      var rest := ItemsOf(front, category);
      assert forall k :: 0 <= k < |rest| ==> rest[k] in front;
    }
  }

  lemma {:induction false} MoveItemsMean(
      items: seq<Item>, moving: seq<Item>, from: nat, to: Option<nat>, plan: nat, member: Option<nat>, categories: set<nat>)
    requires UniqueIds(items) && UniqueIds(moving) && Some(from) != to
    requires forall x :: x in moving ==> x in items && x.category == from
    requires if to.Some? then (from in categories <==> to.value in categories) else from !in categories
    ensures var after := MoveItems(items, moving, to);
            && UniqueIds(after)
            && Total(after, plan, member, categories) == Total(items, plan, member, categories)
            && (forall y :: y in after && Some(y.category) != to ==> y in items && y !in moving)
            && (forall y :: y in items && y !in moving && Some(y.category) != to ==> y in after)
  {
    if moving != [] {
      var front, x := moving[..|moving| - 1], moving[|moving| - 1];
      assert moving == front + [x];
      MoveItemsMean(items, front, from, to, plan, member, categories);
      var before := MoveItems(items, front, to);
      assert x !in front;
      assert x in before;
      MoveItemMeans(before, x, to, plan, member, categories);
      forall y | y in items && y != x
        ensures y.id != x.id
      {
        SameId(items, x, y);
      }
    }
  }

  /**
   Moving a category's plan items elsewhere conserves, in every plan and for every member, each total over a set of
   categories that has both ends or neither; none stay behind.
   */
  lemma MovingConserves(items: seq<Item>, from: nat, to: nat, plan: nat, member: Option<nat>, categories: set<nat>)
    requires UniqueIds(items) && from != to && (from in categories <==> to in categories)
    ensures Total(MoveReferences(items, from, Some(to)), plan, member, categories) == Total(items, plan, member, categories)
  {
    ItemsOfMeans(items, from);
    MoveItemsMean(items, ItemsOf(items, from), from, Some(to), plan, member, categories);
  }

  /** What a plan holds for one member, over all categories. */
  function PlanTotal(items: seq<Item>, plan: nat, member: Option<nat>): int {
    if items == [] then 0
    else
      var last := items[|items| - 1];
      PlanTotal(items[..|items| - 1], plan, member) + if last.plan == plan && last.member == member then last.amount else 0
  }

  lemma {:induction false} TotalOfAll(items: seq<Item>, plan: nat, member: Option<nat>, categories: set<nat>)
    requires forall x :: x in items ==> x.category in categories
    ensures Total(items, plan, member, categories) == PlanTotal(items, plan, member)
  {
    if items != [] { TotalOfAll(items[..|items| - 1], plan, member, categories); }
  }

  lemma MovingConservesPlan(items: seq<Item>, from: nat, to: nat, plan: nat, member: Option<nat>)
    requires UniqueIds(items) && from != to
    ensures PlanTotal(MoveReferences(items, from, Some(to)), plan, member) == PlanTotal(items, plan, member)
  {
    var categories := (set x | x in items :: x.category) + {from, to};
    NoneStayBehind(items, from, Some(to));
    MovingConserves(items, from, to, plan, member, categories);
    TotalOfAll(items, plan, member, categories);
    TotalOfAll(MoveReferences(items, from, Some(to)), plan, member, categories);
  }

  /** Dropping them instead changes no total of the other categories. */
  lemma UncategorisedDrops(items: seq<Item>, from: nat, plan: nat, member: Option<nat>, categories: set<nat>)
    requires UniqueIds(items) && from !in categories
    ensures Total(MoveReferences(items, from, None), plan, member, categories) == Total(items, plan, member, categories)
  {
    ItemsOfMeans(items, from);
    MoveItemsMean(items, ItemsOf(items, from), from, None, plan, member, categories);
  }

  lemma NoneStayBehind(items: seq<Item>, from: nat, to: Option<nat>)
    requires UniqueIds(items) && Some(from) != to
    ensures UniqueIds(MoveReferences(items, from, to))
    ensures forall y :: y in MoveReferences(items, from, to) ==> y.category != from && (Some(y.category) == to || y in items)
  {
    ItemsOfMeans(items, from);
    MoveItemsMean(items, ItemsOf(items, from), from, to, 0, None, {});
  }

  // ------------------------------------------------------------------ one copy

  /** A default subcategory whose group `g` has just been replaced, and which still has to be. */
  predicate Waiting(s: State, g: Option<nat>, i: nat)
    requires i in s.rows
  {
    g.Some? && s.rows[i].shared && s.rows[i].parent == g
  }

  /** The invariant while the subcategories of `g` are being replaced. */
  ghost predicate InvBut(s: State, g: Option<nat>) {
    && IdsFit(s) && DefaultsFit(s) && ItemsLive(s) && UniqueIds(s.items)
    && ReplacedByOwn(s)
    && (forall c :: c in s.rows && ReplacedGroup(s, c) && !Waiting(s, g, c) ==> c in s.overrides)
    && (forall i :: Live(s, i) && !Waiting(s, g, i) ==> ParentFits(s, i))
    && (g.Some? ==> HasGroupCopy(s, g.value))
  }

  ghost predicate ReplacedByOwn(s: State) {
    && (forall d :: d in s.overrides ==> d in s.rows && s.rows[d].shared && Own(s, s.overrides[d]))
    && (forall d, e :: d in s.overrides && e in s.overrides && s.overrides[d] == s.overrides[e] ==> d == e)
  }

  predicate HasGroupCopy(s: State, d: nat) {
    && d in s.rows && s.rows[d].shared && s.rows[d].parent.None? && !s.rows[d].archived
    && d in s.overrides && Live(s, s.overrides[d]) && s.rows[s.overrides[d]].parent.None?
  }

  lemma InvIsInvBut(s: State)
    ensures Inv(s) <==> InvBut(s, None)
  {
  }

  /** What making one copy `k` of `d` does to the rows. */
  ghost predicate Copied(s: State, d: nat, k: nat, after: State) {
    && d in s.rows && s.rows[d].shared && !s.rows[d].archived && d !in s.overrides
    && after.rows.Keys == s.rows.Keys + {k}
    && after.overrides == s.overrides[d := k] && (forall e :: e in s.overrides ==> s.overrides[e] != k)
    && s.nextId <= after.nextId && k < after.nextId
    && Own(after, k) && !after.rows[k].archived && after.rows[k].parent == CopyPlace(s, d)
    && (k in s.rows ==> Own(s, k) && s.rows[k].parent == CopyPlace(s, d) && s.rows[k].name == s.rows[d].name)
    && after.rows[k].name == s.rows[d].name
    && after.items == MoveReferences(s.items, d, Some(k))
    && (forall i :: i in s.rows && i != k ==>
          after.rows[i] == if Own(s, i) && s.rows[i].parent == Some(d) then s.rows[i].(parent := Some(k)) else s.rows[i])
  }

  lemma CopyIsCopied(s: State, d: nat)
    requires IdsFit(s) && DefaultsFit(s) && ReplacedByOwn(s) && d !in s.overrides && CustomizeOne(s, d).Some?
    ensures var after := CustomizeOne(s, d).value;
            d in after.overrides && Copied(s, d, after.overrides[d], after)
  {
    hide MoveReferences, NamesUnique, OwnNamed;
    var place := CopyPlace(s, d);
    var own := OwnNamed(s, place, s.rows[d].name, s.nextId);
    var k := own.GetOr(s.nextId);
    assert forall e :: e in s.overrides ==> s.overrides[e] in s.overrides.Values;
    assert place != Some(d) by {
      if s.rows[d].parent.Some? && s.rows[d].parent.value in s.overrides { assert Own(s, s.overrides[s.rows[d].parent.value]); }
    }
  }

  /** Where the copy goes is a live group of the user's view, or the top. */
  lemma CopyPlaceFits(s: State, g: Option<nat>, d: nat)
    requires InvBut(s, g) && Live(s, d) && s.rows[d].shared && (g.Some? ==> s.rows[d].parent == g)
    ensures var place := CopyPlace(s, d);
            place.Some? ==> Live(s, place.value) && s.rows[place.value].parent.None? && place.value != d
  {
    if g.None? && s.rows[d].parent.Some? {
      assert ParentFits(s, d);
    }
  }

  lemma CopiedRow(s: State, d: nat, k: nat, after: State, i: nat)
    requires Copied(s, d, k, after) && i in after.rows && i != k
    ensures i in s.rows && after.rows[i].shared == s.rows[i].shared && after.rows[i].archived == s.rows[i].archived
    ensures after.rows[i].parent == if Own(s, i) && s.rows[i].parent == Some(d) then Some(k) else s.rows[i].parent
    ensures Live(after, i) <==> Live(s, i) && i != d
    ensures s.rows[i].shared ==> after.rows[i] == s.rows[i]
  {
  }

  lemma CopyKeepsLevels(s: State, g: Option<nat>, d: nat, k: nat, after: State, i: nat)
    requires InvBut(s, g) && Live(s, d) && (g.Some? ==> s.rows[d].parent == g) && Copied(s, d, k, after)
    requires Live(after, i)
    ensures var next := if s.rows[d].parent.None? then Some(d) else g;
            !Waiting(after, next, i) ==> ParentFits(after, i)
  {
    hide MoveReferences, CopyPlace, IdsFit, ItemsLive, UniqueIds, ReplacedByOwn;
    CopyPlaceFits(s, g, d);
    var next := if s.rows[d].parent.None? then Some(d) else g;
    if !Waiting(after, next, i) && after.rows[i].parent.Some? {
      var p := after.rows[i].parent.value;
      if i == k {
        ParentStays(s, d, k, after, p);
      } else {
        CopiedRow(s, d, k, after, i);
        if Own(s, i) && s.rows[i].parent == Some(d) {
          assert ParentFits(s, i);
          assert s.rows[d].parent.None?;
          CopyAtTop(s, d, k, after);
        } else if !(s.rows[i].shared && s.rows[i].parent == Some(d)) {
          assert ParentFits(s, i);
          ParentStays(s, d, k, after, p);
        }
      }
    }
  }

  /** A live group other than the default itself stays one. */
  lemma ParentStays(s: State, d: nat, k: nat, after: State, p: nat)
    requires Copied(s, d, k, after) && Live(s, p) && s.rows[p].parent.None? && p != d
    ensures Live(after, p) && after.rows[p].parent.None?
  {
  }

  lemma CopyAtTop(s: State, d: nat, k: nat, after: State)
    requires Copied(s, d, k, after) && s.rows[d].parent.None?
    ensures Live(after, k) && after.rows[k].parent.None?
  {
  }

  /** One copy: a replaced group's subcategories are left waiting, everything else fits again. */
  lemma CopyKeepsInv(s: State, g: Option<nat>, d: nat, k: nat, after: State)
    requires InvBut(s, g) && Live(s, d) && s.rows[d].shared && (g.Some? ==> s.rows[d].parent == g)
    requires Copied(s, d, k, after)
    ensures InvBut(after, if s.rows[d].parent.None? then Some(d) else g)
  {
    hide MoveReferences, UniqueIds;
    var next := if s.rows[d].parent.None? then Some(d) else g;
    forall i | Live(after, i) && !Waiting(after, next, i)
      ensures ParentFits(after, i)
    {
      CopyKeepsLevels(s, g, d, k, after, i);
    }
    CopyKeepsOverrides(s, g, d, k, after);
    CopyKeepsDefaults(s, d, k, after);
    CopyKeepsItems(s, d, k, after);
    CopyHasGroup(s, g, d, k, after);
  }

  lemma CopyKeepsDefaults(s: State, d: nat, k: nat, after: State)
    requires IdsFit(s) && DefaultsFit(s) && Copied(s, d, k, after)
    ensures IdsFit(after) && DefaultsFit(after)
  {
    hide MoveReferences, CopyPlace;
    forall i | i in after.rows && after.rows[i].shared
      ensures i in s.rows && after.rows[i] == s.rows[i]
    {
      if i != k { CopiedRow(s, d, k, after, i); }
    }
    forall i | i in s.rows && s.rows[i].shared
      ensures i in after.rows && after.rows[i] == s.rows[i]
    {
    }
  }

  lemma CopyKeepsOverrides(s: State, g: Option<nat>, d: nat, k: nat, after: State)
    requires InvBut(s, g) && Copied(s, d, k, after) && (g.Some? ==> s.rows[d].parent == g)
    ensures ReplacedByOwn(after)
    ensures var next := if s.rows[d].parent.None? then Some(d) else g;
            forall c :: c in after.rows && ReplacedGroup(after, c) && !Waiting(after, next, c) ==> c in after.overrides
  {
    hide MoveReferences, CopyPlace, ParentFits, ItemsLive, UniqueIds;
    var next := if s.rows[d].parent.None? then Some(d) else g;
    forall c | c in after.rows && ReplacedGroup(after, c) && !Waiting(after, next, c)
      ensures c in after.overrides
    {
      CopiedRow(s, d, k, after, c);
      if s.rows[c].parent.value != d {
        assert ReplacedGroup(s, c);
      }
    }
    forall e | e in after.overrides
      ensures e in after.rows && after.rows[e].shared && Own(after, after.overrides[e])
    {
    }
  }

  lemma CopyKeepsItems(s: State, d: nat, k: nat, after: State)
    requires ItemsLive(s) && UniqueIds(s.items) && Copied(s, d, k, after)
    ensures ItemsLive(after) && UniqueIds(after.items)
  {
    hide MoveReferences, CopyPlace;
    NoneStayBehind(s.items, d, Some(k));
    forall x | x in after.items
      ensures Live(after, x.category)
    {
      if x.category != k {
        CopiedRow(s, d, k, after, x.category);
      }
    }
  }

  lemma CopyHasGroup(s: State, g: Option<nat>, d: nat, k: nat, after: State)
    requires InvBut(s, g) && Live(s, d) && s.rows[d].shared && (g.Some? ==> s.rows[d].parent == g) && Copied(s, d, k, after)
    ensures s.rows[d].parent.None? ==> HasGroupCopy(after, d)
    ensures s.rows[d].parent.Some? && g.Some? ==> HasGroupCopy(after, g.value)
  {
    hide MoveReferences, ParentFits, ItemsLive, UniqueIds;
    if s.rows[d].parent.Some? && g.Some? {
      ParentStays(s, d, k, after, s.overrides[g.value]);
    }
  }

  // ------------------------------------------------------------------ a default and its subcategories

  /** What replacing defaults leaves of the shared rows, and of what each plan holds. */
  ghost predicate Replaces(s: State, after: State) {
    && (forall i :: i in s.rows && s.rows[i].shared ==> i in after.rows && after.rows[i] == s.rows[i])
    && (forall i :: i in after.rows && after.rows[i].shared ==> i in s.rows && s.rows[i].shared)
    && (forall i :: i in s.rows ==> i in after.rows && after.rows[i].name == s.rows[i].name)
    && (forall d :: d in s.overrides ==> d in after.overrides && after.overrides[d] == s.overrides[d])
    && (forall plan: nat, member: Option<nat> :: PlanTotal(after.items, plan, member) == PlanTotal(s.items, plan, member))
  }

  lemma CopyReplaces(s: State, d: nat, k: nat, after: State)
    requires Copied(s, d, k, after) && UniqueIds(s.items)
    ensures Replaces(s, after)
  {
    hide MoveReferences, CopyPlace;
    forall i | i in after.rows && after.rows[i].shared
      ensures i in s.rows && s.rows[i].shared
    {
      if i != k { CopiedRow(s, d, k, after, i); }
    }
    forall plan: nat, member: Option<nat>
      ensures PlanTotal(after.items, plan, member) == PlanTotal(s.items, plan, member)
    {
      MovingConservesPlan(s.items, d, k, plan, member);
    }
  }

  lemma ReplacesAcross(s: State, mid: State, after: State)
    requires Replaces(s, mid) && Replaces(mid, after)
    ensures Replaces(s, after)
  {
  }

  predicate SubcategoryOf(s: State, d: nat, c: nat) {
    c in s.rows && s.rows[c].shared && s.rows[c].parent == Some(d) && !s.rows[c].archived
  }

  lemma {:induction false} DefaultChildrenAre(s: State, d: nat, n: nat)
    ensures forall c: nat :: c in DefaultChildren(s, d, n) <==> c < n && SubcategoryOf(s, d, c)
  {
    if n > 0 { DefaultChildrenAre(s, d, n - 1); }
  }

  lemma {:induction false} CustomizeAllKeepsInv(s: State, d: nat, ids: seq<nat>)
    requires InvBut(s, Some(d)) && forall c :: c in ids ==> SubcategoryOf(s, d, c)
    requires CustomizeAll(s, ids).Some?
    ensures var after := CustomizeAll(s, ids).value;
            InvBut(after, Some(d)) && Replaces(s, after) && forall c :: c in ids ==> c in after.overrides
  {
    hide InvBut, CustomizeOne, Replaces;
    if ids == [] {
      ReplacesNothing(s);
    } else {
      var front, c := ids[..|ids| - 1], ids[|ids| - 1];
      assert ids == front + [c];
      CustomizeAllKeepsInv(s, d, front);
      var before := CustomizeAll(s, front).value;
      OneMore(s, d, before, c);
    }
  }

  lemma ReplacesNothing(s: State)
    ensures Replaces(s, s)
  {
  }

  lemma OneMore(s: State, d: nat, before: State, c: nat)
    requires InvBut(before, Some(d)) && Replaces(s, before) && SubcategoryOf(s, d, c) && CustomizeOne(before, c).Some?
    ensures var after := CustomizeOne(before, c).value;
            && InvBut(after, Some(d)) && Replaces(s, after) && c in after.overrides
            && forall e :: e in before.overrides ==> e in after.overrides
  {
    if c in before.overrides {
      assert CustomizeOne(before, c) == Some(before);
    } else {
      CopyIsCopied(before, c);
      var after := CustomizeOne(before, c).value;
      var k := after.overrides[c];
      hide CustomizeOne;
      assert before.rows[c] == s.rows[c];
      CopyKeepsInv(before, Some(d), c, k, after);
      CopyReplaces(before, c, k, after);
      hide InvBut, Copied;
      ReplacesAcross(s, before, after);
    }
  }

  /** Replacing a default, with its subcategories, keeps the invariant; the copy is live and the default hidden. */
  lemma CustomizeKeepsInv(s: State, d: nat)
    requires Inv(s) && Live(s, d) && s.rows[d].shared && CustomizeDefault(s, d).Some?
    ensures var after := CustomizeDefault(s, d).value;
            && Inv(after) && Replaces(s, after) && d in after.overrides
            && Own(after, after.overrides[d]) && Live(after, after.overrides[d])
            && after.rows[after.overrides[d]].name == s.rows[d].name
  {
    InvIsInvBut(s);
    CopyIsCopied(s, d);
    var copied := CustomizeOne(s, d).value;
    var k := copied.overrides[d];
    hide CustomizeOne;
    CopyKeepsInv(s, None, d, k, copied);
    CopyReplaces(s, d, k, copied);
    if s.rows[d].parent.Some? {
      InvIsInvBut(copied);
    } else {
      var ids := DefaultChildren(copied, d, copied.nextId);
      DefaultChildrenAre(copied, d, copied.nextId);
      hide Copied;
      CustomizeAllKeepsInv(copied, d, ids);
      var after := CustomizeAll(copied, ids).value;
      ReplacesAcross(s, copied, after);
      AllReplaced(copied, d, ids, after);
    }
  }

  lemma AllReplaced(copied: State, d: nat, ids: seq<nat>, after: State)
    requires InvBut(copied, Some(d)) && InvBut(after, Some(d)) && Replaces(copied, after)
    requires forall c: nat :: c in ids <==> c < copied.nextId && SubcategoryOf(copied, d, c)
    requires forall c :: c in ids ==> c in after.overrides
    ensures Inv(after)
  {
    hide ItemsLive, UniqueIds;
    forall i | i in after.rows && Waiting(after, Some(d), i) && !after.rows[i].archived
      ensures i in after.overrides
    {
      assert SubcategoryOf(copied, d, i);
    }
  }

  // ------------------------------------------------------------------ the service

  lemma OwnedKeepsInv(s: State, id: nat)
    requires Inv(s) && Live(s, id) && OwnedOrCopied(s, id).Some?
    ensures var (copied, target) := OwnedOrCopied(s, id).value;
            && Inv(copied) && Replaces(s, copied) && Own(copied, target) && Live(copied, target)
            && copied.rows[target].name == s.rows[id].name
            && (if s.rows[id].shared then id in copied.overrides && target == copied.overrides[id] else target == id && copied == s)
  {
    if s.rows[id].shared {
      CustomizeKeepsInv(s, id);
    } else {
      ReplacesNothing(s);
    }
  }

  /** A write to own rows only leaves the defaults and what replaces them as they were. */
  lemma OwnRowsOnly(s: State, after: State)
    requires Inv(s) && after.nextId == s.nextId && after.overrides == s.overrides && after.rows.Keys == s.rows.Keys
    requires forall i :: i in s.rows ==> after.rows[i].shared == s.rows[i].shared && (s.rows[i].shared ==> after.rows[i] == s.rows[i])
    ensures IdsFit(after) && DefaultsFit(after) && OverridesFit(after)
  {
    hide TwoLevels, ItemsLive, UniqueIds;
  }

  /** One of the user's own live rows given a new name and place. */
  lemma RowMoved(s: State, target: nat, name: string, parent: Option<nat>)
    requires Inv(s) && Own(s, target) && Live(s, target)
    requires parent.Some? ==> parent.value != target && Live(s, parent.value) && s.rows[parent.value].parent.None?
    requires parent.Some? && parent != s.rows[target].parent ==> !HasLiveChild(s, target)
    ensures Inv(s.(rows := s.rows[target := s.rows[target].(name := name, parent := parent)]))
  {
    var after := s.(rows := s.rows[target := s.rows[target].(name := name, parent := parent)]);
    OwnRowsOnly(s, after);
    hide DefaultsFit, OverridesFit, IdsFit, UniqueIds;
    assert forall i :: Live(after, i) <==> Live(s, i);
    forall i | Live(after, i)
      ensures ParentFits(after, i)
    {
      assert ParentFits(s, i);
      assert s.rows[i].parent == Some(target) ==> HasLiveChild(s, target);
    }
  }

  lemma UpdateKeepsInv(s: State, id: nat, name: Option<string>, move: Option<Option<nat>>)
    requires Inv(s)
    ensures Inv(Update(s, id, name, move).0)
  {
    if Update(s, id, name, move).1.Done? {
      OwnedKeepsInv(s, id);
      var (copied, target) := OwnedOrCopied(s, id).value;
      hide OwnedOrCopied, Replaces;
      var row := copied.rows[target];
      assert ParentFits(copied, target);
      RowMoved(copied, target, name.GetOr(row.name), move.GetOr(row.parent));
    }
  }

  /** The row that stands for a category in a user's view: the copy of a replaced default, else the row itself. */
  function Standing(s: State, id: nat): nat {
    if id in s.overrides then s.overrides[id] else id
  }

  /** An accepted edit lands on the user's own live row, under the new name and place; a default it was asked for is hidden. */
  lemma UpdateDoes(s: State, id: nat, name: Option<string>, move: Option<Option<nat>>)
    requires Inv(s) && Update(s, id, name, move).1 == Done
    ensures var after := Update(s, id, name, move).0;
            var target := Standing(after, id);
            && Own(after, target) && Live(after, target)
            && after.rows[target].name == name.GetOr(s.rows[id].name)
            && (move.Some? ==> after.rows[target].parent == move.value)
            && (s.rows[id].shared ==> !Visible(after, id))
  {
    OwnedKeepsInv(s, id);
    hide OwnedOrCopied;
  }

  /** A row archived after its live subcategories became groups and its plan items went to a live category or nowhere. */
  lemma RowArchived(s: State, target: nat, to: Option<nat>)
    requires Inv(s) && Own(s, target) && Live(s, target)
    requires to.Some? ==> Live(s, to.value) && to.value != target
    ensures var rows := Promoted(s.rows, target);
            Inv(s.(rows := rows[target := rows[target].(archived := true)], items := MoveReferences(s.items, target, to)))
  {
    var rows := Promoted(s.rows, target);
    var after := s.(rows := rows[target := rows[target].(archived := true)], items := MoveReferences(s.items, target, to));
    NoneStayBehind(s.items, target, to);
    OwnRowsOnly(s, after);
    hide MoveReferences, UniqueIds, DefaultsFit, OverridesFit, IdsFit;
    assert forall i :: Live(after, i) <==> Live(s, i) && i != target;
    forall i | Live(after, i)
      ensures ParentFits(after, i)
    {
      assert ParentFits(s, i);
      ArchivedParent(s, target, i);
    }
  }

  /** No live row is left under an archived one. */
  lemma ArchivedParent(s: State, target: nat, i: nat)
    requires Live(s, i) && ParentFits(s, i) && DefaultsFit(s) && Own(s, target) && target != i
    ensures Promoted(s.rows, target)[i].parent != Some(target)
  {
  }

  lemma ArchiveKeepsInv(s: State, id: nat, reassign: Reassign)
    requires Inv(s)
    ensures Inv(Archive(s, id, reassign).0)
  {
    if Archive(s, id, reassign).1.Done? {
      OwnedKeepsInv(s, id);
      var (copied, target) := OwnedOrCopied(s, id).value;
      hide OwnedOrCopied, Replaces;
      assert ParentFits(copied, target);
      var to := match reassign case ToParent => copied.rows[target].parent case Uncategorized => None case To(c) => Some(c);
      RowArchived(copied, target, to);
    }
  }

  /** One of the user's own live categories in this group. */
  predicate InGroup(s: State, j: nat, g: nat) {
    Own(s, j) && Live(s, j) && s.rows[j].parent == Some(g)
  }

  lemma StaysInGroup(s: State, c: nat, k: nat, after: State, j: nat, g: nat)
    requires Copied(s, c, k, after) && InGroup(s, j, g) && g != c
    ensures InGroup(after, j, g)
  {
    hide MoveReferences, CopyPlace;
  }

  /** The copies made since are all in the group's own copy, and nothing has left it. */
  ghost predicate InCopy(s: State, d: nat, after: State) {
    && d in s.overrides && (forall e :: e in s.overrides ==> e in after.overrides && after.overrides[e] == s.overrides[e])
    && (forall j :: InGroup(s, j, s.overrides[d]) ==> InGroup(after, j, s.overrides[d]))
    && (forall c :: c in after.overrides && c !in s.overrides ==> InGroup(after, after.overrides[c], s.overrides[d]))
  }

  lemma InCopyAcross(s: State, d: nat, mid: State, after: State)
    requires InCopy(s, d, mid) && InCopy(mid, d, after)
    ensures InCopy(s, d, after)
  {
    hide InGroup;
    forall c | c in after.overrides && c !in s.overrides
      ensures InGroup(after, after.overrides[c], s.overrides[d])
    {
      if c in mid.overrides { assert InGroup(mid, mid.overrides[c], s.overrides[d]); }
    }
  }

  /** Every copy the loop over a group's subcategories makes is in the group's own copy. */
  lemma {:induction false} CopiesFollow(s: State, d: nat, ids: seq<nat>)
    requires InvBut(s, Some(d)) && (forall c :: c in ids ==> SubcategoryOf(s, d, c)) && CustomizeAll(s, ids).Some?
    ensures InCopy(s, d, CustomizeAll(s, ids).value)
  {
    if ids == [] {
      assert d in s.overrides;
    } else {
      hide CustomizeOne, InCopy, InvBut;
      var front, c := ids[..|ids| - 1], ids[|ids| - 1];
      assert ids == front + [c];
      CopiesFollow(s, d, front);
      CustomizeAllKeepsInv(s, d, front);
      var before := CustomizeAll(s, front).value;
      CopyFollows(s, d, before, c);
      InCopyAcross(s, d, before, CustomizeAll(s, ids).value);
    }
  }

  lemma CopyFollows(s: State, d: nat, before: State, c: nat)
    requires InvBut(before, Some(d)) && Replaces(s, before) && SubcategoryOf(s, d, c) && CustomizeOne(before, c).Some?
    ensures InCopy(before, d, CustomizeOne(before, c).value)
  {
    assert d in before.overrides;
    if c !in before.overrides {
      CopyIsCopied(before, c);
      assert before.rows[c] == s.rows[c] && Own(before, before.overrides[d]);
      hide CustomizeOne, InvBut, Replaces, Copied, InCopy;
      CopiedInCopy(before, d, c, CustomizeOne(before, c).value);
    } else {
      assert CustomizeOne(before, c) == Some(before);
    }
  }

  lemma CopiedInCopy(before: State, d: nat, c: nat, after: State)
    requires d in before.overrides && Own(before, before.overrides[d]) && SubcategoryOf(before, d, c)
    requires c in after.overrides && Copied(before, c, after.overrides[c], after)
    ensures InCopy(before, d, after)
  {
    var g := before.overrides[d];
    hide MoveReferences;
    assert InGroup(after, after.overrides[c], g);
    forall j | InGroup(before, j, g)
      ensures InGroup(after, j, g)
    {
      StaysInGroup(before, c, after.overrides[c], after, j, g);
    }
  }

  /** What stands for a live subcategory is in the copy of its group, once the group is replaced. */
  lemma ChildrenFollow(s: State, id: nat, i: nat)
    requires Inv(s) && Live(s, id) && OwnedOrCopied(s, id).Some? && Live(s, i) && s.rows[i].parent == Some(id)
    ensures var (copied, target) := OwnedOrCopied(s, id).value;
            InGroup(copied, Standing(copied, i), target) && Standing(copied, i) != target
  {
    OwnedKeepsInv(s, id);
    var (copied, target) := OwnedOrCopied(s, id).value;
    if s.rows[id].shared {
      DefaultsFollow(s, id, i);
    } else {
      OwnChild(s, id, i);
    }
    hide OwnedOrCopied, Inv;
    GroupIsNotItsChild(copied, target, Standing(copied, i));
  }

  lemma OwnChild(s: State, id: nat, i: nat)
    requires Inv(s) && Own(s, id) && Live(s, i) && s.rows[i].parent == Some(id)
    ensures InGroup(s, Standing(s, i), id)
  {
  }

  lemma DefaultsFollow(s: State, id: nat, i: nat)
    requires Inv(s) && Live(s, id) && s.rows[id].shared && CustomizeDefault(s, id).Some? && Live(s, i) && s.rows[i].parent == Some(id)
    requires var after := CustomizeDefault(s, id).value; Inv(after) && id in after.overrides
    ensures var after := CustomizeDefault(s, id).value; InGroup(after, Standing(after, i), after.overrides[id])
  {
    var after := CustomizeDefault(s, id).value;
    assert s.rows[id].parent.None? by { assert ParentFits(s, i); }
    InvIsInvBut(s);
    CopyIsCopied(s, id);
    var one := CustomizeOne(s, id).value;
    hide CustomizeOne, Inv, InvBut, InCopy, DefaultChildren, Copied;
    CopyKeepsInv(s, None, id, one.overrides[id], one);
    InvButIds(one, Some(id));
    var ids := DefaultChildren(one, id, one.nextId);
    DefaultChildrenAre(one, id, one.nextId);
    assert after == CustomizeAll(one, ids).value;
    CustomizeAllKeepsInv(one, id, ids);
    CopiesFollow(one, id, ids);
    FirstCopy(s, id, one.overrides[id], one, i);
    ChildFollows(one, id, after, i);
  }

  lemma InvButIds(s: State, g: Option<nat>)
    requires InvBut(s, g)
    ensures IdsFit(s)
  {
  }

  lemma ChildFollows(one: State, id: nat, after: State, i: nat)
    requires InCopy(one, id, after) && Inv(after)
    requires InGroup(one, i, one.overrides[id]) || (i in after.overrides && i !in one.overrides)
    ensures InGroup(after, Standing(after, i), after.overrides[id])
  {
    if InGroup(after, i, after.overrides[id]) { OwnOrDefault(after, i); }
    hide Inv;
  }

  lemma FirstCopy(s: State, id: nat, k: nat, one: State, i: nat)
    requires Copied(s, id, k, one) && Inv(s) && Live(s, i) && s.rows[i].parent == Some(id) && s.rows[id].parent.None?
    requires IdsFit(one)
    ensures if Own(s, i) then InGroup(one, i, k) else SubcategoryOf(one, id, i) && i < one.nextId && i !in one.overrides
  {
    hide MoveReferences, ItemsLive, UniqueIds;
    if i != k { CopiedRow(s, id, k, one, i); }
  }

  lemma OwnOrDefault(s: State, i: nat)
    requires Inv(s) && Own(s, i)
    ensures Standing(s, i) == i
  {
  }

  lemma GroupIsNotItsChild(s: State, g: nat, j: nat)
    requires Inv(s)
    ensures InGroup(s, j, g) ==> j != g
  {
    if InGroup(s, j, g) { assert ParentFits(s, j); }
  }

  /** An archived category is gone with its plan items, nothing live is left in it, and what stands for its live subcategories are groups. */
  lemma ArchiveDoes(s: State, id: nat, reassign: Reassign)
    requires Inv(s) && Archive(s, id, reassign).1 == Done
    ensures var after := Archive(s, id, reassign).0;
            var target := Standing(after, id);
            && Own(after, target) && after.rows[target].archived && !Live(after, id)
            && (forall x :: x in after.items ==> x.category != target)
            && (forall i :: Live(after, i) ==> after.rows[i].parent != Some(target))
            && (forall i :: Live(s, i) && s.rows[i].parent == Some(id) ==>
                  var j := Standing(after, i); Own(after, j) && Live(after, j) && after.rows[j].parent.None?)
  {
    OwnedKeepsInv(s, id);
    ArchiveKeepsInv(s, id, reassign);
    var (copied, target) := OwnedOrCopied(s, id).value;
    var after := Archive(s, id, reassign).0;
    forall i | Live(s, i) && s.rows[i].parent == Some(id)
      ensures InGroup(copied, Standing(copied, i), target) && Standing(copied, i) != target
    {
      ChildrenFollow(s, id, i);
    }
    hide OwnedOrCopied, MoveReferences, Replaces, DefaultsFit, OverridesFit, IdsFit, UniqueIds;
    assert !Live(after, target);
    forall i | Live(after, i)
      ensures after.rows[i].parent != Some(target)
    {
      assert ParentFits(after, i);
    }
    forall i | Live(s, i) && s.rows[i].parent == Some(id)
      ensures var j := Standing(after, i); Own(after, j) && Live(after, j) && after.rows[j].parent.None?
    {
      PromotedIsGroup(copied.rows, target, Standing(copied, i));
    }
  }

  lemma PromotedIsGroup(rows: Rows, p: nat, j: nat)
    requires j in rows && !rows[j].shared && rows[j].parent == Some(p) && !rows[j].archived
    ensures j in Promoted(rows, p) && Promoted(rows, p)[j] == rows[j].(parent := None)
  {
  }

  /** Archiving into a category conserves what every plan holds for every member. */
  lemma ArchiveConserves(s: State, id: nat, reassign: Reassign, plan: nat, member: Option<nat>)
    requires Inv(s) && Archive(s, id, reassign).1 == Done
    requires var (copied, target) := OwnedOrCopied(s, id).value;
             reassign.To? || (reassign.ToParent? && target in copied.rows && copied.rows[target].parent.Some?)
    ensures PlanTotal(Archive(s, id, reassign).0.items, plan, member) == PlanTotal(s.items, plan, member)
  {
    OwnedKeepsInv(s, id);
    var (copied, target) := OwnedOrCopied(s, id).value;
    hide OwnedOrCopied;
    assert ParentFits(copied, target);
    var to := if reassign.To? then reassign.category else copied.rows[target].parent.value;
    MovingConservesPlan(copied.items, target, to, plan, member);
  }

  /** An edit, and the copy it may make, conserve them too. */
  lemma UpdateConserves(s: State, id: nat, name: Option<string>, move: Option<Option<nat>>, plan: nat,
        member: Option<nat>)
    requires Inv(s)
    ensures PlanTotal(Update(s, id, name, move).0.items, plan, member) == PlanTotal(s.items, plan, member)
  {
    if Update(s, id, name, move).1.Done? {
      OwnedKeepsInv(s, id);
      hide OwnedOrCopied;
    }
  }

  predicate CanHold(s: State, parent: Option<nat>) {
    parent.Some? ==> Live(s, parent.value) && s.rows[parent.value].parent.None?
  }

  /** Creating does not check its parent: it keeps the tree two levels deep exactly when the parent is a live, visible group. */
  lemma CreateKeepsInvIff(s: State, name: string, parent: Option<nat>, foreign: bool)
    requires Inv(s) && Create(s, name, parent, foreign).1 == Done
    ensures Inv(Create(s, name, parent, foreign).0) <==> CanHold(s, parent)
  {
    hide NamesUnique, UniqueIds;
    var after := Create(s, name, parent, foreign).0;
    var k := s.nextId;
    assert k !in s.rows;
    assert forall i :: Live(after, i) <==> i == k || Live(s, i);
    assert forall i :: i in s.rows ==> after.rows[i] == s.rows[i];
    if CanHold(s, parent) {
      forall i | Live(after, i)
        ensures ParentFits(after, i)
      {
        if i != k { assert ParentFits(s, i); }
      }
      assert OverridesFit(after);
      assert ItemsLive(after);
    } else {
      assert !ParentFits(after, k);
      assert Live(after, k);
    }
  }

  const NOTHING := State(map[], map[], 0, [])

  /** A category created under a subcategory is accepted, and makes a third level. */
  lemma CreatesThirdLevel()
    ensures var sub := Create(Create(NOTHING, "Home", None, false).0, "Rent", Some(0), false).0;
            Inv(sub) && Create(sub, "Deposit", Some(1), false).1 == Done && !Inv(Create(sub, "Deposit", Some(1), false).0)
  {
    var group := Create(NOTHING, "Home", None, false).0;
    CreateKeepsInvIff(NOTHING, "Home", None, false);
    var sub := Create(group, "Rent", Some(0), false).0;
    CreateKeepsInvIff(group, "Rent", Some(0), false);
    CreateKeepsInvIff(sub, "Deposit", Some(1), false);
  }

  /** A category created under a default the user has renamed, and so replaced, is accepted and hangs from a hidden group. */
  lemma CreatesUnderHidden()
    ensures var s := State(map[0 := Category(true, None, "Food", false)], map[], 1, []);
            var renamed := Update(s, 0, Some("Meals"), None);
            && Inv(s) && renamed.1 == Done && Inv(renamed.0)
            && Create(renamed.0, "Snacks", Some(0), false).1 == Done && !Inv(Create(renamed.0, "Snacks", Some(0), false).0)
  {
    var s := State(map[0 := Category(true, None, "Food", false)], map[], 1, []);
    assert Inv(s);
    var renamed := Update(s, 0, Some("Meals"), None);
    FoodReplaced(s);
    UpdateKeepsInv(s, 0, Some("Meals"), None);
    CreateKeepsInvIff(renamed.0, "Snacks", Some(0), false);
  }

  lemma FoodReplaced(s: State)
    requires s == State(map[0 := Category(true, None, "Food", false)], map[], 1, [])
    ensures Update(s, 0, Some("Meals"), None)
            == (State(map[0 := Category(true, None, "Food", false), 1 := Category(false, None, "Meals", false)], map[0 := 1], 2, []), Done)
  {
    assert OwnNamed(s, None, "Food", 1) == None by { assert !Own(s, 0) && OwnNamed(s, None, "Food", 0) == None; }
    var rows := map[0 := Category(true, None, "Food", false), 1 := Category(false, None, "Food", false)];
    var copied := State(rows, map[0 := 1], 2, []);
    assert s.rows[1 := Category(false, None, "Food", false)] == rows;
    assert Rehomed(rows, 0, 1) == rows;
    assert NamesUnique(rows);
    assert ItemsOf([], 0) == [] && MoveReferences([], 0, Some(1)) == [];
    assert CustomizeOne(s, 0) == Some(copied);
    DefaultChildrenAre(copied, 0, 2);
    NoChildren(DefaultChildren(copied, 0, 2));
    assert OwnedOrCopied(s, 0) == Some((copied, 1));
    var meals := rows[1 := Category(false, None, "Meals", false)];
    assert meals == map[0 := Category(true, None, "Food", false), 1 := Category(false, None, "Meals", false)] && NamesUnique(meals);
  }

  lemma NoChildren(ids: seq<nat>)
    requires forall c: nat :: c !in ids
    ensures ids == []
  {
    if ids != [] { FirstIn(ids); }
  }

  lemma FirstIn(ids: seq<nat>)
    requires ids != []
    ensures ids[0] in ids
  {
  }

  // ------------------------------------------------------------------ runs

  datatype Step =
    | DoCreate(name: string, parent: Option<nat>, foreign: bool)
    | DoUpdate(id: nat, rename: Option<string>, move: Option<Option<nat>>)
    | DoArchive(id: nat, reassign: Reassign)

  function Apply(s: State, step: Step): State {
    match step
    case DoCreate(name, parent, foreign) => Create(s, name, parent, foreign).0
    case DoUpdate(id, rename, move) => Update(s, id, rename, move).0
    case DoArchive(id, reassign) => Archive(s, id, reassign).0
  }

  function Run(s: State, steps: seq<Step>): State {
    if steps == [] then s else Apply(Run(s, steps[..|steps| - 1]), steps[|steps| - 1])
  }

  /** Every category is created at the top or under a live group. */
  predicate SoundCreates(s: State, steps: seq<Step>) {
    steps == [] ||
    (SoundCreates(s, steps[..|steps| - 1]) &&
     var last := steps[|steps| - 1];
     last.DoCreate? ==> CanHold(Run(s, steps[..|steps| - 1]), last.parent))
  }

  /**
   In every state such a run reaches, the tree is two levels deep, a replaced group hides all of its defaults, and no
   plan item points at an archived or hidden category.
   */
  lemma {:induction false} RunKeepsInv(s: State, steps: seq<Step>)
    requires Inv(s) && SoundCreates(s, steps)
    ensures Inv(Run(s, steps))
  {
    hide Inv, Update, Archive;
    if steps != [] {
      var before, last := Run(s, steps[..|steps| - 1]), steps[|steps| - 1];
      RunKeepsInv(s, steps[..|steps| - 1]);
      match last {
        case DoCreate(name, parent, foreign) =>
          if Create(before, name, parent, foreign).1 == Done { CreateKeepsInvIff(before, name, parent, foreign); }
        case DoUpdate(id, rename, move) => UpdateKeepsInv(before, id, rename, move);
        case DoArchive(id, reassign) => ArchiveKeepsInv(before, id, reassign);
      }
    }
  }
}