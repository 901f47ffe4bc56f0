/** When an edit of the category tree is refused, where plan items go, and what a new category is (src/modules/categories/categories.service.ts). */
module CategoryTreeEffects {
  import opened Wrappers
  import opened CategoryTree
  import opened CategoryTreeProofs

  // ------------------------------------------------------------------ names

  /** No two of the user's categories under one parent share a name. */
  ghost predicate NoTwins(s: State) {
    forall i, j :: Own(s, i) && Own(s, j) && i != j && s.rows[i].parent.Some? && s.rows[i].parent == s.rows[j].parent ==>
      s.rows[i].name != s.rows[j].name
  }

  lemma NoTwinsIsUnique(s: State)
    ensures NoTwins(s) <==> NamesUnique(s.rows)
  {
  }

  lemma CopyKeepsNames(s: State, d: nat)
    requires NamesUnique(s.rows) && CustomizeOne(s, d).Some?
    ensures NamesUnique(CustomizeOne(s, d).value.rows)
  {
    hide NamesUnique, MoveReferences, Rehomed, OwnNamed;
  }

  lemma {:induction false} CopiesKeepNames(s: State, ids: seq<nat>)
    requires NamesUnique(s.rows) && CustomizeAll(s, ids).Some?
    ensures NamesUnique(CustomizeAll(s, ids).value.rows)
  {
    hide NamesUnique, CustomizeOne;
    if ids != [] {
      CopiesKeepNames(s, ids[..|ids| - 1]);
      CopyKeepsNames(CustomizeAll(s, ids[..|ids| - 1]).value, ids[|ids| - 1]);
    }
  }

  lemma OwnedKeepsNames(s: State, id: nat)
    requires NamesUnique(s.rows) && id in s.rows && OwnedOrCopied(s, id).Some?
    ensures NamesUnique(OwnedOrCopied(s, id).value.0.rows)
  {
    hide NamesUnique, CustomizeOne, CustomizeAll, DefaultChildren;
    if s.rows[id].shared {
      CopyKeepsNames(s, id);
      var copied := CustomizeOne(s, id).value;
      if !(id in s.overrides || s.rows[id].parent.Some?) { CopiesKeepNames(copied, DefaultChildren(copied, id, copied.nextId)); }
    }
  }

  lemma PromotingKeepsNames(rows: Rows, p: nat, target: nat)
    requires NamesUnique(rows) && target in rows
    ensures var promoted := Promoted(rows, p); NamesUnique(promoted[target := promoted[target].(archived := true)])
  {
  }

  /** Every step keeps it, whatever it is asked for. */
  lemma ApplyKeepsNames(s: State, step: Step)
    requires NoTwins(s)
    ensures NoTwins(Apply(s, step))
  {
    NoTwinsIsUnique(s);
    NoTwinsIsUnique(Apply(s, step));
    hide NamesUnique, NoTwins;
    match step {
      case DoCreate(name, parent, foreign) =>
      case DoUpdate(id, rename, move) =>
        hide OwnedOrCopied, AssertMove;
        if Live(s, id) && OwnedOrCopied(s, id).Some? { OwnedKeepsNames(s, id); }
      case DoArchive(id, reassign) =>
        hide OwnedOrCopied, Promoted, MoveReferences;
        if Archive(s, id, reassign).1 == Done {
          OwnedKeepsNames(s, id);
          var (copied, target) := OwnedOrCopied(s, id).value;
          PromotingKeepsNames(copied.rows, target, target);
        }
    }
  }

  /** In every state a run reaches, siblings have different names. */
  lemma {:induction false} NoTwinsInAnyRun(s: State, steps: seq<Step>)
    requires NoTwins(s)
    ensures NoTwins(Run(s, steps))
  {
    if steps != [] {
      hide NoTwins, Apply;
      NoTwinsInAnyRun(s, steps[..|steps| - 1]);
      ApplyKeepsNames(Run(s, steps[..|steps| - 1]), steps[|steps| - 1]);
    }
  }

  // ------------------------------------------------------------------ refusals

  /** A live top-level category the user sees. */
  predicate LiveGroup(s: State, p: nat) {
    && p in s.rows && (s.rows[p].shared ==> p !in s.overrides) && !s.rows[p].archived && s.rows[p].parent.None?
  }

  /** Another live top-level category of the user's own with this name. */
  predicate GroupNamed(s: State, name: string, except: nat) {
    exists i :: i in s.rows && i != except && !s.rows[i].shared && !s.rows[i].archived && s.rows[i].parent.None? && s.rows[i].name == name
  }

  predicate HasChild(s: State, p: nat) {
    exists i :: i in s.rows && s.rows[i].parent == Some(p) && !s.rows[i].archived && (s.rows[i].shared ==> i !in s.overrides)
  }

  predicate SiblingNamed(s: State, parent: Option<nat>, name: string, except: nat) {
    parent.Some? && exists i :: i in s.rows && i != except && !s.rows[i].shared && s.rows[i].parent == parent && s.rows[i].name == name
  }

  /** The move asked for, on the row it applies to: onto itself, under something that is no live group, or a group with children. */
  predicate BadMove(s: State, target: nat, requested: nat, p: nat) {
    p == target || p == requested || !LiveGroup(s, p) || HasChild(s, target)
  }

  /**
   An edit of a live category: refused as invalid exactly for a bad move; as a conflict when the copy cannot be made,
   when a subcategory is moved to the top beside a group of its name, or when a sibling has the new name.
   */
  lemma UpdateRefuses(s: State, id: nat, name: Option<string>, move: Option<Option<nat>>)
    requires Inv(s) && NoTwins(s)
    ensures Update(s, id, name, move).1 == NotFound <==> !(id in s.rows && (s.rows[id].shared ==> id !in s.overrides) && !s.rows[id].archived)
    ensures Update(s, id, name, move).1 != Done ==> Update(s, id, name, move).0 == s
    ensures Live(s, id) && OwnedOrCopied(s, id).None? ==> Update(s, id, name, move).1 == Conflict
    ensures Live(s, id) && OwnedOrCopied(s, id).Some? ==>
              var (copied, target) := OwnedOrCopied(s, id).value;
              var outcome := Update(s, id, name, move).1;
              && target in copied.rows
              && (outcome == Invalid <==> move.Some? && move.value.Some? && BadMove(copied, target, id, move.value.value))
              && (outcome == Conflict <==>
                    || (move == Some(None) && copied.rows[target].parent.Some? && GroupNamed(copied, copied.rows[target].name, target))
                    || (!(move.Some? && move.value.Some? && BadMove(copied, target, id, move.value.value))
                        && SiblingNamed(copied, if move.Some? then move.value else copied.rows[target].parent,
                                        if name.Some? then name.value else copied.rows[target].name, target)))
  {
    if Live(s, id) && OwnedOrCopied(s, id).Some? {
      OwnedKeepsInv(s, id);
      NoTwinsIsUnique(s);
      OwnedKeepsNames(s, id);
      var (copied, target) := OwnedOrCopied(s, id).value;
      var row := copied.rows[target];
      var edited := row.(name := name.GetOr(row.name), parent := move.GetOr(row.parent));
      RenamedUnique(copied, target, edited);
      MoveRefused(copied, target, id, move);
      hide OwnedOrCopied, Inv, NoTwins, NamesUnique, AssertMove, BadMove, SiblingNamed, GroupNamed, Replaces;
    }
  }

  lemma RenamedUnique(s: State, target: nat, edited: Category)
    requires NamesUnique(s.rows) && Own(s, target) && !edited.shared
    ensures NamesUnique(s.rows[target := edited]) <==> !SiblingNamed(s, edited.parent, edited.name, target)
  {
    var after := s.rows[target := edited];
    if i :| edited.parent.Some? && i in s.rows && i != target && !s.rows[i].shared && s.rows[i].parent == edited.parent && s.rows[i].name == edited.name {
      assert Siblings(after[i], after[target]);
    }
  }

  lemma MoveRefused(s: State, target: nat, requested: nat, move: Option<Option<nat>>)
    requires target in s.rows
    ensures move.Some? && move.value.Some? ==>
              AssertMove(s, target, requested, move.value) == if BadMove(s, target, requested, move.value.value) then Invalid else Done
    ensures move == Some(None) ==>
              AssertMove(s, target, requested, None)
              == if s.rows[target].parent.Some? && GroupNamed(s, s.rows[target].name, target) then Conflict else Done
  {
    assert HasChild(s, target) <==> HasLiveChild(s, target);
    assert GroupNamed(s, s.rows[target].name, target) <==> OwnGroupNamed(s, s.rows[target].name, target);
  }

  /** Where the items of an archived category go. */
  function Destination(s: State, target: nat, reassign: Reassign): Option<nat>
    requires target in s.rows
  {
    if reassign.To? then Some(reassign.category) else if reassign.ToParent? then s.rows[target].parent else None
  }

  /**
   Archiving moves every plan item of the category to the one the user names, to its parent, or nowhere: per plan and
   member the destination gains what the category held, the category keeps nothing, and no other total changes.
   */
  lemma ArchiveMoves(s: State, id: nat, reassign: Reassign, plan: nat, member: Option<nat>, c: nat)
    requires Inv(s) && Archive(s, id, reassign).1 == Done
    ensures OwnedOrCopied(s, id).Some?
    ensures var (copied, target) := OwnedOrCopied(s, id).value;
            var after := Archive(s, id, reassign).0;
            && target in copied.rows
            && Total(after.items, plan, member, {c}) ==
               if c == target then 0
               else if Destination(copied, target, reassign) == Some(c) then Total(copied.items, plan, member, {c}) + Total(copied.items, plan, member, {target})
               else Total(copied.items, plan, member, {c})
  {
    OwnedKeepsInv(s, id);
    var (copied, target) := OwnedOrCopied(s, id).value;
    hide OwnedOrCopied, Replaces;
    assert ParentFits(copied, target);
    var to := Destination(copied, target, reassign);
    assert Archive(s, id, reassign).0.items == MoveReferences(copied.items, target, to);
    hide Archive, Inv, MoveReferences, Live;
    ItemsGo(copied.items, target, to, plan, member, c);
  }

  lemma ItemsGo(items: seq<Item>, target: nat, to: Option<nat>, plan: nat, member: Option<nat>, c: nat)
    requires UniqueIds(items) && to != Some(target)
    ensures Total(MoveReferences(items, target, to), plan, member, {c}) ==
            if c == target then 0
            else if to == Some(c) then Total(items, plan, member, {c}) + Total(items, plan, member, {target})
            else Total(items, plan, member, {c})
  {
    var after := MoveReferences(items, target, to);
    NoneStayBehind(items, target, to);
    hide MoveReferences;
    NoneHeld(after, plan, member, target);
    if c != target {
      if to == Some(c) {
        MovingConserves(items, target, c, plan, member, {c, target});
        TotalOfTwo(items, plan, member, c, target);
        TotalOfTwo(after, plan, member, c, target);
      } else if to.Some? {
        MovingConserves(items, target, to.value, plan, member, {c});
      } else {
        UncategorisedDrops(items, target, plan, member, {c});
      }
    }
  }

  lemma {:induction false} NoneHeld(items: seq<Item>, plan: nat, member: Option<nat>, c: nat)
    requires forall x :: x in items ==> x.category != c
    ensures Total(items, plan, member, {c}) == 0
  {
    if items != [] { NoneHeld(items[..|items| - 1], plan, member, c); }
  }

  lemma {:induction false} TotalOfTwo(items: seq<Item>, plan: nat, member: Option<nat>, a: nat, b: nat)
    requires a != b
    ensures Total(items, plan, member, {a, b}) == Total(items, plan, member, {a}) + Total(items, plan, member, {b})
  {
    if items != [] { TotalOfTwo(items[..|items| - 1], plan, member, a, b); }
  }

  /**
   Archiving is refused as invalid exactly when the items are to go to the category itself, to one that is not live, or
   to one of its own subcategories; as a conflict when a subcategory would become a group beside one of its name.
   */
  lemma ArchiveRefuses(s: State, id: nat, reassign: Reassign)
    requires Inv(s)
    ensures Archive(s, id, reassign).1 == NotFound <==> !(id in s.rows && (s.rows[id].shared ==> id !in s.overrides) && !s.rows[id].archived)
    ensures Archive(s, id, reassign).1 != Done ==> Archive(s, id, reassign).0 == s
    ensures Live(s, id) && OwnedOrCopied(s, id).None? ==> Archive(s, id, reassign).1 == Conflict
    ensures Live(s, id) && OwnedOrCopied(s, id).Some? ==>
              var (copied, target) := OwnedOrCopied(s, id).value;
              var outcome := Archive(s, id, reassign).1;
              var bad := reassign.To? && (reassign.category == target || reassign.category == id || !Live(copied, reassign.category)
                                          || copied.rows[reassign.category].parent == Some(target));
              && (outcome == Invalid <==> bad)
              && (outcome == Conflict <==>
                    !bad && exists i :: i in copied.rows && copied.rows[i].parent == Some(target) && Live(copied, i) && GroupNamed(copied, copied.rows[i].name, i))
  {
    hide OwnedOrCopied, Replaces, Inv, MoveReferences, Promoted, GroupNamed, OwnGroupNamed;
    if Live(s, id) && OwnedOrCopied(s, id).Some? {
      OwnedKeepsInv(s, id);
      SameGroupNames(OwnedOrCopied(s, id).value.0);
    }
  }

  lemma SameGroupNames(s: State)
    ensures forall i :: i in s.rows ==> (GroupNamed(s, s.rows[i].name, i) <==> OwnGroupNamed(s, s.rows[i].name, i))
  {
  }

  /** A new category is the user's own, live, and under the parent asked for; nothing else changes. */
  lemma CreateDoes(s: State, name: string, parent: Option<nat>, foreign: bool)
    requires IdsFit(s) && NoTwins(s)
    ensures var (after, outcome) := Create(s, name, parent, foreign);
            && (outcome == Done || outcome == Refused)
            && (outcome == Done <==> (parent.Some? ==> parent.value in s.rows || foreign) && !SiblingNamed(s, parent, name, s.nextId))
            && (outcome != Done ==> after == s)
            && (outcome == Done ==>
                  && after.rows.Keys == s.rows.Keys + {s.nextId} && s.nextId !in s.rows
                  && (forall i :: i in s.rows ==> after.rows[i] == s.rows[i])
                  && Own(after, s.nextId) && Live(after, s.nextId)
                  && after.rows[s.nextId].name == name && after.rows[s.nextId].parent == parent
                  && after.items == s.items && after.overrides == s.overrides)
  {
    var rows := s.rows[s.nextId := Category(false, parent, name, false)];
    NoTwinsIsUnique(s);
    if SiblingNamed(s, parent, name, s.nextId) {
      var i :| i in s.rows && i != s.nextId && !s.rows[i].shared && s.rows[i].parent == parent && s.rows[i].name == name;
      assert Siblings(rows[i], rows[s.nextId]);
    }
  }

  /** Two groups of the user's own, each with an amount in the same plan. */
  function TwoGroups(): State {
    State(map[0 := Category(false, None, "Food", false), 1 := Category(false, None, "Fun", false)], map[], 2,
          [Item(0, 7, 0, None, 30), Item(1, 7, 1, None, 20)])
  }

  lemma TwoGroupsFit()
    ensures Inv(TwoGroups()) && NoTwins(TwoGroups()) && Live(TwoGroups(), 0) && Live(TwoGroups(), 1)
  {
  }

  lemma ItemsMerge()
    ensures MoveReferences(TwoGroups().items, 0, Some(1)) == [Item(1, 7, 1, None, 50)]
  {
    var first, second, both := Item(0, 7, 0, None, 30), Item(1, 7, 1, None, 20), Item(1, 7, 1, None, 50);
    var items := [first, second];
    assert items[..|items| - 1] == [first] && items[|items| - 1] == second;
    assert [first][..|[first]| - 1] == [] && [first, both][..|[first, both]| - 1] == [first];
    assert ItemsOf([first], 0) == [first] && ItemsOf(items, 0) == [first];
    assert FirstMatch([first], 7, 1, None) == None;
    assert FirstMatch(items, 7, 1, None) == Some(second);
    assert Rewritten([first], 1, 1, 50) == [] + [first];
    assert Rewritten(items, 1, 1, 50) == [first] + [both];
    assert Without([first], 0) == [];
    assert Without([first, both], 0) == [] + [both];
    assert MoveItem(items, first, Some(1)) == [both];
  }

  /** Archiving one into the other leaves one item, of both amounts. */
  lemma ArchivingMerges()
    ensures Inv(TwoGroups()) && NoTwins(TwoGroups())
    ensures Archive(TwoGroups(), 0, To(1)).1 == Done && Archive(TwoGroups(), 0, To(1)).0.items == [Item(1, 7, 1, None, 50)]
  {
    TwoGroupsFit();
    ItemsMerge();
    hide Inv, NoTwins, MoveReferences;
  }
}
