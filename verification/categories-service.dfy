/**
 The category tables and the service on them, step by step (src/modules/categories/categories.repository.ts and
 categories.service.ts). A refused write rolls the whole mutation back.
 */
module CategoriesService {
  import opened Wrappers
  import Tree = CategoryTree

  lemma {:induction false} CustomizePrefix(s: Tree.State, ids: seq<nat>, n: nat)
    requires n <= |ids| && Tree.CustomizeAll(s, ids[..n]).None?
    ensures Tree.CustomizeAll(s, ids).None?
  {
    if n == |ids| {
      assert ids[..n] == ids;
    } else {
      assert ids[..|ids| - 1][..n] == ids[..n];
      CustomizePrefix(s, ids[..|ids| - 1], n);
    }
  }

  class CategoryRepository {
    var rows: Tree.Rows
    var overrides: map<nat, nat>
    var nextId: nat
    var items: seq<Tree.Item>

    ghost function State(): Tree.State
      reads this
    {
      Tree.State(rows, overrides, nextId, items)
    }

    constructor (s: Tree.State)
      ensures State() == s
    {
      rows, overrides, nextId, items := s.rows, s.overrides, s.nextId, s.items;
    }

    method Restore(s: Tree.State)
      modifies this
      ensures State() == s
    {
      rows, overrides, nextId, items := s.rows, s.overrides, s.nextId, s.items;
    }

    method Snapshot() returns (s: Tree.State)
      ensures s == State()
    {
      s := Tree.State(rows, overrides, nextId, items);
    }

    /** The loop over the plan items of a category: each dropped, merged into the destination's, or moved. */
    method MoveCategoryReferences(from: nat, to: Option<nat>)
      modifies this`items
      ensures items == Tree.MoveReferences(old(items), from, to)
    {
      hide Tree.Without, Tree.Rewritten, Tree.FirstMatch;
      var moving := Tree.ItemsOf(items, from);
      ghost var before := items;
      for n := 0 to |moving|
        invariant items == Tree.MoveItems(before, moving[..n], to)
      {
        assert moving[..n + 1][..n] == moving[..n];
        var item := moving[n];
        if to.None? {
          items := Tree.Without(items, item.id);
        } else {
          var target := Tree.FirstMatch(items, item.plan, to.value, item.member);
          if target.Some? {
            var t := target.value;
            items := Tree.Rewritten(items, t.id, t.category, t.amount + item.amount);
            items := Tree.Without(items, item.id);
          } else {
            items := Tree.Rewritten(items, item.id, to.value, item.amount);
          }
        }
      }
      assert moving[..|moving|] == moving;
    }

    /** One default: found copied, or copied now. */
    method CustomizeOne(d: nat) returns (ok: bool)
      modifies this
      ensures ok == Tree.CustomizeOne(old(State()), d).Some?
      ensures ok ==> State() == Tree.CustomizeOne(old(State()), d).value
    {
      hide Tree.OwnNamed, Tree.NamesUnique, Tree.Rehomed, Tree.MoveReferences;
      if d in overrides { return true; }
      if d !in rows || !rows[d].shared || rows[d].archived { return false; }
      var before := Snapshot();
      var place := Tree.CopyPlace(before, d);
      var own := Tree.OwnNamed(before, place, rows[d].name, nextId);
      var copy := own.GetOr(nextId);
      if own.Some? {
        rows := rows[copy := rows[copy].(archived := false)];
      } else {
        rows := rows[copy := Tree.Category(false, place, rows[d].name, false)];
        nextId := nextId + 1;
      }
      if copy in overrides.Values { return false; }
      overrides := overrides[d := copy];
      MoveCategoryReferences(d, Some(copy));
      rows := Tree.Rehomed(rows, d, copy);
      ok := Tree.NamesUnique(rows);
    }

    /** A default, then the default subcategories of a copied group. */
    method CustomizeDefault(d: nat) returns (ok: bool)
      modifies this
      ensures ok == Tree.CustomizeDefault(old(State()), d).Some?
      ensures ok ==> State() == Tree.CustomizeDefault(old(State()), d).value
    {
      var before := Snapshot();
      ok := CustomizeOne(d);
      if !ok || d in before.overrides || before.rows[d].parent.Some? { return; }
      hide Tree.CustomizeOne;
      var copied := Snapshot();
      var children := Tree.DefaultChildren(copied, d, nextId);
      for n := 0 to |children|
        invariant ok && Tree.CustomizeAll(copied, children[..n]) == Some(State())
      {
        assert children[..n + 1][..n] == children[..n];
        ok := CustomizeOne(children[n]);
        if !ok {
          CustomizePrefix(copied, children, n + 1);
          return;
        }
      }
      assert children[..|children|] == children;
    }
  }

  class Service {
    const categories: CategoryRepository

    constructor (categories: CategoryRepository)
      ensures this.categories == categories
    {
      this.categories := categories;
    }

    method OwnedOrCopied(id: nat) returns (target: Option<nat>)
      requires id in categories.rows
      modifies categories
      ensures match Tree.OwnedOrCopied(old(categories.State()), id)
              case None => target == None
              case Some((copied, row)) => target == Some(row) && categories.State() == copied
    {
      hide Tree.CustomizeDefault;
      if !categories.rows[id].shared { return Some(id); }
      var ok := categories.CustomizeDefault(id);
      target := if ok && id in categories.overrides then Some(categories.overrides[id]) else None;
    }

    method UpdateCategory(id: nat, name: Option<string>, move: Option<Option<nat>>) returns (outcome: Tree.Outcome)
      modifies categories
      ensures (categories.State(), outcome) == Tree.Update(old(categories.State()), id, name, move)
    {
      hide Tree.OwnedOrCopied, Tree.AssertMove, Tree.NamesUnique;
      var before := categories.Snapshot();
      if !Tree.Live(before, id) { return Tree.NotFound; }
      var owned := OwnedOrCopied(id);
      if owned.None? {
        categories.Restore(before);
        return Tree.Conflict;
      }
      var target := owned.value;
      if target !in categories.rows {
        categories.Restore(before);
        return Tree.NotFound;
      }
      var copied := categories.Snapshot();
      if move.Some? {
        var guard := Tree.AssertMove(copied, target, id, move.value);
        if guard != Tree.Done {
          categories.Restore(before);
          return guard;
        }
      }
      var row := categories.rows[target];
      if row.archived {
        categories.Restore(before);
        return Tree.NotFound;
      }
      categories.rows := categories.rows[target := row.(name := name.GetOr(row.name), parent := move.GetOr(row.parent))];
      if !Tree.NamesUnique(categories.rows) {
        categories.Restore(before);
        return Tree.Conflict;
      }
      outcome := Tree.Done;
    }

    method ArchiveCategory(id: nat, reassign: Tree.Reassign) returns (outcome: Tree.Outcome)
      modifies categories
      ensures (categories.State(), outcome) == Tree.Archive(old(categories.State()), id, reassign)
    {
      hide Tree.OwnedOrCopied, Tree.OwnGroupNamed, Tree.MoveReferences;
      var before := categories.Snapshot();
      if !Tree.Live(before, id) { return Tree.NotFound; }
      var owned := OwnedOrCopied(id);
      if owned.None? {
        categories.Restore(before);
        return Tree.Conflict;
      }
      var target := owned.value;
      if target !in categories.rows {
        categories.Restore(before);
        return Tree.NotFound;
      }
      var copied := categories.Snapshot();
      var to := categories.rows[target].parent;
      match reassign {
        case ToParent =>
        case Uncategorized => to := None;
        case To(c) =>
          if c == target || c == id || !Tree.Live(copied, c) || copied.rows[c].parent == Some(target) {
            categories.Restore(before);
            return Tree.Invalid;
          }
          to := Some(c);
      }
      if exists i :: i in copied.rows && copied.rows[i].parent == Some(target) && Tree.Live(copied, i)
                     && Tree.OwnGroupNamed(copied, copied.rows[i].name, i) {
        categories.Restore(before);
        return Tree.Conflict;
      }
      categories.rows := Tree.Promoted(categories.rows, target);
      categories.MoveCategoryReferences(target, to);
      if copied.rows[target].archived {
        categories.Restore(before);
        return Tree.NotFound;
      }
      var row := categories.rows[target];
      categories.rows := categories.rows[target := row.(archived := true)];
      outcome := Tree.Done;
    }

    method CreateCategory(name: string, parent: Option<nat>, foreign: bool) returns (outcome: Tree.Outcome)
      modifies categories
      ensures (categories.State(), outcome) == Tree.Create(old(categories.State()), name, parent, foreign)
    {
      var rows := categories.rows[categories.nextId := Tree.Category(false, parent, name, false)];
      if !Tree.ParentExists(categories.rows, parent, foreign) || !Tree.NamesUnique(rows) { return Tree.Refused; }
      categories.rows, categories.nextId := rows, categories.nextId + 1;
      outcome := Tree.Done;
    }
  }
}
