/**
 One user's category tree: shared defaults, the user's own categories, and the copies that replace defaults
 (src/modules/categories/categories.repository.ts, categories.service.ts and category-visibility.ts).
 */
module CategoryTree {
  import opened Wrappers

  datatype Category = Category(shared: bool, parent: Option<nat>, name: string, archived: bool)

  /** A plan's amount for a category, for the household or for one member. */
  datatype Item = Item(id: nat, plan: nat, category: nat, member: Option<nat>, amount: int)

  type Rows = map<nat, Category>

  datatype State = State(rows: Rows, overrides: map<nat, nat>, nextId: nat, items: seq<Item>)

  // ------------------------------------------------------------------ visibility

  /** The user's own categories, and the defaults they have not replaced. */
  predicate Visible(s: State, i: nat) {
    i in s.rows && (s.rows[i].shared ==> i !in s.overrides)
  }

  predicate Live(s: State, i: nat) {
    Visible(s, i) && !s.rows[i].archived
  }

  predicate Own(s: State, i: nat) {
    i in s.rows && !s.rows[i].shared
  }

  predicate Siblings(a: Category, b: Category) {
    !a.shared && !b.shared && a.parent.Some? && a.parent == b.parent
  }

  /** The unique index on (user, parent, name); groups have no parent, and a missing parent is never equal. */
  predicate NamesUnique(rows: Rows) {
    forall i, j :: i in rows && j in rows && i != j && Siblings(rows[i], rows[j]) ==> rows[i].name != rows[j].name
  }

  /** A live child has a live, visible, top-level parent: the tree is two levels deep. */
  predicate ParentFits(s: State, i: nat)
    requires i in s.rows
  {
    s.rows[i].parent.Some? ==> Live(s, s.rows[i].parent.value) && s.rows[s.rows[i].parent.value].parent.None?
  }

  ghost predicate TwoLevels(s: State) {
    forall i :: Live(s, i) ==> ParentFits(s, i)
  }

  /** The shared defaults are themselves a live two-level tree. */
  ghost predicate DefaultsFit(s: State) {
    forall i :: i in s.rows && s.rows[i].shared && s.rows[i].parent.Some? ==>
                  var p := s.rows[i].parent.value;
                  p in s.rows && s.rows[p].shared && s.rows[p].parent.None? && (!s.rows[i].archived ==> !s.rows[p].archived)
  }

  /** A live default subcategory whose group has been replaced. */
  predicate ReplacedGroup(s: State, c: nat)
    requires c in s.rows
  {
    s.rows[c].shared && !s.rows[c].archived && s.rows[c].parent.Some? && s.rows[c].parent.value in s.overrides
  }

  /** A default is replaced by one of the user's own, one each, and a replaced group has its live subcategories replaced. */
  ghost predicate OverridesFit(s: State) {
    && (forall d :: d in s.overrides ==> d in s.rows && s.rows[d].shared && Own(s, s.overrides[d]))
    && (forall d, e :: d in s.overrides && e in s.overrides && s.overrides[d] == s.overrides[e] ==> d == e)
    && (forall c :: c in s.rows && ReplacedGroup(s, c) ==> c in s.overrides)
  }

  /** Every plan item is about a category the user can see. */
  ghost predicate ItemsLive(s: State) {
    forall x :: x in s.items ==> Live(s, x.category)
  }

  ghost predicate UniqueIds(items: seq<Item>) {
    forall i, j :: 0 <= i < j < |items| ==> items[i].id != items[j].id
  }

  ghost predicate IdsFit(s: State) {
    forall i :: i in s.rows ==> i < s.nextId
  }

  ghost predicate Inv(s: State) {
    IdsFit(s) && DefaultsFit(s) && OverridesFit(s) && TwoLevels(s) && ItemsLive(s) && UniqueIds(s.items)
  }

  // ------------------------------------------------------------------ plan items

  function Total(items: seq<Item>, plan: nat, member: Option<nat>, categories: set<nat>): int {
    if items == [] then 0
    else
      var last := items[|items| - 1];
      Total(items[..|items| - 1], plan, member, categories)
      + if last.plan == plan && last.member == member && last.category in categories then last.amount else 0
  }

  function ItemsOf(items: seq<Item>, category: nat): seq<Item> {
    if items == [] then []
    else
      var rest, last := ItemsOf(items[..|items| - 1], category), items[|items| - 1];
      if last.category == category then rest + [last] else rest
  }

  predicate Matches(x: Item, plan: nat, category: nat, member: Option<nat>) {
    x.plan == plan && x.category == category && x.member == member
  }

  function Without(items: seq<Item>, id: nat): seq<Item> {
    if items == [] then []
    else
      var rest, last := Without(items[..|items| - 1], id), items[|items| - 1];
      if last.id == id then rest else rest + [last]
  }

  /** UPDATE ... WHERE id: the amount and the category of one row. */
  function Rewritten(items: seq<Item>, id: nat, category: nat, amount: int): seq<Item> {
    if items == [] then []
    else
      var rest, last := Rewritten(items[..|items| - 1], id, category, amount), items[|items| - 1];
      rest + [if last.id == id then last.(category := category, amount := amount) else last]
  }

  function FirstMatch(items: seq<Item>, plan: nat, category: nat, member: Option<nat>): (r: Option<Item>)
    ensures r.Some? ==> r.value in items && Matches(r.value, plan, category, member)
    ensures r.None? ==> forall x :: x in items ==> !Matches(x, plan, category, member)
  {
    if items == [] then None
    else
      var r := FirstMatch(items[..|items| - 1], plan, category, member);
      if r.Some? then r else if Matches(items[|items| - 1], plan, category, member) then Some(items[|items| - 1]) else None
  }

  /** One plan item on its way: dropped, merged into the destination's item, or moved. */
  function MoveItem(items: seq<Item>, x: Item, to: Option<nat>): seq<Item> {
    if to.None? then Without(items, x.id)
    else
      match FirstMatch(items, x.plan, to.value, x.member)
      case Some(target) => Without(Rewritten(items, target.id, target.category, target.amount + x.amount), x.id)
      case None => Rewritten(items, x.id, to.value, x.amount)
  }

  function MoveItems(items: seq<Item>, moving: seq<Item>, to: Option<nat>): seq<Item> {
    if moving == [] then items else MoveItem(MoveItems(items, moving[..|moving| - 1], to), moving[|moving| - 1], to)
  }

  /** `moveCategoryReferences`, for plan items. */
  function MoveReferences(items: seq<Item>, from: nat, to: Option<nat>): seq<Item> {
    MoveItems(items, ItemsOf(items, from), to)
  }

  // ------------------------------------------------------------------ copies

  /** The user's category with this name in this place, archived ones included, in table order. */
  function OwnNamed(s: State, parent: Option<nat>, name: string, n: nat): (r: Option<nat>)
    ensures r.Some? ==> r.value < n && Own(s, r.value) && s.rows[r.value].parent == parent && s.rows[r.value].name == name
  {
    if n == 0 then None
    else
      var r := OwnNamed(s, parent, name, n - 1);
      if r.Some? then r
      else if Own(s, n - 1) && s.rows[n - 1].parent == parent && s.rows[n - 1].name == name then Some(n - 1)
      else None
  }

  function CopyPlace(s: State, d: nat): Option<nat>
    requires d in s.rows
  {
    match s.rows[d].parent
    case None => None
    case Some(p) => Some(if p in s.overrides then s.overrides[p] else p)
  }

  function Rehomed(rows: Rows, from: nat, to: nat): Rows {
    map i | i in rows :: if !rows[i].shared && rows[i].parent == Some(from) then rows[i].(parent := Some(to)) else rows[i]
  }

  /** One default replaced by a copy, or by the user's category of that name; `None` is a refused write. */
  function CustomizeOne(s: State, d: nat): Option<State> {
    if d in s.overrides then Some(s)
    else if d !in s.rows || !s.rows[d].shared || s.rows[d].archived then None
    else
      var place := CopyPlace(s, d);
      var own := OwnNamed(s, place, s.rows[d].name, s.nextId);
      var copy := own.GetOr(s.nextId);
      var rows := if own.Some? then s.rows[copy := s.rows[copy].(archived := false)]
                  else s.rows[copy := Category(false, place, s.rows[d].name, false)];
      var rehomed := Rehomed(rows, d, copy);
      if copy in s.overrides.Values || !NamesUnique(rehomed) then None
      else Some(State(rehomed, s.overrides[d := copy], if own.Some? then s.nextId else s.nextId + 1, MoveReferences(s.items, d, Some(copy))))
  }

  function DefaultChildren(s: State, d: nat, n: nat): seq<nat> {
    if n == 0 then []
    else
      var rest := DefaultChildren(s, d, n - 1);
      if n - 1 in s.rows && s.rows[n - 1].shared && s.rows[n - 1].parent == Some(d) && !s.rows[n - 1].archived then rest + [n - 1] else rest
  }

  function CustomizeAll(s: State, ids: seq<nat>): Option<State> {
    if ids == [] then Some(s)
    else
      match CustomizeAll(s, ids[..|ids| - 1])
      case None => None
      case Some(before) => CustomizeOne(before, ids[|ids| - 1])
  }

  /** `customizeDefault`: a copied group takes its default subcategories with it. */
  function CustomizeDefault(s: State, d: nat): Option<State> {
    match CustomizeOne(s, d)
    case None => None
    case Some(copied) =>
      if d in s.overrides || s.rows[d].parent.Some? then Some(copied)
      else CustomizeAll(copied, DefaultChildren(copied, d, copied.nextId))
  }

  // ------------------------------------------------------------------ the service

  /** `Refused` is a database error the service passes on as it is. */
  datatype Outcome = Done | NotFound | Conflict | Invalid | Refused

  /** The row a write applies to, in the state after making the user's copy if one is needed. */
  function OwnedOrCopied(s: State, id: nat): Option<(State, nat)>
    requires id in s.rows
  {
    if !s.rows[id].shared then Some((s, id))
    else
      match CustomizeDefault(s, id)
      case None => None
      case Some(after) => if id in after.overrides then Some((after, after.overrides[id])) else None
  }

  predicate HasLiveChild(s: State, p: nat) {
    exists i :: i in s.rows && s.rows[i].parent == Some(p) && Live(s, i)
  }

  predicate OwnGroupNamed(s: State, name: string, except: nat) {
    exists i :: i in s.rows && i != except && Own(s, i) && s.rows[i].parent.None? && !s.rows[i].archived && s.rows[i].name == name
  }

  /** `assertMove`. */
  function AssertMove(s: State, target: nat, requested: nat, parent: Option<nat>): Outcome
    requires target in s.rows
  {
    match parent
    case None => if s.rows[target].parent.Some? && OwnGroupNamed(s, s.rows[target].name, target) then Conflict else Done
    case Some(p) =>
      if p == target || p == requested then Invalid
      else if !Live(s, p) || s.rows[p].parent.Some? then Invalid
      else if HasLiveChild(s, target) then Invalid
      else Done
  }

  /** An edit: a new name, and a move under a group or to the top (`Some(None)`). */
  function Update(s: State, id: nat, name: Option<string>, move: Option<Option<nat>>): (State, Outcome) {
    if !Live(s, id) then (s, NotFound)
    else
      match OwnedOrCopied(s, id)
      case None => (s, Conflict)
      case Some((copied, target)) =>
        if target !in copied.rows then (s, NotFound)
        else
          var guard := if move.Some? then AssertMove(copied, target, id, move.value) else Done;
          if guard != Done then (s, guard)
          else
            var row := copied.rows[target];
            var rows := copied.rows[target := row.(name := name.GetOr(row.name), parent := move.GetOr(row.parent))];
            if row.archived then (s, NotFound) else if !NamesUnique(rows) then (s, Conflict) else (copied.(rows := rows), Done)
  }

  datatype Reassign = ToParent | Uncategorized | To(category: nat)

  function Promoted(rows: Rows, p: nat): Rows {
    map i | i in rows :: if !rows[i].shared && rows[i].parent == Some(p) && !rows[i].archived then rows[i].(parent := None) else rows[i]
  }

  function Archive(s: State, id: nat, reassign: Reassign): (State, Outcome) {
    if !Live(s, id) then (s, NotFound)
    else
      match OwnedOrCopied(s, id)
      case None => (s, Conflict)
      case Some((copied, target)) =>
        if target !in copied.rows then (s, NotFound)
        else if reassign.To? && (reassign.category == target || reassign.category == id || !Live(copied, reassign.category)
                                 || copied.rows[reassign.category].parent == Some(target)) then (s, Invalid)
        else if exists i :: i in copied.rows && copied.rows[i].parent == Some(target) && Live(copied, i)
                            && OwnGroupNamed(copied, copied.rows[i].name, i) then (s, Conflict)
        else if copied.rows[target].archived then (s, NotFound)
        else
          var to := match reassign case ToParent => copied.rows[target].parent case Uncategorized => None case To(c) => Some(c);
          var rows := Promoted(copied.rows, target);
          (copied.(rows := rows[target := rows[target].(archived := true)], items := MoveReferences(copied.items, target, to)), Done)
  }

  /** The foreign key on the parent: some category has this id, the user's own, a default, or (`foreign`) another user's. */
  predicate ParentExists(rows: Rows, parent: Option<nat>, foreign: bool) {
    parent.Some? ==> parent.value in rows || foreign
  }

  /** `createCategory`: the service does not check the parent; the database checks that the id exists and the name is free. */
  function Create(s: State, name: string, parent: Option<nat>, foreign: bool): (State, Outcome) {
    var rows := s.rows[s.nextId := Category(false, parent, name, false)];
    if ParentExists(s.rows, parent, foreign) && NamesUnique(rows) then (s.(rows := rows, nextId := s.nextId + 1), Done) else (s, Refused)
  }
}
