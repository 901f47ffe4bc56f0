/** Pairing payments with the occurrences they settle (src/modules/bills/merchant-match.ts, pairClosest). */
module MerchantMatch {
  import opened Wrappers

  /** Ids are compared in the order of their text; here they are numbers in that order. */
  type Id = nat

  /** A payment that qualifies for an occurrence, and how far apart their dates are. */
  datatype Candidate = Candidate(occurrence: Id, transaction: Id, distance: nat)

  /** The place of an occurrence in a group of interchangeable ones. Ids and groups share one name space. */
  datatype Slot = Slot(group: Id, slot: int)

  datatype Tally = Tally(count: nat, distance: nat)

  type Slots = map<Id, Slot>

  function GroupOf(slots: Slots, occurrence: Id): Id {
    if occurrence in slots then slots[occurrence].group else occurrence
  }

  function SlotOf(slots: Slots, occurrence: Id): int {
    if occurrence in slots then slots[occurrence].slot else 0
  }

  // ------------------------------------------------------------------ what the maps hold

  /** The occurrences in the order they first appear. */
  function Occurrences(cs: seq<Candidate>): seq<Id> {
    if cs == [] then []
    else
      var before := Occurrences(cs[..|cs| - 1]);
      var o := cs[|cs| - 1].occurrence;
      if o in before then before else before + [o]
  }

  function OfGroup(slots: Slots, occurrences: seq<Id>, g: Id): seq<Id> {
    if occurrences == [] then []
    else
      var before := OfGroup(slots, occurrences[..|occurrences| - 1], g);
      var o := occurrences[|occurrences| - 1];
      if GroupOf(slots, o) == g then before + [o] else before
  }

  function Members(cs: seq<Candidate>, slots: Slots, g: Id): seq<Id> {
    OfGroup(slots, Occurrences(cs), g)
  }

  predicate Supports(slots: Slots, c: Candidate, g: Id, t: Id) {
    GroupOf(slots, c.occurrence) == g && c.transaction == t
  }

  /** How many candidates tie a payment to a group. */
  function Count(cs: seq<Candidate>, slots: Slots, g: Id, t: Id): nat {
    if cs == [] then 0
    else Count(cs[..|cs| - 1], slots, g, t) + if Supports(slots, cs[|cs| - 1], g, t) then 1 else 0
  }

  /** The largest date distance among them. */
  function Farthest(cs: seq<Candidate>, slots: Slots, g: Id, t: Id): nat {
    if cs == [] then 0
    else
      var before := Farthest(cs[..|cs| - 1], slots, g, t);
      var c := cs[|cs| - 1];
      if Supports(slots, c, g, t) then Max(before, c.distance) else before
  }

  // ------------------------------------------------------------------ what a pairing is

  /** A payment qualifies for a group when it qualifies for every member. */
  predicate Qualifies(cs: seq<Candidate>, slots: Slots, g: Id, t: Id) {
    Count(cs, slots, g, t) > 0 && Count(cs, slots, g, t) == |Members(cs, slots, g)|
  }

  function Pool(cs: seq<Candidate>, slots: Slots, g: Id): set<Id> {
    set c | c in cs && Qualifies(cs, slots, g, c.transaction) :: c.transaction
  }

  /** How many payments of the group's pool are no farther than `t`. */
  function Rank(cs: seq<Candidate>, slots: Slots, g: Id, t: Id): nat {
    |set u | u in Pool(cs, slots, g) && Farthest(cs, slots, g, u) <= Farthest(cs, slots, g, t)|
  }

  function Capacity(cs: seq<Candidate>, slots: Slots, g: Id): nat {
    Min(|Members(cs, slots, g)|, |Pool(cs, slots, g)|)
  }

  function Nearest(cs: seq<Candidate>, slots: Slots, g: Id): set<Id> {
    set t | t in Pool(cs, slots, g) && Rank(cs, slots, g, t) <= |Members(cs, slots, g)|
  }

  /** A group's closest payments, as many as it has members; none when a tie at the cut-off leaves them open. */
  function Chosen(cs: seq<Candidate>, slots: Slots, g: Id): set<Id> {
    if |Nearest(cs, slots, g)| == Capacity(cs, slots, g) then Nearest(cs, slots, g) else {}
  }

  /** The group is the payment's one closest. */
  predicate Closest(cs: seq<Candidate>, slots: Slots, g: Id, t: Id) {
    && Qualifies(cs, slots, g, t)
    && forall c | c in cs && GroupOf(slots, c.occurrence) != g && Qualifies(cs, slots, GroupOf(slots, c.occurrence), t) ::
         Farthest(cs, slots, g, t) < Farthest(cs, slots, GroupOf(slots, c.occurrence), t)
  }

  function Mutual(cs: seq<Candidate>, slots: Slots, g: Id): set<Id> {
    set t | t in Chosen(cs, slots, g) && Closest(cs, slots, g, t)
  }

  function IndexOf(s: seq<Id>, x: Id): (i: nat)
    ensures x in s ==> i < |s| && s[i] == x
  {
    if s == [] then 0 else if s[|s| - 1] == x then |s| - 1 else IndexOf(s[..|s| - 1], x)
  }

  /** Earlier by key, then by place in the list. */
  predicate Ahead(s: seq<Id>, key: Id -> int, a: Id, b: Id) {
    key(a) < key(b) || (key(a) == key(b) && IndexOf(s, a) < IndexOf(s, b))
  }

  function BySlot(slots: Slots): Id -> int {
    (o: Id) => SlotOf(slots, o)
  }

  /** How many members of its group come before an occurrence in slot order. */
  function Place(cs: seq<Candidate>, slots: Slots, o: Id): nat {
    var members := Members(cs, slots, GroupOf(slots, o));
    |set m | m in members && Ahead(members, BySlot(slots), m, o)|
  }

  function Below(ids: set<Id>, t: Id): nat {
    |set u | u in ids && u < t|
  }

  /** The group's payments, in order of id, go to its members in order of slot. */
  predicate Paired(cs: seq<Candidate>, slots: Slots, o: Id, t: Id) {
    var g := GroupOf(slots, o);
    && o in Members(cs, slots, g)
    && t in Mutual(cs, slots, g)
    && Place(cs, slots, o) == Below(Mutual(cs, slots, g), t)
  }

  // ------------------------------------------------------------------ lists without repeats

  function Elements(s: seq<Id>): set<Id> {
    set x | x in s
  }

  lemma {:induction false} ElementsCount(s: seq<Id>)
    requires NoRepeats(s)
    ensures |Elements(s)| == |s|
  {
    if s != [] {
      var front := s[..|s| - 1];
      ElementsCount(front);
      assert Elements(s) == Elements(front) + {s[|s| - 1]};
    }
  }

  lemma IndexOfUnique(s: seq<Id>, i: nat)
    requires NoRepeats(s) && i < |s|
    ensures IndexOf(s, s[i]) == i
  {
  }

  predicate Ordered(s: seq<Id>, r: seq<Id>, key: Id -> int) {
    forall i, j :: 0 <= i < j < |r| ==> Ahead(s, key, r[i], r[j])
  }

  /** In an ordered list a member's index is the number of members ahead of it. */
  lemma OrderedIndex(s: seq<Id>, r: seq<Id>, key: Id -> int, i: nat)
    requires Elements(r) == Elements(s) && NoRepeats(r) && i < |r|
    requires Ordered(s, r, key)
    ensures i == |set m | m in s && Ahead(s, key, m, r[i])|
  {
    assert r[i] in r;
    var ahead := set m | m in s && Ahead(s, key, m, r[i]);
    forall m
      ensures m in ahead <==> m in r[..i]
    {
      assert m in s <==> m in Elements(s);
      assert m in r <==> m in Elements(r);
      if m in r {
        var k :| 0 <= k < |r| && r[k] == m;
      }
    }
    assert ahead == Elements(r[..i]);
    ElementsCount(r[..i]);
  }

  /** Where the next element goes: after every earlier one whose key is not larger. */
  method PlaceFor(s: seq<Id>, r: seq<Id>, key: Id -> int, i: nat) returns (j: nat)
    requires i < |s| && NoRepeats(s) && |r| == i && Ordered(s, r, key)
    requires forall x :: x in r <==> x in s[..i]
    ensures j <= i
    ensures forall k :: 0 <= k < j ==> Ahead(s, key, r[k], s[i])
    ensures forall k :: j <= k < i ==> Ahead(s, key, s[i], r[k])
  {
    hide IndexOf;
    var x := s[i];
    j := i;
    while j > 0 && key(x) < key(r[j - 1])
      invariant j <= i
      invariant forall k :: j <= k < i ==> key(x) < key(r[k])
    {
      j := j - 1;
    }
    forall k | 0 <= k < j
      ensures Ahead(s, key, r[k], x)
    {
      assert r[k] in r && r[k] in s[..i];
      var m :| 0 <= m < i && s[m] == r[k];
      IndexOfUnique(s, m);
      IndexOfUnique(s, i);
      assert k < j - 1 ==> Ahead(s, key, r[k], r[j - 1]);
    }
  }

  /** Array.sort: stable. */
  method StableSort(s: seq<Id>, key: Id -> int) returns (r: seq<Id>)
    requires NoRepeats(s)
    ensures |r| == |s| && NoRepeats(r) && Elements(r) == Elements(s)
    ensures Ordered(s, r, key)
  {
    hide Ahead;
    r := [];
    for i := 0 to |s|
      invariant |r| == i && NoRepeats(r)
      invariant forall x :: x in r <==> x in s[..i]
      invariant Ordered(s, r, key)
    {
      var x := s[i];
      var j := PlaceFor(s, r, key, i);
      assert x !in r;
      var next := r[..j] + [x] + r[j..];
      forall y
        ensures y in next <==> y in s[..i + 1]
      {
        assert s[..i + 1] == s[..i] + [x];
        assert r == r[..j] + r[j..];
      }
      r := next;
    }
    assert s[..|s|] == s;
  }

  /** The elements of a set, listed in whatever order they are met. */
  method Listed(ids: set<Id>) returns (s: seq<Id>)
    ensures NoRepeats(s) && Elements(s) == ids && |s| == |ids|
  {
    s := [];
    var rest := ids;
    while rest != {}
      invariant rest <= ids && NoRepeats(s) && Elements(s) == ids - rest
      decreases rest
    {
      var x :| x in rest;
      assert x !in Elements(s);
      ghost var before := s;
      s, rest := s + [x], rest - {x};
      assert Elements(s) == Elements(before) + {x};
    }
    ElementsCount(s);
  }

  // ------------------------------------------------------------------ the facts behind the maps

  predicate Appears(cs: seq<Candidate>, o: Id) {
    exists c :: c in cs && c.occurrence == o
  }

  lemma {:induction false} OccurrencesAppear(cs: seq<Candidate>)
    ensures NoRepeats(Occurrences(cs))
    ensures forall o :: o in Occurrences(cs) <==> Appears(cs, o)
  {
    if cs != [] {
      var front := cs[..|cs| - 1];
      OccurrencesAppear(front);
      assert cs == front + [cs[|cs| - 1]];
      forall o
        ensures o in Occurrences(cs) <==> Appears(cs, o)
      {
        if Appears(front, o) {
          var c :| c in front && c.occurrence == o;
          assert c in cs;
        }
      }
    }
  }

  lemma {:induction false} OfGroupFilters(slots: Slots, occurrences: seq<Id>, g: Id)
    requires NoRepeats(occurrences)
    ensures NoRepeats(OfGroup(slots, occurrences, g))
    ensures forall o :: o in OfGroup(slots, occurrences, g) <==> o in occurrences && GroupOf(slots, o) == g
  {
    if occurrences != [] {
      var front := occurrences[..|occurrences| - 1];
      OfGroupFilters(slots, front, g);
      assert occurrences == front + [occurrences[|occurrences| - 1]];
    }
  }

  /** A group's members: the occurrences among the candidates that belong to it, each once. */
  lemma MembersAre(cs: seq<Candidate>, slots: Slots, g: Id)
    ensures NoRepeats(Members(cs, slots, g))
    ensures forall o :: o in Members(cs, slots, g) <==> Appears(cs, o) && GroupOf(slots, o) == g
  {
    OccurrencesAppear(cs);
    OfGroupFilters(slots, Occurrences(cs), g);
  }

  /** The tallies are about the candidates that tie the payment to the group: how many, and the largest distance. */
  lemma {:induction false} TalliesMean(cs: seq<Candidate>, slots: Slots, g: Id, t: Id)
    ensures Count(cs, slots, g, t) > 0 <==> exists c :: c in cs && Supports(slots, c, g, t)
    ensures forall c :: c in cs && Supports(slots, c, g, t) ==> c.distance <= Farthest(cs, slots, g, t)
    ensures Count(cs, slots, g, t) > 0 ==>
              exists c :: c in cs && Supports(slots, c, g, t) && c.distance == Farthest(cs, slots, g, t)
  {
    if cs != [] {
      var front, last := cs[..|cs| - 1], cs[|cs| - 1];
      TalliesMean(front, slots, g, t);
      assert cs == front + [last] && last in cs;
      if Count(front, slots, g, t) > 0 {
        var c :| c in front && Supports(slots, c, g, t) && c.distance == Farthest(front, slots, g, t);
        assert c in cs;
      } else {
        FarthestOfNone(front, slots, g, t);
      }
    }
  }

  lemma {:induction false} FarthestOfNone(cs: seq<Candidate>, slots: Slots, g: Id, t: Id)
    requires Count(cs, slots, g, t) == 0
    ensures Farthest(cs, slots, g, t) == 0
  {
    if cs != [] {
      FarthestOfNone(cs[..|cs| - 1], slots, g, t);
    }
  }

  lemma PoolIs(cs: seq<Candidate>, slots: Slots, g: Id)
    ensures forall t :: t in Pool(cs, slots, g) <==> Qualifies(cs, slots, g, t)
  {
    forall t | Qualifies(cs, slots, g, t)
      ensures t in Pool(cs, slots, g)
    {
      TalliesMean(cs, slots, g, t);
    }
  }

  // ------------------------------------------------------------------ the loops

  method InOrderMet(cs: seq<Candidate>) returns (occurrences: seq<Id>)
    ensures occurrences == Occurrences(cs)
  {
    occurrences := [];
    for i := 0 to |cs|
      invariant occurrences == Occurrences(cs[..i])
    {
      assert cs[..i + 1][..i] == cs[..i];
      if cs[i].occurrence !in occurrences {
        occurrences := occurrences + [cs[i].occurrence];
      }
    }
    assert cs[..|cs|] == cs;
  }

  method MembersByGroup(cs: seq<Candidate>, slots: Slots) returns (members: map<Id, seq<Id>>)
    ensures forall g :: g in members <==> Members(cs, slots, g) != []
    ensures forall g :: g in members ==> members[g] == Members(cs, slots, g)
  {
    hide Occurrences, GroupOf;
    var occurrences := InOrderMet(cs);
    members := map[];
    for i := 0 to |occurrences|
      invariant forall g :: g in members <==> OfGroup(slots, occurrences[..i], g) != []
      invariant forall g :: g in members ==> members[g] == OfGroup(slots, occurrences[..i], g)
    {
      assert occurrences[..i + 1][..i] == occurrences[..i];
      var group := GroupOf(slots, occurrences[i]);
      members := members[group := (if group in members then members[group] else []) + [occurrences[i]]];
    }
    assert occurrences[..|occurrences|] == occurrences;
  }

  method TalliesByGroup(cs: seq<Candidate>, slots: Slots) returns (tallies: map<(Id, Id), Tally>)
    ensures forall g: Id, t: Id :: (g, t) in tallies <==> Count(cs, slots, g, t) > 0
    ensures forall g: Id, t: Id ::
              (g, t) in tallies ==> tallies[(g, t)] == Tally(Count(cs, slots, g, t), Farthest(cs, slots, g, t))
  {
    tallies := map[];
    for i := 0 to |cs|
      invariant forall g: Id, t: Id :: (g, t) in tallies <==> Count(cs[..i], slots, g, t) > 0
      invariant forall g: Id, t: Id ::
                  (if (g, t) in tallies then tallies[(g, t)] else Tally(0, 0))
                  == Tally(Count(cs[..i], slots, g, t), Farthest(cs[..i], slots, g, t))
    {
      assert cs[..i + 1][..i] == cs[..i];
      var key := (GroupOf(slots, cs[i].occurrence), cs[i].transaction);
      var seen := if key in tallies then tallies[key] else Tally(0, 0);
      tallies := tallies[key := Tally(seen.count + 1, Max(seen.distance, cs[i].distance))];
    }
    assert cs[..|cs|] == cs;
  }

  predicate Ascending(s: seq<Id>, key: Id -> int) {
    forall i, j :: 0 <= i < j < |s| ==> key(s[i]) <= key(s[j])
  }

  function Within(pool: set<Id>, key: Id -> int, t: Id): set<Id> {
    set u | u in pool && key(u) <= key(t)
  }

  /** The members of a set whose key is at most that of `n` members. */
  function Leading(pool: set<Id>, key: Id -> int, n: nat): set<Id> {
    set t | t in pool && |Within(pool, key, t)| <= n
  }

  lemma Smaller(a: set<Id>, b: set<Id>)
    requires a <= b
    ensures |a| <= |b|
  {
    if a != {} {
      var x :| x in a;
      Smaller(a - {x}, b - {x});
    }
  }

  lemma WithinAtLeast(s: seq<Id>, key: Id -> int, i: nat, k: nat)
    requires NoRepeats(s) && Ascending(s, key) && i <= k < |s| && key(s[i]) == key(s[k])
    ensures |Within(Elements(s), key, s[i])| >= k + 1
  {
    ElementsCount(s[..k + 1]);
    forall t | t in Elements(s[..k + 1])
      ensures t in Within(Elements(s), key, s[i])
    {
      var j :| 0 <= j <= k && s[j] == t;
      assert s[j] in Elements(s);
    }
    Smaller(Elements(s[..k + 1]), Within(Elements(s), key, s[i]));
  }

  lemma WithinAtMost(s: seq<Id>, key: Id -> int, i: nat, k: nat)
    requires NoRepeats(s) && Ascending(s, key) && i < k <= |s| && (k < |s| ==> key(s[i]) < key(s[k]))
    ensures |Within(Elements(s), key, s[i])| <= k
  {
    ElementsCount(s[..k]);
    forall t | t in Within(Elements(s), key, s[i])
      ensures t in Elements(s[..k])
    {
      var j :| 0 <= j < |s| && s[j] == t;
      assert j < k;
      assert s[..k][j] == t;
    }
    Smaller(Within(Elements(s), key, s[i]), Elements(s[..k]));
  }

  /** Taking the first `n` of a sorted list takes the leading ones exactly when the cut-off is clear. */
  lemma CutIsLeading(s: seq<Id>, key: Id -> int, n: nat)
    requires NoRepeats(s) && Ascending(s, key) && n > 0
    ensures
      if |s| > n && key(s[n - 1]) == key(s[n]) then |Leading(Elements(s), key, n)| < n
      else Leading(Elements(s), key, n) == Elements(s[..Min(n, |s|)])
  {
    hide Within;
    var leading := Leading(Elements(s), key, n);
    var first := s[..Min(n, |s|)];
    forall i | 0 <= i < |s|
      ensures i >= n ==> s[i] !in leading
      ensures |s| > n && i < n && key(s[n - 1]) == key(s[n]) && key(s[i]) == key(s[n]) ==> s[i] !in leading
      ensures i < n && (|s| > n ==> key(s[i]) < key(s[n])) ==> s[i] in leading
    {
      assert s[i] in Elements(s);
      if i >= n { WithinAtLeast(s, key, i, i); }
      if |s| > n && i < n {
        if key(s[i]) == key(s[n]) {
          WithinAtLeast(s, key, i, n);
        } else {
          assert key(s[i]) <= key(s[n]);
          WithinAtMost(s, key, i, n);
        }
      } else if i < n {
        WithinAtMost(s, key, i, |s|);
      }
    }
    if |s| > n && key(s[n - 1]) == key(s[n]) {
      ElementsCount(s[..n - 1]);
      forall t | t in leading
        ensures t in Elements(s[..n - 1])
      {
        var i :| 0 <= i < |s| && s[i] == t;
        assert s[..n - 1][i] == t;
      }
      Smaller(leading, Elements(s[..n - 1]));
    } else {
      forall t
        ensures t in leading <==> t in Elements(first)
      {
        if t in leading {
          var i :| 0 <= i < |s| && s[i] == t;
          assert first[i] == t;
        }
        if t in Elements(first) {
          var i :| 0 <= i < |first| && first[i] == t;
          assert s[i] == t;
        }
      }
    }
  }

  lemma NearestIsLeading(cs: seq<Candidate>, slots: Slots, g: Id, key: Id -> int)
    requires forall t :: t in Pool(cs, slots, g) ==> key(t) == Farthest(cs, slots, g, t)
    ensures Nearest(cs, slots, g) == Leading(Pool(cs, slots, g), key, |Members(cs, slots, g)|)
  {
    hide Pool, Farthest, Members;
    var pool := Pool(cs, slots, g);
    forall t | t in pool
      ensures Rank(cs, slots, g, t) == |Within(pool, key, t)|
    {
      assert Within(pool, key, t) == set u | u in pool && Farthest(cs, slots, g, u) <= Farthest(cs, slots, g, t);
    }
    hide Rank, Within;
  }

  /** In the pool sorted by distance, the first payments up to a clear cut-off are the chosen ones. */
  lemma CutIsChosen(cs: seq<Candidate>, slots: Slots, g: Id, key: Id -> int, s: seq<Id>)
    requires Elements(s) == Pool(cs, slots, g) && NoRepeats(s) && Ascending(s, key)
    requires forall t :: t in Pool(cs, slots, g) ==> key(t) == Farthest(cs, slots, g, t)
    requires |Members(cs, slots, g)| > 0
    ensures
      var n := |Members(cs, slots, g)|;
      Chosen(cs, slots, g) ==
      if |s| > n && key(s[n - 1]) == key(s[n]) then {} else Elements(s[..Min(n, |s|)])
  {
    hide Pool, Farthest, Members, Nearest, Leading;
    var n := |Members(cs, slots, g)|;
    NearestIsLeading(cs, slots, g, key);
    CutIsLeading(s, key, n);
    ElementsCount(s);
    ElementsCount(s[..Min(n, |s|)]);
  }

  // ------------------------------------------------------------------ each payment's closest group

  datatype Choice = Choice(group: Option<Id>, distance: nat)

  predicate OneClosest(entries: map<(Id, Id), nat>, g: Id, t: Id) {
    (g, t) in entries && forall e | e in entries && e.1 == t && e.0 != g :: entries[(g, t)] < entries[e]
  }

  predicate ChoiceFits(entries: map<(Id, Id), nat>, met: set<(Id, Id)>, t: Id, choice: Choice)
    requires met <= entries.Keys
  {
    && (forall e | e in met && e.1 == t :: choice.distance <= entries[e])
    && match choice.group
       case Some(g) =>
         && (g, t) in met && entries[(g, t)] == choice.distance
         && (forall e | e in met && e.1 == t && e.0 != g :: choice.distance < entries[e])
       case None =>
         exists e, f :: e in met && f in met && e.1 == t && f.1 == t && e.0 != f.0
                        && entries[e] == choice.distance && entries[f] == choice.distance
  }

  lemma ChoiceStep(
      entries: map<(Id, Id), nat>, met: set<(Id, Id)>, e: (Id, Id), t: Id, before: Option<Choice>, after: Choice)
    requires met <= entries.Keys && e in entries && e !in met
    requires before.Some? ==> ChoiceFits(entries, met, t, before.value)
    requires before.None? ==> e.1 == t && forall f | f in met :: f.1 != t
    requires if e.1 != t then before == Some(after)
             else if before.None? || entries[e] < before.value.distance then after == Choice(Some(e.0), entries[e])
             else if entries[e] == before.value.distance then after == Choice(None, entries[e])
             else before == Some(after)
    ensures ChoiceFits(entries, met + {e}, t, after)
  {
    if e.1 == t && before.Some? && entries[e] == before.value.distance && before.value.group.Some? {
      assert (before.value.group.value, t) in met && e in met + {e};
    }
  }

  /** A payment's one closest group, met in any order. */
  method ClosestGroups(entries: map<(Id, Id), nat>) returns (closest: map<Id, Choice>)
    ensures forall g: Id, t: Id :: (t in closest && closest[t].group == Some(g)) <==> OneClosest(entries, g, t)
  {
    closest := map[];
    var rest := entries.Keys;
    while rest != {}
      invariant rest <= entries.Keys
      invariant forall t :: t in closest ==> ChoiceFits(entries, entries.Keys - rest, t, closest[t])
      invariant forall e :: e in entries.Keys - rest ==> e.1 in closest
      decreases rest
    {
      var candidate :| candidate in rest;
      var t, distance := candidate.1, entries[candidate];
      ghost var met := entries.Keys - rest;
      ghost var before := closest;
      rest := rest - {candidate};
      assert entries.Keys - rest == met + {candidate};
      if t !in closest || distance < closest[t].distance {
        closest := closest[t := Choice(Some(candidate.0), distance)];
      } else if distance == closest[t].distance {
        closest := closest[t := Choice(None, distance)];
      }
      forall u | u in closest
        ensures ChoiceFits(entries, met + {candidate}, u, closest[u])
      {
        ChoiceStep(entries, met, candidate, u, if u in before then Some(before[u]) else None, closest[u]);
      }
    }
    forall g: Id, t: Id | OneClosest(entries, g, t)
      ensures t in closest && closest[t].group == Some(g)
    {
      assert (g, t) in entries.Keys - rest;
      assert ChoiceFits(entries, entries.Keys, t, closest[t]);
    }
  }

  // ------------------------------------------------------------------ the pairing

  function ById(): Id -> int {
    (t: Id) => t
  }

  lemma BelowIsAhead(listed: seq<Id>, t: Id)
    ensures (set u | u in listed && Ahead(listed, ById(), u, t)) == set u | u in Elements(listed) && u < t
  {
    forall u: Id
      ensures u in listed && Ahead(listed, ById(), u, t) <==> u in Elements(listed) && u < t
    {
    }
  }

  predicate Gives(pairs: map<Id, Id>, o: Id, t: Id) {
    o in pairs && pairs[o] == t
  }

  predicate Dealt(ordered: seq<Id>, mutual: seq<Id>, n: nat, o: Id, t: Id)
    requires n <= |ordered|
  {
    exists k :: 0 <= k < n && k < |mutual| && ordered[k] == o && mutual[k] == t
  }

  lemma DealtStep(ordered: seq<Id>, mutual: seq<Id>, n: nat, o: Id, t: Id)
    requires n < |ordered| && NoRepeats(ordered)
    ensures Dealt(ordered, mutual, n + 1, o, t) <==>
            if o == ordered[n] then n < |mutual| && t == mutual[n] else Dealt(ordered, mutual, n, o, t)
  {
    if n < |mutual| && o == ordered[n] && t == mutual[n] {
      assert ordered[n] == o && mutual[n] == t;
    }
  }

  /** Handing a group's sorted payments to its sorted members, index by index, pairs exactly what Paired says. */
  lemma HandOut(cs: seq<Candidate>, slots: Slots, g: Id, ordered: seq<Id>, listed: seq<Id>, mutual: seq<Id>, o: Id,
        t: Id)
    requires Ordered(Members(cs, slots, g), ordered, BySlot(slots))
    requires NoRepeats(ordered) && Elements(ordered) == Elements(Members(cs, slots, g))
    requires Ordered(listed, mutual, ById()) && NoRepeats(listed) && NoRepeats(mutual)
    requires Elements(mutual) == Elements(listed) == Mutual(cs, slots, g)
    requires GroupOf(slots, o) == g
    ensures Paired(cs, slots, o, t) <==> Dealt(ordered, mutual, |ordered|, o, t)
  {
    hide Members, Mutual, GroupOf;
    var members := Members(cs, slots, g);
    forall k | 0 <= k < |ordered|
      ensures ordered[k] == o ==> k == Place(cs, slots, o)
    {
      OrderedIndex(members, ordered, BySlot(slots), k);
    }
    forall k | 0 <= k < |mutual|
      ensures k == Below(Mutual(cs, slots, g), mutual[k])
    {
      OrderedIndex(listed, mutual, ById(), k);
      BelowIsAhead(listed, mutual[k]);
    }
    if Paired(cs, slots, o, t) {
      assert o in Elements(ordered) && t in Elements(mutual);
      var k :| 0 <= k < |ordered| && ordered[k] == o;
      var j :| 0 <= j < |mutual| && mutual[j] == t;
      assert k == j;
    }
    if Dealt(ordered, mutual, |ordered|, o, t) {
      assert o in Elements(ordered) && t in Elements(mutual);
    }
  }

  lemma OneClosestIsClosest(cs: seq<Candidate>, slots: Slots, entries: map<(Id, Id), nat>, g: Id, t: Id)
    requires forall h: Id, u: Id :: (h, u) in entries <==> Qualifies(cs, slots, h, u)
    requires forall h: Id, u: Id :: (h, u) in entries ==> entries[(h, u)] == Farthest(cs, slots, h, u)
    ensures OneClosest(entries, g, t) <==> Closest(cs, slots, g, t)
  {
    hide Farthest, Members;
    if Closest(cs, slots, g, t) {
      forall e | e in entries && e.1 == t && e.0 != g
        ensures entries[(g, t)] < entries[e]
      {
        assert (e.0, e.1) in entries;
        TalliesMean(cs, slots, e.0, t);
        var c :| c in cs && Supports(slots, c, e.0, t);
      }
    }
    if OneClosest(entries, g, t) {
      forall c | c in cs && GroupOf(slots, c.occurrence) != g && Qualifies(cs, slots, GroupOf(slots, c.occurrence), t)
        ensures Farthest(cs, slots, g, t) < Farthest(cs, slots, GroupOf(slots, c.occurrence), t)
      {
        assert (GroupOf(slots, c.occurrence), t) in entries;
      }
    }
  }

  /** A group's closest payments up to its capacity, or nothing when the cut-off is a tie. */
  method Choose(
      ghost cs: seq<Candidate>, ghost slots: Slots, g: Id, capacity: nat, entries: map<(Id, Id), nat>)
    returns (chosen: set<Id>)
    requires capacity == |Members(cs, slots, g)| > 0
    requires forall u: Id :: (g, u) in entries <==> u in Pool(cs, slots, g)
    requires forall u: Id :: (g, u) in entries ==> entries[(g, u)] == Farthest(cs, slots, g, u)
    ensures chosen == Chosen(cs, slots, g)
  {
    hide Pool, Farthest, Members, Chosen;
    var distance := (t: Id) => if (g, t) in entries then entries[(g, t)] else 0;
    var mine := Listed(set e | e in entries && e.0 == g :: e.1);
    assert Elements(mine) == Pool(cs, slots, g) by {
      forall u
        ensures u in Elements(mine) <==> u in Pool(cs, slots, g)
      {
        if u in Pool(cs, slots, g) { assert (g, u) in entries; }
        if u in Elements(mine) {
          var e :| e in entries && e.0 == g && e.1 == u;
          assert e == (g, u);
        }
      }
    }
    var sorted := StableSort(mine, distance);
    assert Ascending(sorted, distance) by {
      forall i, j | 0 <= i < j < |sorted|
        ensures distance(sorted[i]) <= distance(sorted[j])
      {
        assert Ahead(mine, distance, sorted[i], sorted[j]);
      }
    }
    CutIsChosen(cs, slots, g, distance, sorted);
    if |sorted| > capacity && distance(sorted[capacity - 1]) == distance(sorted[capacity]) {
      chosen := {};
    } else {
      chosen := set t | t in sorted[..Min(capacity, |sorted|)];
    }
  }

  /** One group's payments to its members. */
  method HandOutGroup(
      ghost cs: seq<Candidate>, slots: Slots, g: Id, members: seq<Id>, mutual: set<Id>, pairs: map<Id, Id>)
    returns (next: map<Id, Id>)
    requires members == Members(cs, slots, g) && mutual == Mutual(cs, slots, g)
    requires forall o :: o in pairs ==> GroupOf(slots, o) != g
    ensures forall o: Id :: GroupOf(slots, o) != g ==>
              ((o in next) == (o in pairs)) && (o in pairs ==> next[o] == pairs[o])
    ensures forall o: Id, t: Id :: GroupOf(slots, o) == g ==> (Gives(next, o, t) <==> Paired(cs, slots, o, t))
  {
    hide Members, Mutual, GroupOf, Paired, Ahead;
    MembersAre(cs, slots, g);
    var listed := Listed(mutual);
    var sorted := StableSort(listed, ById());
    var ordered := StableSort(members, BySlot(slots));
    next := pairs;
    for index := 0 to |ordered|
      invariant forall o: Id :: GroupOf(slots, o) != g ==>
                  ((o in next) == (o in pairs)) && (o in pairs ==> next[o] == pairs[o])
      invariant forall o: Id, t: Id :: GroupOf(slots, o) == g ==>
                  (Gives(next, o, t) <==> Dealt(ordered, sorted, index, o, t))
    {
      assert GroupOf(slots, ordered[index]) == g by {
        assert ordered[index] in Elements(ordered);
        assert ordered[index] in Elements(members);
      }
      ghost var before := next;
      if index < |sorted| {
        next := next[ordered[index] := sorted[index]];
      }
      forall o: Id, t: Id | GroupOf(slots, o) == g
        ensures Gives(next, o, t) <==> Dealt(ordered, sorted, index + 1, o, t)
      {
        assert Dealt(ordered, sorted, index, o, t) <==> Gives(before, o, t);
        DealtStep(ordered, sorted, index, o, t);
      }
    }
    forall o: Id, t: Id | GroupOf(slots, o) == g
      ensures Gives(next, o, t) <==> Paired(cs, slots, o, t)
    {
      HandOut(cs, slots, g, ordered, listed, sorted, o, t);
    }
  }

  method PairClosest(cs: seq<Candidate>, slots: Slots) returns (pairs: map<Id, Id>)
    ensures forall o: Id, t: Id :: Gives(pairs, o, t) <==> Paired(cs, slots, o, t)
  {
    hide Members, Mutual, GroupOf, Paired, Farthest, Count, Pool, Chosen;
    var members := MembersByGroup(cs, slots);
    var tallies := TalliesByGroup(cs, slots);
    forall g: Id, t: Id | (g, t) in tallies
      ensures g in members
    {
      GroupHasMembers(cs, slots, g, t);
    }
    var entries := map k | k in tallies && tallies[k].count == |members[k.0]| :: tallies[k].distance;
    forall g: Id, t: Id
      ensures (g, t) in entries <==> Qualifies(cs, slots, g, t)
      ensures (g, t) in entries ==> entries[(g, t)] == Farthest(cs, slots, g, t)
    {
      if Qualifies(cs, slots, g, t) { assert (g, t) in tallies; }
    }
    var chosen: map<Id, set<Id>> := map[];
    var rest := members.Keys;
    while rest != {}
      invariant rest <= members.Keys && chosen.Keys == members.Keys - rest
      invariant forall g :: g in chosen ==> chosen[g] == Chosen(cs, slots, g)
      decreases rest
    {
      var g :| g in rest;
      PoolIs(cs, slots, g);
      var mine := Choose(cs, slots, g, |members[g]|, entries);
      chosen, rest := chosen[g := mine], rest - {g};
    }
    var closest := ClosestGroups(entries);
    pairs := map[];
    rest := chosen.Keys;
    while rest != {}
      invariant rest <= members.Keys
      invariant forall o :: o in pairs ==> GroupOf(slots, o) in members.Keys - rest
      invariant forall o: Id, t: Id :: GroupOf(slots, o) in members.Keys - rest ==>
                  (Gives(pairs, o, t) <==> Paired(cs, slots, o, t))
      decreases rest
    {
      var g :| g in rest;
      var mutual := set t | t in chosen[g] && t in closest && closest[t].group == Some(g);
      assert mutual == Mutual(cs, slots, g) by {
        MutualIs(cs, slots, g, entries, closest);
      }
      ghost var before := pairs;
      pairs := HandOutGroup(cs, slots, g, members[g], mutual, pairs);
      rest := rest - {g};
    }
    forall o: Id, t: Id
      ensures Gives(pairs, o, t) <==> Paired(cs, slots, o, t)
    {
      if Paired(cs, slots, o, t) { PairedHasMembers(cs, slots, o, t); }
    }
  }

  lemma GroupHasMembers(cs: seq<Candidate>, slots: Slots, g: Id, t: Id)
    requires Count(cs, slots, g, t) > 0
    ensures Members(cs, slots, g) != []
  {
    TalliesMean(cs, slots, g, t);
    MembersAre(cs, slots, g);
    var c :| c in cs && Supports(slots, c, g, t);
    assert Appears(cs, c.occurrence);
    assert c.occurrence in Members(cs, slots, g);
  }

  lemma PairedHasMembers(cs: seq<Candidate>, slots: Slots, o: Id, t: Id)
    requires Paired(cs, slots, o, t)
    ensures Members(cs, slots, GroupOf(slots, o)) != []
  {
  }

  lemma MutualIs(cs: seq<Candidate>, slots: Slots, g: Id, entries: map<(Id, Id), nat>, closest: map<Id, Choice>)
    requires forall h: Id, u: Id :: (h, u) in entries <==> Qualifies(cs, slots, h, u)
    requires forall h: Id, u: Id :: (h, u) in entries ==> entries[(h, u)] == Farthest(cs, slots, h, u)
    requires forall h: Id, t: Id :: (t in closest && closest[t].group == Some(h)) <==> OneClosest(entries, h, t)
    ensures Mutual(cs, slots, g) == set t | t in Chosen(cs, slots, g) && t in closest && closest[t].group == Some(g)
  {
    hide Chosen, Qualifies, Farthest, Closest, OneClosest;
    forall t: Id
      ensures Closest(cs, slots, g, t) <==> t in closest && closest[t].group == Some(g)
    {
      OneClosestIsClosest(cs, slots, entries, g, t);
    }
  }
}
