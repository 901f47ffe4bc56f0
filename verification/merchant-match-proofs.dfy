/** What a pairing guarantees. */
module MerchantMatchProofs {
  import opened MerchantMatch

  predicate Distinct(cs: seq<Candidate>) {
    forall i, j :: 0 <= i < j < |cs| ==> cs[i].occurrence != cs[j].occurrence || cs[i].transaction != cs[j].transaction
  }

  predicate IsCandidate(cs: seq<Candidate>, o: Id, t: Id) {
    exists c :: c in cs && c.occurrence == o && c.transaction == t
  }

  // ------------------------------------------------------------------ qualifying for every member

  function Supporters(cs: seq<Candidate>, slots: Slots, g: Id, t: Id): set<Id> {
    set c | c in cs && Supports(slots, c, g, t) :: c.occurrence
  }

  lemma {:induction false} CountIsSupporters(cs: seq<Candidate>, slots: Slots, g: Id, t: Id)
    requires Distinct(cs)
    ensures Count(cs, slots, g, t) == |Supporters(cs, slots, g, t)|
  {
    if cs != [] {
      var front, last := cs[..|cs| - 1], cs[|cs| - 1];
      CountIsSupporters(front, slots, g, t);
      assert cs == front + [last];
      if Supports(slots, last, g, t) {
        assert Supporters(cs, slots, g, t) == Supporters(front, slots, g, t) + {last.occurrence};
        assert last.occurrence !in Supporters(front, slots, g, t);
      } else {
        assert Supporters(cs, slots, g, t) == Supporters(front, slots, g, t);
      }
    }
  }

  lemma SameSize(a: set<Id>, b: set<Id>)
    requires a <= b && |a| == |b|
    ensures a == b
  {
    if a != b {
      var x :| x in b && x !in a;
      Smaller(a, b - {x});
    }
  }

  /** With no candidate listed twice, the count says: the payment qualifies for every member of the group. */
  lemma QualifiesForEveryMember(cs: seq<Candidate>, slots: Slots, g: Id, t: Id)
    requires Distinct(cs)
    ensures Qualifies(cs, slots, g, t) <==>
            Members(cs, slots, g) != [] && forall o :: o in Members(cs, slots, g) ==> IsCandidate(cs, o, t)
  {
    hide Members, Count;
    var members, supporters := Members(cs, slots, g), Supporters(cs, slots, g, t);
    MembersAre(cs, slots, g);
    ElementsCount(members);
    CountIsSupporters(cs, slots, g, t);
    forall o | o in supporters
      ensures o in members && IsCandidate(cs, o, t)
    {
      var c :| c in cs && Supports(slots, c, g, t) && c.occurrence == o;
      assert Appears(cs, o);
    }
    assert supporters <= Elements(members);
    if Qualifies(cs, slots, g, t) {
      SameSize(supporters, Elements(members));
      forall o | o in members
        ensures IsCandidate(cs, o, t)
      {
        assert o in Elements(members);
      }
    }
    if members != [] && forall o :: o in members ==> IsCandidate(cs, o, t) {
      forall o | o in Elements(members)
        ensures o in supporters
      {
        var c :| c in cs && c.occurrence == o && c.transaction == t;
        assert Supports(slots, c, g, t);
      }
      Smaller(Elements(members), supporters);
      Smaller(supporters, Elements(members));
      SameSize(supporters, Elements(members));
      assert members[0] in Elements(members);
    }
  }

  lemma MutualQualifies(cs: seq<Candidate>, slots: Slots, g: Id, t: Id)
    requires t in Mutual(cs, slots, g)
    ensures Qualifies(cs, slots, g, t) && Closest(cs, slots, g, t)
  {
  }

  /** Only candidates are paired, and a payment given to one slot qualifies for all of them. */
  lemma PairsAreCandidates(cs: seq<Candidate>, slots: Slots, o: Id, t: Id)
    requires Distinct(cs) && Paired(cs, slots, o, t)
    ensures IsCandidate(cs, o, t)
    ensures forall m :: m in Members(cs, slots, GroupOf(slots, o)) ==> IsCandidate(cs, m, t)
  {
    hide Members, Qualifies, Closest;
    QualifiesForEveryMember(cs, slots, GroupOf(slots, o), t);
  }

  // ------------------------------------------------------------------ ranks

  predicate StrictOrder(s: set<Id>, before: (Id, Id) -> bool) {
    && (forall a :: a in s ==> !before(a, a))
    && (forall a, b :: a in s && b in s && a != b ==> before(a, b) || before(b, a))
    && (forall a, b, c :: a in s && b in s && c in s && before(a, b) && before(b, c) ==> before(a, c))
  }

  function AheadOf(s: set<Id>, before: (Id, Id) -> bool, x: Id): set<Id> {
    set y | y in s && before(y, x)
  }

  lemma RankGrows(s: set<Id>, before: (Id, Id) -> bool, a: Id, b: Id)
    requires StrictOrder(s, before) && a in s && b in s
    ensures before(a, b) <==> |AheadOf(s, before, a)| < |AheadOf(s, before, b)|
    ensures a == b <==> |AheadOf(s, before, a)| == |AheadOf(s, before, b)|
  {
    if before(a, b) {
      Smaller(AheadOf(s, before, a) + {a}, AheadOf(s, before, b));
    } else if a != b {
      Smaller(AheadOf(s, before, b) + {b}, AheadOf(s, before, a));
    }
  }

  lemma {:induction false} RankOnto(s: set<Id>, before: (Id, Id) -> bool, k: nat) returns (x: Id)
    requires StrictOrder(s, before) && k < |s|
    ensures x in s && |AheadOf(s, before, x)| == k
    decreases s
  {
    var last := Last(s, before);
    var rest := s - {last};
    if k == |s| - 1 {
      x := last;
      assert AheadOf(s, before, last) == rest;
    } else {
      x := RankOnto(rest, before, k);
      assert AheadOf(s, before, x) == AheadOf(rest, before, x);
    }
  }

  lemma {:induction false} Last(s: set<Id>, before: (Id, Id) -> bool) returns (last: Id)
    requires StrictOrder(s, before) && s != {}
    ensures last in s && forall y :: y in s && y != last ==> before(y, last)
    decreases s
  {
    var x :| x in s;
    if s == {x} {
      last := x;
    } else {
      var other := Last(s - {x}, before);
      last := if before(x, other) then other else x;
    }
  }

  function InSlotOrder(cs: seq<Candidate>, slots: Slots, g: Id): (Id, Id) -> bool {
    (a: Id, b: Id) => Ahead(Members(cs, slots, g), BySlot(slots), a, b)
  }

  function InIdOrder(): (Id, Id) -> bool {
    (a: Id, b: Id) => a < b
  }

  lemma PlaceIsRank(cs: seq<Candidate>, slots: Slots, g: Id)
    ensures StrictOrder(Elements(Members(cs, slots, g)), InSlotOrder(cs, slots, g))
    ensures forall o :: GroupOf(slots, o) == g ==>
              Place(cs, slots, o) == |AheadOf(Elements(Members(cs, slots, g)), InSlotOrder(cs, slots, g), o)|
  {
    hide Members;
    forall o | GroupOf(slots, o) == g
      ensures Place(cs, slots, o) == |AheadOf(Elements(Members(cs, slots, g)), InSlotOrder(cs, slots, g), o)|
    {
      var members := Members(cs, slots, g);
      assert (set m | m in members && Ahead(members, BySlot(slots), m, o))
          == AheadOf(Elements(members), InSlotOrder(cs, slots, g), o);
    }
  }

  lemma BelowIsRank(ids: set<Id>)
    ensures StrictOrder(ids, InIdOrder())
    ensures forall t: Id :: Below(ids, t) == |AheadOf(ids, InIdOrder(), t)|
  {
    forall t: Id
      ensures Below(ids, t) == |AheadOf(ids, InIdOrder(), t)|
    {
      assert (set u | u in ids && u < t) == AheadOf(ids, InIdOrder(), t);
    }
  }

  // ------------------------------------------------------------------ a partial injection

  lemma OneClosestGroup(cs: seq<Candidate>, slots: Slots, g: Id, h: Id, t: Id)
    requires Closest(cs, slots, g, t) && Closest(cs, slots, h, t)
    ensures g == h
  {
    hide Members, Farthest;
    TalliesMean(cs, slots, g, t);
    TalliesMean(cs, slots, h, t);
    var c :| c in cs && Supports(slots, c, g, t);
    var d :| d in cs && Supports(slots, d, h, t);
  }

  /** An occurrence takes at most one payment, and a payment goes to at most one occurrence. */
  lemma PairingIsInjective(cs: seq<Candidate>, slots: Slots, o: Id, t: Id, p: Id, u: Id)
    requires Paired(cs, slots, o, t) && Paired(cs, slots, p, u)
    ensures o == p <==> t == u
  {
    hide Members, Mutual, Place, Below, Closest;
    var g, h := GroupOf(slots, o), GroupOf(slots, p);
    if t == u {
      MutualQualifies(cs, slots, g, t);
      MutualQualifies(cs, slots, h, t);
      OneClosestGroup(cs, slots, g, h, t);
    }
    if g == h {
      PlaceIsRank(cs, slots, g);
      BelowIsRank(Mutual(cs, slots, g));
      RankGrows(Elements(Members(cs, slots, g)), InSlotOrder(cs, slots, g), o, p);
      RankGrows(Mutual(cs, slots, g), InIdOrder(), t, u);
    }
  }

  // ------------------------------------------------------------------ slots

  lemma {:induction false} MutualFits(cs: seq<Candidate>, slots: Slots, g: Id)
    ensures |Mutual(cs, slots, g)| <= |Members(cs, slots, g)|
  {
    hide Members, Nearest, Pool;
    Smaller(Mutual(cs, slots, g), Chosen(cs, slots, g));
  }

  /** Every payment of a group is handed out, and to the members that come first in slot order. */
  lemma SlotsFillFromTheLowest(cs: seq<Candidate>, slots: Slots, o: Id)
    requires Appears(cs, o)
    ensures (exists t :: Paired(cs, slots, o, t)) <==> Place(cs, slots, o) < |Mutual(cs, slots, GroupOf(slots, o))|
  {
    hide Members, Mutual, Place, Below;
    var g := GroupOf(slots, o);
    var mutual := Mutual(cs, slots, g);
    MembersAre(cs, slots, g);
    BelowIsRank(mutual);
    if Place(cs, slots, o) < |mutual| {
      var t := RankOnto(mutual, InIdOrder(), Place(cs, slots, o));
      assert Paired(cs, slots, o, t);
    }
    if t :| Paired(cs, slots, o, t) {
      BelowLess(mutual, t);
    }
  }

  lemma BelowLess(ids: set<Id>, t: Id)
    requires t in ids
    ensures Below(ids, t) < |ids|
  {
    var below := set u | u in ids && u < t;
    Smaller(below, ids - {t});
  }

  lemma EveryMutualIsPaired(cs: seq<Candidate>, slots: Slots, g: Id, t: Id)
    requires t in Mutual(cs, slots, g)
    ensures exists o :: GroupOf(slots, o) == g && Paired(cs, slots, o, t)
  {
    hide Members, Mutual, Place, Below;
    var mutual := Mutual(cs, slots, g);
    BelowLess(mutual, t);
    MutualFits(cs, slots, g);
    MembersAre(cs, slots, g);
    ElementsCount(Members(cs, slots, g));
    PlaceIsRank(cs, slots, g);
    var o := RankOnto(Elements(Members(cs, slots, g)), InSlotOrder(cs, slots, g), Below(mutual, t));
    assert Paired(cs, slots, o, t);
  }

  /** Within a group the order of slots is the order of payment ids. */
  lemma SlotOrderIsIdOrder(cs: seq<Candidate>, slots: Slots, o: Id, t: Id, p: Id, u: Id)
    requires Paired(cs, slots, o, t) && Paired(cs, slots, p, u) && GroupOf(slots, o) == GroupOf(slots, p)
    ensures SlotOf(slots, o) < SlotOf(slots, p) ==> t < u
    ensures t < u ==> SlotOf(slots, o) <= SlotOf(slots, p)
  {
    hide Members, Mutual, Place, Below;
    var g := GroupOf(slots, o);
    PlaceIsRank(cs, slots, g);
    BelowIsRank(Mutual(cs, slots, g));
    RankGrows(Elements(Members(cs, slots, g)), InSlotOrder(cs, slots, g), o, p);
    RankGrows(Mutual(cs, slots, g), InIdOrder(), t, u);
  }

  // ------------------------------------------------------------------ the closest payments

  /** `c` is a full load of a group's payments, each strictly closer than every payment left out. */
  predicate ClearCut(cs: seq<Candidate>, slots: Slots, g: Id, chosen: set<Id>) {
    && chosen <= Pool(cs, slots, g)
    && |chosen| == Capacity(cs, slots, g)
    && forall t, u :: t in chosen && u in Pool(cs, slots, g) - chosen ==> Farthest(cs, slots, g, t) < Farthest(cs, slots, g, u)
  }

  /** A group takes exactly its clear cut when there is one, and nothing when a tie leaves none. */
  lemma ChosenIsTheClearCut(cs: seq<Candidate>, slots: Slots, g: Id, chosen: set<Id>)
    ensures ClearCut(cs, slots, g, chosen) ==> Chosen(cs, slots, g) == chosen
    ensures Chosen(cs, slots, g) != {} ==> ClearCut(cs, slots, g, Chosen(cs, slots, g))
  {
    hide Pool, Members, Farthest;
    var pool, n := Pool(cs, slots, g), |Members(cs, slots, g)|;
    forall t, u | t in pool && u in pool && Farthest(cs, slots, g, u) <= Farthest(cs, slots, g, t)
      ensures Rank(cs, slots, g, u) <= Rank(cs, slots, g, t)
    {
      Smaller(
        set v | v in pool && Farthest(cs, slots, g, v) <= Farthest(cs, slots, g, u),
        set v | v in pool && Farthest(cs, slots, g, v) <= Farthest(cs, slots, g, t));
    }
    if ClearCut(cs, slots, g, chosen) {
      forall t | t in pool
        ensures t in chosen <==> Rank(cs, slots, g, t) <= n
      {
        var within := set v | v in pool && Farthest(cs, slots, g, v) <= Farthest(cs, slots, g, t);
        if t in chosen {
          Smaller(within, chosen);
        } else {
          Smaller(chosen + {t}, within);
          Smaller(chosen + {t}, pool);
        }
      }
      assert Nearest(cs, slots, g) == chosen;
    }
  }

  // ------------------------------------------------------------------ no slots

  lemma AloneWithoutSlots(cs: seq<Candidate>, o: Id)
    requires Appears(cs, o)
    ensures Members(cs, map[], o) == [o]
  {
    hide Members;
    var members := Members(cs, map[], o);
    MembersAre(cs, map[], o);
    assert o in members;
    ElementsCount(members);
    assert Elements(members) == {o};
  }

  predicate Nearer(cs: seq<Candidate>, c: Candidate) {
    && (forall d :: d in cs && d != c && d.occurrence == c.occurrence ==> c.distance < d.distance)
    && (forall d :: d in cs && d != c && d.transaction == c.transaction ==> c.distance < d.distance)
  }

  lemma WithoutSlotsMeans(cs: seq<Candidate>, o: Id, t: Id)
    requires Distinct(cs)
    ensures Qualifies(cs, map[], o, t) <==> IsCandidate(cs, o, t)
    ensures forall c :: c in cs && c.occurrence == o && c.transaction == t ==> Farthest(cs, map[], o, t) == c.distance
  {
    hide Members, Count, Farthest;
    QualifiesForEveryMember(cs, map[], o, t);
    TalliesMean(cs, map[], o, t);
    if Appears(cs, o) { AloneWithoutSlots(cs, o); }
    if Qualifies(cs, map[], o, t) {
      var c :| c in cs && Supports(map[], c, o, t);
      assert Appears(cs, o);
    }
    if IsCandidate(cs, o, t) { assert Appears(cs, o); }
    forall c | c in cs && c.occurrence == o && c.transaction == t
      ensures Farthest(cs, map[], o, t) == c.distance
    {
      assert Supports(map[], c, o, t);
      var d :| d in cs && Supports(map[], d, o, t) && d.distance == Farthest(cs, map[], o, t);
      var i :| 0 <= i < |cs| && cs[i] == c;
      var j :| 0 <= j < |cs| && cs[j] == d;
    }
  }

  lemma OneOf(s: set<Id>, t: Id)
    requires t in s && |s| <= 1
    ensures s == {t}
  {
    SameSize({t}, s);
  }

  /** Without slots a pair is linked exactly when each is the other's unique closest candidate. */
  lemma WithoutSlotsMutualClosest(cs: seq<Candidate>, o: Id, t: Id)
    requires Distinct(cs)
    ensures Paired(cs, map[], o, t) <==> exists c :: c in cs && c.occurrence == o && c.transaction == t && Nearer(cs, c)
  {
    hide Members, Count, Farthest, Chosen, Closest, Place, Below, Pool;
    MembersAre(cs, map[], o);
    if Paired(cs, map[], o, t) {
      AloneWithoutSlots(cs, o);
      PairedIsNearer(cs, o, t);
    }
    if c :| c in cs && c.occurrence == o && c.transaction == t && Nearer(cs, c) {
      assert Appears(cs, o);
      AloneWithoutSlots(cs, o);
      NearerIsMutual(cs, c);
      MutualFits(cs, map[], o);
      OneOf(Mutual(cs, map[], o), t);
      PlaceAlone(cs, o, t);
    }
  }

  lemma PlaceAlone(cs: seq<Candidate>, o: Id, t: Id)
    requires Members(cs, map[], o) == [o]
    ensures Place(cs, map[], o) == 0 && Below({t}, t) == 0
  {
    hide Members;
    var alone, only := [o], {t};
    assert (set m | m in alone && Ahead(alone, BySlot(map[]), m, o)) == {};
    assert (set u | u in only && u < t) == {};
  }

  lemma PairedIsNearer(cs: seq<Candidate>, o: Id, t: Id)
    requires Distinct(cs) && Members(cs, map[], o) == [o] && t in Mutual(cs, map[], o)
    ensures exists c :: c in cs && c.occurrence == o && c.transaction == t && Nearer(cs, c)
  {
    hide Members, Count, Farthest, Chosen, Pool;
    MutualQualifies(cs, map[], o, t);
    WithoutSlotsMeans(cs, o, t);
    var c :| c in cs && c.occurrence == o && c.transaction == t;
    ChosenIsTheClearCut(cs, map[], o, {});
    var chosen := Chosen(cs, map[], o);
    OneOf(chosen, t);
    PoolIs(cs, map[], o);
    forall d | d in cs && d != c && d.occurrence == o
      ensures c.distance < d.distance
    {
      DistinctPair(cs, c, d);
      WithoutSlotsMeans(cs, o, d.transaction);
      assert IsCandidate(cs, o, d.transaction);
      assert d.transaction in Pool(cs, map[], o) - chosen;
    }
    forall d | d in cs && d != c && d.transaction == t
      ensures c.distance < d.distance
    {
      DistinctPair(cs, c, d);
      WithoutSlotsMeans(cs, d.occurrence, t);
      assert IsCandidate(cs, d.occurrence, t);
      assert GroupOf(map[], d.occurrence) == d.occurrence;
    }
    assert Nearer(cs, c);
  }

  lemma DistinctPair(cs: seq<Candidate>, c: Candidate, d: Candidate)
    requires Distinct(cs) && c in cs && d in cs && c != d
    ensures c.occurrence != d.occurrence || c.transaction != d.transaction
  {
    var i :| 0 <= i < |cs| && cs[i] == c;
    var j :| 0 <= j < |cs| && cs[j] == d;
  }

  lemma NearerIsMutual(cs: seq<Candidate>, c: Candidate)
    requires Distinct(cs) && c in cs && Nearer(cs, c) && Members(cs, map[], c.occurrence) == [c.occurrence]
    ensures c.transaction in Mutual(cs, map[], c.occurrence)
  {
    hide Members, Count, Farthest, Chosen, Pool;
    var o, t := c.occurrence, c.transaction;
    WithoutSlotsMeans(cs, o, t);
    assert IsCandidate(cs, o, t);
    PoolIs(cs, map[], o);
    assert t in Pool(cs, map[], o);
    Smaller({t}, Pool(cs, map[], o));
    forall u | u in Pool(cs, map[], o) - {t}
      ensures Farthest(cs, map[], o, t) < Farthest(cs, map[], o, u)
    {
      WithoutSlotsMeans(cs, o, u);
      var d :| d in cs && d.occurrence == o && d.transaction == u;
    }
    assert ClearCut(cs, map[], o, {t});
    ChosenIsTheClearCut(cs, map[], o, {t});
    forall d | d in cs && GroupOf(map[], d.occurrence) != o && Qualifies(cs, map[], GroupOf(map[], d.occurrence), t)
      ensures Farthest(cs, map[], o, t) < Farthest(cs, map[], GroupOf(map[], d.occurrence), t)
    {
      WithoutSlotsMeans(cs, d.occurrence, t);
      var e :| e in cs && e.occurrence == d.occurrence && e.transaction == t;
    }
  }

  // ------------------------------------------------------------------ the order of the candidates

  ghost predicate SameCandidates(cs: seq<Candidate>, ds: seq<Candidate>) {
    forall c :: c in cs <==> c in ds
  }

  ghost predicate SlotsDiffer(cs: seq<Candidate>, slots: Slots) {
    forall o, m :: Appears(cs, o) && Appears(cs, m) && o != m && GroupOf(slots, o) == GroupOf(slots, m) ==>
      SlotOf(slots, o) != SlotOf(slots, m)
  }

  lemma SameMembers(cs: seq<Candidate>, ds: seq<Candidate>, slots: Slots, g: Id)
    requires SameCandidates(cs, ds)
    ensures Elements(Members(cs, slots, g)) == Elements(Members(ds, slots, g))
    ensures |Members(cs, slots, g)| == |Members(ds, slots, g)|
  {
    hide Members;
    MembersAre(cs, slots, g);
    MembersAre(ds, slots, g);
    assert forall o :: Appears(cs, o) <==> Appears(ds, o);
    ElementsCount(Members(cs, slots, g));
    ElementsCount(Members(ds, slots, g));
    assert forall o :: o in Elements(Members(cs, slots, g)) <==> o in Elements(Members(ds, slots, g));
  }

  lemma SameTallies(cs: seq<Candidate>, ds: seq<Candidate>, slots: Slots, g: Id, t: Id)
    requires SameCandidates(cs, ds) && Distinct(cs) && Distinct(ds)
    ensures Count(cs, slots, g, t) == Count(ds, slots, g, t)
    ensures Farthest(cs, slots, g, t) == Farthest(ds, slots, g, t)
    ensures Qualifies(cs, slots, g, t) <==> Qualifies(ds, slots, g, t)
  {
    hide Members;
    CountIsSupporters(cs, slots, g, t);
    CountIsSupporters(ds, slots, g, t);
    assert Supporters(cs, slots, g, t) == Supporters(ds, slots, g, t);
    TalliesMean(cs, slots, g, t);
    TalliesMean(ds, slots, g, t);
    if Count(cs, slots, g, t) == 0 {
      FarthestOfNone(cs, slots, g, t);
      FarthestOfNone(ds, slots, g, t);
    }
    SameMembers(cs, ds, slots, g);
  }

  lemma SameMutual(cs: seq<Candidate>, ds: seq<Candidate>, slots: Slots, g: Id)
    requires SameCandidates(cs, ds) && Distinct(cs) && Distinct(ds)
    ensures Mutual(cs, slots, g) == Mutual(ds, slots, g)
  {
    hide Members, Count, Farthest, Qualifies;
    forall h: Id, t: Id
      ensures Farthest(cs, slots, h, t) == Farthest(ds, slots, h, t)
      ensures Qualifies(cs, slots, h, t) <==> Qualifies(ds, slots, h, t)
    {
      SameTallies(cs, ds, slots, h, t);
    }
    SameMembers(cs, ds, slots, g);
    var pool := Pool(cs, slots, g);
    assert pool == Pool(ds, slots, g);
    forall t: Id
      ensures Rank(cs, slots, g, t) == Rank(ds, slots, g, t)
    {
      assert (set u | u in pool && Farthest(cs, slots, g, u) <= Farthest(cs, slots, g, t))
          == (set u | u in pool && Farthest(ds, slots, g, u) <= Farthest(ds, slots, g, t));
    }
    assert forall t: Id :: Closest(cs, slots, g, t) <==> Closest(ds, slots, g, t);
    hide Pool, Rank, Closest;
    assert Nearest(cs, slots, g) == Nearest(ds, slots, g);
  }

  /** When the slots of a group differ, the pairing does not depend on the order of the candidates. */
  lemma OrderDoesNotMatter(cs: seq<Candidate>, ds: seq<Candidate>, slots: Slots, o: Id, t: Id)
    requires SameCandidates(cs, ds) && Distinct(cs) && Distinct(ds) && SlotsDiffer(cs, slots)
    ensures Paired(cs, slots, o, t) <==> Paired(ds, slots, o, t)
  {
    hide Members, Mutual, Below;
    var g := GroupOf(slots, o);
    SameMembers(cs, ds, slots, g);
    SameMutual(cs, ds, slots, g);
    MembersAre(cs, slots, g);
    MembersAre(ds, slots, g);
    var ms, ns := Members(cs, slots, g), Members(ds, slots, g);
    assert o in ms <==> o in Elements(ms);
    assert o in ns <==> o in Elements(ns);
    if o in ms {
      forall m
        ensures m in ms && Ahead(ms, BySlot(slots), m, o) <==> m in ns && Ahead(ns, BySlot(slots), m, o)
      {
        assert m in ms <==> m in Elements(ms);
        assert m in ns <==> m in Elements(ns);
      }
      assert (set m | m in ms && Ahead(ms, BySlot(slots), m, o)) == set m | m in ns && Ahead(ns, BySlot(slots), m, o);
    }
  }
}
