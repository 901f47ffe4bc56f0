/** Approximate name matching by edit distance (src/modules/bills/merchant-match.ts, levenshtein to nearAtWordStart). */
module EditDistance {

  function Least(a: nat, b: nat, c: nat): nat {
    if a <= b && a <= c then a else if b <= c then b else c
  }

  function Front(s: string): string
    requires s != ""
  {
    s[..|s| - 1]
  }

  /** The cost of replacing the last character of one string by the other's. */
  function Swap(a: string, b: string): nat
    requires a != "" && b != ""
  {
    if a[|a| - 1] == b[|b| - 1] then 0 else 1
  }

  /** The fewest insertions, deletions and replacements turning `a` into `b`. */
  function Distance(a: string, b: string): nat
    decreases |a| + |b|
  {
    if a == "" then |b|
    else if b == "" then |a|
    else Least(Distance(Front(a), b) + 1, Distance(a, Front(b)) + 1, Distance(Front(a), Front(b)) + Swap(a, b))
  }

  /** One cell of the table from its three neighbours. */
  lemma Cell(a: string, b: string, i: nat, j: nat)
    requires 1 <= i <= |a| && 1 <= j <= |b|
    ensures Distance(a[..i], b[..j]) ==
            Least(Distance(a[..i - 1], b[..j]) + 1, Distance(a[..i], b[..j - 1]) + 1,
                  Distance(a[..i - 1], b[..j - 1]) + if a[i - 1] == b[j - 1] then 0 else 1)
  {
    assert Front(a[..i]) == a[..i - 1] && Front(b[..j]) == b[..j - 1];
    assert a[..i][i - 1] == a[i - 1] && b[..j][j - 1] == b[j - 1];
  }

  lemma Edges(a: string, b: string)
    ensures forall i :: 0 <= i <= |a| ==> Distance(a[..i], b[..0]) == i
    ensures forall j :: 0 <= j <= |b| ==> Distance(a[..0], b[..j]) == j
  {
  }

  /** The two-row loop. */
  method Levenshtein(a: string, b: string) returns (distance: nat)
    ensures distance == Distance(a, b)
  {
    hide Distance;
    Edges(a, b);
    var previous := seq(|b| + 1, index => index);
    for i := 1 to |a| + 1
      invariant |previous| == |b| + 1
      invariant forall j :: 0 <= j <= |b| ==> previous[j] == Distance(a[..i - 1], b[..j])
    {
      var current: seq<nat> := [i];
      for j := 1 to |b| + 1
        invariant |current| == j
        invariant forall k :: 0 <= k < j ==> current[k] == Distance(a[..i], b[..k])
      {
        Cell(a, b, i, j);
        current := current + [Least(previous[j] + 1, current[j - 1] + 1, previous[j - 1] + (if a[i - 1] == b[j - 1] then 0 else 1))];
      }
      previous := current;
    }
    assert a[..|a|] == a && b[..|b|] == b;
    distance := previous[|b|];
  }

  // ------------------------------------------------------------------ a metric

  /** One more character at an end costs at most one. */
  lemma {:induction false} Extend(a: string, b: string)
    ensures a != "" ==> Distance(a, b) <= Distance(Front(a), b) + 1
    ensures b != "" ==> Distance(a, b) <= Distance(a, Front(b)) + 1
    ensures a != "" && b != "" ==> Distance(a, b) <= Distance(Front(a), Front(b)) + Swap(a, b)
  {
    if a != "" && b == "" { assert Distance(Front(a), b) == |a| - 1; }
    if b != "" && a == "" { assert Distance(a, Front(b)) == |b| - 1; }
  }

  lemma {:induction false} Symmetric(a: string, b: string)
    ensures Distance(a, b) == Distance(b, a)
    decreases |a| + |b|
  {
    if a != "" && b != "" {
      Symmetric(Front(a), b);
      Symmetric(a, Front(b));
      Symmetric(Front(a), Front(b));
    }
  }

  lemma {:induction false} ZeroIffEqual(a: string, b: string)
    ensures Distance(a, b) == 0 <==> a == b
    decreases |a| + |b|
  {
    if a != "" && b != "" {
      ZeroIffEqual(Front(a), Front(b));
      assert a == Front(a) + [a[|a| - 1]] && b == Front(b) + [b[|b| - 1]];
    }
  }

  /** At least the difference of the lengths, at most the longer length. */
  lemma {:induction false} LengthBounds(a: string, b: string)
    ensures |a| - |b| <= Distance(a, b) && |b| - |a| <= Distance(a, b)
    ensures Distance(a, b) <= if |a| <= |b| then |b| else |a|
    decreases |a| + |b|
  {
    if a != "" && b != "" {
      LengthBounds(Front(a), b);
      LengthBounds(a, Front(b));
      LengthBounds(Front(a), Front(b));
    }
  }

  /** Going through a third string is never shorter. */
  lemma {:induction false} Triangle(a: string, b: string, c: string)
    ensures Distance(a, c) <= Distance(a, b) + Distance(b, c)
    decreases |a| + |b| + |c|
  {
    if b == "" {
      LengthBounds(a, c);
    } else if a == "" {
      LengthBounds(b, c);
    } else if c == "" {
      LengthBounds(a, b);
    } else if Distance(a, b) == Distance(Front(a), b) + 1 {
      Triangle(Front(a), b, c);
      Extend(a, c);
    } else if Distance(b, c) == Distance(b, Front(c)) + 1 {
      Triangle(a, b, Front(c));
      Extend(a, c);
    } else {
      Extend(a, c);
      Triangle(a, Front(b), c);
      Triangle(a, Front(b), Front(c));
      Triangle(Front(a), Front(b), c);
      Triangle(Front(a), Front(b), Front(c));
    }
  }

  // ------------------------------------------------------------------ names

  const MIN_COMPACT_LENGTH := 4
  const MIN_TRUNCATED_LENGTH := 6

  function Join(tokens: seq<string>): string {
    if tokens == [] then "" else tokens[0] + Join(tokens[1..])
  }

  predicate StartsWith(s: string, prefix: string) {
    |prefix| <= |s| && s[..|prefix|] == prefix
  }

  function Take(s: string, n: nat): string {
    if n <= |s| then s[..n] else s
  }

  predicate ContainsAtWordStart(outer: seq<string>, inner: string) {
    |inner| >= MIN_COMPACT_LENGTH && exists i :: 0 <= i < |outer| && StartsWith(Join(outer[i..]), inner)
  }

  /** A stretch from a word start within a fifth of the name: `1 - d / n >= 0.8`. */
  predicate Near(outer: seq<string>, i: nat, inner: string)
    requires i < |outer|
  {
    5 * Distance(inner, Take(Join(outer[i..]), |inner|)) <= |inner|
  }

  predicate NearAtWordStart(outer: seq<string>, inner: string) {
    |inner| >= MIN_TRUNCATED_LENGTH && exists i :: 0 <= i < |outer| && Near(outer, i, inner)
  }

  /** An exact hit of a long enough name is also a near one. */
  lemma ContainedIsNear(outer: seq<string>, inner: string)
    requires ContainsAtWordStart(outer, inner) && |inner| >= MIN_TRUNCATED_LENGTH
    ensures NearAtWordStart(outer, inner)
  {
    var i :| 0 <= i < |outer| && StartsWith(Join(outer[i..]), inner);
    ZeroIffEqual(inner, Take(Join(outer[i..]), |inner|));
    assert Near(outer, i, inner);
  }

  /** A bank may cut off at most a fifth of a name: a near hit leaves at least four fifths of its letters. */
  lemma NearNeedsFourFifths(outer: seq<string>, inner: string)
    requires NearAtWordStart(outer, inner)
    ensures exists i :: 0 <= i < |outer| && 5 * |Join(outer[i..])| >= 4 * |inner|
  {
    var i :| 0 <= i < |outer| && Near(outer, i, inner);
    LengthBounds(inner, Take(Join(outer[i..]), |inner|));
  }

  /** The letters from the `i`th word on. */
  function Letters(tokens: seq<string>, i: nat): string
    requires i <= |tokens|
    decreases |tokens| - i
  {
    if i == |tokens| then "" else tokens[i] + Letters(tokens, i + 1)
  }

  lemma {:induction false} JoinIsLetters(tokens: seq<string>, i: nat)
    requires i <= |tokens|
    ensures Join(tokens[i..]) == Letters(tokens, i)
    decreases |tokens| - i
  {
    if i < |tokens| {
      assert tokens[i..][1..] == tokens[i + 1..];
      JoinIsLetters(tokens, i + 1);
    }
  }

  /** An exact hit: the name has four letters or more, and from the start of some word on the text begins with it. */
  lemma ContainedIff(outer: seq<string>, inner: string)
    ensures ContainsAtWordStart(outer, inner) <==>
            |inner| >= 4 && exists i: nat, rest: string :: i < |outer| && Letters(outer, i) == inner + rest
  {
    if ContainsAtWordStart(outer, inner) {
      var i: nat :| i < |outer| && StartsWith(Join(outer[i..]), inner);
      JoinIsLetters(outer, i);
      assert Letters(outer, i) == inner + Letters(outer, i)[|inner|..];
    }
    if |inner| >= 4 {
      if i: nat, rest: string :| i < |outer| && Letters(outer, i) == inner + rest {
        JoinIsLetters(outer, i);
        assert StartsWith(Join(outer[i..]), inner);
      }
    }
  }

  /**
   A near hit: the name has six letters or more, and some stretch of the text of the name's length, or to its end, that
   starts with a word takes at most a fifth of the name's letters to edit into the name.
   */
  lemma NearIff(outer: seq<string>, inner: string)
    ensures NearAtWordStart(outer, inner) <==>
            |inner| >= 6 && exists i: nat, n: nat :: && i < |outer| && n <= |Letters(outer, i)| && n <= |inner|
                                                     && (n == |inner| || n == |Letters(outer, i)|)
                                                     && 5 * Distance(inner, Letters(outer, i)[..n]) <= |inner|
  {
    hide Distance;
    if NearAtWordStart(outer, inner) {
      var i: nat :| i < |outer| && Near(outer, i, inner);
      JoinIsLetters(outer, i);
      var n := if |inner| <= |Letters(outer, i)| then |inner| else |Letters(outer, i)|;
      assert Take(Letters(outer, i), |inner|) == Letters(outer, i)[..n];
    }
    if |inner| >= 6 {
      if i: nat, n: nat :| && i < |outer| && n <= |Letters(outer, i)| && n <= |inner| && (n == |inner| || n == |Letters(outer, i)|)
                           && 5 * Distance(inner, Letters(outer, i)[..n]) <= |inner| {
        JoinIsLetters(outer, i);
        assert Take(Letters(outer, i), |inner|) == Letters(outer, i)[..n];
        assert Near(outer, i, inner);
      }
    }
  }
}
