/** The duplicate collapser: a pass over an already computed path (the
    patterns that together cover the password, in order) that replaces every
    repeat of an earlier structural pattern by a pattern of cost 1.

    The path being built is only ever extended at the front (the loop visits
    the elements last to first and adds each to the new path), so the new
    path lines up index by index with the old one. */
module RepeatingPatternFinder {
  import opened Patterns

  const DUPLICATE_PATTERN: string := "DUPLICATE"
  /** The name of the one-character fallback pattern. */
  const RANDOM_PATTERN: string := "RANDOM"

  /** `p` repeats the earlier element `q`: `q` is not a random fallback and
      has the same name and the same text as `p`. */
  predicate Repeats(q: PasswordPattern, p: PasswordPattern) {
    q.name != RANDOM_PATTERN && q.name == p.name && q.matchString == p.matchString
  }

  /** The stand-in for a repeat: same place, text and classification, cost 1. */
  function Duplicate(p: PasswordPattern): PasswordPattern {
    PasswordPattern(p.startIndex, p.length, p.matchString, 1, DUPLICATE_PATTERN, p.classification)
  }

  /** Some element of `earlier` is repeated by `p`. */
  predicate RepeatsSome(earlier: seq<PasswordPattern>, p: PasswordPattern) {
    exists q :: q in earlier && Repeats(q, p)
  }

  /** What the pass puts in place of `p`, given the elements before it: a
      repeat becomes a DUPLICATE of cost 1 at the same place, with the same
      text and classification; anything else is kept as it is. */
  function Resolve(earlier: seq<PasswordPattern>, p: PasswordPattern): (r: PasswordPattern)
    ensures r.startIndex == p.startIndex && r.length == p.length
    ensures r.matchString == p.matchString && r.classification == p.classification
    ensures RepeatsSome(earlier, p) ==> r.cost == 1 && r.name == DUPLICATE_PATTERN
    ensures !RepeatsSome(earlier, p) ==> r == p
  {
    if RepeatsSome(earlier, p) then Duplicate(p) else p
  }

  /** The collapsed path, built front to back: each element is resolved
      against the elements of the original path that precede it. */
  function Collapse(path: seq<PasswordPattern>): (r: seq<PasswordPattern>)
    ensures |r| == |path|
  {
    if path == [] then []
    else
      var earlier := path[..|path| - 1];
      Collapse(earlier) + [Resolve(earlier, path[|path| - 1])]
  }

  /** Element i repeats some earlier element of the path. */
  predicate RepeatsEarlier(path: seq<PasswordPattern>, i: int)
    requires 0 <= i < |path|
  {
    exists j :: 0 <= j < i && Repeats(path[j], path[i])
  }

  /** Element i of the collapsed path is the duplicate stand-in for element i
      of the original exactly when some earlier element j < i of the
      original has another name than RANDOM, the same name and the same text;
      otherwise it is element i unchanged. */
  lemma {:induction false} CollapseAt(path: seq<PasswordPattern>, i: int)
    requires 0 <= i < |path|
    ensures Collapse(path)[i] == if RepeatsEarlier(path, i) then Duplicate(path[i]) else path[i]
    decreases |path|
  {
    var earlier := path[..|path| - 1];
    if i == |path| - 1 {
      if RepeatsEarlier(path, i) {
        var j :| 0 <= j < i && Repeats(path[j], path[i]);
        assert earlier[j] in earlier;
      }
    } else {
      CollapseAt(earlier, i);
      assert RepeatsEarlier(earlier, i) == RepeatsEarlier(path, i) by {
        assert forall j :: 0 <= j <= i ==> earlier[j] == path[j];
      }
    }
  }

  method Process(path: seq<PasswordPattern>) returns (newPath: seq<PasswordPattern>)
    ensures newPath == Collapse(path)
  {
    newPath := [];
    var len := |path| - 1;
    var i := len;
    while i >= 0
      invariant -1 <= i <= len
      invariant |newPath| == len - i
      invariant forall k :: 0 <= k < |newPath| ==>
                  newPath[k] == if RepeatsEarlier(path, i + 1 + k) then Duplicate(path[i + 1 + k]) else path[i + 1 + k]
    {
      var pass := path[i];
      var foundDuplicate := false;
      var j := i - 1;
      while j >= 0
        invariant -1 <= j < i
        invariant forall k :: j < k < i ==> !Repeats(path[k], pass)
      {
        var toCompare := path[j];
        if toCompare.name != RANDOM_PATTERN && toCompare.name == pass.name
           && toCompare.matchString == pass.matchString {
          foundDuplicate := true;
          break;
        }
        j := j - 1;
      }
      assert foundDuplicate == RepeatsEarlier(path, i);
      if foundDuplicate {
        var dupp := Duplicate(pass);
        newPath := [dupp] + newPath;
      } else {
        newPath := [pass] + newPath;
      }
      i := i - 1;
    }
    forall k | 0 <= k < |path|
      ensures newPath[k] == Collapse(path)[k]
    {
      CollapseAt(path, k);
    }
  }

  // ---------------------------------------------------------------------
  // Properties of the collapsed path
  // ---------------------------------------------------------------------

  /** The first element is never replaced. */
  lemma CollapseKeepsFirst(path: seq<PasswordPattern>)
    requires |path| > 0
    ensures Collapse(path)[0] == path[0]
  {
    CollapseAt(path, 0);
  }

  /** Position by position, the collapsed path keeps the start, length, text
      and classification; its cost is either unchanged or 1, and an element
      that is not a repeat is passed through unchanged. */
  lemma CollapseKeepsShape(path: seq<PasswordPattern>, i: int)
    requires 0 <= i < |path|
    ensures var r := Collapse(path)[i];
            && r.startIndex == path[i].startIndex && r.length == path[i].length
            && r.matchString == path[i].matchString && r.classification == path[i].classification
            && (r.cost == 1 || r.cost == path[i].cost)
            && (r.name == DUPLICATE_PATTERN || r == path[i])
            && (!RepeatsEarlier(path, i) ==> r == path[i])
  {
    CollapseAt(path, i);
  }

  /** The elements exactly cover [0, n) in order, with no gap and no overlap. */
  ghost predicate Tiles(path: seq<PasswordPattern>, n: int) {
    && (forall i :: 0 <= i < |path| ==> path[i].length >= 1)
    && (|path| == 0 ==> n == 0)
    && (|path| > 0 ==> path[0].startIndex == 0 && path[|path| - 1].startIndex + path[|path| - 1].length == n)
    && (forall i :: 1 <= i < |path| ==> path[i].startIndex == path[i - 1].startIndex + path[i - 1].length)
  }

  /** Collapsing keeps a tiling of the password a tiling: only costs and names change. */
  lemma CollapseKeepsTiling(path: seq<PasswordPattern>, n: int)
    requires Tiles(path, n)
    ensures Tiles(Collapse(path), n)
  {
    forall i | 0 <= i < |path| {
      CollapseKeepsShape(path, i);
    }
  }

  /** Comparisons are made against the original path: in three copies of
      the same structural pattern, both later copies are replaced. */
  lemma CollapseComparesOriginal(a: PasswordPattern, b: PasswordPattern, c: PasswordPattern)
    requires a.name != RANDOM_PATTERN && b.name == a.name && c.name == a.name
    requires b.matchString == a.matchString && c.matchString == a.matchString
    ensures Collapse([a, b, c]) == [a, Duplicate(b), Duplicate(c)]
  {
    CollapseAt([a, b, c], 0);
    CollapseAt([a, b, c], 1);
    CollapseAt([a, b, c], 2);
  }

  /** The total cost of a path: the product of the costs of its elements. */
  function TotalCost(path: seq<PasswordPattern>): int {
    if path == [] then 1 else TotalCost(path[..|path| - 1]) * path[|path| - 1].cost
  }

  lemma ProductMonotone(a: int, b: int, c: int, d: int)
    requires 1 <= a <= b && 1 <= c <= d
    ensures 1 <= a * c <= b * d
  {
    assert a * c <= b * c;
    assert b * c <= b * d;
  }

  /** When every cost is at least 1, collapsing never raises the total cost. */
  lemma {:induction false} CollapseLowersCost(path: seq<PasswordPattern>)
    requires forall i :: 0 <= i < |path| ==> path[i].cost >= 1
    ensures 1 <= TotalCost(Collapse(path)) <= TotalCost(path)
    decreases |path|
  {
    if path != [] {
      var earlier := path[..|path| - 1];
      var last := path[|path| - 1];
      CollapseLowersCost(earlier);
      var r := Collapse(path);
      assert r[..|r| - 1] == Collapse(earlier);
      var x := Resolve(earlier, last);
      assert r[|r| - 1] == x;
      ProductMonotone(TotalCost(Collapse(earlier)), TotalCost(earlier), x.cost, last.cost);
    }
  }

  /** No element of the path is already a DUPLICATE pattern. */
  predicate NoDuplicates(path: seq<PasswordPattern>) {
    forall i :: 0 <= i < |path| ==> path[i].name != DUPLICATE_PATTERN
  }

  /** Collapsing a path that holds no DUPLICATE pattern, and then collapsing
      the result again, changes nothing the second time. */
  lemma CollapseIdempotent(path: seq<PasswordPattern>)
    requires NoDuplicates(path)
    ensures Collapse(Collapse(path)) == Collapse(path)
  {
    var c := Collapse(path);
    var cc := Collapse(c);
    forall i | 0 <= i < |path|
      ensures cc[i] == c[i]
    {
      CollapseIdempotentAt(path, i);
    }
    assert |cc| == |c|;
  }

  /** Position i of the second collapse: a replaced element is already a
      duplicate, and a kept element cannot repeat a replaced one, whose name
      is DUPLICATE, nor a kept one, which it did not repeat the first time. */
  lemma CollapseIdempotentAt(path: seq<PasswordPattern>, i: int)
    requires NoDuplicates(path)
    requires 0 <= i < |path|
    ensures Collapse(Collapse(path))[i] == Collapse(path)[i]
  {
    var c := Collapse(path);
    CollapseAt(path, i);
    CollapseAt(c, i);
    if !RepeatsEarlier(path, i) {
      forall j | 0 <= j < i
        ensures !Repeats(c[j], c[i])
      {
        CollapseAt(path, j);
      }
    }
  }

  /** A dictionary word, a random character and the same word again: the
      second word becomes a duplicate of cost 1, and the total cost drops
      from 1000 * 95 * 1000 to 1000 * 95 * 1. */
  lemma RepeatedWordScenario()
    ensures var a := PasswordPattern(0, 3, "cat", 1000, "DICTIONARY", "english");
            var b := PasswordPattern(3, 1, "x", 95, RANDOM_PATTERN, "random");
            var a' := PasswordPattern(4, 3, "cat", 1000, "DICTIONARY", "english");
            && Collapse([a, b, a']) == [a, b, PasswordPattern(4, 3, "cat", 1, DUPLICATE_PATTERN, "english")]
            && TotalCost([a, b, a']) == 95000000
            && TotalCost(Collapse([a, b, a'])) == 95000
  {
    var a := PasswordPattern(0, 3, "cat", 1000, "DICTIONARY", "english");
    var b := PasswordPattern(3, 1, "x", 95, RANDOM_PATTERN, "random");
    var a' := PasswordPattern(4, 3, "cat", 1000, "DICTIONARY", "english");
    var path := [a, b, a'];
    assert !Repeats(a, b);
    CollapseAt(path, 0);
    CollapseAt(path, 1);
    CollapseAt(path, 2);
    var r := [a, b, PasswordPattern(4, 3, "cat", 1, DUPLICATE_PATTERN, "english")];
    assert Collapse(path) == r;
    assert r[..2] == [a, b] && [a, b][..1] == [a] && [a][..0] == [];
    assert path[..2] == [a, b];
    assert TotalCost([a]) == 1000;
    assert TotalCost([a, b]) == 95000;
  }
}
