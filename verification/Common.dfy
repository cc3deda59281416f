/** Small types and sequence facts shared by the models. */
module Common {
  datatype Option<+T> = None | Some(value: T)

  function Max(a: int, b: int): int {
    if a >= b then a else b
  }

  function Min(a: int, b: int): int {
    if a <= b then a else b
  }

  /** The naturals from `low` up to `high`. */
  function Range(low: nat, high: nat): (r: set<nat>)
    ensures forall i :: i in r <==> low <= i < high
  {
    if low >= high then {} else Range(low, high - 1) + {high - 1}
  }

  /** `part` is `whole` with some elements left out. */
  ghost predicate Subsequence<T>(part: seq<T>, whole: seq<T>) {
    if whole == [] then part == []
    else
      || Subsequence(part, whole[..|whole| - 1])
      || (part != [] && part[|part| - 1] == whole[|whole| - 1] && Subsequence(part[..|part| - 1], whole[..|whole| - 1]))
  }

  lemma {:induction false} SubsequenceMembers<T>(part: seq<T>, whole: seq<T>)
    requires Subsequence(part, whole)
    ensures forall x :: x in part ==> x in whole
  {
    if whole != [] {
      assert whole == whole[..|whole| - 1] + [whole[|whole| - 1]];
      if Subsequence(part, whole[..|whole| - 1]) {
        SubsequenceMembers(part, whole[..|whole| - 1]);
      } else {
        SubsequenceMembers(part[..|part| - 1], whole[..|whole| - 1]);
      }
    }
  }

  lemma {:induction false} SubsequenceSelf<T>(whole: seq<T>)
    ensures Subsequence(whole, whole)
  {
    if whole != [] {
      SubsequenceSelf(whole[..|whole| - 1]);
    }
  }

  lemma {:induction false} SubsequenceAppend<T>(a: seq<T>, b: seq<T>, c: seq<T>, d: seq<T>)
    requires Subsequence(a, b) && Subsequence(c, d)
    ensures Subsequence(a + c, b + d)
  {
    if d == [] {
      assert a + c == a && b + d == b;
    } else {
      assert (b + d)[..|b + d| - 1] == b + d[..|d| - 1];
      if Subsequence(c, d[..|d| - 1]) {
        SubsequenceAppend(a, b, c, d[..|d| - 1]);
      } else {
        assert (a + c)[..|a + c| - 1] == a + c[..|c| - 1];
        SubsequenceAppend(a, b, c[..|c| - 1], d[..|d| - 1]);
      }
    }
  }

  lemma {:induction false} NothingIsSubsequence<T>(whole: seq<T>)
    ensures Subsequence([], whole)
  {
    if whole != [] {
      NothingIsSubsequence(whole[..|whole| - 1]);
    }
  }

  lemma {:induction false} SubsequenceTransitive<T>(a: seq<T>, b: seq<T>, c: seq<T>)
    requires Subsequence(a, b) && Subsequence(b, c)
    ensures Subsequence(a, c)
  {
    if c != [] {
      if Subsequence(b, c[..|c| - 1]) {
        SubsequenceTransitive(a, b, c[..|c| - 1]);
      } else if Subsequence(a, b[..|b| - 1]) {
        SubsequenceTransitive(a, b[..|b| - 1], c[..|c| - 1]);
      } else {
        SubsequenceTransitive(a[..|a| - 1], b[..|b| - 1], c[..|c| - 1]);
      }
    }
  }

  lemma {:induction false} SubsequenceLength<T>(part: seq<T>, whole: seq<T>)
    requires Subsequence(part, whole)
    ensures |part| <= |whole|
    ensures |part| == |whole| ==> part == whole
  {
    if whole != [] {
      if Subsequence(part, whole[..|whole| - 1]) {
        SubsequenceLength(part, whole[..|whole| - 1]);
      } else {
        SubsequenceLength(part[..|part| - 1], whole[..|whole| - 1]);
      }
    }
  }

  // ---------- division with remainder ----------

  lemma QuotientOrder(n: nat, p: nat, q: nat, r: nat)
    requires r < n && p < q
    ensures n * p + r < n * q
  {
    assert n * q == n * p + n * (q - p - 1) + n;
  }

  /** Quotient and remainder are what the division says they are. */
  lemma DivisionIsUnique(a: nat, n: nat, q: nat, r: nat)
    requires r < n && a == n * q + r
    ensures a % n == r && a / n == q
  {
    var p, s := a / n, a % n;
    assert a == n * p + s;
    if p < q {
      QuotientOrder(n, p, q, s);
    } else if q < p {
      QuotientOrder(n, q, p, r);
    }
  }

  // ---------- sorting ----------

  /** `ranked` is the items by rising key; ties may come in any order. */
  ghost predicate Ranked<T>(items: seq<T>, key: T -> real, ranked: seq<T>) {
    multiset(ranked) == multiset(items) && Rising(ranked, key)
  }

  ghost predicate Rising<T>(items: seq<T>, key: T -> real) {
    forall i, j :: 0 <= i < j < |items| ==> key(items[i]) <= key(items[j])
  }

  lemma RankedLength<T>(items: seq<T>, key: T -> real, ranked: seq<T>)
    requires Ranked(items, key, ranked)
    ensures |ranked| == |items|
  {
    assert |multiset(ranked)| == |ranked| && |multiset(items)| == |items|;
  }

  lemma InsertKeepsRanked<T>(items: seq<T>, key: T -> real, ranked: seq<T>, j: nat, x: T)
    requires Ranked(items, key, ranked) && j <= |ranked|
    requires j > 0 ==> key(ranked[j - 1]) <= key(x)
    requires forall k :: j <= k < |ranked| ==> key(ranked[k]) > key(x)
    ensures Ranked(items + [x], key, ranked[..j] + [x] + ranked[j..])
  {
    hide Rising;
    InsertKeepsItems(ranked, j, x);
    InsertKeepsRising(key, ranked, j, x);
  }

  lemma InsertKeepsItems<T>(ranked: seq<T>, j: nat, x: T)
    requires j <= |ranked|
    ensures multiset(ranked[..j] + [x] + ranked[j..]) == multiset(ranked) + multiset{x}
  {
    assert ranked == ranked[..j] + ranked[j..];
  }

  lemma InsertKeepsRising<T>(key: T -> real, ranked: seq<T>, j: nat, x: T)
    requires Rising(ranked, key) && j <= |ranked|
    requires j > 0 ==> key(ranked[j - 1]) <= key(x)
    requires forall k :: j <= k < |ranked| ==> key(ranked[k]) > key(x)
    ensures Rising(ranked[..j] + [x] + ranked[j..], key)
  {
    var longer := ranked[..j] + [x] + ranked[j..];
    forall a, b | 0 <= a < b < |longer| ensures key(longer[a]) <= key(longer[b]) {
      assert longer[a] == if a < j then ranked[a] else if a == j then x else ranked[a - 1];
      assert longer[b] == if b < j then ranked[b] else if b == j then x else ranked[b - 1];
      if a < j && b >= j {
        assert key(ranked[a]) <= key(ranked[j - 1]);
      }
    }
  }

  /** A ranking of any items by any key exists. */
  lemma {:induction false} RankingExists<T>(items: seq<T>, key: T -> real) returns (ranked: seq<T>)
    ensures Ranked(items, key, ranked)
  {
    if items == [] {
      ranked := [];
    } else {
      var n := |items| - 1;
      var shorter := RankingExists(items[..n], key);
      var j := |shorter|;
      while j > 0 && key(shorter[j - 1]) > key(items[n])
        invariant 0 <= j <= |shorter|
        invariant forall k :: j <= k < |shorter| ==> key(shorter[k]) > key(items[n])
      {
        j := j - 1;
      }
      InsertKeepsRanked(items[..n], key, shorter, j, items[n]);
      assert items == items[..n] + [items[n]];
      ranked := shorter[..j] + [items[n]] + shorter[j..];
    }
  }

  lemma NothingRanked<T>(items: seq<T>, key: T -> real)
    requires items == []
    ensures Ranked(items, key, [])
  {
  }

  method SortBy<T>(items: seq<T>, key: T -> real) returns (ranked: seq<T>)
    ensures Ranked(items, key, ranked) && |ranked| == |items|
  {
    hide Ranked;
    ranked := [];
    NothingRanked(items[..0], key);
    for i := 0 to |items|
      invariant Ranked(items[..i], key, ranked)
    {
      var j := |ranked|;
      while j > 0 && key(ranked[j - 1]) > key(items[i])
        invariant 0 <= j <= |ranked|
        invariant forall k :: j <= k < |ranked| ==> key(ranked[k]) > key(items[i])
      {
        j := j - 1;
      }
      InsertKeepsRanked(items[..i], key, ranked, j, items[i]);
      assert items[..i + 1] == items[..i] + [items[i]];
      ranked := ranked[..j] + [items[i]] + ranked[j..];
    }
    assert items[..|items|] == items;
    RankedLength(items, key, ranked);
  }
}
