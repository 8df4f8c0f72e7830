/** Stable top-N selection, as done by `heapq.nlargest(n, zip(probs, vocab), key=...)`
    in both the next-token component and the softmax formatter.

    `nlargest` with a key is documented to equal `sorted(xs, key=key, reverse=True)[:n]`,
    a STABLE descending sort: among equal keys the earlier element comes first. The model
    works on positions: the selection is a sequence of indices into the key sequence. */
module TopN {

  function Min(a: int, b: int): (r: int)
    ensures r <= a && r <= b && (r == a || r == b)
  {
    if a <= b then a else b
  }

  /** Position `i` comes before position `j` in a stable descending sort of `keys`:
      its key is larger, or the keys are equal and `i` is the earlier position. */
  predicate Precedes(keys: seq<real>, i: int, j: int)
  {
    0 <= i < |keys| && 0 <= j < |keys| && (keys[i] > keys[j] || (keys[i] == keys[j] && i < j))
  }

  predicate InRange(keys: seq<real>, s: seq<int>)
  {
    forall k :: 0 <= k < |s| ==> 0 <= s[k] < |keys|
  }

  /** `s` lists positions of `keys` in stable descending order (hence without repetition). */
  predicate StablyDescending(keys: seq<real>, s: seq<int>)
  {
    InRange(keys, s) && forall a, b :: 0 <= a < b < |s| ==> Precedes(keys, s[a], s[b])
  }

  /** Inserts position `i` into a stably descending `s` after every position whose key is
      at least `keys[i]`; since every position in `s` is smaller than `i`, ties keep
      position order. */
  function Insert(keys: seq<real>, i: int, s: seq<int>): (r: seq<int>)
    requires 0 <= i < |keys| && InRange(keys, s)
    ensures InRange(keys, r)
    ensures |r| == |s| + 1
    ensures forall x :: x in r <==> x in s || x == i
  {
    if s == [] then [i]
    else if keys[s[0]] >= keys[i] then
      assert s == [s[0]] + s[1..];
      [s[0]] + Insert(keys, i, s[1..])
    else [i] + s
  }

  /** Positions `0 .. m-1` of `keys`, stably sorted by descending key (insertion sort,
      inserting the positions in increasing order). */
  function SortIndices(keys: seq<real>, m: nat): (r: seq<int>)
    requires m <= |keys|
    ensures InRange(keys, r)
  {
    if m == 0 then [] else Insert(keys, m - 1, SortIndices(keys, m - 1))
  }

  /** Positions of the `n` largest keys in the order `nlargest` returns them;
      `nlargest` returns nothing when `n <= 0`. */
  function NLargest(keys: seq<real>, n: int): (r: seq<int>)
    ensures |r| == if n <= 0 then 0 else Min(n, |keys|)
    ensures StablyDescending(keys, r)
    ensures forall a, b :: 0 <= a < b < |r| ==> r[a] != r[b]
    ensures forall a, b :: 0 <= a < b < |r| ==> keys[r[a]] >= keys[r[b]]
    ensures forall i, j :: i in r && 0 <= j < |keys| && j !in r ==> Precedes(keys, i, j)
  {
    var s := SortIndices(keys, |keys|);
    SortIndicesMembers(keys, |keys|);
    SortIndicesSorted(keys, |keys|);
    var r := if n <= 0 then [] else s[..Min(n, |s|)];
    PrefixIsTop(keys, s, |r|);
    StablyDescendingDistinct(keys, r);
    r
  }

  /** Positions chosen by `nlargest(n, zip(probs, vocab), key=first)` for a vocabulary of
      `vocabLength` words: `zip` stops at the shorter of the two, so only the first
      `Min(|probs|, vocabLength)` probabilities take part. */
  function ZipNLargest(probs: seq<real>, vocabLength: nat, n: int): (r: seq<int>)
    ensures var m := Min(|probs|, vocabLength);
            && |r| == (if n <= 0 then 0 else Min(n, m))
            && OrderedOn(probs, m, r)
            && TopOn(probs, m, r)
  {
    var m := Min(|probs|, vocabLength);
    var r := NLargest(probs[..m], n);
    PrefixKeys(probs, m, r);
    r
  }

  /** `r` lists distinct positions below `m`, by non-increasing probability, ties by position. */
  predicate OrderedOn(probs: seq<real>, m: int, r: seq<int>)
    requires m <= |probs|
  {
    && (forall k :: 0 <= k < |r| ==> 0 <= r[k] < m)
    && (forall a, b :: 0 <= a < b < |r| ==> r[a] != r[b])
    && (forall a, b :: 0 <= a < b < |r| ==> probs[r[a]] >= probs[r[b]])
    && (forall a, b :: 0 <= a < b < |r| && probs[r[a]] == probs[r[b]] ==> r[a] < r[b])
  }

  /** Every position of `r` beats every position below `m` left out of `r`: no smaller
      probability, and on a tie an earlier position. The second conjunct follows from the
      first; it is kept as the index-based form the callers use. */
  predicate TopOn(probs: seq<real>, m: int, r: seq<int>)
    requires m <= |probs|
    requires forall k :: 0 <= k < |r| ==> 0 <= r[k] < m
  {
    && (forall i, j :: i in r && 0 <= j < m && j !in r ==>
          0 <= i < m && probs[j] <= probs[i] && (probs[j] == probs[i] ==> i < j))
    && (forall k, j :: 0 <= k < |r| && 0 <= j < m && j !in r ==> probs[j] <= probs[r[k]])
  }

  /** The selection made on the first `m` probabilities, read on the whole vector. */
  lemma PrefixKeys(probs: seq<real>, m: int, r: seq<int>)
    requires 0 <= m <= |probs|
    requires StablyDescending(probs[..m], r)
    requires forall i, j :: i in r && 0 <= j < m && j !in r ==> Precedes(probs[..m], i, j)
    ensures OrderedOn(probs, m, r)
    ensures TopOn(probs, m, r)
  {
    var keys := probs[..m];
    assert forall k :: 0 <= k < m ==> keys[k] == probs[k];
    StablyDescendingDistinct(keys, r);
    forall i | i in r
      ensures 0 <= i < m
    {
      var k :| 0 <= k < |r| && r[k] == i;
    }
  }

  /** Insertion keeps the sequence stably descending, provided `i` is later than every
      position already present. */
  lemma {:induction false} InsertSorted(keys: seq<real>, i: int, s: seq<int>)
    requires 0 <= i < |keys| && StablyDescending(keys, s)
    requires forall k :: 0 <= k < |s| ==> s[k] < i
    ensures StablyDescending(keys, Insert(keys, i, s))
  {
    var r := Insert(keys, i, s);
    if s == [] {
    } else if keys[s[0]] >= keys[i] {
      var t := s[1..];
      InsertSorted(keys, i, t);
      var r' := Insert(keys, i, t);
      assert r == [s[0]] + r';
      forall b | 0 < b < |r|
        ensures Precedes(keys, r[0], r[b])
      {
        var x := r'[b - 1];
        assert x in r';
        if x == i {
        } else {
          assert x in t;
          var c :| 0 <= c < |t| && t[c] == x;
          assert s[c + 1] == x;
        }
      }
    } else {
      forall b | 0 < b < |r|
        ensures Precedes(keys, r[0], r[b])
      {
        assert r[b] == s[b - 1];
        if b > 1 {
          assert Precedes(keys, s[0], s[b - 1]);
        }
      }
    }
  }

  /** The insertion sort lists every position below `m` exactly once. */
  lemma {:induction false} SortIndicesMembers(keys: seq<real>, m: nat)
    requires m <= |keys|
    ensures |SortIndices(keys, m)| == m
    ensures forall x :: x in SortIndices(keys, m) <==> 0 <= x < m
  {
    if m > 0 {
      var s := SortIndices(keys, m - 1);
      SortIndicesMembers(keys, m - 1);
    }
  }

  /** The insertion sort lists the positions in stable descending order. */
  lemma {:induction false} SortIndicesSorted(keys: seq<real>, m: nat)
    requires m <= |keys|
    ensures StablyDescending(keys, SortIndices(keys, m))
  {
    if m > 0 {
      var s := SortIndices(keys, m - 1);
      SortIndicesSorted(keys, m - 1);
      SortIndicesMembers(keys, m - 1);
      forall k | 0 <= k < |s|
        ensures s[k] < m - 1
      {
        assert s[k] in s;
      }
      InsertSorted(keys, m - 1, s);
    }
  }

  lemma StablyDescendingDistinct(keys: seq<real>, s: seq<int>)
    requires StablyDescending(keys, s)
    ensures forall a, b :: 0 <= a < b < |s| ==> s[a] != s[b]
  {
  }

  lemma HeadPrecedesRest(keys: seq<real>, s: seq<int>)
    requires StablyDescending(keys, s) && s != []
    ensures forall x :: x in s && x != s[0] ==> Precedes(keys, s[0], x)
  {
    forall x | x in s && x != s[0]
      ensures Precedes(keys, s[0], x)
    {
      var k :| 0 <= k < |s| && s[k] == x;
    }
  }

  /** A prefix of a stable descending sort of all positions holds the top entries:
      each chosen position precedes each position left out. */
  lemma {:induction false} PrefixIsTop(keys: seq<real>, s: seq<int>, p: nat)
    requires StablyDescending(keys, s) && p <= |s|
    requires forall x :: x in s <==> 0 <= x < |keys|
    ensures StablyDescending(keys, s[..p])
    ensures forall i, j :: i in s[..p] && 0 <= j < |keys| && j !in s[..p] ==> Precedes(keys, i, j)
  {
    forall i, j | i in s[..p] && 0 <= j < |keys| && j !in s[..p]
      ensures Precedes(keys, i, j)
    {
      var a :| 0 <= a < p && s[a] == i;
      assert j in s;
      var b :| 0 <= b < |s| && s[b] == j;
      assert forall c :: 0 <= c < p ==> s[..p][c] == s[c];
    }
  }

  /** There is only one stable descending order of a set of positions: any two
      stably descending sequences with the same elements are equal. So `SortIndices`
      is exactly the order `sorted(..., reverse=True)` produces. */
  lemma {:induction false} StableOrderUnique(keys: seq<real>, s: seq<int>, t: seq<int>)
    requires StablyDescending(keys, s) && StablyDescending(keys, t)
    requires |s| == |t| && forall x :: x in s <==> x in t
    ensures s == t
  {
    if s != [] {
      assert t != [];
      HeadPrecedesRest(keys, s);
      HeadPrecedesRest(keys, t);
      assert s[0] in t && t[0] in s;
      assert s[0] == t[0];
      forall x
        ensures x in s[1..] <==> x in t[1..]
      {
        if x in s[1..] {
          var c :| 0 <= c < |s| - 1 && s[1..][c] == x;
          assert s[c + 1] == x;
          assert x != s[0];
          assert x in t;
          var d :| 0 <= d < |t| && t[d] == x;
          assert d != 0;
          assert t[1..][d - 1] == x;
        }
        if x in t[1..] {
          var c :| 0 <= c < |t| - 1 && t[1..][c] == x;
          assert t[c + 1] == x;
          assert x != t[0];
          assert x in s;
          var d :| 0 <= d < |s| && s[d] == x;
          assert d != 0;
          assert s[1..][d - 1] == x;
        }
      }
      StableOrderUnique(keys, s[1..], t[1..]);
      assert s == [s[0]] + s[1..];
      assert t == [t[0]] + t[1..];
    }
  }

  /** `nlargest(n, xs, key)` is `sorted(xs, key=key, reverse=True)[:n]`: for ANY stable
      descending order `t` of all positions, the selection is the first `n` entries of `t`. */
  lemma NLargestIsSortedPrefix(keys: seq<real>, n: int, t: seq<int>)
    requires StablyDescending(keys, t)
    requires |t| == |keys| && forall x :: x in t <==> 0 <= x < |keys|
    ensures NLargest(keys, n) == if n <= 0 then [] else t[..Min(n, |t|)]
  {
    SortIndicesMembers(keys, |keys|);
    SortIndicesSorted(keys, |keys|);
    StableOrderUnique(keys, SortIndices(keys, |keys|), t);
  }

  /** The largest two of `[0.1, 0.7, 0.2]` sit at positions 1 and 2, in that order. */
  lemma TopTwoOfThree()
    ensures NLargest([0.1, 0.7, 0.2], 2) == [1, 2]
  {
    var keys := [0.1, 0.7, 0.2];
    assert SortIndices(keys, 1) == [0];
    assert SortIndices(keys, 2) == Insert(keys, 1, [0]) == [1, 0];
    assert keys[2] == 0.2 && keys[0] == 0.1 && keys[1] == 0.7;
    assert Insert(keys, 2, [0]) == [2, 0];
    assert Insert(keys, 2, [1, 0]) == [1] + Insert(keys, 2, [0]);
    assert SortIndices(keys, 3) == [1, 2, 0];
  }
}
