/** The array operations the application uses on lists: `filter`, and the facts about order and
    duplicates that the query and toggle rules depend on. */
module Collections {

  /** `Array.prototype.filter`: the elements of `s` that satisfy `p`, in their original order. */
  function Filter<T(==,!new)>(s: seq<T>, p: T -> bool): (r: seq<T>)
    ensures |r| <= |s|
    ensures forall x :: x in r <==> x in s && p(x)
    ensures IsSubsequence(r, s)
  {
    if s == [] then []
    else if p(s[0]) then
      var rest := Filter(s[1..], p);
      assert IsSubsequence([s[0]] + rest, s) by {
        assert ([s[0]] + rest)[1..] == rest;
      }
      [s[0]] + rest
    else
      var rest := Filter(s[1..], p);
      SubsequenceOfTail(rest, s);
      rest
  }

  /** `a` is obtained from `b` by deleting elements, without reordering what is kept. */
  predicate IsSubsequence<T(==)>(a: seq<T>, b: seq<T>)
    decreases |b|
  {
    if a == [] then true
    else if b == [] then false
    else (a[0] == b[0] && IsSubsequence(a[1..], b[1..])) || IsSubsequence(a, b[1..])
  }

  /** Every sequence is a subsequence of itself. */
  lemma {:induction false} SubsequenceReflexive<T>(a: seq<T>)
    ensures IsSubsequence(a, a)
  {
    if a != [] {
      SubsequenceReflexive(a[1..]);
    }
  }

  /** A subsequence of the tail is a subsequence of the whole. */
  lemma SubsequenceOfTail<T>(a: seq<T>, b: seq<T>)
    requires b != [] && IsSubsequence(a, b[1..])
    ensures IsSubsequence(a, b)
  {
  }

  /** No element occurs twice. */
  predicate NoDuplicates<T(==)>(s: seq<T>) {
    forall i, j :: 0 <= i < j < |s| ==> s[i] != s[j]
  }

  /** Dropping the head of a duplicate-free sequence leaves it duplicate-free, without the head. */
  lemma NoDuplicatesTail<T>(s: seq<T>)
    requires s != [] && NoDuplicates(s)
    ensures NoDuplicates(s[1..]) && s[0] !in s[1..]
  {
    forall i, j | 0 <= i < j < |s[1..]| ensures s[1..][i] != s[1..][j] {
      assert s[1..][i] == s[i + 1] && s[1..][j] == s[j + 1];
    }
    forall k | 0 <= k < |s[1..]| ensures s[1..][k] != s[0] {
      assert s[1..][k] == s[k + 1];
    }
  }

  /** Appending an element that is not yet present keeps a sequence duplicate-free. */
  lemma NoDuplicatesAppend<T>(s: seq<T>, x: T)
    requires NoDuplicates(s) && x !in s
    ensures NoDuplicates(s + [x])
  {
    var r := s + [x];
    forall i, j | 0 <= i < j < |r| ensures r[i] != r[j] {
      if j == |s| {
        assert r[i] == s[i];
      }
    }
  }

  /** Filtering never introduces duplicates. */
  lemma {:induction false} FilterNoDuplicates<T(!new)>(s: seq<T>, p: T -> bool)
    requires NoDuplicates(s)
    ensures NoDuplicates(Filter(s, p))
  {
    if s != [] {
      assert NoDuplicates(s[1..]) by {
        forall i, j | 0 <= i < j < |s[1..]| ensures s[1..][i] != s[1..][j] {
          assert s[1..][i] == s[i + 1] && s[1..][j] == s[j + 1];
        }
      }
      FilterNoDuplicates(s[1..], p);
      if p(s[0]) {
        var rest := Filter(s[1..], p);
        assert s[0] !in s[1..] by {
          forall k | 0 <= k < |s[1..]| ensures s[1..][k] != s[0] {
            assert s[1..][k] == s[k + 1];
          }
        }
        assert s[0] !in rest;
        var r := [s[0]] + rest;
        forall i, j | 0 <= i < j < |r| ensures r[i] != r[j] {
          if i == 0 {
            assert r[j] == rest[j - 1] && r[j] in rest;
          } else {
            assert r[i] == rest[i - 1] && r[j] == rest[j - 1];
          }
        }
      }
    }
  }

  /** Filtering with a test that every element passes changes nothing. */
  lemma {:induction false} FilterAll<T(!new)>(s: seq<T>, p: T -> bool)
    requires forall x :: x in s ==> p(x)
    ensures Filter(s, p) == s
  {
    if s != [] {
      assert forall x :: x in s[1..] ==> x in s;
      FilterAll(s[1..], p);
    }
  }

  /** Filtering after appending one element: that element is kept at the end exactly when it passes. */
  lemma {:induction false} FilterAppend<T(!new)>(s: seq<T>, x: T, p: T -> bool)
    ensures Filter(s + [x], p) == Filter(s, p) + (if p(x) then [x] else [])
  {
    if s == [] {
      assert s + [x] == [x];
    } else {
      assert (s + [x])[1..] == s[1..] + [x];
      FilterAppend(s[1..], x, p);
    }
  }

  /** Subsequence is transitive: keeping a subsequence of a subsequence keeps the original order. */
  lemma {:induction false} SubsequenceTransitive<T>(a: seq<T>, b: seq<T>, c: seq<T>)
    requires IsSubsequence(a, b) && IsSubsequence(b, c)
    ensures IsSubsequence(a, c)
    decreases |c|
  {
    if a == [] {
    } else if c == [] {
    } else if b[0] == c[0] && IsSubsequence(b[1..], c[1..]) {
      if a[0] == b[0] && IsSubsequence(a[1..], b[1..]) {
        SubsequenceTransitive(a[1..], b[1..], c[1..]);
      } else {
        SubsequenceTransitive(a, b[1..], c[1..]);
      }
      assert IsSubsequence(a, c);
    } else {
      SubsequenceTransitive(a, b, c[1..]);
    }
  }

  /** The elements of `s` whose key is `k`, in their original order: what pushing each element
      onto the list for its key leaves in the list for `k`. */
  function Group<T(==,!new)>(s: seq<T>, key: T -> int, k: int): (r: seq<T>)
    ensures forall x :: x in r <==> x in s && key(x) == k
  {
    if s == [] then []
    else
      var front, last := s[..|s| - 1], s[|s| - 1];
      assert s == front + [last];
      Group(front, key, k) + (if key(last) == k then [last] else [])
  }

  /** Appending an element appends it to the group of its key and to no other. */
  lemma GroupAppend<T(!new)>(s: seq<T>, x: T, key: T -> int, k: int)
    ensures Group(s + [x], key, k) == Group(s, key, k) + (if key(x) == k then [x] else [])
  {
    assert (s + [x])[..|s|] == s;
  }

  /** A key that no element has has an empty group. */
  lemma {:induction false} GroupNone<T(!new)>(s: seq<T>, key: T -> int, k: int)
    requires forall i :: 0 <= i < |s| ==> key(s[i]) != k
    ensures Group(s, key, k) == []
  {
    if s != [] {
      GroupNone(s[..|s| - 1], key, k);
    }
  }

  /** The groups of the keys `ks` laid end to end. */
  function Groups<T(==,!new)>(s: seq<T>, key: T -> int, ks: seq<int>): seq<T> {
    if ks == [] then [] else Group(s, key, ks[0]) + Groups(s, key, ks[1..])
  }

  /** An element whose key is not listed changes none of the listed groups. */
  lemma {:induction false} GroupsAppendUnlisted<T(!new)>(s: seq<T>, x: T, key: T -> int, ks: seq<int>)
    requires key(x) !in ks
    ensures Groups(s + [x], key, ks) == Groups(s, key, ks)
  {
    if ks != [] {
      assert (s + [x])[..|s|] == s;
      GroupsAppendUnlisted(s, x, key, ks[1..]);
    }
  }

  /** An element whose key is listed once is added once to the listed groups. */
  lemma {:induction false} GroupsAppendListed<T(!new)>(s: seq<T>, x: T, key: T -> int, ks: seq<int>)
    requires NoDuplicates(ks) && key(x) in ks
    ensures multiset(Groups(s + [x], key, ks)) == multiset(Groups(s, key, ks)) + multiset{x}
  {
    var k, rest := ks[0], ks[1..];
    NoDuplicatesTail(ks);
    assert (s + [x])[..|s|] == s;
    if key(x) == k {
      GroupsAppendUnlisted(s, x, key, rest);
    } else {
      assert key(x) in rest by {
        assert ks == [k] + rest;
      }
      GroupsAppendListed(s, x, key, rest);
    }
  }

  /** Nothing is grouped from nothing. */
  lemma {:induction false} GroupsOfEmpty<T(!new)>(key: T -> int, ks: seq<int>)
    ensures Groups([], key, ks) == []
  {
    if ks != [] {
      GroupsOfEmpty(key, ks[1..]);
    }
  }

  /** Grouping by a duplicate-free list of keys that covers every key drops and duplicates nothing. */
  lemma {:induction false} GroupsPartition<T(!new)>(s: seq<T>, key: T -> int, ks: seq<int>)
    requires NoDuplicates(ks)
    requires forall i :: 0 <= i < |s| ==> key(s[i]) in ks
    ensures multiset(Groups(s, key, ks)) == multiset(s)
    decreases |s|
  {
    if s == [] {
      GroupsOfEmpty(key, ks);
    } else {
      var front, x := s[..|s| - 1], s[|s| - 1];
      assert s == front + [x];
      GroupsPartition(front, key, ks);
      GroupsAppendListed(front, x, key, ks);
    }
  }
}
