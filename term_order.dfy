/** The order in which the archive lists the entries of one year: ascending by headword. */
module TermOrder {
  import opened SlangTypes

  /** The order the bucket sort compares headwords by: lexicographic on characters, a prefix first. */
  predicate StrLe(a: string, b: string)
    decreases |a|
  {
    a == [] || (b != [] && (a[0] < b[0] || (a[0] == b[0] && StrLe(a[1..], b[1..]))))
  }

  /** Any two headwords are comparable. */
  lemma {:induction false} StrLeTotal(a: string, b: string)
    ensures StrLe(a, b) || StrLe(b, a)
    decreases |a|
  {
    if a != [] && b != [] && a[0] == b[0] {
      StrLeTotal(a[1..], b[1..]);
    }
  }

  /** The order is transitive. */
  lemma {:induction false} StrLeTransitive(a: string, b: string, c: string)
    requires StrLe(a, b) && StrLe(b, c)
    ensures StrLe(a, c)
    decreases |a|
  {
    if a != [] && b != [] && c != [] && a[0] == b[0] && b[0] == c[0] {
      StrLeTransitive(a[1..], b[1..], c[1..]);
    }
  }

  /** Headwords are in ascending order. */
  predicate SortedByTerm(s: seq<SlangEntry>) {
    forall i, j :: 0 <= i < j < |s| ==> StrLe(s[i].term, s[j].term)
  }

  /** Places `x` after every element of the sorted `r` whose headword does not follow its own, so
      that entries with equal headwords keep their order. */
  function Insert(r: seq<SlangEntry>, x: SlangEntry): (res: seq<SlangEntry>)
    ensures multiset(res) == multiset(r) + multiset{x}
    ensures |res| == |r| + 1
  {
    if r == [] then [x]
    else if StrLe(r[|r| - 1].term, x.term) then r + [x]
    else
      assert r == r[..|r| - 1] + [r[|r| - 1]];
      Insert(r[..|r| - 1], x) + [r[|r| - 1]]
  }

  /** Inserting into a sorted list keeps it sorted. */
  lemma {:induction false} InsertSorted(r: seq<SlangEntry>, x: SlangEntry)
    requires SortedByTerm(r)
    ensures SortedByTerm(Insert(r, x))
  {
    if r != [] {
      var last := r[|r| - 1];
      if StrLe(last.term, x.term) {
        var res := r + [x];
        forall i, j | 0 <= i < j < |res| ensures StrLe(res[i].term, res[j].term) {
          if j == |r| && i < |r| - 1 {
            StrLeTransitive(res[i].term, last.term, x.term);
          }
        }
      } else {
        StrLeTotal(last.term, x.term);
        var front := r[..|r| - 1];
        InsertSorted(front, x);
        var ins := Insert(front, x);
        var res := ins + [last];
        forall e | e in ins ensures StrLe(e.term, last.term) {
          assert e in multiset(ins);
          if e != x {
            assert e in multiset(front);
            var k :| 0 <= k < |front| && front[k] == e;
            assert r[k] == e;
          }
        }
        forall i, j | 0 <= i < j < |res| ensures StrLe(res[i].term, res[j].term) {
          if j == |ins| {
            assert res[i] in ins;
          }
        }
      }
    }
  }

  /** `Array.prototype.sort` with the headword comparison, which is stable: each entry in turn is
      inserted into the already sorted entries before it. */
  function SortByTerm(s: seq<SlangEntry>): seq<SlangEntry> {
    if s == [] then [] else Insert(SortByTerm(s[..|s| - 1]), s[|s| - 1])
  }

  /** The sort returns the same entries, in ascending order of headword. */
  lemma {:induction false} SortByTermSortsAndPermutes(s: seq<SlangEntry>)
    ensures multiset(SortByTerm(s)) == multiset(s)
    ensures SortedByTerm(SortByTerm(s))
  {
    if s != [] {
      var front := s[..|s| - 1];
      SortByTermSortsAndPermutes(front);
      InsertSorted(SortByTerm(front), s[|s| - 1]);
      assert s == front + [s[|s| - 1]];
    }
  }
}
