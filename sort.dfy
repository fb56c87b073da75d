/**
 * `safeSortContent`: today's list ordered by title, then by the year read as a number, then by season,
 * with the ordinal string comparison `safeStringCompare` falls back to. The order is specified by a
 * stable insertion sort over that comparator.
 */
module Sort {
  import opened Text
  import opened Records
  import opened Merge

  /** `a < b ? -1 : a > b ? 1 : 0` on strings: lexicographic, character by character. */
  function CompareStrings(a: string, b: string): (r: int)
    ensures -1 <= r <= 1
  {
    if a == [] && b == [] then 0
    else if a == [] then -1
    else if b == [] then 1
    else if a[0] < b[0] then -1
    else if a[0] > b[0] then 1
    else CompareStrings(a[1..], b[1..])
  }

  /** `Number(year) || 0` for the digit strings years are written as; anything else counts as 0. */
  function YearNumber(year: string): nat {
    var y := Trim(year);
    if y != [] && AllDigits(y) then DigitsValue(y) else 0
  }

  /** The comparator handed to `arr.sort`. */
  function CompareShows(a: Show, b: Show): int {
    var t := CompareStrings(a.title, b.title);
    if t != 0 then t
    else
      var y := YearNumber(a.year) - YearNumber(b.year);
      if y != 0 then y
      else CompareStrings(a.season, b.season)
  }

  predicate Sorted(s: seq<Show>) {
    forall i, j :: 0 <= i < j < |s| ==> CompareShows(s[i], s[j]) <= 0
  }

  // ---------------------------------------------------------------------------------------------
  // the comparator is a total preorder

  /** The string comparison is antisymmetric and tells equal strings exactly. */
  lemma {:induction false} CompareStringsFlip(a: string, b: string)
    ensures CompareStrings(b, a) == -CompareStrings(a, b)
    ensures CompareStrings(a, b) == 0 <==> a == b
  {
    if a != [] && b != [] && a[0] == b[0] {
      CompareStringsFlip(a[1..], b[1..]);
      if a[1..] == b[1..] {
        assert a == [a[0]] + a[1..] && b == [b[0]] + b[1..];
      }
    }
  }

  lemma {:induction false} CompareStringsTrans(a: string, b: string, c: string)
    requires CompareStrings(a, b) <= 0 && CompareStrings(b, c) <= 0
    ensures CompareStrings(a, c) <= 0
  {
    if a != [] && b != [] && c != [] && a[0] == b[0] && b[0] == c[0] {
      CompareStringsTrans(a[1..], b[1..], c[1..]);
    }
  }

  /** Swapping the operands flips the sign of the comparison. */
  lemma CompareShowsFlip(a: Show, b: Show)
    ensures CompareShows(a, b) < 0 <==> CompareShows(b, a) > 0
    ensures CompareShows(a, b) == 0 <==> CompareShows(b, a) == 0
  {
    CompareStringsFlip(a.title, b.title);
    CompareStringsFlip(a.season, b.season);
  }

  /** Ordering is transitive. */
  lemma CompareShowsTrans(a: Show, b: Show, c: Show)
    requires CompareShows(a, b) <= 0 && CompareShows(b, c) <= 0
    ensures CompareShows(a, c) <= 0
  {
    var ab := CompareStrings(a.title, b.title);
    var bc := CompareStrings(b.title, c.title);
    CompareStringsFlip(a.title, b.title);
    CompareStringsFlip(b.title, c.title);
    CompareStringsFlip(a.title, c.title);
    CompareStringsTrans(a.title, b.title, c.title);
    if ab == 0 && bc == 0 {
      CompareStringsFlip(a.season, c.season);
      if YearNumber(a.year) == YearNumber(b.year) && YearNumber(b.year) == YearNumber(c.year) {
        CompareStringsTrans(a.season, b.season, c.season);
      }
    }
  }

  // ---------------------------------------------------------------------------------------------
  // the sort

  /** Insert `x` after every element that does not sort strictly after it. */
  function Insert(x: Show, s: seq<Show>): (r: seq<Show>)
    ensures multiset(r) == multiset(s) + multiset{x}
  {
    if s == [] then [x]
    else if CompareShows(x, s[0]) < 0 then [x] + s
    else
      assert s == [s[0]] + s[1..];
      [s[0]] + Insert(x, s[1..])
  }

  /** The sorted order `arr.sort(cmp)` leaves the list in. */
  function SortShows(c: seq<Show>): (r: seq<Show>)
    ensures multiset(r) == multiset(c)
    decreases |c|
  {
    if c == [] then []
    else
      assert c == c[..|c| - 1] + [c[|c| - 1]];
      Insert(c[|c| - 1], SortShows(c[..|c| - 1]))
  }

  /** Inserting into a sorted list keeps it sorted. */
  lemma {:induction false} InsertKeepsSorted(x: Show, s: seq<Show>)
    requires Sorted(s)
    ensures Sorted(Insert(x, s))
    decreases |s|
  {
    hide CompareShows;
    var r := Insert(x, s);
    if s == [] {
    } else if CompareShows(x, s[0]) < 0 {
      forall j | 1 <= j < |r| ensures CompareShows(x, r[j]) <= 0 {
        assert r[j] == s[j - 1];
        if j > 1 {
          CompareShowsTrans(x, s[0], s[j - 1]);
        }
      }
    } else {
      var tail := Insert(x, s[1..]);
      assert r == [s[0]] + tail;
      InsertKeepsSorted(x, s[1..]);
      CompareShowsFlip(x, s[0]);
      forall j | 0 <= j < |tail| ensures CompareShows(s[0], tail[j]) <= 0 {
        assert tail[j] in multiset(s[1..]) + multiset{x};
        if tail[j] != x {
          assert tail[j] in s[1..];
          var k :| 0 <= k < |s[1..]| && s[1..][k] == tail[j];
          assert s[k + 1] == tail[j];
        }
      }
    }
  }

  /** The sort orders the list and is a permutation of it. */
  lemma {:induction false} SortShowsSorted(c: seq<Show>)
    ensures Sorted(SortShows(c)) && multiset(SortShows(c)) == multiset(c)
    decreases |c|
  {
    if c != [] {
      SortShowsSorted(c[..|c| - 1]);
      InsertKeepsSorted(c[|c| - 1], SortShows(c[..|c| - 1]));
    }
  }

  /** A permutation has the same records, so the same keys, the same uniqueness and the same well-formedness. */
  lemma PermutationKeeps(c: seq<Show>, d: seq<Show>)
    requires multiset(c) == multiset(d)
    ensures Keys(c) == Keys(d)
    ensures AllWellFormed(c) ==> AllWellFormed(d)
    ensures UniqueKeys(c) ==> UniqueKeys(d)
  {
    hide KeyOf, WellFormed;
    forall s | s in d ensures s in c {
      assert s in multiset(d);
    }
    forall s | s in c ensures s in d {
      assert s in multiset(c);
    }
    forall k | k in Keys(c) ensures k in Keys(d) {
      var j :| 0 <= j < |c| && KeyOf(c[j]) == k;
      assert c[j] in d;
    }
    forall k | k in Keys(d) ensures k in Keys(c) {
      var j :| 0 <= j < |d| && KeyOf(d[j]) == k;
      assert d[j] in c;
    }
    if AllWellFormed(c) {
      forall j | 0 <= j < |d| ensures WellFormed(d[j]) {
        assert d[j] in c;
      }
    }
    if UniqueKeys(c) {
      forall i, j | 0 <= i < j < |d| ensures KeyOf(d[i]) != KeyOf(d[j]) {
        if KeyOf(d[i]) == KeyOf(d[j]) {
          if d[i] == d[j] {
            assert multiset(d)[d[i]] >= 2 by {
              assert d == d[..i] + [d[i]] + d[i + 1..j] + [d[j]] + d[j + 1..];
            }
            MultiplicityTwo(c, d[i]);
          } else {
            var a :| 0 <= a < |c| && c[a] == d[i];
            var b :| 0 <= b < |c| && c[b] == d[j];
          }
        }
      }
    }
  }

  /** A record present twice in a list occupies two positions of it. */
  lemma MultiplicityTwo(c: seq<Show>, x: Show)
    requires multiset(c)[x] >= 2
    ensures exists a, b :: 0 <= a < b < |c| && c[a] == x && c[b] == x
  {
    var a :| 0 <= a < |c| && c[a] == x by {
      assert x in multiset(c);
    }
    assert c == c[..a] + [x] + c[a + 1..];
    if x in c[..a] {
      var k :| 0 <= k < a && c[..a][k] == x;
      assert c[k] == x;
    } else if x in c[a + 1..] {
      var k :| 0 <= k < |c[a + 1..]| && c[a + 1..][k] == x;
      assert c[a + 1 + k] == x;
    }
  }
}
