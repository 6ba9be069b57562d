/** Sequence helpers the controllers and pages share: order-preserving
    filtering and counting (`array.filter`, `.length`), and the newest-first
    ordering the document queries and the dashboard apply. */
module Collections {

  /** `s.filter(p)`: the elements that pass, in their original order. */
  function Where<T>(s: seq<T>, p: T -> bool): seq<T> {
    if s == [] then [] else Where(s[..|s| - 1], p) + (if p(s[|s| - 1]) then [s[|s| - 1]] else [])
  }

  /** An element survives the filter iff it was there and passes, and the
      survivors are a sub-multiset of the input. */
  lemma {:induction false} WhereSpec<T>(s: seq<T>, p: T -> bool)
    ensures forall x :: x in Where(s, p) <==> x in s && p(x)
    ensures multiset(Where(s, p)) <= multiset(s)
    ensures |Where(s, p)| <= |s|
  {
    if s != [] {
      WhereSpec(s[..|s| - 1], p);
      assert s == s[..|s| - 1] + [s[|s| - 1]];
    }
  }

  /** Filtering by a condition that everything meets changes nothing. */
  lemma {:induction false} WhereAll<T>(s: seq<T>, p: T -> bool)
    requires forall i :: 0 <= i < |s| ==> p(s[i])
    ensures Where(s, p) == s
  {
    if s != [] {
      WhereAll(s[..|s| - 1], p);
      assert s[..|s| - 1] + [s[|s| - 1]] == s;
    }
  }

  /** Two filters in a row keep what passes both. */
  lemma {:induction false} WhereWhere<T>(s: seq<T>, p: T -> bool, q: T -> bool, pq: T -> bool)
    requires forall x :: pq(x) == (p(x) && q(x))
    ensures Where(Where(s, p), q) == Where(s, pq)
  {
    if s != [] {
      var init := s[..|s| - 1];
      var x := s[|s| - 1];
      WhereWhere(init, p, q, pq);
      assert s[..|s| - 1] == init;
      var w := Where(init, p);
      assert Where(s, pq) == Where(init, pq) + (if pq(x) then [x] else []);
      if p(x) {
        assert Where(s, p) == w + [x];
        assert (w + [x])[..|w + [x]| - 1] == w;
        assert Where(w + [x], q) == Where(w, q) + (if q(x) then [x] else []);
      } else {
        assert Where(s, p) == w;
      }
    }
  }

  /** Filters that agree on every element of `s` keep the same elements. */
  lemma {:induction false} WhereSame<T>(s: seq<T>, p: T -> bool, q: T -> bool)
    requires forall i :: 0 <= i < |s| ==> p(s[i]) == q(s[i])
    ensures Where(s, p) == Where(s, q)
  {
    if s != [] {
      WhereSame(s[..|s| - 1], p, q);
    }
  }

  /** `s.filter(p).length`. */
  function CountWhere<T>(s: seq<T>, p: T -> bool): nat {
    |Where(s, p)|
  }

  /** Counts of three mutually exclusive conditions add up to at most the
      number of elements. */
  lemma {:induction false} ExclusiveCounts<T>(s: seq<T>, p: T -> bool, q: T -> bool, r: T -> bool)
    requires forall x :: !(p(x) && q(x)) && !(p(x) && r(x)) && !(q(x) && r(x))
    ensures CountWhere(s, p) + CountWhere(s, q) + CountWhere(s, r) <= |s|
  {
    if s != [] {
      ExclusiveCounts(s[..|s| - 1], p, q, r);
    }
  }

  // ---------------------------------------------------------------------
  // Newest first: `sort({ createdAt: -1 })` and the dashboard's comparator

  predicate NewestFirst<T>(s: seq<T>, key: T -> int) {
    forall i, j :: 0 <= i < j < |s| ==> key(s[i]) >= key(s[j])
  }

  /** Places x after every element at least as new, so that earlier input
      stays ahead of later input with the same key. */
  function InsertNewest<T>(x: T, s: seq<T>, key: T -> int): seq<T>
    decreases |s|
  {
    if s == [] then [x]
    else if key(s[0]) < key(x) then [x] + s
    else [s[0]] + InsertNewest(x, s[1..], key)
  }

  predicate AtMost<T>(s: seq<T>, key: T -> int, k: int) {
    forall i :: 0 <= i < |s| ==> key(s[i]) <= k
  }

  /** A sequence is newest first iff its head is at least as new as the rest
      and the rest is newest first. */
  lemma NewestFirstCons<T>(a: T, t: seq<T>, key: T -> int)
    ensures NewestFirst([a] + t, key) <==> AtMost(t, key, key(a)) && NewestFirst(t, key)
  {
    var s := [a] + t;
    if AtMost(t, key, key(a)) && NewestFirst(t, key) {
      forall i, j | 0 <= i < j < |s| ensures key(s[i]) >= key(s[j]) {
        assert s[j] == t[j - 1];
        if i > 0 {
          assert s[i] == t[i - 1];
        }
      }
    }
    if NewestFirst(s, key) {
      forall i | 0 <= i < |t| ensures key(t[i]) <= key(a) {
        assert s[0] == a && s[i + 1] == t[i];
      }
      forall i, j | 0 <= i < j < |t| ensures key(t[i]) >= key(t[j]) {
        assert s[i + 1] == t[i] && s[j + 1] == t[j];
      }
    }
  }

  lemma {:induction false} InsertNewestBound<T>(x: T, s: seq<T>, key: T -> int, k: int)
    requires AtMost(s, key, k) && key(x) <= k
    ensures AtMost(InsertNewest(x, s, key), key, k)
    decreases |s|
  {
    if s != [] && key(s[0]) >= key(x) {
      assert AtMost(s[1..], key, k) by {
        forall i | 0 <= i < |s[1..]| ensures key(s[1..][i]) <= k {
          assert s[1..][i] == s[i + 1];
        }
      }
      InsertNewestBound(x, s[1..], key, k);
    }
  }

  lemma {:induction false} InsertNewestSpec<T>(x: T, s: seq<T>, key: T -> int)
    requires NewestFirst(s, key)
    ensures NewestFirst(InsertNewest(x, s, key), key)
    ensures multiset(InsertNewest(x, s, key)) == multiset(s) + multiset{x}
    decreases |s|
  {
    if s == [] {
    } else if key(s[0]) < key(x) {
      NewestFirstCons(s[0], s[1..], key);
      assert s == [s[0]] + s[1..];
      assert AtMost(s, key, key(x)) by {
        forall i | 0 <= i < |s| ensures key(s[i]) <= key(x) {
          if i > 0 {
            assert s[i] == s[1..][i - 1];
          }
        }
      }
      NewestFirstCons(x, s, key);
    } else {
      var t := s[1..];
      assert s == [s[0]] + t;
      NewestFirstCons(s[0], t, key);
      InsertNewestSpec(x, t, key);
      InsertNewestBound(x, t, key, key(s[0]));
      NewestFirstCons(s[0], InsertNewest(x, t, key), key);
    }
  }

  /** Insertion sort on the key, newest first. */
  function SortNewestFirst<T>(s: seq<T>, key: T -> int): seq<T> {
    if s == [] then [] else InsertNewest(s[|s| - 1], SortNewestFirst(s[..|s| - 1], key), key)
  }

  /** The sorted sequence is newest first and a permutation of the input. */
  lemma {:induction false} SortNewestFirstSpec<T>(s: seq<T>, key: T -> int)
    ensures NewestFirst(SortNewestFirst(s, key), key)
    ensures multiset(SortNewestFirst(s, key)) == multiset(s)
  {
    if s != [] {
      SortNewestFirstSpec(s[..|s| - 1], key);
      InsertNewestSpec(s[|s| - 1], SortNewestFirst(s[..|s| - 1], key), key);
      assert s == s[..|s| - 1] + [s[|s| - 1]];
    }
  }
}
