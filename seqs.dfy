/** Order-preserving filtering of sequences: the list comprehension `[x for x in s if p(x)]`. */
module Seqs {

  /** The elements of `s` that satisfy `p`, in their original order. */
  function Keep<T>(p: T -> bool, s: seq<T>): (r: seq<T>)
    ensures |r| <= |s|
  {
    if s == [] then [] else (if p(s[0]) then [s[0]] else []) + Keep(p, s[1..])
  }

  /** An element is kept exactly when it occurs in `s` and passes the test. */
  lemma {:induction false} KeepMembers<T>(p: T -> bool, s: seq<T>)
    ensures forall i :: 0 <= i < |Keep(p, s)| ==> Keep(p, s)[i] in s && p(Keep(p, s)[i])
    ensures forall i :: 0 <= i < |s| && p(s[i]) ==> s[i] in Keep(p, s)
    decreases |s|
  {
    if s != [] {
      KeepMembers(p, s[1..]);
      var r := Keep(p, s);
      var tail := Keep(p, s[1..]);
      assert r == (if p(s[0]) then [s[0]] else []) + tail;
      forall i | 0 <= i < |s| && p(s[i]) ensures s[i] in r {
        if i > 0 {
          assert s[i] == s[1..][i - 1];
        }
      }
    }
  }

  /** The positions of `s` whose element satisfies `p`. */
  function Positions<T>(p: T -> bool, s: seq<T>): set<int>
  {
    set i | 0 <= i < |s| && p(s[i])
  }

  /** Filtering a concatenation filters each part and keeps them in order. */
  lemma {:induction false} KeepAppend<T>(p: T -> bool, a: seq<T>, b: seq<T>)
    ensures Keep(p, a + b) == Keep(p, a) + Keep(p, b)
    decreases |a|
  {
    if a == [] {
      assert a + b == b;
    } else {
      var head := if p(a[0]) then [a[0]] else [];
      assert (a + b)[0] == a[0];
      assert (a + b)[1..] == a[1..] + b;
      assert Keep(p, a + b) == head + Keep(p, a[1..] + b);
      KeepAppend(p, a[1..], b);
      assert Keep(p, a) == head + Keep(p, a[1..]);
    }
  }

  /** Filtering a sequence that starts with `x`. */
  lemma KeepCons<T>(p: T -> bool, x: T, s: seq<T>)
    ensures Keep(p, [x] + s) == (if p(x) then [x] else []) + Keep(p, s)
  {
  }

  /** The filtered sequence has one element per position that satisfies `p`. */
  lemma {:induction false} KeepCount<T>(p: T -> bool, s: seq<T>)
    ensures |Keep(p, s)| == |Positions(p, s)|
    decreases |s|
  {
    if s != [] {
      var n := |s| - 1;
      var front := s[..n];
      assert front + [s[n]] == s;
      KeepCount(p, front);
      KeepAppend(p, front, [s[n]]);
      KeepCons(p, s[n], []);
      assert n !in Positions(p, front);
      if p(s[n]) {
        assert Positions(p, s) == Positions(p, front) + {n};
      } else {
        assert Positions(p, s) == Positions(p, front);
      }
    }
  }

  /** Filtering twice by the same test is filtering once. */
  lemma {:induction false} KeepIdempotent<T>(p: T -> bool, s: seq<T>)
    ensures Keep(p, Keep(p, s)) == Keep(p, s)
    decreases |s|
  {
    if s != [] {
      KeepIdempotent(p, s[1..]);
      if p(s[0]) {
        assert Keep(p, s) == [s[0]] + Keep(p, s[1..]);
        KeepCons(p, s[0], Keep(p, s[1..]));
      } else {
        assert Keep(p, s) == Keep(p, s[1..]);
      }
    }
  }

  /** When every element passes the test, nothing is dropped. */
  lemma {:induction false} KeepEverything<T>(p: T -> bool, s: seq<T>)
    requires forall i :: 0 <= i < |s| ==> p(s[i])
    ensures Keep(p, s) == s
    decreases |s|
  {
    if s != [] {
      KeepEverything(p, s[1..]);
    }
  }
}
