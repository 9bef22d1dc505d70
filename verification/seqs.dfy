/** Sequence operations the source writes as loops over a `seen` map:
    keep-first de-duplication and order-preserving filtering. */
module Seqs {

  /** The set of keys of the elements of `s`. */
  ghost function KeysOf<T(!new), K>(s: seq<T>, key: T -> K): set<K>
  {
    set x | x in s :: key(x)
  }

  /** Walks `s` left to right with a `seen` set, as the Go loops do: an element is
      kept when its key has not been seen, and its key is then marked seen. */
  function DedupBy<T(!new), K>(s: seq<T>, key: T -> K, seen: set<K>): (r: seq<T>)
    ensures |r| <= |s|
    ensures forall x :: x in r ==> x in s
    ensures forall i :: 0 <= i < |r| ==> key(r[i]) !in seen
    ensures forall i, j :: 0 <= i < j < |r| ==> key(r[i]) != key(r[j])
    ensures KeysOf(r, key) == KeysOf(s, key) - seen
    decreases |s|
  {
    if |s| == 0 then []
    else if key(s[0]) in seen then
      var r := DedupBy(s[1..], key, seen);
      assert KeysOf(s, key) == {key(s[0])} + KeysOf(s[1..], key) by {
        assert forall x :: x in s <==> x == s[0] || x in s[1..];
      }
      r
    else
      var rest := DedupBy(s[1..], key, seen + {key(s[0])});
      var r := [s[0]] + rest;
      assert KeysOf(s, key) == {key(s[0])} + KeysOf(s[1..], key) by {
        assert forall x :: x in s <==> x == s[0] || x in s[1..];
      }
      assert KeysOf(r, key) == {key(s[0])} + KeysOf(rest, key) by {
        assert forall x :: x in r <==> x == s[0] || x in rest;
      }
      r
  }

  /** De-duplicating a concatenation is de-duplicating the front part, then the
      back part with the front part's keys already seen: earlier elements win
      and the output keeps input order. */
  lemma {:induction false} DedupAppend<T(!new), K>(a: seq<T>, b: seq<T>, key: T -> K, seen: set<K>)
    ensures DedupBy(a + b, key, seen) == DedupBy(a, key, seen) + DedupBy(b, key, seen + KeysOf(a, key))
    decreases |a|
  {
    if |a| == 0 {
      assert a + b == b;
      assert KeysOf(a, key) == {};
      assert seen + KeysOf(a, key) == seen;
    } else {
      assert (a + b)[0] == a[0];
      assert (a + b)[1..] == a[1..] + b;
      assert KeysOf(a, key) == {key(a[0])} + KeysOf(a[1..], key) by {
        assert forall x :: x in a <==> x == a[0] || x in a[1..];
      }
      if key(a[0]) in seen {
        DedupAppend(a[1..], b, key, seen);
        assert seen + KeysOf(a[1..], key) == seen + KeysOf(a, key);
      } else {
        DedupAppend(a[1..], b, key, seen + {key(a[0])});
        assert seen + {key(a[0])} + KeysOf(a[1..], key) == seen + KeysOf(a, key);
      }
    }
  }

  /** One more element at the end is kept exactly when its key is new. */
  lemma DedupSnoc<T(!new), K>(a: seq<T>, x: T, key: T -> K, seen: set<K>)
    ensures DedupBy(a + [x], key, seen)
         == DedupBy(a, key, seen) + (if key(x) in seen + KeysOf(a, key) then [] else [x])
  {
    DedupAppend(a, [x], key, seen);
    var s' := seen + KeysOf(a, key);
    assert [x][1..] == [];
    if key(x) !in s' {
      assert DedupBy([x], key, s') == [x] + DedupBy([], key, s' + {key(x)});
    }
  }

  /** An element whose key occurs nowhere earlier (and is not already seen) is kept. */
  lemma {:induction false} FirstOccurrenceKept<T(!new), K>(s: seq<T>, i: nat, key: T -> K, seen: set<K>)
    requires i < |s|
    requires key(s[i]) !in seen
    requires forall j :: 0 <= j < i ==> key(s[j]) != key(s[i])
    ensures s[i] in DedupBy(s, key, seen)
  {
    assert s == s[..i] + [s[i]] + s[i + 1..];
    DedupAppend(s[..i] + [s[i]], s[i + 1..], key, seen);
    DedupSnoc(s[..i], s[i], key, seen);
    assert key(s[i]) !in KeysOf(s[..i], key) by {
      forall x | x in s[..i] ensures key(x) != key(s[i]) {
        var j :| 0 <= j < i && s[..i][j] == x;
      }
    }
  }

  /** The elements of `s` that satisfy `p`, in their original order. */
  function Filter<T(!new)>(s: seq<T>, p: T -> bool): (r: seq<T>)
    ensures |r| <= |s|
    ensures forall x :: x in r <==> x in s && p(x)
    decreases |s|
  {
    if |s| == 0 then []
    else
      var rest := Filter(s[1..], p);
      assert forall x :: x in s <==> x == s[0] || x in s[1..];
      if p(s[0]) then [s[0]] + rest else rest
  }

  /** Filtering distributes over concatenation, so the relative order of kept
      elements is the input order. */
  lemma {:induction false} FilterAppend<T(!new)>(a: seq<T>, b: seq<T>, p: T -> bool)
    ensures Filter(a + b, p) == Filter(a, p) + Filter(b, p)
    decreases |a|
  {
    if |a| == 0 {
      assert a + b == b;
    } else {
      assert (a + b)[0] == a[0];
      assert (a + b)[1..] == a[1..] + b;
      FilterAppend(a[1..], b, p);
    }
  }

  /** No two elements of `s` share a key. */
  ghost predicate DistinctKeys<T, K>(s: seq<T>, key: T -> K)
  {
    forall i, j :: 0 <= i < j < |s| ==> key(s[i]) != key(s[j])
  }

  /** Filtering a sequence whose keys are distinct leaves them distinct. */
  lemma {:induction false} FilterKeepsDistinct<T(!new), K>(s: seq<T>, p: T -> bool, key: T -> K)
    requires DistinctKeys(s, key)
    ensures DistinctKeys(Filter(s, p), key)
    decreases |s|
  {
    if |s| > 0 {
      FilterKeepsDistinct(s[1..], p, key);
      var rest := Filter(s[1..], p);
      forall x | x in rest ensures key(x) != key(s[0]) {
        var j :| 0 <= j < |s[1..]| && s[1..][j] == x;
        assert s[j + 1] == x;
      }
      if p(s[0]) {
        var r := [s[0]] + rest;
        forall i, j | 0 <= i < j < |r| ensures key(r[i]) != key(r[j]) {
          assert r[j] == rest[j - 1];
          if i > 0 {
            assert r[i] == rest[i - 1];
          } else {
            assert rest[j - 1] in rest;
          }
        }
      }
    }
  }

  /** The keys of a sequence with one more element. */
  lemma KeysOfSnoc<T(!new), K>(a: seq<T>, x: T, key: T -> K)
    ensures KeysOf(a + [x], key) == KeysOf(a, key) + {key(x)}
  {
    assert forall y :: y in a + [x] <==> y in a || y == x;
  }

  /** The groups of `groups` one after another. */
  function Flatten<T(!new)>(groups: seq<seq<T>>): (r: seq<T>)
    ensures forall g, x :: g in groups && x in g ==> x in r
    decreases |groups|
  {
    if |groups| == 0 then [] else groups[0] + Flatten(groups[1..])
  }
}
