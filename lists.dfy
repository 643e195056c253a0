/** Sequence operations behind the per-frame pruning passes: update every element,
    keep the ones a test accepts, and the backward splice loop that does both. */
module Lists {

  /** Every element of `s` updated by `f`, in the same order. */
  function Apply<T>(s: seq<T>, f: T -> T): (r: seq<T>)
    ensures |r| == |s|
  {
    if s == [] then [] else [f(s[0])] + Apply(s[1..], f)
  }

  /** Element i of the result is f applied to element i of the input. */
  lemma {:induction false} ApplyAt<T>(s: seq<T>, f: T -> T)
    ensures forall i :: 0 <= i < |s| ==> Apply(s, f)[i] == f(s[i])
  {
    if s != [] {
      ApplyAt(s[1..], f);
      forall i | 0 <= i < |s|
        ensures Apply(s, f)[i] == f(s[i])
      {
        if i > 0 {
          assert Apply(s, f)[i] == Apply(s[1..], f)[i - 1];
        }
      }
    }
  }

  /** The elements of `s` that `keep` accepts, in their original order. */
  function Filter<T>(s: seq<T>, keep: T -> bool): (r: seq<T>)
    ensures |r| <= |s|
  {
    if s == [] then [] else (if keep(s[0]) then [s[0]] else []) + Filter(s[1..], keep)
  }

  /** An element the filter rejects makes the result shorter than the input. */
  lemma {:induction false} FilterDrops<T>(s: seq<T>, keep: T -> bool, i: nat)
    requires i < |s| && !keep(s[i])
    ensures |Filter(s, keep)| < |s|
    decreases i
  {
    if i > 0 {
      FilterDrops(s[1..], keep, i - 1);
    }
  }

  /** A filter that accepts every element returns its input unchanged. */
  lemma {:induction false} FilterKeepsAll<T>(s: seq<T>, keep: T -> bool)
    requires forall i :: 0 <= i < |s| ==> keep(s[i])
    ensures Filter(s, keep) == s
  {
    if s != [] {
      assert forall i :: 0 <= i < |s[1..]| ==> s[1..][i] == s[i + 1];
      FilterKeepsAll(s[1..], keep);
    }
  }

  /** Every element kept is an accepted element of the input. */
  lemma {:induction false} FilterSound<T>(s: seq<T>, keep: T -> bool)
    ensures forall x :: x in Filter(s, keep) ==> x in s && keep(x)
  {
    if s != [] {
      FilterSound(s[1..], keep);
      assert s == [s[0]] + s[1..];
    }
  }

  /** Filtering is done piecewise: survivors keep their relative order. */
  lemma {:induction false} FilterConcat<T>(a: seq<T>, b: seq<T>, keep: T -> bool)
    ensures Filter(a + b, keep) == Filter(a, keep) + Filter(b, keep)
  {
    if a == [] {
      assert a + b == b;
    } else {
      var head := if keep(a[0]) then [a[0]] else [];
      assert (a + b)[0] == a[0];
      assert (a + b)[1..] == a[1..] + b;
      FilterConcat(a[1..], b, keep);
      calc {
        Filter(a + b, keep);
        head + Filter(a[1..] + b, keep);
        head + (Filter(a[1..], keep) + Filter(b, keep));
        (head + Filter(a[1..], keep)) + Filter(b, keep);
      }
    }
  }

  /** Filtering removes exactly the rejected elements: every accepted value keeps all
      its occurrences and every rejected value loses all of them. */
  lemma {:induction false} FilterMultiset<T>(s: seq<T>, keep: T -> bool, x: T)
    ensures multiset(Filter(s, keep))[x] == if keep(x) then multiset(s)[x] else 0
  {
    if s != [] {
      FilterMultiset(s[1..], keep, x);
      assert s == [s[0]] + s[1..];
    }
  }

  /** What survives a pruning pass: a value is in the result exactly when it is the
      update of some input element and the test accepts it. */
  lemma PrunedExactly<T>(s: seq<T>, update: T -> T, keep: T -> bool, x: T)
    ensures x in Filter(Apply(s, update), keep) <==> keep(x) && exists i :: 0 <= i < |s| && update(s[i]) == x
  {
    var moved := Apply(s, update);
    FilterMultiset(moved, keep, x);
    ApplyAt(s, update);
    assert x in Filter(moved, keep) <==> multiset(Filter(moved, keep))[x] > 0;
    assert x in moved <==> multiset(moved)[x] > 0;
    if x in moved {
      var i :| 0 <= i < |moved| && moved[i] == x;
      assert update(s[i]) == x;
    }
    if exists i :: 0 <= i < |s| && update(s[i]) == x {
      var i :| 0 <= i < |s| && update(s[i]) == x;
      assert moved[i] == x;
    }
  }

  /** One step of the backward loop: element i is updated, then kept or spliced out. */
  lemma SuffixStep<T>(s: seq<T>, i: int, update: T -> T, keep: T -> bool)
    requires 0 <= i < |s|
    ensures Filter(Apply(s[i..], update), keep)
         == (if keep(update(s[i])) then [update(s[i])] else []) + Filter(Apply(s[i + 1..], update), keep)
  {
    assert s[i..][1..] == s[i + 1..];
  }

  /** One step of a backward loop that only tests: element i is kept or spliced out. */
  lemma FilterSuffixStep<T>(s: seq<T>, i: int, keep: T -> bool)
    requires 0 <= i < |s|
    ensures Filter(s[i..], keep) == (if keep(s[i]) then [s[i]] else []) + Filter(s[i + 1..], keep)
  {
    assert s[i..][1..] == s[i + 1..];
  }

  /** Updating the element between a and b in place. */
  lemma Replace<T>(a: seq<T>, x: T, y: T, b: seq<T>)
    ensures (a + [x] + b)[|a| := y] == a + [y] + b
  {
    var r := (a + [x] + b)[|a| := y];
    assert forall k :: 0 <= k < |r| ==> r[k] == (a + [y] + b)[k];
  }

  /** The element at index i of r is x; taking it out leaves a + b. */
  lemma SpliceAt<T>(r: seq<T>, a: seq<T>, x: T, b: seq<T>, i: int)
    requires r == a + [x] + b && i == |a|
    ensures 0 <= i < |r| && r[i] == x
    ensures r[..i] + r[i + 1..] == a + b
    ensures r == a + ([x] + b)
  {
    assert r[..i] == a;
    assert r[i + 1..] == b;
  }

  /** Keeping the element x between a and b, or splicing it out, leaves a followed by
      c whenever c is b with x put back in front exactly when it is kept. */
  lemma SpliceOut<T>(a: seq<T>, x: T, b: seq<T>, c: seq<T>, kept: bool)
    requires c == (if kept then [x] else []) + b
    ensures (a + [x] + b)[|a|] == x
    ensures var r := a + [x] + b;
            (if kept then r else r[..|a|] + r[|a| + 1..]) == a + c
  {
    var r := a + [x] + b;
    assert r[..|a|] == a;
    assert r[|a| + 1..] == b;
    if kept {
      assert r == a + ([x] + b);
    }
  }

  /** The body of a backward loop that only tests: with the prefix up to i untouched
      and the suffix after i already filtered, splicing out element i when `keep`
      rejects it leaves the prefix before i and the suffix from i filtered. */
  lemma FilterStep<T>(s: seq<T>, i: int, r: seq<T>, keep: T -> bool)
    requires 0 <= i < |s|
    requires r == s[..i + 1] + Filter(s[i + 1..], keep)
    ensures r[i] == s[i]
    ensures (if keep(r[i]) then r else r[..i] + r[i + 1..]) == s[..i] + Filter(s[i..], keep)
  {
    FilterSuffixStep(s, i, keep);
    assert s[..i + 1] == s[..i] + [s[i]];
    SpliceOut(s[..i], s[i], Filter(s[i + 1..], keep), Filter(s[i..], keep), keep(s[i]));
  }

  /** The body of the pruning loop: element i is updated, then kept or spliced out. */
  lemma PruneStep<T>(s: seq<T>, i: int, r: seq<T>, update: T -> T, keep: T -> bool)
    requires 0 <= i < |s|
    requires r == s[..i + 1] + Filter(Apply(s[i + 1..], update), keep)
    ensures r[i] == s[i]
    ensures var u := r[i := update(r[i])];
            (if keep(u[i]) then u else u[..i] + u[i + 1..]) == s[..i] + Filter(Apply(s[i..], update), keep)
  {
    var y := update(s[i]);
    var rest := Filter(Apply(s[i + 1..], update), keep);
    SuffixStep(s, i, update, keep);
    assert s[..i + 1] == s[..i] + [s[i]];
    Replace(s[..i], s[i], y, rest);
    SpliceOut(s[..i], y, rest, Filter(Apply(s[i..], update), keep), keep(y));
  }

  /** The pruning pass of the simulation step: walk the list from the back, update
      each element once, and splice it out when `keep` rejects the updated value. */
  method PruneBackward<T>(s: seq<T>, update: T -> T, keep: T -> bool) returns (r: seq<T>)
    ensures r == Filter(Apply(s, update), keep)
  {
    r := s;
    var i := |r| - 1;
    while i >= 0
      invariant -1 <= i < |s|
      invariant r == s[..i + 1] + Filter(Apply(s[i + 1..], update), keep)
    {
      PruneStep(s, i, r, update, keep);
      r := r[i := update(r[i])];
      if !keep(r[i]) {
        r := r[..i] + r[i + 1..];
      }
      i := i - 1;
    }
    assert s[0..] == s;
  }
}
