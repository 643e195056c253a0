/** The persisted top-ten list of final scores, as a pure list transform. */
module Scoreboard {

  const MaxEntries: nat := 10

  /** Highest score first. */
  predicate SortedDesc(s: seq<int>)
  {
    forall i, j :: 0 <= i < j < |s| ==> s[i] >= s[j]
  }

  /** Insert `x` before the first entry it is at least as large as. */
  function Insert(x: int, s: seq<int>): seq<int>
  {
    if s == [] || x >= s[0] then [x] + s else [s[0]] + Insert(x, s[1..])
  }

  /** Inserting adds exactly the one new score. */
  lemma {:induction false} InsertAddsScore(x: int, s: seq<int>)
    ensures multiset(Insert(x, s)) == multiset(s) + multiset{x}
  {
    if s != [] && x < s[0] {
      InsertAddsScore(x, s[1..]);
      assert s == [s[0]] + s[1..];
    }
  }

  /** Inserting into a list sorted highest first keeps it sorted. */
  lemma {:induction false} InsertKeepsOrder(x: int, s: seq<int>)
    requires SortedDesc(s)
    ensures SortedDesc(Insert(x, s))
  {
    if s != [] && x < s[0] {
      InsertKeepsOrder(x, s[1..]);
      InsertAddsScore(x, s[1..]);
      assert s == [s[0]] + s[1..];
      BelowHead(s[0], x, s[1..], Insert(x, s[1..]));
    }
  }

  /** A sorted list whose elements are all at most h stays sorted with h in front. */
  lemma BelowHead(h: int, x: int, t: seq<int>, rest: seq<int>)
    requires SortedDesc([h] + t) && SortedDesc(rest) && x < h
    requires multiset(rest) == multiset(t) + multiset{x}
    ensures SortedDesc([h] + rest)
  {
    forall e | e in rest
      ensures e <= h
    {
      assert e in multiset(rest);
      if e != x {
        assert e in multiset(t);
        assert e in t;
        var k :| 0 <= k < |t| && t[k] == e;
        assert ([h] + t)[0] == h && ([h] + t)[k + 1] == e;
      }
    }
    forall i, j | 0 <= i < j < |[h] + rest|
      ensures ([h] + rest)[i] >= ([h] + rest)[j]
    {
      if i == 0 {
        assert ([h] + rest)[j] == rest[j - 1];
        assert rest[j - 1] in rest;
      }
    }
  }

  /** The sort of the scores list with the comparator (a, b) => b - a, as an insertion
      sort. */
  function SortDesc(s: seq<int>): seq<int>
  {
    if s == [] then [] else Insert(s[0], SortDesc(s[1..]))
  }

  /** The sort orders highest first and keeps the same scores. */
  lemma {:induction false} SortDescSorts(s: seq<int>)
    ensures SortedDesc(SortDesc(s))
    ensures multiset(SortDesc(s)) == multiset(s)
  {
    if s != [] {
      SortDescSorts(s[1..]);
      InsertKeepsOrder(s[0], SortDesc(s[1..]));
      InsertAddsScore(s[0], SortDesc(s[1..]));
      assert s == [s[0]] + s[1..];
    }
  }

  /** The first n entries of a list sorted highest first are its n largest:
      nothing left out is larger than anything kept. */
  lemma PrefixHoldsLargest(s: seq<int>, n: nat)
    requires SortedDesc(s)
    requires n <= |s|
    ensures forall x, y :: x in s[..n] && y in multiset(s) - multiset(s[..n]) ==> y <= x
  {
    assert s == s[..n] + s[n..];
    assert multiset(s) - multiset(s[..n]) == multiset(s[n..]);
    forall x, y | x in s[..n] && y in multiset(s) - multiset(s[..n])
      ensures y <= x
    {
      var i :| 0 <= i < n && s[..n][i] == x;
      assert y in s[n..];
      var j :| 0 <= j < |s| - n && s[n..][j] == y;
      assert s[i] >= s[n + j];
    }
  }

  /** updateLocalScoreboard: push the new score, sort highest first, keep ten. */
  function UpdateLocalScoreboard(scores: seq<int>, score: int): seq<int>
  {
    var sorted := SortDesc(scores + [score]);
    if |sorted| > MaxEntries then sorted[..MaxEntries] else sorted
  }

  /** The updated board is sorted highest first, holds min(n + 1, 10) entries, all of
      them from the old board or the new score, and every score that did not make it
      is at most every score that did. */
  lemma KeepsTopTen(scores: seq<int>, score: int)
    ensures var r := UpdateLocalScoreboard(scores, score);
      && SortedDesc(r)
      && |r| == (if |scores| + 1 > MaxEntries then MaxEntries else |scores| + 1)
      && multiset(r) <= multiset(scores) + multiset{score}
      && forall x, y :: x in r && y in multiset(scores) + multiset{score} - multiset(r) ==> y <= x
  {
    var pushed := scores + [score];
    var sorted := SortDesc(pushed);
    SortDescSorts(pushed);
    assert multiset(pushed) == multiset(scores) + multiset{score};
    assert |sorted| == |multiset(sorted)| == |pushed|;
    if |sorted| > MaxEntries {
      PrefixHoldsLargest(sorted, MaxEntries);
      assert sorted == sorted[..MaxEntries] + sorted[MaxEntries..];
      assert SortedDesc(sorted[..MaxEntries]) by {
        forall i, j | 0 <= i < j < MaxEntries
          ensures sorted[..MaxEntries][i] >= sorted[..MaxEntries][j]
        {
        }
      }
    }
  }

  /** While the board has fewer than ten entries, the new score is always listed. */
  lemma NewScoreListedWhileNotFull(scores: seq<int>, score: int)
    requires |scores| < MaxEntries
    ensures score in UpdateLocalScoreboard(scores, score)
  {
    var r := UpdateLocalScoreboard(scores, score);
    var all := multiset(scores) + multiset{score};
    KeepsTopTen(scores, score);
    assert |multiset(r)| == |r| == |all|;
    assert all == multiset(r) + (all - multiset(r));
    assert all - multiset(r) == multiset{};
    assert multiset(r) == all;
    assert score in multiset(r);
  }

  /** A multiset inside another is no larger. */
  lemma SubMultisetSize(a: multiset<int>, b: multiset<int>)
    requires a <= b
    ensures |a| <= |b|
  {
    assert b == a + (b - a);
  }

  /** On a full board of ten, a new score above any one entry is listed. */
  lemma NewScoreListedWhenItBeatsAnEntry(scores: seq<int>, score: int, i: nat)
    requires |scores| == MaxEntries && i < |scores|
    requires score > scores[i]
    ensures score in UpdateLocalScoreboard(scores, score)
  {
    var r := UpdateLocalScoreboard(scores, score);
    var all := multiset(scores) + multiset{score};
    KeepsTopTen(scores, score);
    if score !in r {
      assert score in all - multiset(r);
      assert scores[i] in all;
      assert scores[i] !in r;
      var d := multiset{score} + multiset{scores[i]};
      assert multiset(r) + d <= all;
      SubMultisetSize(multiset(r) + d, all);
      assert false;
    }
  }

  /** On a full board of ten, a new score below every entry is not listed. */
  lemma NewScoreDroppedBelowEveryEntry(scores: seq<int>, score: int)
    requires |scores| == MaxEntries
    requires forall i :: 0 <= i < |scores| ==> score < scores[i]
    ensures score !in UpdateLocalScoreboard(scores, score)
  {
    var r := UpdateLocalScoreboard(scores, score);
    var all := multiset(scores) + multiset{score};
    KeepsTopTen(scores, score);
    assert all == multiset(r) + (all - multiset(r));
    assert |all - multiset(r)| == 1;
    var d :| d in all - multiset(r);
    if d == score {
      assert score !in scores;
      assert multiset(scores)[score] == 0;
    } else {
      assert d in multiset(scores);
      assert d in scores;
      assert forall x :: x in r ==> d <= x;
    }
  }

  /** Recording the same final score n times, once per game-over screen shown. */
  function RecordTimes(scores: seq<int>, score: int, n: nat): seq<int>
    decreases n
  {
    if n == 0 then scores else UpdateLocalScoreboard(RecordTimes(scores, score, n - 1), score)
  }

  /** However many times a game over records, the board stays a sorted top ten: at
      most ten entries when it started with at most ten, sorted once anything was
      recorded, and still sorted when it started sorted. */
  lemma {:induction false} RecordTimesKeepsBoard(scores: seq<int>, score: int, n: nat)
    ensures |scores| <= MaxEntries ==> |RecordTimes(scores, score, n)| <= MaxEntries
    ensures n > 0 || SortedDesc(scores) ==> SortedDesc(RecordTimes(scores, score, n))
    decreases n
  {
    if n > 0 {
      RecordTimesKeepsBoard(scores, score, n - 1);
      KeepsTopTen(RecordTimes(scores, score, n - 1), score);
    }
  }

  /** Recording the same final score n times, as a frame does when several enemies reach
      the ship's line together, leaves that one score in min(n, 10) places of an empty
      board. */
  lemma {:induction false} RecordTimesRepeats(score: int, n: nat)
    ensures RecordTimes([], score, n) == seq(if n < MaxEntries then n else MaxEntries, _ => score)
    decreases n
  {
    if n > 0 {
      RecordTimesRepeats(score, n - 1);
      var prev := RecordTimes([], score, n - 1);
      KeepsTopTen(prev, score);
      var r := UpdateLocalScoreboard(prev, score);
      OnlyScore(r, prev, score);
    }
  }

  /** Entries drawn from a board holding only one score, and that score, are all that score. */
  lemma OnlyScore(r: seq<int>, prev: seq<int>, score: int)
    requires forall j :: 0 <= j < |prev| ==> prev[j] == score
    requires multiset(r) <= multiset(prev) + multiset{score}
    ensures forall i :: 0 <= i < |r| ==> r[i] == score
  {
    forall i | 0 <= i < |r|
      ensures r[i] == score
    {
      assert r[i] in multiset(prev) + multiset{score};
    }
  }
}
