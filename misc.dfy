/**
 * The sampling helpers of src/lib/support/misc.ts (genbot3.ts holds an
 * identical private copy of both). `Math.random()` is replaced by explicit
 * picks: `pick` is `Math.floor(Math.random() * length)`, so it lies below the
 * length of the list it indexes (and is 0 for an empty list).
 */
module Misc {
  import opened Wrappers

  /** randomChoice: the element at the picked position; undefined (None) for an empty list. */
  function RandomChoice<T(==)>(items: seq<T>, pick: nat): (r: Option<T>)
    requires pick < |items| || pick == 0
    ensures r.Some? <==> |items| > 0
    ensures r.Some? ==> r.value in items && r.value == items[pick]
  {
    if pick < |items| then Some(items[pick]) else None
  }

  /** The positions 0, 1, ..., n - 1 in order. */
  function Range(n: nat): (r: seq<nat>)
    ensures |r| == n && forall i | 0 <= i < n :: r[i] == i
  {
    seq(n, i => i)
  }

  /** `picks` is a valid run of `count` random draws from a list of `n` positions that shrinks by one per draw. */
  predicate ValidPicks(picks: seq<nat>, n: nat, count: nat)
  {
    |picks| == count && forall i | 0 <= i < count :: picks[i] < n - i
  }

  predicate Distinct<T(==)>(s: seq<T>)
  {
    forall i, j | 0 <= i < j < |s| :: s[i] != s[j]
  }

  /** `indexes` after the draws `picks` (each draw splices one entry out). */
  function Remaining(n: nat, picks: seq<nat>): (r: seq<nat>)
    requires ValidPicks(picks, n, |picks|)
    ensures |r| == n - |picks|
    ensures forall i | 0 <= i < |r| :: r[i] < n
    decreases |picks|
  {
    if |picks| == 0 then Range(n)
    else
      var before := Remaining(n, picks[..|picks| - 1]);
      var k := picks[|picks| - 1];
      before[..k] + before[k + 1..]
  }

  /** The positions drawn, in draw order. */
  function Drawn(n: nat, picks: seq<nat>): (r: seq<nat>)
    requires ValidPicks(picks, n, |picks|)
    ensures |r| == |picks|
    ensures forall i | 0 <= i < |r| :: r[i] < n
    decreases |picks|
  {
    if |picks| == 0 then []
    else
      var prefix := picks[..|picks| - 1];
      Drawn(n, prefix) + [Remaining(n, prefix)[picks[|picks| - 1]]]
  }

  /** What randomSample returns: the list itself when count covers it, else the items at the drawn positions. */
  function Sample<T>(items: seq<T>, count: nat, picks: seq<nat>): seq<T>
    requires count >= |items| || ValidPicks(picks, |items|, count)
  {
    if count >= |items| then items
    else
      var positions := Drawn(|items|, picks);
      seq(count, i requires 0 <= i < count => items[positions[i]])
  }

  /**
   * randomSample: the list itself when count >= its length; otherwise count
   * draws, each splicing one position out of a local index list. `items` is a
   * value and is never changed.
   */
  method RandomSample<T>(items: seq<T>, count: nat, picks: seq<nat>) returns (values: seq<T>)
    requires count >= |items| || ValidPicks(picks, |items|, count)
    ensures values == Sample(items, count, picks)
    ensures count >= |items| ==> values == items
    ensures count < |items| ==> |values| == count
  {
    if count >= |items| {
      return items;
    }
    var indexes: seq<nat> := [];
    for i := 0 to |items|
      invariant indexes == Range(i)
    {
      indexes := indexes + [i];
    }
    values := [];
    for i := 0 to count
      invariant indexes == Remaining(|items|, picks[..i])
      invariant |values| == i
      invariant forall j | 0 <= j < i :: values[j] == items[Drawn(|items|, picks[..i])[j]]
    {
      assert picks[..i + 1][..i] == picks[..i];
      var k := picks[i];
      var index := indexes[k];
      indexes := indexes[..k] + indexes[k + 1..];
      values := values + [items[index]];
    }
    assert picks[..count] == picks;
  }

  /** Every remaining and every drawn position is below n, none repeats, and no position is both. */
  lemma {:induction false} DrawnProperties(n: nat, picks: seq<nat>)
    requires ValidPicks(picks, n, |picks|)
    ensures Distinct(Drawn(n, picks)) && Distinct(Remaining(n, picks))
    ensures forall x | x in Drawn(n, picks) :: x < n && x !in Remaining(n, picks)
    ensures forall x | x in Remaining(n, picks) :: x < n
    decreases |picks|
  {
    if |picks| > 0 {
      var prefix := picks[..|picks| - 1];
      DrawnProperties(n, prefix);
      var before := Remaining(n, prefix);
      var k := picks[|picks| - 1];
      assert Remaining(n, picks) == before[..k] + before[k + 1..];
      RemoveAt(before, k);
      var drawn := Drawn(n, picks);
      assert drawn == Drawn(n, prefix) + [before[k]];
      assert before[k] in before;
      forall i, j | 0 <= i < j < |drawn| ensures drawn[i] != drawn[j] {
        if j == |drawn| - 1 {
          assert drawn[i] in Drawn(n, prefix);
        }
      }
      forall x | x in drawn ensures x < n && x !in Remaining(n, picks) {
        if x != before[k] {
          assert x in Drawn(n, prefix);
        }
      }
    }
  }

  /** Splicing one entry out of a list without repeats leaves a list without repeats, and without that entry. */
  /** A prefix one longer is the prefix and the next element. */
  lemma TakeNext<T>(s: seq<T>, i: nat)
    requires i < |s|
    ensures s[..i + 1] == s[..i] + [s[i]]
  {
  }

  lemma RemoveAt<T>(s: seq<T>, k: nat)
    requires k < |s| && Distinct(s)
    ensures Distinct(s[..k] + s[k + 1..])
    ensures forall x | x in s[..k] + s[k + 1..] :: x in s && x != s[k]
  {
    var r := s[..k] + s[k + 1..];
    forall i, j | 0 <= i < j < |r| ensures r[i] != r[j] {
      var i' := if i < k then i else i + 1;
      var j' := if j < k then j else j + 1;
      assert r[i] == s[i'] && r[j] == s[j'];
    }
    forall x | x in r ensures x in s && x != s[k] {
      var i :| 0 <= i < |r| && r[i] == x;
      var i' := if i < k then i else i + 1;
      assert s[i'] == x;
    }
  }

  /**
   * Below its length, randomSample returns exactly count items, taken from
   * pairwise distinct positions of the list.
   */
  lemma SampleFromDistinctPositions<T>(items: seq<T>, count: nat, picks: seq<nat>)
    requires count < |items| && ValidPicks(picks, |items|, count)
    ensures |Sample(items, count, picks)| == count
    ensures exists positions: seq<nat> ::
      && |positions| == count && Distinct(positions)
      && (forall i | 0 <= i < count :: positions[i] < |items| && Sample(items, count, picks)[i] == items[positions[i]])
  {
    var positions := Drawn(|items|, picks);
    DrawnProperties(|items|, picks);
    assert forall i | 0 <= i < count :: positions[i] in positions;
  }

  /** Sampling from the position list 0..n-1 gives distinct positions below n, min(count, n) of them. */
  lemma SampleOfRange(n: nat, count: nat, picks: seq<nat>)
    requires count >= n || ValidPicks(picks, n, count)
    ensures |Sample(Range(n), count, picks)| == (if count < n then count else n)
    ensures Distinct(Sample(Range(n), count, picks))
    ensures forall i | 0 <= i < |Sample(Range(n), count, picks)| :: Sample(Range(n), count, picks)[i] < n
  {
    if count < n {
      DrawnProperties(n, picks);
      var positions := Drawn(n, picks);
      assert Sample(Range(n), count, picks) == positions;
      assert forall i | 0 <= i < count :: positions[i] in positions;
    }
  }
}
