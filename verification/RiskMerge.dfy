/** The k-way merge that feeds risk adjustment, and its agreement with one stable sort. */
module RiskMerge {
  import opened Ordering
  import opened Wrappers

  function Concat<T>(ts: seq<seq<T>>): seq<T> {
    if ts == [] then [] else ts[0] + Concat(ts[1..])
  }

  /** What is left of each list once its cursor has moved on. */
  function Remaining<T>(ts: seq<seq<T>>, cursors: seq<nat>): (r: seq<seq<T>>)
    requires |cursors| == |ts| && forall i :: 0 <= i < |ts| ==> cursors[i] <= |ts[i]|
  {
    seq(|ts|, i requires 0 <= i < |ts| => ts[i][cursors[i]..])
  }

  lemma {:induction false} ConcatSplit<T>(a: seq<seq<T>>, b: seq<seq<T>>)
    ensures Concat(a + b) == Concat(a) + Concat(b)
  {
    if a == [] {
      assert a + b == b;
    } else {
      assert (a + b)[1..] == a[1..] + b;
      ConcatSplit(a[1..], b);
    }
  }

  lemma {:induction false} ConcatMember<T>(ts: seq<seq<T>>, x: T)
    requires x in Concat(ts)
    ensures exists i :: 0 <= i < |ts| && x in ts[i]
  {
    if x !in ts[0] {
      ConcatMember(ts[1..], x);
      var i :| 0 <= i < |ts[1..]| && x in ts[1..][i];
      assert x in ts[i + 1];
    }
  }

  /** A minimum that precedes everything it ties with is the first element of the sort. */
  lemma {:induction false} SortPullsMin<T(!new)>(cmp: Comparison<T>, a: seq<T>, m: T, b: seq<T>)
    requires Preorder(cmp)
    requires forall x :: x in a ==> cmp(m, x) < 0
    requires forall x :: x in b ==> cmp(m, x) <= 0
    ensures Sort(cmp, a + [m] + b) == [m] + Sort(cmp, a + b)
  {
    if a == [] {
      assert a + [m] + b == [m] + b && a + b == b;
      SortPermutes(cmp, b);
      var s := Sort(cmp, b);
      if s != [] {
        assert s[0] in multiset(b);
      }
    } else {
      var x, a' := a[0], a[1..];
      assert a + [m] + b == [x] + (a' + [m] + b) && a + b == [x] + (a' + b);
      SortPullsMin(cmp, a', m, b);
      assert Laws(cmp, m, x, m);
      var s := Sort(cmp, a' + b);
      assert ([m] + s)[1..] == s;
    }
  }

  /** Index of the first minimum of v (0 when v is empty). */
  method MinF<T(!new)>(v: seq<T>, cmp: Comparison<T>) returns (minIdx: nat)
    requires Preorder(cmp)
    ensures v == [] ==> minIdx == 0
    ensures v != [] ==> minIdx < |v|
    ensures forall j :: 0 <= j < |v| ==> cmp(v[minIdx], v[j]) <= 0
    ensures forall j :: 0 <= j < minIdx ==> cmp(v[minIdx], v[j]) < 0
  {
    minIdx := 0;
    var i := 1;
    if v != [] {
      assert Laws(cmp, v[0], v[0], v[0]);
    }
    while i < |v|
      invariant 1 <= i && (v != [] ==> minIdx < i <= |v|)
      invariant v == [] ==> minIdx == 0
      invariant forall j :: 0 <= j < i && j < |v| ==> cmp(v[minIdx], v[j]) <= 0
      invariant forall j :: 0 <= j < minIdx ==> cmp(v[minIdx], v[j]) < 0
    {
      if cmp(v[i], v[minIdx]) < 0 {
        forall j | 0 <= j <= i
          ensures cmp(v[i], v[j]) <= 0 && (j < i ==> cmp(v[i], v[j]) < 0)
        {
          assert Laws(cmp, v[i], v[i], v[i]) && Laws(cmp, v[i], v[minIdx], v[j]);
          assert Laws(cmp, v[minIdx], v[j], v[i]) && Laws(cmp, v[i], v[j], v[i]) && Laws(cmp, v[i], v[minIdx], v[i]);
        }
        minIdx := i;
      } else {
        assert Laws(cmp, v[i], v[minIdx], v[i]);
      }
      i := i + 1;
    }
  }

  lemma ConcatAround<T>(rest: seq<seq<T>>, k: nat)
    requires k < |rest| && rest[k] != []
    ensures Concat(rest) == Concat(rest[..k]) + [rest[k][0]] + (rest[k][1..] + Concat(rest[k + 1..]))
    ensures Concat(rest[k := rest[k][1..]]) == Concat(rest[..k]) + (rest[k][1..] + Concat(rest[k + 1..]))
  {
    var tail, before, after := rest[k][1..], rest[..k], rest[k + 1..];
    assert rest == before + ([rest[k]] + after) && rest[k := tail] == before + ([tail] + after);
    ConcatSplit(before, [rest[k]] + after);
    ConcatSplit(before, [tail] + after);
    assert ([rest[k]] + after)[1..] == after && ([tail] + after)[1..] == after;
    assert rest[k] == [rest[k][0]] + tail;
  }

  /** Taking the head of list k, when it is below all heads before it and not above those after it. */
  lemma SortTakesHead<T(!new)>(cmp: Comparison<T>, rest: seq<seq<T>>, k: nat)
    requires Preorder(cmp) && k < |rest| && rest[k] != []
    requires forall i :: 0 <= i < |rest| ==> Sorted(cmp, rest[i])
    requires forall i :: 0 <= i < |rest| && rest[i] != [] ==> cmp(rest[k][0], rest[i][0]) <= 0
    requires forall i :: 0 <= i < k && rest[i] != [] ==> cmp(rest[k][0], rest[i][0]) < 0
    ensures Sort(cmp, Concat(rest)) == [rest[k][0]] + Sort(cmp, Concat(rest[k := rest[k][1..]]))
  {
    var m, tail := rest[k][0], rest[k][1..];
    var a, b := Concat(rest[..k]), tail + Concat(rest[k + 1..]);
    ConcatAround(rest, k);
    forall x | x in a ensures cmp(m, x) < 0 {
      ConcatMember(rest[..k], x);
      var i :| 0 <= i < k && x in rest[..k][i];
      HeadIsBelow(cmp, m, rest[i], x);
    }
    forall x | x in b ensures cmp(m, x) <= 0 {
      if x in tail {
        HeadIsBelow(cmp, m, rest[k], x);
      } else {
        ConcatMember(rest[k + 1..], x);
        var i :| 0 <= i < |rest[k + 1..]| && x in rest[k + 1..][i];
        HeadIsBelow(cmp, m, rest[k + 1 + i], x);
      }
    }
    SortPullsMin(cmp, a, m, b);
  }

  lemma HeadIsBelow<T(!new)>(cmp: Comparison<T>, m: T, s: seq<T>, x: T)
    requires Preorder(cmp) && Sorted(cmp, s) && x in s && cmp(m, s[0]) <= 0
    ensures cmp(m, x) <= 0
    ensures cmp(m, s[0]) < 0 ==> cmp(m, x) < 0
  {
    assert Laws(cmp, m, s[0], x) && Laws(cmp, s[0], x, m) && Laws(cmp, m, x, m) && Laws(cmp, s[0], m, x);
    assert Laws(cmp, m, s[0], m) && Laws(cmp, s[0], s[0], s[0]);
  }

  /** The heads of the lists that are not exhausted, with the list each came from. */
  ghost predicate AreHeads<T>(rest: seq<seq<T>>, n: nat, heads: seq<T>, from: seq<nat>) {
    && |heads| == |from| && n <= |rest|
    && (forall k :: 0 <= k < |from| ==> from[k] < n && rest[from[k]] != [] && heads[k] == rest[from[k]][0])
    && (forall k, l :: 0 <= k < l < |from| ==> from[k] < from[l])
    && (forall j :: 0 <= j < n && rest[j] != [] ==> j in from)
  }

  /** One sweep over the lists: fills the scratch arrays with the current heads. */
  method CollectHeads<T>(ts: seq<seq<T>>, cursors: array<nat>, scratch: array<T>, scratchIdx: array<nat>)
    returns (s: nat)
    requires cursors.Length == scratch.Length == scratchIdx.Length == |ts|
    requires cursors != scratchIdx
    requires scratch as object != cursors as object && scratch as object != scratchIdx as object
    requires forall i :: 0 <= i < |ts| ==> cursors[i] <= |ts[i]|
    modifies scratch, scratchIdx
    ensures cursors[..] == old(cursors[..])
    ensures s <= |ts| && AreHeads(Remaining(ts, cursors[..]), |ts|, scratch[..s], scratchIdx[..s])
  {
    s := 0;
    ghost var rest := Remaining(ts, cursors[..]);
    for i := 0 to |ts|
      invariant s <= i
      invariant cursors[..] == old(cursors[..])
      invariant AreHeads(rest, i, scratch[..s], scratchIdx[..s])
    {
      if cursors[i] < |ts[i]| {
        ghost var heads, from := scratch[..s], scratchIdx[..s];
        scratch[s] := ts[i][cursors[i]];
        scratchIdx[s] := i;
        s := s + 1;
        assert scratch[..s] == heads + [rest[i][0]];
        assert scratchIdx[..s] == from + [i];
      }
    }
  }

  lemma MinHeadIsFirstMin<T(!new)>(cmp: Comparison<T>, rest: seq<seq<T>>, heads: seq<T>, from: seq<nat>, min: nat)
    requires AreHeads(rest, |rest|, heads, from) && min < |heads|
    requires forall j :: 0 <= j < |heads| ==> cmp(heads[min], heads[j]) <= 0
    requires forall j :: 0 <= j < min ==> cmp(heads[min], heads[j]) < 0
    ensures forall i :: 0 <= i < |rest| && rest[i] != [] ==> cmp(heads[min], rest[i][0]) <= 0
    ensures forall i :: 0 <= i < from[min] && rest[i] != [] ==> cmp(heads[min], rest[i][0]) < 0
  {
    forall i | 0 <= i < |rest| && rest[i] != []
      ensures cmp(heads[min], rest[i][0]) <= 0 && (i < from[min] ==> cmp(heads[min], rest[i][0]) < 0)
    {
      var l :| 0 <= l < |from| && from[l] == i;
    }
  }

  lemma PickHead<T(
      !new)>(cmp: Comparison<T>, ts: seq<seq<T>>, cursors: seq<nat>, heads: seq<T>, from: seq<nat>, min: nat)
    requires Preorder(cmp)
    requires |cursors| == |ts| && forall i :: 0 <= i < |ts| ==> cursors[i] <= |ts[i]|
    requires forall i :: 0 <= i < |ts| ==> Sorted(cmp, ts[i])
    requires AreHeads(Remaining(ts, cursors), |ts|, heads, from) && min < |heads|
    requires forall j :: 0 <= j < |heads| ==> cmp(heads[min], heads[j]) <= 0
    requires forall j :: 0 <= j < min ==> cmp(heads[min], heads[j]) < 0
    ensures var rest, k := Remaining(ts, cursors), from[min];
      Sort(cmp, Concat(rest)) == [heads[min]] + Sort(cmp, Concat(rest[k := rest[k][1..]]))
  {
    var rest := Remaining(ts, cursors);
    MinHeadIsFirstMin(cmp, rest, heads, from, min);
    forall i | 0 <= i < |rest| ensures Sorted(cmp, rest[i]) {
      assert Sorted(cmp, ts[i]);
    }
    SortTakesHead(cmp, rest, from[min]);
  }

  lemma Advance<T>(ts: seq<seq<T>>, cursors: seq<nat>, k: nat)
    requires |cursors| == |ts| && forall i :: 0 <= i < |ts| ==> cursors[i] <= |ts[i]|
    requires k < |ts| && Remaining(ts, cursors)[k] != []
    ensures var rest := Remaining(ts, cursors);
      Remaining(ts, cursors[k := cursors[k] + 1]) == rest[k := rest[k][1..]]
  {
  }

  lemma {:induction false} NothingLeft<T>(rest: seq<seq<T>>)
    requires forall i :: 0 <= i < |rest| ==> rest[i] == []
    ensures Concat(rest) == []
  {
    if rest != [] {
      NothingLeft(rest[1..]);
    }
  }

  /** The state captured by the merge: one cursor per list and two scratch arrays.
      Ghost `pending` is everything still to be yielded, in that order. */
  class MergeIterator<T(!new, 0)> {
    const cmp: Comparison<T>
    const ts: seq<seq<T>>
    const cursors: array<nat>
    const scratch: array<T>
    const scratchIdx: array<nat>
    ghost var pending: seq<T>

    ghost predicate Valid()
      reads this, cursors
    {
      && cursors.Length == scratch.Length == scratchIdx.Length == |ts|
      && cursors != scratchIdx
      && scratch as object != cursors as object && scratch as object != scratchIdx as object
      && (forall i :: 0 <= i < |ts| ==> cursors[i] <= |ts[i]|)
      && pending == Sort(cmp, Concat(Remaining(ts, cursors[..])))
    }

    constructor (cmp: Comparison<T>, ts: seq<seq<T>>)
      ensures Valid() && this.cmp == cmp && this.ts == ts && pending == Sort(cmp, Concat(ts))
      ensures fresh(cursors) && fresh(scratch) && fresh(scratchIdx)
    {
      this.cmp, this.ts, pending := cmp, ts, Sort(cmp, Concat(ts));
      cursors := new nat[|ts|](_ => 0);
      scratch := new T[|ts|];
      scratchIdx := new nat[|ts|](_ => 0);
      new;
      assert Remaining(ts, cursors[..]) == ts;
    }

    /** One round: yields the smallest head, the first list winning ties. */
    method Next() returns (next: Option<T>)
      requires Valid() && Preorder(cmp)
      requires forall i :: 0 <= i < |ts| ==> Sorted(cmp, ts[i])
      modifies this, cursors, scratch, scratchIdx
      ensures Valid()
      ensures next.None? ==> old(pending) == []
      ensures next.Some? ==> old(pending) == [next.value] + pending
    {
      var s := CollectHeads(ts, cursors, scratch, scratchIdx);
      if s == 0 {
        NothingLeft(Remaining(ts, cursors[..]));
        return None;
      }
      var min := MinF(scratch[..s], cmp);
      ghost var cs, k := cursors[..], scratchIdx[min];
      PickHead(cmp, ts, cs, scratch[..s], scratchIdx[..s], min);
      Advance(ts, cs, k);
      cursors[scratchIdx[min]] := cursors[scratchIdx[min]] + 1;
      assert cursors[..] == cs[k := cs[k] + 1];
      pending := pending[1..];
      return Some(scratch[min]);
    }
  }

  /** Drains the merge to the end, as its only caller does. */
  method MergeSorted<T(!new, 0)>(cmp: Comparison<T>, ts: seq<seq<T>>) returns (out: seq<T>)
    requires Preorder(cmp)
    requires forall i :: 0 <= i < |ts| ==> Sorted(cmp, ts[i])
    ensures out == Sort(cmp, Concat(ts))
  {
    var merge := new MergeIterator(cmp, ts);
    out := [];
    ghost var all := merge.pending;
    while true
      invariant merge.Valid() && fresh(merge) && fresh(merge.cursors) && fresh(merge.scratch) && fresh(merge.scratchIdx)
      invariant out + merge.pending == all
      decreases |merge.pending|
    {
      var next := merge.Next();
      if next.None? {
        return;
      }
      out := out + [next.value];
    }
  }
}
