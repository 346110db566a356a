/** The ready queues as sequences of thread ids, and the insertion rule of a
    sorted list: a new element goes in front of the first element it compares
    below (comparator result < 0), or at the end when there is none. */
module SortedLists {
  import opened Threads
  import opened Comparators

  type Table = map<ThreadId, ThreadInfo>

  /** Every id in `q` has metadata in `th`. */
  predicate Known(th: Table, q: seq<ThreadId>) {
    forall i :: 0 <= i < |q| ==> q[i] in th
  }

  /** No id occurs twice in `q`. */
  ghost predicate Distinct(q: seq<ThreadId>) {
    forall x :: multiset(q)[x] <= 1
  }

  /** Adding one id that was absent keeps a sequence free of duplicates. */
  lemma DistinctGrow(s: seq<ThreadId>, s': seq<ThreadId>, t: ThreadId)
    requires Distinct(s) && t !in s && multiset(s') == multiset(s) + multiset{t}
    ensures Distinct(s')
  {
    forall x
      ensures multiset(s')[x] <= 1
    {
      assert multiset(s)[t] == 0;
    }
  }

  /** Removing ids keeps a sequence free of duplicates. */
  lemma DistinctShrink(s: seq<ThreadId>, s': seq<ThreadId>)
    requires Distinct(s) && multiset(s') <= multiset(s)
    ensures Distinct(s')
  {
    forall x
      ensures multiset(s')[x] <= 1
    {
      assert multiset(s')[x] <= multiset(s)[x];
    }
  }

  /** Behind the front of a duplicate-free sequence come other ids, none twice. */
  lemma DistinctTail(q: seq<ThreadId>)
    requires Distinct(q) && q != []
    ensures Distinct(q[1..]) && q[0] !in q[1..]
  {
    var x := q[0];
    assert multiset(q)[x] <= 1;
    assert q == [x] + q[1..];
    assert multiset(q) == multiset{x} + multiset(q[1..]);
    DistinctShrink(q, q[1..]);
  }

  /** No element compares below an element in front of it. */
  predicate Sorted(o: Order, th: Table, q: seq<ThreadId>)
    requires Known(th, q)
  {
    forall i, j {:trigger Compare(o, th[q[j]], th[q[i]])} :: 0 <= i < j < |q| ==> Compare(o, th[q[j]], th[q[i]]) >= 0
  }

  /** `th1` and `th2` give the same key to every id in `s`. */
  predicate SameKeys(o: Order, th1: Table, th2: Table, s: seq<ThreadId>)
    requires Known(th1, s) && Known(th2, s)
  {
    forall i :: 0 <= i < |s| ==> Key(o, th1[s[i]]) == Key(o, th2[s[i]])
  }

  /** Where `x` goes: in front of the first element it compares below. */
  function InsertionPoint(o: Order, th: Table, q: seq<ThreadId>, x: ThreadId): (k: nat)
    requires Known(th, q) && x in th
    ensures k <= |q|
    ensures forall i :: 0 <= i < k ==> Compare(o, th[x], th[q[i]]) >= 0
    ensures k < |q| ==> Compare(o, th[x], th[q[k]]) < 0
  {
    if q == [] then 0
    else if Compare(o, th[x], th[q[0]]) < 0 then 0
    else 1 + InsertionPoint(o, th, q[1..], x)
  }

  /** Sorted-list insertion. */
  function Insert(o: Order, th: Table, q: seq<ThreadId>, x: ThreadId): (r: seq<ThreadId>)
    requires Known(th, q) && x in th
    ensures |r| == |q| + 1 && Known(th, r)
    ensures multiset(r) == multiset(q) + multiset{x}
  {
    var k := InsertionPoint(o, th, q, x);
    Splice(q, k, x);
    q[..k] + [x] + q[k..]
  }

  /** Putting `x` at position `k` shifts the elements from `k` on back by one. */
  lemma Splice(q: seq<ThreadId>, k: nat, x: ThreadId)
    requires k <= |q|
    ensures var r := q[..k] + [x] + q[k..];
            && |r| == |q| + 1 && r[k] == x
            && (forall i :: 0 <= i < k ==> r[i] == q[i])
            && (forall i :: k < i < |r| ==> r[i] == q[i - 1])
            && multiset(r) == multiset(q) + multiset{x}
  {
    assert q == q[..k] + q[k..];
  }

  /** In a sorted list keys never decrease from front to back. */
  lemma SortedKeys(o: Order, th: Table, q: seq<ThreadId>, i: int, j: int)
    requires Known(th, q) && Sorted(o, th, q) && 0 <= i <= j < |q|
    ensures Key(o, th[q[i]]) <= Key(o, th[q[j]])
  {
    if i < j {
      assert Compare(o, th[q[j]], th[q[i]]) >= 0;
    }
  }

  /** The front of a sorted list has the least key in it. */
  lemma SortedFrontIsLeast(o: Order, th: Table, q: seq<ThreadId>)
    requires Known(th, q) && Sorted(o, th, q) && q != []
    ensures forall x :: x in q ==> Key(o, th[q[0]]) <= Key(o, th[x])
  {
    forall x | x in q
      ensures Key(o, th[q[0]]) <= Key(o, th[x])
    {
      var j :| 0 <= j < |q| && q[j] == x;
      SortedKeys(o, th, q, 0, j);
    }
  }

  /** Removing the front keeps a list sorted. */
  lemma SortedTail(o: Order, th: Table, q: seq<ThreadId>)
    requires Known(th, q) && Sorted(o, th, q) && q != []
    ensures Known(th, q[1..]) && Sorted(o, th, q[1..])
  {
    forall i, j | 0 <= i < j < |q[1..]|
      ensures Compare(o, th[q[1..][j]], th[q[1..][i]]) >= 0
    {
      assert q[1..][j] == q[j + 1] && q[1..][i] == q[i + 1];
    }
  }

  /** Whether a list is sorted depends only on the keys of its elements. */
  lemma SortedFrame(o: Order, th1: Table, th2: Table, q: seq<ThreadId>)
    requires Known(th1, q) && Known(th2, q) && SameKeys(o, th1, th2, q)
    requires Sorted(o, th1, q)
    ensures Sorted(o, th2, q)
  {
    forall i, j | 0 <= i < j < |q|
      ensures Compare(o, th2[q[j]], th2[q[i]]) >= 0
    {
      assert Compare(o, th1[q[j]], th1[q[i]]) >= 0;
      CompareByKeys(o, th1[q[j]], th1[q[i]], th2[q[j]], th2[q[i]]);
    }
  }

  /** Insertion keeps a sorted list sorted. */
  lemma InsertKeepsSorted(o: Order, th: Table, q: seq<ThreadId>, x: ThreadId)
    requires Known(th, q) && x in th && Sorted(o, th, q)
    ensures Sorted(o, th, Insert(o, th, q, x))
  {
    var k := InsertionPoint(o, th, q, x);
    var r := Insert(o, th, q, x);
    Splice(q, k, x);
    forall i, j | 0 <= i < j < |r|
      ensures Key(o, th[r[i]]) <= Key(o, th[r[j]])
    {
      InsertPairOrdered(o, th, q, x, i, j);
    }
  }

  /** Any two positions of the list after insertion are in key order. */
  lemma InsertPairOrdered(o: Order, th: Table, q: seq<ThreadId>, x: ThreadId, i: int, j: int)
    requires Known(th, q) && x in th && Sorted(o, th, q)
    requires 0 <= i < j <= |q|
    ensures var r := Insert(o, th, q, x);
            Key(o, th[r[i]]) <= Key(o, th[r[j]])
  {
    var k := InsertionPoint(o, th, q, x);
    var r := Insert(o, th, q, x);
    Splice(q, k, x);
    var a := if i < k then q[i] else if i == k then x else q[i - 1];
    var b := if j < k then q[j] else if j == k then x else q[j - 1];
    assert r[i] == a && r[j] == b;
    if j < k {
      SortedKeys(o, th, q, i, j);
    } else if j == k {
      assert Compare(o, th[x], th[q[i]]) >= 0;
    } else if i < k {
      SortedKeys(o, th, q, i, j - 1);
    } else if i == k {
      SortedKeys(o, th, q, k, j - 1);
    } else {
      SortedKeys(o, th, q, i - 1, j - 1);
    }
  }

  /** Stability: in a sorted list, the new element lands behind every element whose
      key is at most its own (its equal-key peers included) and in front of every
      element with a greater key; the other elements keep their order. */
  lemma InsertPlacement(o: Order, th: Table, q: seq<ThreadId>, x: ThreadId)
    requires Known(th, q) && x in th && Sorted(o, th, q)
    ensures var k := InsertionPoint(o, th, q, x);
            var r := Insert(o, th, q, x);
            && r[k] == x
            && (forall i :: 0 <= i < k ==> r[i] == q[i] && Key(o, th[q[i]]) <= Key(o, th[x]))
            && (forall i :: k <= i < |q| ==> r[i + 1] == q[i] && Key(o, th[x]) < Key(o, th[q[i]]))
  {
    var k := InsertionPoint(o, th, q, x);
    var r := Insert(o, th, q, x);
    Splice(q, k, x);
    forall i | 0 <= i < k
      ensures r[i] == q[i] && Key(o, th[q[i]]) <= Key(o, th[x])
    {
      assert Compare(o, th[x], th[q[i]]) >= 0;
    }
    forall i | k <= i < |q|
      ensures r[i + 1] == q[i] && Key(o, th[x]) < Key(o, th[q[i]])
    {
      assert Compare(o, th[x], th[q[k]]) < 0;
      SortedKeys(o, th, q, k, i);
    }
  }

  /** An element whose key is at least every key in the list goes to the back. */
  lemma InsertGreatest(o: Order, th: Table, q: seq<ThreadId>, x: ThreadId)
    requires Known(th, q) && x in th
    requires forall i :: 0 <= i < |q| ==> Key(o, th[q[i]]) <= Key(o, th[x])
    ensures Insert(o, th, q, x) == q + [x]
  {
    var k := InsertionPoint(o, th, q, x);
    if k < |q| {
      assert false;
    }
    assert q[..k] == q && q[k..] == [];
  }

  /** Inserting into an empty list gives the one-element list. */
  lemma InsertIntoEmpty(o: Order, th: Table, x: ThreadId)
    requires x in th
    ensures Insert(o, th, [], x) == [x]
  {
  }

  /** An element that compares below the only element goes in front of it;
      otherwise it goes behind it. */
  lemma InsertAhead(o: Order, th: Table, y: ThreadId, x: ThreadId)
    requires x in th && y in th
    ensures Compare(o, th[x], th[y]) < 0 ==> Insert(o, th, [y], x) == [x, y]
    ensures Compare(o, th[x], th[y]) >= 0 ==> Insert(o, th, [y], x) == [y, x]
  {
    var k := InsertionPoint(o, th, [y], x);
    Splice([y], k, x);
  }

  /** Insertion with FIFOCompare is appending: an arrival-ordered list is a plain FIFO. */
  lemma InsertByArrivalAppends(th: Table, q: seq<ThreadId>, x: ThreadId)
    requires Known(th, q) && x in th
    ensures Insert(ByArrival, th, q, x) == q + [x]
  {
    InsertGreatest(ByArrival, th, q, x);
  }

  /** Removing the front and inserting it again (a peek by remove-and-reinsert)
      keeps the front's key at the front; the list is unchanged when the front's
      key is strictly the least, and otherwise the old front may move behind
      its equal-key peers. */
  lemma ReinsertFront(o: Order, th: Table, q: seq<ThreadId>)
    requires Known(th, q) && Sorted(o, th, q) && q != []
    ensures Known(th, q[1..])
    ensures var r := Insert(o, th, q[1..], q[0]);
            && Key(o, th[r[0]]) == Key(o, th[q[0]])
            && ((|q| == 1 || Key(o, th[q[0]]) < Key(o, th[q[1]])) ==> r == q)
  {
    var rest := q[1..];
    var k := InsertionPoint(o, th, rest, q[0]);
    var r := Insert(o, th, rest, q[0]);
    assert r == rest[..k] + [q[0]] + rest[k..];
    if k == 0 {
      assert r[0] == q[0];
      assert r == q;
    } else {
      assert r[0] == q[1];
      assert Compare(o, th[q[0]], th[rest[0]]) >= 0;
      SortedKeys(o, th, q, 0, 1);
      if |q| > 1 && Key(o, th[q[0]]) < Key(o, th[q[1]]) {
        assert false;
      }
    }
  }
}
