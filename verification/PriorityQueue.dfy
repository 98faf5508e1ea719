/** The dispatcher's queue (dispatcher_queue.go): a binary heap kept in place by
    the `up` and `down` loops of Go's container/heap, in which every item
    carries its own position. */
module PriorityQueues {
  import opened Jobs

  class QueuedJob {
    const insertSeq: nat
    const job: Job
    const result: ResultChannel
    var heapIdx: int

    constructor (insertSeq: nat, job: Job, result: ResultChannel)
      ensures this.insertSeq == insertSeq && this.job == job && this.result == result
    {
      this.insertSeq, this.job, this.result := insertSeq, job, result;
      heapIdx := 0;
    }
  }

  predicate Less(a: QueuedJob, b: QueuedJob) {
    if a.job.priority != b.job.priority then a.job.priority > b.job.priority
    else a.insertSeq < b.insertSeq
  }

  function Parent(k: nat): nat {
    if k == 0 then 0 else (k - 1) / 2
  }

  predicate ParentFirst(items: seq<QueuedJob>, k: nat)
    requires k < |items|
  {
    !Less(items[k], items[Parent(k)])
  }

  /** No child comes before its parent; `hole` is exempt as a child, but its
      own children respect its parent. */
  ghost predicate OrderedAbove(items: seq<QueuedJob>, n: nat, hole: nat)
    requires n <= |items|
  {
    && (forall k: nat :: 0 < k < n && k != hole ==> ParentFirst(items, k))
    && (forall k: nat :: 0 < k < n && Parent(k) == hole ==> !Less(items[k], items[Parent(hole)]))
  }

  /** No child comes before its parent, except the children of `hole`, which
      respect its parent. */
  ghost predicate OrderedBelow(items: seq<QueuedJob>, n: nat, hole: nat)
    requires n <= |items|
  {
    && (forall k: nat :: 0 < k < n && Parent(k) != hole ==> ParentFirst(items, k))
    && (forall k: nat :: 0 < k < n && 0 < hole < n && Parent(k) == hole ==> !Less(items[k], items[Parent(hole)]))
  }

  ghost predicate HeapOrdered(items: seq<QueuedJob>, n: nat)
    requires n <= |items|
  {
    forall k: nat :: 0 < k < n ==> ParentFirst(items, k)
  }

  lemma {:induction false} RootLeast(items: seq<QueuedJob>, n: nat, k: nat)
    requires k < n <= |items| && HeapOrdered(items, n)
    ensures !Less(items[k], items[0])
  {
    if k > 0 {
      assert ParentFirst(items, k);
      RootLeast(items, n, Parent(k));
    }
  }

  lemma RootComesFirst(items: seq<QueuedJob>)
    requires items != [] && HeapOrdered(items, |items|)
    ensures forall q <- items :: !Less(q, items[0])
  {
    forall q | q in items ensures !Less(q, items[0]) {
      var k: nat :| k < |items| && items[k] == q;
      RootLeast(items, |items|, k);
    }
  }

  /** Moving the last item to the root leaves only the root out of place. */
  lemma LastToRoot(items: seq<QueuedJob>, n: nat)
    requires |items| == n + 1 && HeapOrdered(items, n + 1)
    ensures OrderedBelow(Swapped(items, 0, n), n, 0)
  {
    var swapped := Swapped(items, 0, n);
    forall k: nat | 0 < k < n && Parent(k) != 0 ensures ParentFirst(swapped, k) {
      assert ParentFirst(items, k);
    }
  }

  lemma HeapWithoutLast(items: seq<QueuedJob>, last: QueuedJob)
    requires HeapOrdered(items + [last], |items|)
    ensures HeapOrdered(items, |items|)
  {
    forall k: nat | 0 < k < |items| ensures ParentFirst(items, k) {
      assert ParentFirst(items + [last], k);
    }
  }

  function Swapped(items: seq<QueuedJob>, i: nat, j: nat): (r: seq<QueuedJob>)
    requires i < |items| && j < |items|
    ensures |r| == |items| && multiset(r) == multiset(items)
    ensures forall k :: 0 <= k < |r| ==> r[k] == items[if k == i then j else if k == j then i else k]
  {
    items[i := items[j]][j := items[i]]
  }

  lemma SiftUpStep(items: seq<QueuedJob>, j: nat)
    requires 0 < j < |items| && OrderedAbove(items, |items|, j) && Less(items[j], items[Parent(j)])
    ensures OrderedAbove(Swapped(items, Parent(j), j), |items|, Parent(j))
  {
    var i := Parent(j);
    var after := Swapped(items, i, j);
    forall k: nat | 0 < k < |items| && k != i ensures ParentFirst(after, k) {
      assert k != j ==> ParentFirst(items, k);
    }
    forall k: nat | 0 < k < |items| && Parent(k) == i ensures !Less(after[k], after[Parent(i)]) {
      assert k != j ==> ParentFirst(items, k);
      assert i != 0 ==> ParentFirst(items, i);
    }
  }

  /** j is the child of i that `down` compares with i. */
  predicate IsFirstChild(items: seq<QueuedJob>, n: nat, i: nat, j: nat)
    requires n <= |items|
  {
    var left := 2 * i + 1;
    left < n && j == if left + 1 < n && Less(items[left + 1], items[left]) then left + 1 else left
  }

  lemma FirstChildLeast(items: seq<QueuedJob>, n: nat, i: nat, j: nat)
    requires n <= |items| && IsFirstChild(items, n, i, j)
    ensures i < j < n && Parent(j) == i
    ensures forall k: nat :: 0 < k < n && Parent(k) == i ==> !Less(items[k], items[j])
  {
    forall k: nat | 0 < k < n && Parent(k) == i ensures !Less(items[k], items[j]) {
      assert k == 2 * i + 1 || k == 2 * i + 2;
    }
  }

  /** `down` may stop where no child comes before the hole. */
  lemma SiftDownStop(items: seq<QueuedJob>, n: nat, i: nat, j: nat)
    requires i < n <= |items| && OrderedBelow(items, n, i)
    requires 2 * i + 1 < n ==> j < n && IsFirstChild(items, n, i, j) && !Less(items[j], items[i])
    ensures HeapOrdered(items, n)
  {
    forall k: nat | 0 < k < n ensures ParentFirst(items, k) {
      if Parent(k) == i {
        FirstChildLeast(items, n, i, j);
        assert !Less(items[k], items[j]);
      }
    }
  }

  lemma SiftDownStep(items: seq<QueuedJob>, n: nat, i: nat, j: nat)
    requires i < n <= |items| && OrderedBelow(items, n, i)
    requires j < n && IsFirstChild(items, n, i, j) && Less(items[j], items[i])
    ensures OrderedBelow(Swapped(items, i, j), n, j)
  {
    FirstChildLeast(items, n, i, j);
    var after := Swapped(items, i, j);
    forall k: nat | 0 < k < n && Parent(k) != j ensures ParentFirst(after, k) {
      assert Parent(k) != i ==> ParentFirst(items, k);
    }
    forall k: nat | 0 < k < n && Parent(k) == j ensures !Less(after[k], after[Parent(j)]) {
      assert ParentFirst(items, k);
    }
  }

  /** The same items, and from n on in the same places. */
  ghost predicate Permuted(items: seq<QueuedJob>, was: seq<QueuedJob>, n: nat)
    requires n <= |items|
  {
    && |items| == |was| && multiset(items) == multiset(was) && items[n..] == was[n..]
    && forall k :: 0 <= k < |items| ==> items[k] in was
  }

  class PriorityQueue {
    var items: seq<QueuedJob>

    /** Every item knows its own position, so no item is queued twice. */
    ghost predicate Indexed()
      reads this, items
    {
      forall i :: 0 <= i < |items| ==> items[i].heapIdx == i
    }

    ghost predicate Valid()
      reads this, items
    {
      Indexed() && HeapOrdered(items, |items|)
    }

    constructor ()
      ensures Valid() && items == []
    {
      items := [];
    }

    method Swap(i: nat, j: nat)
      requires i < |items| && j < |items| && Indexed()
      modifies this, items[i], items[j]
      ensures items == Swapped(old(items), i, j) && Indexed()
    {
      items := items[i := items[j]][j := items[i]];
      items[i].heapIdx := i;
      items[j].heapIdx := j;
    }

    /** A swap among the first n items. */
    method SwapBelow(n: nat, i: nat, j: nat)
      requires i < n <= |items| && j < n && Indexed()
      modifies this, items
      ensures items == Swapped(old(items), i, j) && Indexed() && Permuted(items, old(items), n)
    {
      Swap(i, j);
    }

    method Append(qj: QueuedJob)
      requires Indexed() && qj !in items
      modifies this, qj
      ensures items == old(items) + [qj] && Indexed()
    {
      qj.heapIdx := |items|;
      items := items + [qj];
    }

    method RemoveLast() returns (last: QueuedJob)
      requires Indexed() && items != []
      modifies this
      ensures old(items) == items + [last] && Indexed()
    {
      last := items[|items| - 1];
      items := items[..|items| - 1];
    }

    /** container/heap's `up`. */
    method Up(start: nat)
      requires start < |items| && Indexed() && OrderedAbove(items, |items|, start)
      modifies this, items
      ensures Valid() && multiset(items) == old(multiset(items))
    {
      var j: nat := start;
      while true
        invariant j < |items| && Indexed() && multiset(items) == old(multiset(items))
        invariant forall k :: 0 <= k < |items| ==> items[k] in old(items)
        invariant OrderedAbove(items, |items|, j)
        decreases j
      {
        var i: nat := if j == 0 then 0 else (j - 1) / 2;
        if i == j || !Less(items[j], items[i]) {
          break;
        }
        SiftUpStep(items, j);
        Swap(i, j);
        j := i;
      }
      assert j == 0 || ParentFirst(items, j);
    }

    /** One round of `down`: the hole moves to a child, or it is none any more. */
    method DownOnce(i: nat, n: nat) returns (next: nat)
      requires i < n <= |items| && Indexed() && OrderedBelow(items, n, i)
      modifies this, items
      ensures i <= next < n <= |items| && Indexed() && Permuted(items, old(items), n)
      ensures if next == i then items == old(items) && HeapOrdered(items, n) else OrderedBelow(items, n, next)
    {
      next := i;
      var j: nat := 2 * i + 1;
      if j >= n {
        SiftDownStop(items, n, i, j);
        return;
      }
      if j + 1 < n && Less(items[j + 1], items[j]) {
        j := j + 1;
      }
      if !Less(items[j], items[i]) {
        SiftDownStop(items, n, i, j);
        return;
      }
      SiftDownStep(items, n, i, j);
      SwapBelow(n, i, j);
      next := j;
    }

    /** container/heap's `down`, on the first n items. */
    method Down(start: nat, n: nat)
      requires start < n <= |items| && Indexed() && OrderedBelow(items, n, start)
      modifies this, items
      ensures Indexed() && multiset(items) == old(multiset(items)) && |items| == old(|items|)
      ensures HeapOrdered(items, n) && items[n..] == old(items[n..])
    {
      var i, done := start, false;
      while !done
        invariant i < n <= |items| && Indexed() && Permuted(items, old(items), n)
        invariant if done then HeapOrdered(items, n) else OrderedBelow(items, n, i)
        decreases n - i, !done
      {
        var next := DownOnce(i, n);
        i, done := next, next == i;
      }
    }

    /** Adds qj to the queue. */
    method PushJob(qj: QueuedJob)
      requires Valid() && qj !in items
      modifies this, items, qj
      ensures Valid() && multiset(items) == old(multiset(items)) + multiset{qj}
    {
      forall k: nat | 0 < k < |items| ensures ParentFirst(items + [qj], k) {
        assert ParentFirst(items, k);
      }
      Append(qj);
      Up(|items| - 1);
    }

    /** The part of container/heap's `Pop` before the last item is cut off. */
    method SinkRoot()
      requires Valid() && items != []
      modifies this, items
      ensures Indexed() && multiset(items) == old(multiset(items)) && |items| == old(|items|)
      ensures HeapOrdered(items, |items| - 1) && items[|items| - 1] == old(items[0])
    {
      var n := |items| - 1;
      LastToRoot(items, n);
      Swap(0, n);
      assert items[n..][0] == old(items[0]);
      if 0 < n {
        Down(0, n);
      }
      assert items[n..][0] == items[n];
    }

    /** Removes a job that no queued job comes before; null when empty. */
    method PopJob() returns (qj: QueuedJob?)
      requires Valid()
      modifies this, items
      ensures Valid()
      ensures qj == null <==> old(items) == []
      ensures qj == null ==> items == []
      ensures qj != null ==> qj in old(items) && forall q <- old(items) :: !Less(q, qj)
      ensures qj != null ==> forall q <- old(items) :: qj.job.priority >= q.job.priority
      ensures qj != null ==> forall q <- old(items) :: qj.job.priority == q.job.priority ==> qj.insertSeq <= q.insertSeq
      ensures qj != null ==> multiset(items) == old(multiset(items)) - multiset{qj}
    {
      if |items| == 0 {
        return null;
      }
      RootComesFirst(items);
      SinkRoot();
      ghost var before := items;
      qj := RemoveLast();
      assert before == items + [qj];
      HeapWithoutLast(items, qj);
      assert multiset(before) == multiset(items) + multiset{qj};
    }

    /** Empties the queue, handing out its jobs in heap order. */
    method Drain() returns (out: seq<QueuedJob>)
      requires Valid()
      modifies this
      ensures out == old(items) && items == [] && Valid()
    {
      out := items;
      items := [];
    }
  }
}
