/** Popping a queue until it is empty sorts it: by priority alone, keeping the
    submission order of equal priorities. */
module PopOrder {
  import opened Jobs

  /** `out` lists the jobs of `queue` in an order that successive pops return. */
  ghost predicate PopRun(jobs: seq<Job>, queue: set<nat>, out: seq<nat>)
    requires forall u <- queue :: u < |jobs|
    decreases |out|
  {
    if out == [] then queue == {}
    else IsNext(jobs, queue, out[0]) && PopRun(jobs, queue - {out[0]}, out[1..])
  }

  predicate Below(s: seq<nat>, n: nat) {
    forall k :: 0 <= k < |s| ==> s[k] < n
  }

  /** Inserts t behind every job of at least its priority. */
  function InsertByPriority(jobs: seq<Job>, sorted: seq<nat>, t: nat): (r: seq<nat>)
    requires t < |jobs| && Below(sorted, t)
    ensures Below(r, t + 1)
    ensures forall u :: u in r <==> u == t || u in sorted
  {
    if sorted == [] || jobs[sorted[0]].priority < jobs[t].priority then [t] + sorted
    else
      assert sorted == [sorted[0]] + sorted[1..];
      [sorted[0]] + InsertByPriority(jobs, sorted[1..], t)
  }

  /** Insertion sort by priority of the queued jobs among the first n submitted. */
  function StableSort(jobs: seq<Job>, queue: set<nat>, n: nat): (r: seq<nat>)
    requires n <= |jobs|
    ensures Below(r, n)
    ensures forall u :: u in r <==> u < n && u in queue
  {
    if n == 0 then []
    else
      var r := StableSort(jobs, queue, n - 1);
      if n - 1 in queue then InsertByPriority(jobs, r, n - 1) else r
  }

  ghost predicate Sorted(jobs: seq<Job>, s: seq<nat>)
    requires Below(s, |jobs|)
  {
    forall i, j :: 0 <= i < j < |s| ==> Before(jobs, s[i], s[j])
  }

  lemma {:induction false} InsertSorted(jobs: seq<Job>, sorted: seq<nat>, t: nat)
    requires t < |jobs| && Below(sorted, t) && Sorted(jobs, sorted)
    ensures Sorted(jobs, InsertByPriority(jobs, sorted, t))
  {
    var r := InsertByPriority(jobs, sorted, t);
    if sorted == [] {
    } else if jobs[sorted[0]].priority < jobs[t].priority {
      assert forall j :: 0 < j < |sorted| ==> Before(jobs, sorted[0], sorted[j]);
    } else {
      InsertSorted(jobs, sorted[1..], t);
      assert forall j :: 0 < j < |r| ==> r[j] in r[1..] && (r[j] == t || r[j] in sorted[1..]);
      assert forall u <- sorted[1..] :: Before(jobs, sorted[0], u);
    }
  }

  lemma {:induction false} StableSortSorts(jobs: seq<Job>, queue: set<nat>, n: nat)
    requires n <= |jobs|
    ensures Sorted(jobs, StableSort(jobs, queue, n))
  {
    if n > 0 {
      StableSortSorts(jobs, queue, n - 1);
      if n - 1 in queue {
        InsertSorted(jobs, StableSort(jobs, queue, n - 1), n - 1);
      }
    }
  }

  /** A sorted list of the queue's jobs is what popping returns, and conversely. */
  lemma {:induction false} SortedIsPopRun(jobs: seq<Job>, queue: set<nat>, s: seq<nat>)
    requires forall u <- queue :: u < |jobs|
    requires Below(s, |jobs|) && Sorted(jobs, s)
    requires forall u :: u in s <==> u in queue
    ensures PopRun(jobs, queue, s)
    decreases |s|
  {
    if s != [] {
      assert s == [s[0]] + s[1..];
      assert forall j :: 0 < j < |s| ==> Before(jobs, s[0], s[j]);
      assert s[0] !in s[1..];
      SortedIsPopRun(jobs, queue - {s[0]}, s[1..]);
    }
  }

  lemma {:induction false} PopRunUnique(jobs: seq<Job>, queue: set<nat>, a: seq<nat>, b: seq<nat>)
    requires forall u <- queue :: u < |jobs|
    requires PopRun(jobs, queue, a) && PopRun(jobs, queue, b)
    ensures a == b
    decreases |a|
  {
    if a != [] && b != [] {
      PopRunUnique(jobs, queue - {a[0]}, a[1..], b[1..]);
      assert a == [a[0]] + a[1..] && b == [b[0]] + b[1..];
    }
  }

  /** The stable sort of a queue: each of its jobs once, the higher priority first, and
      equal priorities in submission order. */
  lemma StableSortMeans(jobs: seq<Job>, queue: set<nat>, i: nat, j: nat)
    requires forall u <- queue :: u < |jobs|
    ensures forall u :: u in StableSort(jobs, queue, |jobs|) <==> u in queue
    ensures var s := StableSort(jobs, queue, |jobs|);
      i < j < |s| ==> jobs[s[i]].priority > jobs[s[j]].priority
                      || (jobs[s[i]].priority == jobs[s[j]].priority && s[i] < s[j])
  {
    StableSortSorts(jobs, queue, |jobs|);
    var s := StableSort(jobs, queue, |jobs|);
    assert i < j < |s| ==> Before(jobs, s[i], s[j]);
  }

  /** Repeated pops return exactly the stable sort of the queue by priority. */
  lemma PopsAreStableSort(jobs: seq<Job>, queue: set<nat>, out: seq<nat>)
    requires forall u <- queue :: u < |jobs|
    ensures PopRun(jobs, queue, out) <==> out == StableSort(jobs, queue, |jobs|)
  {
    StableSortSorts(jobs, queue, |jobs|);
    var sorted := StableSort(jobs, queue, |jobs|);
    SortedIsPopRun(jobs, queue, sorted);
    if PopRun(jobs, queue, out) {
      PopRunUnique(jobs, queue, out, sorted);
    }
  }

  /** The stable sort begins with the next job. */
  lemma SortPopsNext(jobs: seq<Job>, queue: set<nat>, t: nat)
    requires forall u <- queue :: u < |jobs|
    requires IsNext(jobs, queue, t)
    ensures StableSort(jobs, queue, |jobs|) == [t] + StableSort(jobs, queue - {t}, |jobs|)
  {
    var rest := StableSort(jobs, queue - {t}, |jobs|);
    PopsAreStableSort(jobs, queue - {t}, rest);
    assert ([t] + rest)[1..] == rest;
    PopsAreStableSort(jobs, queue, [t] + rest);
  }

  lemma {:induction false} NothingToSort(jobs: seq<Job>, n: nat)
    requires n <= |jobs|
    ensures StableSort(jobs, {}, n) == []
  {
    if n > 0 {
      NothingToSort(jobs, n - 1);
    }
  }
}
