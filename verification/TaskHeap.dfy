/**
 The priority queue of the scheduler: `taskPriorityQueue` with its five methods
 (internal/agent/orchestrator.go:564-605), driven as Go's `container/heap` drives it.
 */
module TaskHeap {
  import opened Protocol

  class QueuedTask {
    const runID: RunId
    const task: Task
    var index: int

    constructor (runID: RunId, task: Task)
      ensures this.runID == runID && this.task == task
    {
      this.runID, this.task := runID, task;
      index := 0;
    }
  }

  function Parent(k: nat): nat
    requires 0 < k
  {
    (k - 1) / 2
  }

  /** Heap order on a sequence, with `hole` exempt as a child. */
  ghost predicate OrderedExcept(q: seq<QueuedTask>, n: nat, hole: int)
    requires n <= |q|
  {
    forall k | 0 < k < n && k != hole :: !Before(q[k].task, q[Parent(k)].task)
  }

  /** The children of `j` do not come before the parent of `j`. */
  ghost predicate GrandchildrenOrdered(q: seq<QueuedTask>, n: nat, j: nat)
    requires n <= |q|
  {
    j == 0 || j >= n || forall k | 0 < k < n && Parent(k) == j :: !Before(q[k].task, q[Parent(j)].task)
  }

  ghost predicate Ordered(q: seq<QueuedTask>) {
    OrderedExcept(q, |q|, -1)
  }

  ghost predicate Indexed(q: seq<QueuedTask>)
    reads q
  {
    forall k | 0 <= k < |q| :: q[k].index == k
  }

  function Swapped(q: seq<QueuedTask>, i: nat, j: nat): (r: seq<QueuedTask>)
    requires i < |q| && j < |q|
    ensures |r| == |q|
    ensures forall k | 0 <= k < |q| :: r[k] == if k == i then q[j] else if k == j then q[i] else q[k]
  {
    q[i := q[j]][j := q[i]]
  }

  lemma SwappedMultiset(q: seq<QueuedTask>, i: nat, j: nat)
    requires i < |q| && j < |q|
    ensures multiset(Swapped(q, i, j)) == multiset(q)
  {
  }

  /** What it means, in the numbers, that `x` does not come before `item`. */
  lemma NotBefore(x: Task, item: Task)
    requires !Before(x, item)
    ensures x.priority < item.priority || (x.priority == item.priority && item.sequence <= x.sequence)
  {
  }

  lemma BeforeTransitive(a: Task, b: Task, c: Task)
    requires !Before(b, a) && !Before(c, b)
    ensures !Before(c, a)
  {
  }

  lemma SameElements(a: seq<QueuedTask>, b: seq<QueuedTask>)
    requires multiset(a) == multiset(b)
    ensures forall x :: x in a <==> x in b
  {
    forall x ensures x in a <==> x in b {
      assert x in a <==> x in multiset(a);
      assert x in b <==> x in multiset(b);
    }
  }

  lemma RootFirstOfAll(q: seq<QueuedTask>)
    requires Ordered(q)
    ensures forall x | x in q :: !Before(x.task, q[0].task)
    ensures forall x | x in q ::
              || x.task.priority < q[0].task.priority
              || (x.task.priority == q[0].task.priority && q[0].task.sequence <= x.task.sequence)
  {
    hide Before;
    forall x | x in q
      ensures !Before(x.task, q[0].task)
      ensures x.task.priority < q[0].task.priority ||
              (x.task.priority == q[0].task.priority && q[0].task.sequence <= x.task.sequence)
    {
      var k :| 0 <= k < |q| && q[k] == x;
      RootFirst(q, k);
      NotBefore(x.task, q[0].task);
    }
  }

  lemma SwappedAt(q: seq<QueuedTask>, i: nat, j: nat)
    requires i < |q| && j < |q|
    ensures Swapped(q, i, j)[j] == q[i] && Swapped(q, i, j)[i] == q[j]
  {
  }

  /** The same items, those from `n` on untouched. */
  ghost predicate Shuffled(q: seq<QueuedTask>, was: seq<QueuedTask>, n: nat) {
    n <= |q| == |was| && multiset(q) == multiset(was) && q[n..] == was[n..]
  }

  lemma Unshuffled(q: seq<QueuedTask>, n: nat)
    requires n <= |q|
    ensures Shuffled(q, q, n)
  {
  }

  lemma ShuffledIn(q: seq<QueuedTask>, was: seq<QueuedTask>, n: nat, k: nat)
    requires Shuffled(q, was, n) && k < |q|
    ensures q[k] in was
  {
    assert q[k] in multiset(q);
    assert q[k] in multiset(was);
  }

  lemma TailKept(q: seq<QueuedTask>, was: seq<QueuedTask>, n: nat)
    requires Shuffled(q, was, n) && n < |was|
    ensures |was| == |q| && multiset(q) == multiset(was) && q[n] == was[n]
  {
    assert q[n] == q[n..][0];
  }

  lemma SwapShuffles(q: seq<QueuedTask>, was: seq<QueuedTask>, n: nat, i: nat, j: nat)
    requires Shuffled(q, was, n) && i < n && j < n
    ensures |Swapped(q, i, j)| == |q| && Shuffled(Swapped(q, i, j), was, n)
  {
    SwappedMultiset(q, i, j);
  }

  /** In an ordered heap nothing comes before the root. */
  lemma {:induction false} RootFirst(q: seq<QueuedTask>, k: nat)
    requires Ordered(q) && k < |q|
    ensures !Before(q[k].task, q[0].task)
    decreases k
  {
    if k > 0 {
      RootFirst(q, Parent(k));
      BeforeTransitive(q[0].task, q[Parent(k)].task, q[k].task);
    }
  }

  class TaskPriorityQueue {
    var q: seq<QueuedTask>

    ghost predicate Valid()
      reads this, q
    {
      Indexed(q) && Ordered(q)
    }

    constructor ()
      ensures Valid() && q == []
    {
      q := [];
    }

    function Len(): (n: nat)
      reads this
      ensures n == 0 <==> q == []
    {
      |q|
    }

    predicate Less(i: nat, j: nat): (less: bool)
      requires i < |q| && j < |q|
      reads this
      ensures less <==> Before(q[i].task, q[j].task)
    {
      if q[i].task.priority == q[j].task.priority then q[i].task.sequence < q[j].task.sequence
      else q[i].task.priority > q[j].task.priority
    }

    method Swap(i: nat, j: nat)
      requires i < |q| && j < |q| && Indexed(q)
      modifies this, q[i], q[j]
      ensures q == Swapped(old(q), i, j) && Indexed(q)
    {
      q := q[i := q[j]][j := q[i]];
      q[i].index := i;
      q[j].index := j;
    }

    /** The type's own Push: the item goes to the end, not yet to its place. */
    method PushLast(item: QueuedTask)
      requires Indexed(q) && item !in q
      modifies this, item
      ensures q == old(q) + [item] && Indexed(q)
    {
      item.index := |q|;
      q := q + [item];
    }

    method PopLast() returns (item: QueuedTask)
      requires q != [] && Indexed(q)
      modifies this, q[|q| - 1]
      ensures item == old(q)[|old(q)| - 1] && q == old(q)[..|old(q)| - 1] && Indexed(q) && item.index == -1
    {
      var n := |q|;
      item := q[n - 1];
      item.index := -1;
      q := q[..n - 1];
    }

    method Up(start: nat)
      requires start < |q| && Indexed(q)
      requires OrderedExcept(q, |q|, start) && GrandchildrenOrdered(q, |q|, start)
      modifies this, q
      ensures Valid() && multiset(q) == multiset(old(q))
    {
      var j: nat := start;
      while true
        invariant j < |q| == |old(q)|
        invariant Indexed(q) && multiset(q) == multiset(old(q))
        invariant OrderedExcept(q, |q|, j) && GrandchildrenOrdered(q, |q|, j)
        invariant forall k | 0 <= k < |q| :: q[k] in old(q)
        decreases j
      {
        if j == 0 { break; }
        var i: nat := (j - 1) / 2;
        if !Less(j, i) { break; }
        ghost var was := q;
        SwappedMultiset(q, i, j);
        assert q[i] in old(q) && q[j] in old(q);
        Swap(i, j);
        UpStep(was, i, j);
        j := i;
      }
    }

    method Down(n: nat)
      requires n <= |q| && Indexed(q)
      requires OrderedBut(q, n, 0) && GrandchildrenOrdered(q, n, 0)
      modifies this, q
      ensures Indexed(q) && Shuffled(q, old(q), n) && OrderedExcept(q, n, -1)
    {
      hide OrderedBut, GrandchildrenOrdered, OrderedExcept, Before, Parent, Less, Shuffled, Swapped;
      ghost var start := q;
      Unshuffled(q, n);
      var i: nat := 0;
      while true
        invariant n <= |q| == |start| && Indexed(q) && Shuffled(q, start, n)
        invariant OrderedBut(q, n, i) && GrandchildrenOrdered(q, n, i)
        decreases n - i
      {
        var j1 := 2 * i + 1;
        if j1 >= n {
          Childless(q, n, i);
          break;
        }
        var j := j1;
        var j2 := j1 + 1;
        if j2 < n && Less(j2, j1) { j := j2; }
        BestChild(q, n, i, j);
        if !Less(j, i) {
          StopHere(q, n, i, j);
          break;
        }
        ShuffledIn(q, start, n, i);
        ShuffledIn(q, start, n, j);
        SwapShuffles(q, start, n, i, j);
        DownStep(q, n, i, j);
        Swap(i, j);
        i := j;
      }
    }

    /** `heap.Push`. */
    method Push(item: QueuedTask)
      requires Valid() && item !in q
      modifies this, q, item
      ensures Valid() && multiset(q) == multiset(old(q)) + multiset{item}
      ensures forall x :: x in q <==> x in old(q) || x == item
    {
      PushLast(item);
      ghost var pushed := q;
      Up(|q| - 1);
      SameElements(q, pushed);
    }

    /** `heap.Pop`: the item of highest priority, and among equals the one queued first. */
    method Pop() returns (item: QueuedTask)
      requires Valid() && q != []
      modifies this, q
      ensures Valid() && item in old(q) && item.index == -1 && |q| == |old(q)| - 1
      ensures multiset(q) == multiset(old(q)) - multiset{item}
      ensures forall x :: x in q <==> x in old(q) && x != item
      ensures forall x | x in old(q) :: !Before(x.task, item.task)
      ensures forall x | x in old(q) ::
                || x.task.priority < item.task.priority
                || (x.task.priority == item.task.priority && item.task.sequence <= x.task.sequence)
    {
      hide Shuffled, Swapped, Before, OrderedBut, GrandchildrenOrdered, Less;
      ghost var was := q;
      RootFirstOfAll(was);
      var n := |q| - 1;
      SwappedMultiset(q, 0, n);
      RootGone(was, n);
      Swap(0, n);
      ghost var swapped := q;
      Down(n);
      ghost var sifted := q;
      TailKept(sifted, swapped, n);
      SameElements(sifted, was);
      assert sifted[n] == was[0] by { SwappedAt(was, 0, n); }
      item := PopLast();
      assert sifted == q + [item];
    }
  }

  /** Heap order everywhere but at the children of `i`. */
  ghost predicate OrderedBut(q: seq<QueuedTask>, n: nat, i: nat)
    requires n <= |q|
  {
    forall k | 0 < k < n && Parent(k) != i :: !Before(q[k].task, q[Parent(k)].task)
  }

  lemma Childless(q: seq<QueuedTask>, n: nat, i: nat)
    requires n <= |q| && OrderedBut(q, n, i) && 2 * i + 1 >= n
    ensures OrderedExcept(q, n, -1)
  {
  }

  lemma BestChild(q: seq<QueuedTask>, n: nat, i: nat, j: nat)
    requires 2 * i + 1 < n <= |q|
    requires j == if 2 * i + 2 < n && Before(q[2 * i + 2].task, q[2 * i + 1].task) then 2 * i + 2 else 2 * i + 1
    ensures Parent(j) == i && j < n
    ensures forall k | 0 < k < n && Parent(k) == i :: !Before(q[k].task, q[j].task)
  {
    assert forall k: nat | 0 < k < n && Parent(k) == i :: k == 2 * i + 1 || k == 2 * i + 2;
  }

  lemma StopHere(q: seq<QueuedTask>, n: nat, i: nat, j: nat)
    requires n <= |q| && i < n && j < n && OrderedBut(q, n, i)
    requires forall k | 0 < k < n && Parent(k) == i :: !Before(q[k].task, q[j].task)
    requires !Before(q[j].task, q[i].task)
    ensures OrderedExcept(q, n, -1)
  {
    forall k | 0 < k < n && Parent(k) == i
      ensures !Before(q[k].task, q[i].task)
    {
      BeforeTransitive(q[i].task, q[j].task, q[k].task);
    }
  }

  /** Sifting up keeps the order everywhere but at the item that moves. */
  lemma UpStep(q: seq<QueuedTask>, i: nat, j: nat)
    requires 0 < j < |q| && i == Parent(j) && Before(q[j].task, q[i].task)
    requires OrderedExcept(q, |q|, j) && GrandchildrenOrdered(q, |q|, j)
    ensures OrderedExcept(Swapped(q, i, j), |q|, i) && GrandchildrenOrdered(Swapped(q, i, j), |q|, i)
  {
  }

  /** With the root swapped to the end, only the new root can be out of order. */
  lemma RootGone(q: seq<QueuedTask>, n: nat)
    requires Ordered(q) && |q| == n + 1
    ensures OrderedBut(Swapped(q, 0, n), n, 0) && GrandchildrenOrdered(Swapped(q, 0, n), n, 0)
  {
  }

  lemma DownStep(q: seq<QueuedTask>, n: nat, i: nat, j: nat)
    requires n <= |q| && 0 < j < n && i == Parent(j) && Before(q[j].task, q[i].task)
    requires forall k | 0 < k < n && Parent(k) == i :: !Before(q[k].task, q[j].task)
    requires OrderedBut(q, n, i) && GrandchildrenOrdered(q, n, i)
    ensures OrderedBut(Swapped(q, i, j), n, j) && GrandchildrenOrdered(Swapped(q, i, j), n, j)
  {
  }
}
