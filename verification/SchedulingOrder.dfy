/** The order in which the schedulers keep their queues, on plain sequences: where a thread is
    put, and what a queue built that way amounts to. */
module SchedulingOrder {

  datatype Policy = FCFS | SJF | PRIORITY | RR

  datatype ThreadState = NEW | READY | RUNNING | WAITING | EXITED | KILLED

  /** A queued thread and its priority; a larger number means less urgent. */
  datatype Entry<T> = Entry(id: T, priority: int)

  predicate Sorted<T>(q: seq<Entry<T>>) {
    forall i, j :: 0 <= i < j < |q| ==> q[i].priority <= q[j].priority
  }

  /** One more than the last position whose priority number is at most p, or 0. */
  function AfterLast<T>(q: seq<Entry<T>>, p: int): (k: nat)
    ensures k <= |q|
    ensures 0 < k ==> q[k - 1].priority <= p
    ensures forall i :: k <= i < |q| ==> p < q[i].priority
  {
    if q == [] then 0
    else if q[|q| - 1].priority <= p then |q|
    else AfterLast(q[..|q| - 1], p)
  }

  /** Where thread_queue_insert_at_priority puts a thread of priority p. The head is looked at before
      the middle, which matters only on a queue that is not sorted. */
  function InsertPos<T>(q: seq<Entry<T>>, p: int): (k: nat)
    ensures k <= |q|
  {
    if q != [] && p < q[|q| - 1].priority && p < q[0].priority then 0 else AfterLast(q, p)
  }

  function Insert<T>(q: seq<Entry<T>>, x: Entry<T>): (r: seq<Entry<T>>)
    ensures |r| == |q| + 1
  {
    var k := InsertPos(q, x.priority);
    q[..k] + [x] + q[k..]
  }

  /** Entry of SCHEDULER[policy]: RR orders as FCFS does. */
  function Enqueue<T>(policy: Policy, q: seq<Entry<T>>, x: Entry<T>): (r: seq<Entry<T>>)
    ensures |r| == |q| + 1
  {
    if policy == SJF || policy == PRIORITY then Insert(q, x) else q + [x]
  }

  function EnqueueAll<T>(policy: Policy, q: seq<Entry<T>>, xs: seq<Entry<T>>): seq<Entry<T>>
    decreases |xs|
  {
    if xs == [] then q else EnqueueAll(policy, Enqueue(policy, q, xs[0]), xs[1..])
  }

  /** The threads of priority p, in queue order. */
  function OfPriority<T>(q: seq<Entry<T>>, p: int): seq<Entry<T>> {
    if q == [] then []
    else OfPriority(q[..|q| - 1], p) + if q[|q| - 1].priority == p then [q[|q| - 1]] else []
  }

  /** r is q sorted by priority with equal priorities left in their order. */
  ghost predicate IsStableSortOf<T>(r: seq<Entry<T>>, q: seq<Entry<T>>) {
    && Sorted(r)
    && forall p :: OfPriority(r, p) == OfPriority(q, p)
  }

  lemma {:induction false} OfPriorityConcat<T>(a: seq<Entry<T>>, b: seq<Entry<T>>, p: int)
    ensures OfPriority(a + b, p) == OfPriority(a, p) + OfPriority(b, p)
  {
    if b == [] {
      assert a + b == a;
    } else {
      OfPriorityConcat(a, b[..|b| - 1], p);
      assert (a + b)[..|a + b| - 1] == a + b[..|b| - 1];
    }
  }

  lemma {:induction false} NoneOfPriority<T>(q: seq<Entry<T>>, p: int)
    requires forall i :: 0 <= i < |q| ==> q[i].priority != p
    ensures OfPriority(q, p) == []
  {
    if q != [] {
      NoneOfPriority(q[..|q| - 1], p);
    }
  }

  /** On a sorted queue the position found is the one that splits it at p. */
  lemma InsertPosSplits<T>(q: seq<Entry<T>>, p: int)
    requires Sorted(q)
    ensures forall i :: 0 <= i < InsertPos(q, p) ==> q[i].priority <= p
    ensures forall i :: InsertPos(q, p) <= i < |q| ==> p < q[i].priority
  {
  }

  /** Moving x past less urgent threads leaves the order within each priority alone. */
  lemma MovePast<T>(a: seq<Entry<T>>, x: Entry<T>, b: seq<Entry<T>>, p: int)
    requires forall i :: 0 <= i < |b| ==> x.priority < b[i].priority
    ensures OfPriority(a + [x] + b, p) == OfPriority(a + b + [x], p)
  {
    OfPriorityConcat(a + [x], b, p);
    OfPriorityConcat(a, [x], p);
    OfPriorityConcat(a + b, [x], p);
    OfPriorityConcat(a, b, p);
    var pa, px, pb := OfPriority(a, p), OfPriority([x], p), OfPriority(b, p);
    if p == x.priority {
      NoneOfPriority(b, p);
    } else {
      NoneOfPriority([x], p);
    }
    assert pa + px + pb == pa + pb + px;
  }

  lemma InsertIsSorted<T>(q: seq<Entry<T>>, x: Entry<T>)
    requires Sorted(q)
    ensures Sorted(Insert(q, x))
  {
    var k := InsertPos(q, x.priority);
    InsertPosSplits(q, x.priority);
    var r := Insert(q, x);
    forall i, j | 0 <= i < j < |r| ensures r[i].priority <= r[j].priority {
      assert r[i] == if i < k then q[i] else if i == k then x else q[i - 1];
      assert r[j] == if j < k then q[j] else if j == k then x else q[j - 1];
    }
  }

  lemma InsertIsStable<T>(q: seq<Entry<T>>, x: Entry<T>)
    requires Sorted(q)
    ensures IsStableSortOf(Insert(q, x), q + [x])
  {
    InsertIsSorted(q, x);
    InsertPosSplits(q, x.priority);
    var k := InsertPos(q, x.priority);
    var a, b := q[..k], q[k..];
    assert q == a + b;
    forall p ensures OfPriority(Insert(q, x), p) == OfPriority(q + [x], p) {
      MovePast(a, x, b, p);
    }
  }

  /** Under SJF and PRIORITY, queueing threads one by one onto a sorted queue sorts stably. */
  lemma {:induction false} EnqueueAllIsStable<T>(policy: Policy, q: seq<Entry<T>>, xs: seq<Entry<T>>)
    requires (policy == SJF || policy == PRIORITY) && Sorted(q)
    ensures IsStableSortOf(EnqueueAll(policy, q, xs), q + xs)
    decreases |xs|
  {
    if xs == [] {
      assert q + xs == q;
    } else {
      InsertIsStable(q, xs[0]);
      var q' := Insert(q, xs[0]);
      EnqueueAllIsStable(policy, q', xs[1..]);
      forall p ensures OfPriority(EnqueueAll(policy, q, xs), p) == OfPriority(q + xs, p) {
        OfPriorityConcat(q', xs[1..], p);
        OfPriorityConcat(q + [xs[0]], xs[1..], p);
        assert q + [xs[0]] + xs[1..] == q + xs;
      }
    }
  }

  lemma {:induction false} EnqueueAllAppends<T>(policy: Policy, q: seq<Entry<T>>, xs: seq<Entry<T>>)
    requires policy == FCFS || policy == RR
    ensures EnqueueAll(policy, q, xs) == q + xs
    decreases |xs|
  {
    if xs == [] {
      assert q + xs == q;
    } else {
      EnqueueAllAppends(policy, q + [xs[0]], xs[1..]);
      assert q + [xs[0]] + xs[1..] == q + xs;
    }
  }

  lemma {:induction false} OfPriorityNonEmpty<T>(q: seq<Entry<T>>, i: nat)
    requires i < |q|
    ensures q[i] in OfPriority(q, q[i].priority)
  {
    if i < |q| - 1 {
      OfPriorityNonEmpty(q[..|q| - 1], i);
    }
  }

  lemma {:induction false} OfPriorityMembers<T>(q: seq<Entry<T>>, p: int, x: Entry<T>)
    requires x in OfPriority(q, p)
    ensures x in q && x.priority == p
  {
    if x !in OfPriority(q[..|q| - 1], p) {
      assert x == q[|q| - 1];
    } else {
      OfPriorityMembers(q[..|q| - 1], p, x);
    }
  }

  lemma LastIsGreatest<T>(a: seq<Entry<T>>, b: seq<Entry<T>>)
    requires a != [] && Sorted(a) && Sorted(b) && forall p :: OfPriority(a, p) == OfPriority(b, p)
    ensures b != [] && a[|a| - 1].priority <= b[|b| - 1].priority
  {
    var x := a[|a| - 1];
    OfPriorityNonEmpty(a, |a| - 1);
    OfPriorityMembers(b, x.priority, x);
  }

  lemma SnocEqual<T>(s: seq<T>, x: T, t: seq<T>, y: T)
    requires s + [x] == t + [y]
    ensures s == t && x == y
  {
    assert (s + [x])[|s|] == x && (t + [y])[|t|] == y;
    assert (s + [x])[..|s|] == s && (t + [y])[..|t|] == t;
  }

  /** There is only one stable sort. */
  lemma {:induction false} StableSortUnique<T>(a: seq<Entry<T>>, b: seq<Entry<T>>)
    requires Sorted(a) && Sorted(b)
    requires forall p :: OfPriority(a, p) == OfPriority(b, p)
    ensures a == b
    decreases |a|
  {
    if a == [] {
      if b != [] {
        LastIsGreatest(b, a);
      }
    } else {
      LastIsGreatest(a, b);
      LastIsGreatest(b, a);
      var x, y := a[|a| - 1], b[|b| - 1];
      var a', b' := a[..|a| - 1], b[..|b| - 1];
      assert OfPriority(a, x.priority) == OfPriority(a', x.priority) + [x];
      assert OfPriority(b, y.priority) == OfPriority(b', y.priority) + [y];
      SnocEqual(OfPriority(a', x.priority), x, OfPriority(b', y.priority), y);
      forall r ensures OfPriority(a', r) == OfPriority(b', r) {
        assert OfPriority(a, r) == OfPriority(b, r);
        if r != x.priority {
          assert OfPriority(a, r) == OfPriority(a', r) + [] == OfPriority(a', r);
          assert OfPriority(b, r) == OfPriority(b', r) + [] == OfPriority(b', r);
        }
      }
      StableSortUnique(a', b');
      assert a == a' + [x] && b == b' + [y];
    }
  }

  /** Creating jobs on the new queue and then merging it into a sorted run queue gives the stable
      sort of the run queue followed by the jobs in creation order; FCFS and RR concatenate. */
  lemma MergeOfCreatedJobs<T>(policy: Policy, run: seq<Entry<T>>, jobs: seq<Entry<T>>)
    ensures policy == FCFS || policy == RR ==>
              EnqueueAll(policy, run, EnqueueAll(policy, [], jobs)) == run + jobs
    ensures (policy == SJF || policy == PRIORITY) && Sorted(run) ==>
              IsStableSortOf(EnqueueAll(policy, run, EnqueueAll(policy, [], jobs)), run + jobs)
  {
    var created := EnqueueAll(policy, [], jobs);
    if policy == FCFS || policy == RR {
      EnqueueAllAppends(policy, [], jobs);
      EnqueueAllAppends(policy, run, jobs);
      assert [] + jobs == jobs;
    } else if Sorted(run) {
      EnqueueAllIsStable(policy, [], jobs);
      EnqueueAllIsStable(policy, run, created);
      forall p ensures OfPriority(EnqueueAll(policy, run, created), p) == OfPriority(run + jobs, p) {
        OfPriorityConcat(run, created, p);
        OfPriorityConcat(run, jobs, p);
        assert [] + jobs == jobs;
        assert OfPriority(created, p) == OfPriority([] + jobs, p);
      }
    }
  }

  /** So merging in one go or queueing the jobs directly makes no difference. */
  lemma MergeIsDirect<T>(policy: Policy, run: seq<Entry<T>>, jobs: seq<Entry<T>>)
    requires policy == SJF || policy == PRIORITY ==> Sorted(run)
    ensures EnqueueAll(policy, run, EnqueueAll(policy, [], jobs)) == EnqueueAll(policy, run, jobs)
  {
    MergeOfCreatedJobs(policy, run, jobs);
    if policy == FCFS || policy == RR {
      EnqueueAllAppends(policy, run, jobs);
    } else {
      EnqueueAllIsStable(policy, run, jobs);
      var a, b := EnqueueAll(policy, run, EnqueueAll(policy, [], jobs)), EnqueueAll(policy, run, jobs);
      assert forall p :: OfPriority(a, p) == OfPriority(run + jobs, p) == OfPriority(b, p);
      StableSortUnique(a, b);
    }
  }
}
