/** The pool of anti-replay nonces of section 6.5 of RFC 8555
    (acme_isolator/acme/request/nonce.py): a FIFO queue of `Replay-Nonce` values, the set of
    HEAD fetches in flight, and the `initialized` flag of the `async with` block. Each HEAD
    request, its reply and the event loop's choice of what runs next are inputs here: every
    step the event loop can take is one operation on the pool. */
module Nonces {
  import opened Wrappers

  /** A `Replay-Nonce` header as `headers.get` returns it: None when the reply has none. */
  type Nonce = Option<string>

  /** How many fetches `refill_loop` schedules at once. */
  const RefillCount: nat := 10

  /** The state of a `NonceManager`: queued nonces (front first), in-flight fetch tasks,
      the next task identifier, the flag, and how many `get_nonce` calls are suspended in
      `await self.queue.get()`. */
  datatype Pool = Pool(queue: seq<Nonce>, tasks: set<nat>, nextTask: nat, initialized: bool, waiting: nat)

  /** Every in-flight fetch carries an identifier already handed out. */
  predicate Valid(p: Pool)
  {
    forall t :: t in p.tasks ==> t < p.nextTask
  }

  /** What `get_nonce` does at once: hand out a nonce, or suspend after scheduling a fetch. */
  datatype Got = Taken(nonce: Nonce) | Suspended(task: nat)

  /** `__aenter__`: the flag is set (the refill loop starts; see `AfterRefill`). */
  function AfterEnter(p: Pool): (q: Pool)
    ensures q.initialized && q.queue == p.queue && q.tasks == p.tasks
  {
    p.(initialized := true)
  }

  /** `__aexit__`: every in-flight fetch is cancelled and removes itself, then the flag is
      cleared; queued nonces stay. */
  function AfterExit(p: Pool): (q: Pool)
    ensures !q.initialized && q.tasks == {} && q.queue == p.queue
  {
    p.(tasks := {}, initialized := false)
  }

  /** `put_nonce`: the nonce joins the back of the queue. */
  function AfterPut(p: Pool, n: Nonce): (q: Pool)
    ensures q.queue == p.queue + [n] && q.queue[..|p.queue|] == p.queue
    ensures q.tasks == p.tasks && q.initialized == p.initialized
  {
    p.(queue := p.queue + [n])
  }

  /** `_request_nonce`: one new fetch task joins `tasks`. */
  function AfterRequest(p: Pool): (q: Pool)
    ensures q.tasks == p.tasks + {p.nextTask} && q.nextTask == p.nextTask + 1
    ensures Valid(p) ==> Valid(q) && p.nextTask !in p.tasks && |q.tasks| == |p.tasks| + 1
    ensures q.queue == p.queue && q.initialized == p.initialized && q.waiting == p.waiting
  {
    p.(tasks := p.tasks + {p.nextTask}, nextTask := p.nextTask + 1)
  }

  /** `get_nonce`: AssertionError outside the `async with` block; otherwise the front nonce
      when the queue has one, and else one fetch is scheduled and the caller suspends. */
  function AfterGet(p: Pool): (r: (Result<Got>, Pool))
    ensures !p.initialized <==> r.0 == Err(AssertionError)
    ensures !p.initialized ==> r.1 == p
    ensures p.initialized && p.queue != [] ==>
              r.0 == Ok(Taken(p.queue[0])) && r.1.queue == p.queue[1..] && r.1.tasks == p.tasks
    ensures p.initialized && p.queue == [] ==>
              r.0 == Ok(Suspended(p.nextTask)) && r.1.queue == [] &&
              r.1.tasks == p.tasks + {p.nextTask} && r.1.waiting == p.waiting + 1
    ensures r.1.initialized == p.initialized
  {
    if !p.initialized then (Err(AssertionError), p)
    else if p.queue != [] then (Ok(Taken(p.queue[0])), p.(queue := p.queue[1..]))
    else (Ok(Suspended(p.nextTask)), AfterRequest(p).(waiting := p.waiting + 1))
  }

  /** A suspended `get_nonce` wakes in `queue.get()`: with a nonce queued, the first waiter
      takes the front one; otherwise nothing happens. */
  function AfterResume(p: Pool): (r: (Option<Nonce>, Pool))
    ensures r.0.Some? <==> p.waiting > 0 && p.queue != []
    ensures r.0.Some? ==> r.0.value == p.queue[0] && r.1.queue == p.queue[1..] &&
                          r.1.waiting == p.waiting - 1 && r.1.tasks == p.tasks
    ensures r.0.None? ==> r.1 == p
  {
    if p.waiting > 0 && p.queue != [] then
      (Some(p.queue[0]), p.(queue := p.queue[1..], waiting := p.waiting - 1))
    else (None, p)
  }

  /** `_fetch_nonce` receiving the reply to its HEAD request: status 200 enqueues the
      `Replay-Nonce` header, any other status raises ConnectionError; in both cases the task
      removes itself from `tasks`, which raises KeyError when it is not there. */
  function AfterFetch(p: Pool, task: nat, status: int, header: Nonce): (r: (Outcome, Pool))
    ensures r.1.tasks == p.tasks - {task} && task !in r.1.tasks
    ensures status == 200 ==> r.1.queue == p.queue + [header]
    ensures status != 200 ==> r.1.queue == p.queue
    ensures r.0 == (if task !in p.tasks then Fail(KeyError)
                    else if status != 200 then Fail(ConnectionError) else Pass)
    ensures Valid(p) ==> Valid(r.1)
  {
    var queued := if status == 200 then p.queue + [header] else p.queue;
    var q := p.(queue := queued, tasks := p.tasks - {task});
    if task !in p.tasks then (Fail(KeyError), q)
    else if status != 200 then (Fail(ConnectionError), q)
    else (Pass, q)
  }

  /** `_fetch_nonce` cancelled in the middle of its request: the CancelledError is swallowed
      and the task removes itself. */
  function AfterCancel(p: Pool, task: nat): (r: (Outcome, Pool))
    ensures r.1.tasks == p.tasks - {task} && r.1.queue == p.queue
    ensures r.0 == (if task in p.tasks then Pass else Fail(KeyError))
  {
    (if task in p.tasks then Pass else Fail(KeyError), p.(tasks := p.tasks - {task}))
  }

  /** `k` calls of `_request_nonce` in a row. */
  function Scheduled(p: Pool, k: nat): (q: Pool)
    ensures q.queue == p.queue && q.initialized == p.initialized && q.waiting == p.waiting
    ensures q.nextTask == p.nextTask + k
    ensures Valid(p) ==> Valid(q) && |q.tasks| == |p.tasks| + k
    ensures forall t :: t in q.tasks <==> t in p.tasks || p.nextTask <= t < q.nextTask
  {
    if k == 0 then p else AfterRequest(Scheduled(p, k - 1))
  }

  /** One turn of `refill_loop`, which runs only inside the `async with` block: with no
      fetch in flight and no nonce queued it schedules `RefillCount` fetches. */
  function AfterRefill(p: Pool): (q: Pool)
    ensures q.queue == p.queue && q.initialized == p.initialized
    ensures p.initialized && p.tasks == {} && p.queue == [] ==> |q.tasks| == RefillCount
    ensures !(p.initialized && p.tasks == {} && p.queue == []) ==> q == p
    ensures Valid(p) ==> Valid(q)
  {
    if p.initialized && p.tasks == {} && p.queue == [] then Scheduled(p, RefillCount) else p
  }

  /** The pool after nonces are put in order. */
  function PutAll(p: Pool, ns: seq<Nonce>): (q: Pool)
    decreases |ns|
  {
    if ns == [] then p else PutAll(AfterPut(p, ns[0]), ns[1..])
  }

  /** The nonces `k` calls of `get_nonce` return at once, in order, and the pool after them. */
  function Drained(p: Pool, k: nat): (r: (seq<Got>, Pool))
    decreases k
  {
    if k == 0 then ([], p)
    else
      var (g, q) := AfterGet(p);
      if g.Err? then ([], q)
      else
        var (gs, q') := Drained(q, k - 1);
        ([g.value] + gs, q')
  }

  /** Putting nonces keeps everything but the queue, which grows at the back. */
  lemma {:induction false} PutAllAppends(p: Pool, ns: seq<Nonce>)
    ensures PutAll(p, ns) == p.(queue := p.queue + ns)
    decreases |ns|
  {
    if ns != [] {
      PutAllAppends(AfterPut(p, ns[0]), ns[1..]);
      assert p.queue + [ns[0]] + ns[1..] == p.queue + ns;
    }
  }

  /** Inside the block, `get_nonce` hands out queued nonces front first, one per call. */
  lemma {:induction false} DrainFrontFirst(p: Pool, k: nat)
    requires p.initialized && k <= |p.queue|
    ensures Drained(p, k).0 == seq(k, i requires 0 <= i < k => Taken(p.queue[i]))
    ensures Drained(p, k).1 == p.(queue := p.queue[k..])
    decreases k
  {
    if k > 0 {
      var q := AfterGet(p).1;
      DrainFrontFirst(q, k - 1);
      assert q.queue[k - 1..] == p.queue[k..];
    }
  }

  /** FIFO order (section 6.5 of RFC 8555 only asks that each nonce be used once): nonces
      put with `put_nonce` come back from `get_nonce` after those already queued, in the
      order they were put, each exactly once. */
  lemma FifoOrder(p: Pool, ns: seq<Nonce>)
    requires p.initialized
    ensures var all := p.queue + ns;
            Drained(PutAll(p, ns), |all|).0 == seq(|all|, i requires 0 <= i < |all| => Taken(all[i]))
    ensures Drained(PutAll(p, ns), |p.queue| + |ns|).1.queue == []
  {
    PutAllAppends(p, ns);
    DrainFrontFirst(PutAll(p, ns), |p.queue| + |ns|);
  }

  /** With the queue empty, `get_nonce` schedules exactly one fetch, and the nonce that fetch
      brings is the one the suspended call receives. */
  lemma EmptyGetWaitsForFetch(p: Pool, n: Nonce)
    requires Valid(p) && p.initialized && p.queue == [] && p.waiting == 0
    ensures var (g, q) := AfterGet(p);
            g.Ok? && g.value.Suspended? && |q.tasks| == |p.tasks| + 1 &&
            var (o, q') := AfterFetch(q, g.value.task, 200, n);
            o == Pass && AfterResume(q').0 == Some(n) && AfterResume(q').1.queue == []
  {
  }

  /** A fetch that fails leaves the queue as it was and its waiter suspended. */
  lemma FailedFetchLeavesWaiter(p: Pool, task: nat, status: int, n: Nonce)
    requires task in p.tasks && status != 200 && p.queue == []
    ensures AfterFetch(p, task, status, n).0 == Fail(ConnectionError)
    ensures AfterResume(AfterFetch(p, task, status, n).1).0 == None
  {
  }

  /** The fetches one refill schedules, each answered with status 200 and its nonce. */
  function Answered(p: Pool, first: nat, ns: seq<Nonce>): (q: Pool)
    decreases |ns|
  {
    if ns == [] then p else Answered(AfterFetch(p, first, 200, ns[0]).1, first + 1, ns[1..])
  }

  lemma {:induction false} AnsweredQueues(p: Pool, first: nat, ns: seq<Nonce>)
    ensures Answered(p, first, ns).queue == p.queue + ns
    ensures Answered(p, first, ns).initialized == p.initialized
    ensures forall t :: t in Answered(p, first, ns).tasks <==>
                        t in p.tasks && !(first <= t < first + |ns|)
    decreases |ns|
  {
    if ns != [] {
      var q := AfterFetch(p, first, 200, ns[0]).1;
      AnsweredQueues(q, first + 1, ns[1..]);
      assert p.queue + [ns[0]] + ns[1..] == p.queue + ns;
    }
  }

  /** A new manager entered, one refill and its ten fetches answered with status 200 queue
      ten nonces; `get_nonce` then returns the first and leaves nine; exiting clears the flag. */
  lemma ContextScenario(p0: Pool, ns: seq<Nonce>)
    requires Valid(p0) && p0.queue == [] && p0.tasks == {} && !p0.initialized
    requires |ns| == RefillCount
    ensures var q := Answered(AfterRefill(AfterEnter(p0)), p0.nextTask, ns);
            |q.queue| == 10 && q.tasks == {} &&
            AfterGet(q).0 == Ok(Taken(ns[0])) && |AfterGet(q).1.queue| == 9 &&
            !AfterExit(AfterGet(q).1).initialized
  {
    var p := AfterRefill(AfterEnter(p0));
    assert p.queue == [] && p.initialized;
    assert forall t :: t in p.tasks ==> p0.nextTask <= t < p0.nextTask + |ns|;
    AnsweredQueues(p, p0.nextTask, ns);
    var q := Answered(p, p0.nextTask, ns);
    assert q.queue == ns && q.initialized;
    assert forall t :: t !in q.tasks;
  }

  /** `NonceManager`: the queue, the in-flight fetch tasks and the flag, updated in place. */
  class NonceManager {
    const url: string
    var queue: seq<Nonce>
    var tasks: set<nat>
    var nextTask: nat
    var initialized: bool
    var waiting: nat

    function Snapshot(): Pool
      reads this
    {
      Pool(queue, tasks, nextTask, initialized, waiting)
    }

    /** `__init__`: an empty queue, no fetch in flight, the flag false. */
    constructor (url: string)
      ensures this.url == url && queue == [] && tasks == {} && !initialized && waiting == 0
      ensures Valid(Snapshot())
    {
      this.url := url;
      queue := [];
      tasks := {};
      nextTask := 0;
      initialized := false;
      waiting := 0;
    }

    method Enter()
      modifies this
      ensures Snapshot() == AfterEnter(old(Snapshot()))
    {
      initialized := true;
    }

    method Exit()
      modifies this
      ensures Snapshot() == AfterExit(old(Snapshot()))
    {
      tasks := {};
      initialized := false;
    }

    method PutNonce(n: Nonce)
      modifies this
      ensures Snapshot() == AfterPut(old(Snapshot()), n)
    {
      queue := queue + [n];
    }

    method RequestNonce() returns (task: nat)
      modifies this
      ensures task == old(nextTask) && Snapshot() == AfterRequest(old(Snapshot()))
    {
      task := nextTask;
      tasks := tasks + {task};
      nextTask := nextTask + 1;
    }

    method GetNonce() returns (r: Result<Got>)
      modifies this
      ensures (r, Snapshot()) == AfterGet(old(Snapshot()))
    {
      if !initialized {
        return Err(AssertionError);
      }
      if queue != [] {
        r := Ok(Taken(queue[0]));
        queue := queue[1..];
      } else {
        var task := RequestNonce();
        waiting := waiting + 1;
        r := Ok(Suspended(task));
      }
    }

    method Resume() returns (r: Option<Nonce>)
      modifies this
      ensures (r, Snapshot()) == AfterResume(old(Snapshot()))
    {
      r := None;
      if waiting > 0 && queue != [] {
        r := Some(queue[0]);
        queue := queue[1..];
        waiting := waiting - 1;
      }
    }

    method FetchDone(task: nat, status: int, header: Nonce) returns (r: Outcome)
      modifies this
      ensures (r, Snapshot()) == AfterFetch(old(Snapshot()), task, status, header)
    {
      if status == 200 {
        queue := queue + [header];
        r := Pass;
      } else {
        r := Fail(ConnectionError);
      }
      if task !in tasks {
        r := Fail(KeyError);
      }
      tasks := tasks - {task};
    }

    method FetchCancelled(task: nat) returns (r: Outcome)
      modifies this
      ensures (r, Snapshot()) == AfterCancel(old(Snapshot()), task)
    {
      r := if task in tasks then Pass else Fail(KeyError);
      tasks := tasks - {task};
    }

    /** One turn of `refill_loop`. */
    method RefillTick()
      modifies this
      ensures Snapshot() == AfterRefill(old(Snapshot()))
    {
      if initialized && tasks == {} && queue == [] {
        var i := 0;
        while i < RefillCount
          invariant i <= RefillCount
          invariant Snapshot() == Scheduled(old(Snapshot()), i)
        {
          var _ := RequestNonce();
          i := i + 1;
        }
      }
    }
  }
}
