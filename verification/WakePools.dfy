/**
 The group echo server's send worker pool (send_worker_pool.cpp): group threads post jobs, each worker sleeps on an
 atomic wake flag, and stop() discards what is left.  One atomic operation is one step.
 */
module WakePools {
  import opened Sequences

  type SessionId = nat
  type Payload = int

  type Job = Tagged<SessionId, Payload>

  /** thread_proc by its next operation. */
  datatype WorkerPc =
    | Check                 // running.load
    | Wait                  // about to enter wake.wait(false)
    | Blocked               // inside it, until a notification or a spurious wake-up has it look again
    | First                 // dequeue, first loop
    | FirstDispatch(job: Job)
    | Clear                 // wake.store(false)
    | Second                // dequeue, second loop
    | SecondDispatch(job: Job)
    | Discard               // dequeue, last loop
    | Exited

  /** posted, dispatched and discarded are the worker's jobs so far, in order. */
  datatype Worker = Worker(queue: seq<Job>, wake: bool, pc: WorkerPc,
                           posted: seq<Job>, dispatched: seq<Job>, discarded: seq<Job>)

  /** A thread inside post. */
  datatype Poster = Idle | Enqueued(w: nat) | MustNotify(w: nat)

  /** The thread inside stop. */
  datatype Stopper = NotCalled | Storing(w: nat) | Notifying(w: nat) | Joining(w: nat)

  datatype Pool = Pool(workers: seq<Worker>, posters: seq<Poster>, running: bool, stopper: Stopper)

  datatype Event = Post(t: nat, job: Job) | PosterStep(t: nat) | StopperStep | WorkerStep(w: nat) | SpuriousWake(w: nat)

  // -------------------------------------------------------------- steps

  function Route(n: nat, id: SessionId): (w: nat)
    requires n > 0
    ensures w < n
  {
    id % n
  }

  function Put(p: Pool, w: nat, x: Worker): Pool
    requires w < |p.workers|
  {
    p.(workers := p.workers[w := x])
  }

  function Notified(x: Worker): Worker {
    if x.pc.Blocked? then x.(pc := Wait) else x
  }

  predicate Enabled(p: Pool, e: Event) {
    match e
    case Post(t, _) => t < |p.posters| && p.posters[t].Idle? && |p.workers| > 0
    case PosterStep(t) => t < |p.posters| && !p.posters[t].Idle? && p.posters[t].w < |p.workers|
    case StopperStep => p.stopper.NotCalled? || StopperReady(p)
    case WorkerStep(w) => w < |p.workers| && !p.workers[w].pc.Blocked? && !p.workers[w].pc.Exited?
    case SpuriousWake(w) => w < |p.workers| && p.workers[w].pc.Blocked?
  }

  /** join returns once its worker has exited. */
  predicate StopperReady(p: Pool)
  {
    match p.stopper
    case NotCalled => false
    case Storing(w) => w <= |p.workers|
    case Notifying(w) => w < |p.workers|
    case Joining(w) => w < |p.workers| && p.workers[w].pc.Exited?
  }

  /** post after its enqueue: exchange, and notify only when the flag was clear. */
  function PosterNext(p: Pool, t: nat): Pool
    requires Enabled(p, PosterStep(t))
  {
    match p.posters[t]
    case Enqueued(w) =>
      Put(p, w, p.workers[w].(wake := true))
        .(posters := p.posters[t := if p.workers[w].wake then Idle else MustNotify(w)])
    case MustNotify(w) => Put(p, w, Notified(p.workers[w])).(posters := p.posters[t := Idle])
  }

  function StopperNext(p: Pool): Pool
    requires Enabled(p, StopperStep)
  {
    match p.stopper
    case NotCalled => p.(running := false, stopper := Storing(0))
    case Storing(w) =>
      if w == |p.workers| then p.(stopper := Joining(0))
      else Put(p, w, p.workers[w].(wake := true)).(stopper := Notifying(w))
    case Notifying(w) => Put(p, w, Notified(p.workers[w])).(stopper := Storing(w + 1))
    case Joining(w) => p.(stopper := Joining(w + 1))
  }

  function WorkerNext(x: Worker, running: bool): Worker
    requires !x.pc.Blocked? && !x.pc.Exited?
  {
    match x.pc
    case Check => x.(pc := if running then Wait else Discard)
    case Wait => x.(pc := if x.wake then First else Blocked)
    case First => if x.queue == [] then x.(pc := Clear) else x.(queue := x.queue[1..], pc := FirstDispatch(x.queue[0]))
    case FirstDispatch(job) => x.(dispatched := x.dispatched + [job], pc := First)
    case Clear => x.(wake := false, pc := Second)
    case Second =>
      if x.queue == [] then x.(pc := Check) else x.(queue := x.queue[1..], pc := SecondDispatch(x.queue[0]))
    case SecondDispatch(job) => x.(dispatched := x.dispatched + [job], pc := Second)
    case Discard =>
      if x.queue == [] then x.(pc := Exited)
      else x.(queue := x.queue[1..], discarded := x.discarded + [x.queue[0]])
  }

  function Step(p: Pool, e: Event): Pool
    requires Enabled(p, e)
  {
    match e
    case Post(t, job) =>
      var w := Route(|p.workers|, job.key);
      var x := p.workers[w];
      Put(p, w, x.(queue := x.queue + [job], posted := x.posted + [job])).(posters := p.posters[t := Enqueued(w)])
    case PosterStep(t) => PosterNext(p, t)
    case StopperStep => StopperNext(p)
    case WorkerStep(w) => Put(p, w, WorkerNext(p.workers[w], p.running))
    case SpuriousWake(w) => Put(p, w, p.workers[w].(pc := Wait))
  }

  function Started(workers: nat, posters: nat): Pool {
    Pool(seq(workers, _ => Worker([], false, Check, [], [], [])), seq(posters, _ => Idle), true, NotCalled)
  }

  /** Every interleaving: a run is any list of events, of which those that cannot happen have no effect. */
  function Exec(workers: nat, posters: nat, run: seq<Event>): Pool {
    if run == [] then Started(workers, posters)
    else
      var p := Exec(workers, posters, run[..|run| - 1]);
      if Enabled(p, run[|run| - 1]) then Step(p, run[|run| - 1]) else p
  }

  // -------------------------------------------------------------- the invariant

  ghost predicate SomePoster(p: Pool, poster: Poster) {
    exists t :: 0 <= t < |p.posters| && p.posters[t] == poster
  }

  predicate AboutToWait(pc: WorkerPc) {
    pc.Check? || pc.Wait? || pc.Blocked?
  }

  /** Stop has stored true into the flag of worker w. */
  predicate StopStored(stopper: Stopper, w: nat) {
    match stopper
    case NotCalled => false
    case Storing(v) => w < v
    case Notifying(v) => w <= v
    case Joining(_) => true
  }

  predicate StopNotified(stopper: Stopper, w: nat) {
    match stopper
    case NotCalled => false
    case Storing(v) => w < v
    case Notifying(v) => w < v
    case Joining(_) => true
  }

  /** Who is about to sleep, or sleeps, beside work has a wake-up coming. */
  ghost predicate Wakeful(p: Pool, w: nat)
    requires w < |p.workers|
  {
    var x := p.workers[w];
    && (AboutToWait(x.pc) && x.queue != [] && !x.wake ==> SomePoster(p, Enqueued(w)))
    && (x.pc.Blocked? && x.wake ==> SomePoster(p, MustNotify(w)) || p.stopper == Notifying(w))
  }

  /** After stop has set the flag the worker cannot fall asleep again. */
  predicate StopSeen(p: Pool, w: nat)
    requires w < |p.workers|
  {
    var x := p.workers[w];
    && (StopStored(p.stopper, w) && (x.pc.Wait? || x.pc.Blocked?) ==> x.wake)
    && (StopNotified(p.stopper, w) ==> !x.pc.Blocked?)
    && (x.pc.Discard? || x.pc.Exited? ==> !p.running)
  }

  function InHand(x: Worker): seq<Job> {
    match x.pc
    case FirstDispatch(job) => [job]
    case SecondDispatch(job) => [job]
    case _ => []
  }

  /** Every job posted to the worker is dispatched, in hand, discarded or queued, in this order. */
  predicate InOrder(x: Worker) {
    && x.posted == x.dispatched + InHand(x) + x.discarded + x.queue
    && (x.discarded != [] ==> x.pc.Discard? || x.pc.Exited?)
  }

  predicate Routed(n: nat, x: Worker, w: nat)
    requires n > 0
  {
    forall job :: job in x.posted ==> Route(n, job.key) == w
  }

  ghost predicate WorkerOk(p: Pool, w: nat)
    requires w < |p.workers|
  {
    Wakeful(p, w) && StopSeen(p, w) && InOrder(p.workers[w]) && Routed(|p.workers|, p.workers[w], w)
  }

  ghost predicate Inv(p: Pool) {
    && (forall w :: 0 <= w < |p.workers| ==> WorkerOk(p, w))
    && (p.running <==> p.stopper.NotCalled?)
    && (p.stopper.Joining? ==> forall v :: 0 <= v < p.stopper.w && v < |p.workers| ==> p.workers[v].pc.Exited?)
  }

  // -------------------------------------------------------------- steps keep it

  lemma PostKeeps(p: Pool, t: nat, job: Job)
    requires Inv(p) && Enabled(p, Post(t, job))
    ensures Inv(Step(p, Post(t, job)))
  {
    var q := Step(p, Post(t, job));
    assert q.posters[t] == Enqueued(Route(|p.workers|, job.key));
    forall w | 0 <= w < |q.workers| ensures WorkerOk(q, w) {
      assert WorkerOk(p, w);
      OthersStay(p, q, t, w);
    }
  }

  /** What other posters are about to do is not lost. */
  lemma OthersStay(p: Pool, q: Pool, t: nat, w: nat)
    requires |q.posters| == |p.posters| && t < |p.posters|
    requires forall u :: 0 <= u < |p.posters| && u != t ==> q.posters[u] == p.posters[u]
    ensures SomePoster(p, Enqueued(w)) && p.posters[t] != Enqueued(w) ==> SomePoster(q, Enqueued(w))
    ensures SomePoster(p, MustNotify(w)) && p.posters[t] != MustNotify(w) ==> SomePoster(q, MustNotify(w))
  {
    if u :| 0 <= u < |p.posters| && p.posters[u] == Enqueued(w) && u != t {
      assert q.posters[u] == Enqueued(w);
    }
    if u :| 0 <= u < |p.posters| && p.posters[u] == MustNotify(w) && u != t {
      assert q.posters[u] == MustNotify(w);
    }
  }

  lemma PosterKeeps(p: Pool, t: nat)
    requires Inv(p) && Enabled(p, PosterStep(t))
    ensures Inv(Step(p, PosterStep(t)))
  {
    var q := Step(p, PosterStep(t));
    forall w | 0 <= w < |q.workers| ensures WorkerOk(q, w) {
      assert WorkerOk(p, w);
      OthersStay(p, q, t, w);
      if p.posters[t] == Enqueued(w) && !p.workers[w].wake {
        assert q.posters[t] == MustNotify(w);
      }
    }
  }

  lemma StopperKeeps(p: Pool)
    requires Inv(p) && Enabled(p, StopperStep)
    ensures Inv(Step(p, StopperStep))
  {
    var q := Step(p, StopperStep);
    forall w | 0 <= w < |q.workers| ensures WorkerOk(q, w) {
      assert WorkerOk(p, w);
      assert SomePoster(q, Enqueued(w)) == SomePoster(p, Enqueued(w));
      assert SomePoster(q, MustNotify(w)) == SomePoster(p, MustNotify(w));
    }
  }

  lemma WorkerKeeps(p: Pool, w: nat)
    requires Inv(p) && Enabled(p, WorkerStep(w))
    ensures Inv(Step(p, WorkerStep(w)))
  {
    var q := Step(p, WorkerStep(w));
    assert WorkerOk(p, w);
    WorkerKeepsOrder(p.workers[w], p.running);
    forall v | 0 <= v < |q.workers| ensures WorkerOk(q, v) {
      assert WorkerOk(p, v);
      assert SomePoster(q, Enqueued(v)) == SomePoster(p, Enqueued(v));
      assert SomePoster(q, MustNotify(v)) == SomePoster(p, MustNotify(v));
    }
  }

  lemma WorkerKeepsOrder(x: Worker, running: bool)
    requires InOrder(x) && !x.pc.Blocked? && !x.pc.Exited?
    ensures InOrder(WorkerNext(x, running))
  {
  }

  lemma StepKeeps(p: Pool, e: Event)
    requires Inv(p) && Enabled(p, e)
    ensures Inv(Step(p, e))
  {
    match e {
      case Post(t, job) => PostKeeps(p, t, job);
      case PosterStep(t) => PosterKeeps(p, t);
      case StopperStep => StopperKeeps(p);
      case WorkerStep(w) => WorkerKeeps(p, w);
      case SpuriousWake(w) =>
        forall v | 0 <= v < |p.workers| ensures WorkerOk(Step(p, e), v) {
          assert WorkerOk(p, v);
          assert SomePoster(Step(p, e), Enqueued(v)) == SomePoster(p, Enqueued(v));
          assert SomePoster(Step(p, e), MustNotify(v)) == SomePoster(p, MustNotify(v));
        }
    }
  }

  lemma StartedOk(workers: nat, posters: nat)
    ensures Inv(Started(workers, posters))
  {
    forall w | 0 <= w < workers ensures WorkerOk(Started(workers, posters), w) {
    }
  }

  lemma StepKeepsWorkers(p: Pool, e: Event)
    requires Enabled(p, e)
    ensures |Step(p, e).workers| == |p.workers|
  {
  }

  lemma {:induction false} Reachable(workers: nat, posters: nat, run: seq<Event>)
    ensures Inv(Exec(workers, posters, run)) && |Exec(workers, posters, run).workers| == workers
  {
    if run == [] {
      StartedOk(workers, posters);
    } else {
      var p, e := Exec(workers, posters, run[..|run| - 1]), run[|run| - 1];
      Reachable(workers, posters, run[..|run| - 1]);
      if Enabled(p, e) {
        StepKeeps(p, e);
        StepKeepsWorkers(p, e);
      }
    }
  }

  // -------------------------------------------------------------- theorems

  /** A worker is never blocked beside work unless a post to it is between its enqueue and its notification, or
      stop is just about to notify it. */
  lemma NoSleepBesideWork(workers: nat, posters: nat, run: seq<Event>, w: nat)
    requires w < workers
    ensures var p := Exec(workers, posters, run);
      |p.workers| == workers && (p.workers[w].pc.Blocked? && p.workers[w].queue != [] ==>
        SomePoster(p, Enqueued(w)) || SomePoster(p, MustNotify(w)) || p.stopper == Notifying(w))
  {
    Reachable(workers, posters, run);
    assert WorkerOk(Exec(workers, posters, run), w);
  }

  lemma {:induction false} ForNobody(s: seq<Job>, id: SessionId)
    requires forall job :: job in s ==> job.key != id
    ensures For(s, id) == []
  {
    if s != [] {
      assert forall job :: job in s[..|s| - 1] ==> job in s;
      ForNobody(s[..|s| - 1], id);
    }
  }

  /** A session's jobs all go to one worker, which dispatches them in the order they were posted; those it never
      dispatches are the latest. */
  lemma DispatchedInPostOrder(workers: nat, posters: nat, run: seq<Event>, w: nat, id: SessionId)
    requires w < workers
    ensures var p := Exec(workers, posters, run);
      && |p.workers| == workers
      && For(p.workers[w].dispatched, id) <= For(p.workers[w].posted, id)
      && (w != Route(workers, id) ==> For(p.workers[w].posted, id) == [])
  {
    Reachable(workers, posters, run);
    var p := Exec(workers, posters, run);
    assert WorkerOk(p, w);
    OrderedDispatch(p.workers[w], id);
    if w != Route(workers, id) {
      ForNobody(p.workers[w].posted, id);
    }
  }

  lemma OrderedDispatch(x: Worker, id: SessionId)
    requires InOrder(x)
    ensures For(x.dispatched, id) <= For(x.posted, id)
  {
    var rest := InHand(x) + x.discarded + x.queue;
    assert x.posted == x.dispatched + rest;
    ForJoined(x.dispatched, rest, id);
  }

  /** When stop returns, each job posted was dispatched or discarded, or came too late and is still queued. */
  lemma NothingVanishes(workers: nat, posters: nat, run: seq<Event>, w: nat)
    requires w < workers && Exec(workers, posters, run).stopper == Joining(workers)
    ensures var p := Exec(workers, posters, run);
      |p.workers| == workers && p.workers[w].pc.Exited? && (var x := p.workers[w];
        x.posted == x.dispatched + x.discarded + x.queue)
  {
    Reachable(workers, posters, run);
    assert WorkerOk(Exec(workers, posters, run), w);
  }

  /** What a worker still has to do once stop has notified it. */
  function Work(x: Worker): nat {
    match x.pc
    case Wait => 2 * |x.queue| + 6
    case First => 2 * |x.queue| + 5
    case FirstDispatch(_) => 2 * |x.queue| + 6
    case Clear => 2 * |x.queue| + 4
    case Second => 2 * |x.queue| + 3
    case SecondDispatch(_) => 2 * |x.queue| + 4
    case Check => 2 * |x.queue| + 2
    case Discard => 2 * |x.queue| + 1
    case Blocked => 0
    case Exited => 0
  }

  /** After stop has notified it a worker is never blocked again, and each of its steps leaves it less to do: unless
      posts keep coming for ever it exits, and stop returns. */
  lemma StopWakesAll(workers: nat, posters: nat, run: seq<Event>, w: nat)
    requires w < workers
    ensures var p := Exec(workers, posters, run);
      |p.workers| == workers && (StopNotified(p.stopper, w) && !p.workers[w].pc.Exited? ==>
        && Enabled(p, WorkerStep(w))
        && Work(Step(p, WorkerStep(w)).workers[w]) < Work(p.workers[w]))
  {
    Reachable(workers, posters, run);
    var p := Exec(workers, posters, run);
    assert WorkerOk(p, w);
  }
}
