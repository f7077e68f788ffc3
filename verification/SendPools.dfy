/**
 The multi-threaded chat server's send pool: the content thread hands every packet to the queue of one send worker
 instead of calling send_packet itself (multi_thread/chat_server.cpp).  One atomic operation is one step; the thread
 that runs stop() takes the content thread's place as the only poster once it has joined it.
 */
module SendPools {
  import opened ChatWorlds
  import opened Sequences

  datatype Task = Packet(send: Send) | Stop

  datatype WorkerPc =
    | Wait             // about to enter wake.wait(false)
    | Blocked          // inside it, until a notification or a spurious wake-up has it look again
    | Clear            // about to store false
    | Drain            // about to dequeue
    | Hand(send: Send) // about to call send_packet
    | Exited

  datatype Worker = Worker(queue: seq<Task>, wake: bool, pc: WorkerPc)

  datatype Poster =
    | Handling             // the content thread between two enqueue_send calls
    | Enqueued(w: nat)     // in enqueue_send, before the store to wake
    | Woken(w: nat)        // ... before the notification
    | Stopping(w: nat)     // in stop_send_pool, about to enqueue the sentinel of worker w
    | StopEnqueued(w: nat)
    | StopWoken(w: nat)
    | Joining(w: nat)      // worker w is the next to be joined

  /** issued: the enqueue_send calls so far; sent: the send_packet calls so far. */
  datatype Pool = Pool(workers: seq<Worker>, poster: Poster, issued: seq<Send>, sent: seq<Send>)

  /** Worker n runs its next operation; the poster runs its next one, where Issue picks the packet to post. */
  datatype Event = Issue(send: Send) | PosterStep | ContentJoined | WorkerStep(w: nat) | SpuriousWake(w: nat)

  // -------------------------------------------------------------- steps

  /** The worker that serves a session. */
  function Route(hash: SessionId -> nat, n: nat, id: SessionId): (w: nat)
    requires n > 0
    ensures w < n
  {
    hash(id) % n
  }

  function Post(w: Worker, task: Task): Worker {
    w.(queue := w.queue + [task])
  }

  function Notified(w: Worker): Worker {
    if w.pc.Blocked? then w.(pc := Wait) else w
  }

  function Put(p: Pool, w: nat, x: Worker): Pool
    requires w < |p.workers|
  {
    p.(workers := p.workers[w := x])
  }

  predicate Enabled(p: Pool, e: Event) {
    match e
    case Issue(_) => p.poster.Handling? && |p.workers| > 0
    case ContentJoined => p.poster.Handling?
    case PosterStep =>
      (match p.poster
       case Handling => false
       case Joining(w) => w < |p.workers| && p.workers[w].pc.Exited?
       case Stopping(w) => w <= |p.workers|
       case Enqueued(w) => w < |p.workers|
       case Woken(w) => w < |p.workers|
       case StopEnqueued(w) => w < |p.workers|
       case StopWoken(w) => w < |p.workers|)
    case WorkerStep(w) => w < |p.workers| && !p.workers[w].pc.Blocked? && !p.workers[w].pc.Exited?
    case SpuriousWake(w) => w < |p.workers| && p.workers[w].pc.Blocked?
  }

  function PosterNext(p: Pool): Pool
    requires Enabled(p, PosterStep)
  {
    match p.poster
    case Enqueued(w) => Put(p, w, p.workers[w].(wake := true)).(poster := Woken(w))
    case Woken(w) => Put(p, w, Notified(p.workers[w])).(poster := Handling)
    case Stopping(w) =>
      if w == |p.workers| then p.(poster := Joining(0))
      else Put(p, w, Post(p.workers[w], Stop)).(poster := StopEnqueued(w))
    case StopEnqueued(w) => Put(p, w, p.workers[w].(wake := true)).(poster := StopWoken(w))
    case StopWoken(w) => Put(p, w, Notified(p.workers[w])).(poster := Stopping(w + 1))
    case Joining(w) => p.(poster := Joining(w + 1))
  }

  function WorkerNext(x: Worker): Worker
    requires !x.pc.Blocked? && !x.pc.Exited?
  {
    match x.pc
    case Wait => x.(pc := if x.wake then Clear else Blocked)
    case Clear => x.(wake := false, pc := Drain)
    case Drain =>
      if x.queue == [] then x.(pc := Wait)
      else if x.queue[0].Stop? then x.(queue := x.queue[1..], pc := Exited)
      else x.(queue := x.queue[1..], pc := Hand(x.queue[0].send))
    case Hand(_) => x.(pc := Drain)
  }

  function Step(hash: SessionId -> nat, p: Pool, e: Event): Pool
    requires Enabled(p, e)
  {
    match e
    case Issue(s) =>
      var w := Route(hash, |p.workers|, s.key);
      Put(p, w, Post(p.workers[w], Packet(s))).(poster := Enqueued(w), issued := p.issued + [s])
    case ContentJoined => p.(poster := Stopping(0))
    case PosterStep => PosterNext(p)
    case WorkerStep(w) =>
      var x := p.workers[w];
      Put(p, w, WorkerNext(x)).(sent := if x.pc.Hand? then p.sent + [x.pc.send] else p.sent)
    case SpuriousWake(w) => Put(p, w, p.workers[w].(pc := Wait))
  }

  function Started(n: nat): Pool {
    Pool(seq(n, _ => Worker([], false, Wait)), Handling, [], [])
  }

  /** Every interleaving: a run is any list of events, of which those that cannot happen have no effect. */
  function Exec(hash: SessionId -> nat, n: nat, run: seq<Event>): Pool {
    if run == [] then Started(n)
    else
      var p := Exec(hash, n, run[..|run| - 1]);
      if Enabled(p, run[|run| - 1]) then Step(hash, p, run[|run| - 1]) else p
  }

  // -------------------------------------------------------------- what the packets are

  function Packets(queue: seq<Task>): seq<Send> {
    if queue == [] then []
    else (if queue[0].Packet? then [queue[0].send] else []) + Packets(queue[1..])
  }

  lemma {:induction false} PacketsPosted(queue: seq<Task>, task: Task)
    ensures Packets(queue + [task]) == Packets(queue) + (if task.Packet? then [task.send] else [])
  {
    if queue == [] {
      assert queue + [task] == [task];
    } else {
      PacketsPosted(queue[1..], task);
      assert (queue + [task])[1..] == queue[1..] + [task];
    }
  }

  /** Issued to a worker and not yet handed on: the one it holds, then its queue. */
  function Pending(x: Worker): seq<Send> {
    (if x.pc.Hand? then [x.pc.send] else []) + Packets(x.queue)
  }

  lemma WorkerHandsInOrder(x: Worker)
    requires !x.pc.Blocked? && !x.pc.Exited?
    ensures x.pc.Hand? ==> Pending(x) == [x.pc.send] + Pending(WorkerNext(x))
    ensures !x.pc.Hand? ==> Pending(x) == Pending(WorkerNext(x))
  {
    if x.pc.Hand? {
      assert Pending(WorkerNext(x)) == Packets(x.queue);
    }
  }

  // -------------------------------------------------------------- the invariant

  /** Between enqueue and the end of the notification for worker w. */
  predicate MidPost(poster: Poster, w: nat) {
    match poster
    case Enqueued(v) => v == w
    case Woken(v) => v == w
    case StopEnqueued(v) => v == w
    case StopWoken(v) => v == w
    case _ => false
  }

  /** No wake-up is lost: who is about to wait, or waits, beside work has one coming. */
  predicate Wakeful(x: Worker, poster: Poster, w: nat) {
    && (x.pc.Wait? || x.pc.Blocked? ==> x.queue == [] || x.wake || poster == Enqueued(w) || poster == StopEnqueued(w))
    && (x.pc.Blocked? && x.wake ==> poster == Woken(w) || poster == StopWoken(w))
  }

  /** Worker w has been given its sentinel. */
  predicate ToldToStop(poster: Poster, w: nat) {
    match poster
    case Stopping(v) => w < v
    case StopEnqueued(v) => w <= v
    case StopWoken(v) => w <= v
    case Joining(_) => true
    case _ => false
  }

  /** The sentinel is the last task there will be, and ends the worker. */
  predicate Ended(x: Worker, told: bool) {
    if x.pc.Exited? then told && x.queue == []
    else if told then x.queue != [] && x.queue[|x.queue| - 1].Stop? && Plain(x.queue[..|x.queue| - 1])
    else Plain(x.queue)
  }

  predicate Plain(queue: seq<Task>) {
    forall k :: 0 <= k < |queue| ==> queue[k].Packet?
  }

  predicate Routed(hash: SessionId -> nat, n: nat, x: Worker, w: nat)
    requires n > 0
  {
    forall s :: s in Pending(x) ==> Route(hash, n, s.key) == w
  }

  /** Everything issued for a session is sent or on its way with its worker, in order. */
  ghost predicate Conserved(hash: SessionId -> nat, p: Pool)
    requires |p.workers| > 0
  {
    forall id :: For(p.sent, id) + For(Pending(p.workers[Route(hash, |p.workers|, id)]), id) == For(p.issued, id)
  }

  ghost predicate WorkersOk(hash: SessionId -> nat, p: Pool)
    requires |p.workers| > 0
  {
    forall w :: 0 <= w < |p.workers| ==>
      && Routed(hash, |p.workers|, p.workers[w], w)
      && Wakeful(p.workers[w], p.poster, w)
      && Ended(p.workers[w], ToldToStop(p.poster, w))
  }

  /** The workers before the one to be joined have exited. */
  predicate Joined(p: Pool) {
    p.poster.Joining? ==>
      p.poster.w <= |p.workers| && forall w :: 0 <= w < p.poster.w ==> p.workers[w].pc.Exited?
  }

  ghost predicate Inv(hash: SessionId -> nat, n: nat, p: Pool) {
    n > 0 && |p.workers| == n && WorkersOk(hash, p) && Conserved(hash, p) && Joined(p)
  }

  // -------------------------------------------------------------- steps keep it

  /** Issuing puts the packet behind what is pending with the session's own worker. */
  lemma IssuedBehind(sent: seq<Send>, pending: seq<Send>, issued: seq<Send>, s: Send, id: SessionId)
    requires For(sent, id) + For(pending, id) == For(issued, id)
    ensures s.key == id ==> For(sent, id) + For(pending + [s], id) == For(issued + [s], id)
    ensures s.key != id ==> For(issued + [s], id) == For(issued, id)
  {
    ForOneMore(issued, s, id);
    ForOneMore(pending, s, id);
    Reassociate(For(sent, id), For(pending, id), [s.value]);
    if s.key != id {
      assert For(issued, id) + [] == For(issued, id);
    }
  }

  lemma IssueConserves(hash: SessionId -> nat, n: nat, p: Pool, s: Send)
    requires Inv(hash, n, p) && Enabled(p, Issue(s))
    ensures Conserved(hash, Step(hash, p, Issue(s)))
  {
    var q := Step(hash, p, Issue(s));
    var w := Route(hash, n, s.key);
    PacketsPosted(p.workers[w].queue, Packet(s));
    assert Pending(q.workers[w]) == Pending(p.workers[w]) + [s];
    forall id ensures For(q.sent, id) + For(Pending(q.workers[Route(hash, n, id)]), id) == For(q.issued, id) {
      IssueConservesFor(hash, n, p, s, id);
    }
  }

  lemma IssueConservesFor(hash: SessionId -> nat, n: nat, p: Pool, s: Send, id: SessionId)
    requires Inv(hash, n, p) && Enabled(p, Issue(s))
    requires var w := Route(hash, n, s.key);
      Pending(Step(hash, p, Issue(s)).workers[w]) == Pending(p.workers[w]) + [s]
    ensures var q := Step(hash, p, Issue(s));
      For(q.sent, id) + For(Pending(q.workers[Route(hash, n, id)]), id) == For(q.issued, id)
  {
    var v := Route(hash, n, id);
    assert For(p.sent, id) + For(Pending(p.workers[v]), id) == For(p.issued, id);
    IssuedBehind(p.sent, Pending(p.workers[v]), p.issued, s, id);
  }

  /** Handing on moves the head of what is pending behind what is sent. */
  lemma HandedOn(sent: seq<Send>, x: Send, rest: seq<Send>, id: SessionId)
    ensures For(sent + [x], id) + For(rest, id) == For(sent, id) + For([x] + rest, id)
  {
    ForJoined(sent, [x], id);
    ForJoined([x], rest, id);
  }

  lemma WorkerConserves(hash: SessionId -> nat, n: nat, p: Pool, w: nat)
    requires Inv(hash, n, p) && Enabled(p, WorkerStep(w))
    ensures Conserved(hash, Step(hash, p, WorkerStep(w)))
  {
    var q := Step(hash, p, WorkerStep(w));
    forall id ensures For(q.sent, id) + For(Pending(q.workers[Route(hash, n, id)]), id) == For(q.issued, id) {
      WorkerConservesFor(hash, n, p, w, id);
    }
  }

  lemma WorkerConservesFor(hash: SessionId -> nat, n: nat, p: Pool, w: nat, id: SessionId)
    requires Inv(hash, n, p) && Enabled(p, WorkerStep(w))
    ensures var q := Step(hash, p, WorkerStep(w));
      For(q.sent, id) + For(Pending(q.workers[Route(hash, n, id)]), id) == For(q.issued, id)
  {
    assert For(p.sent, id) + For(Pending(p.workers[Route(hash, n, id)]), id) == For(p.issued, id);
    WorkerConservesOne(p, w, Route(hash, n, id), id);
    assert Route(hash, n, id) != w && p.workers[w].pc.Hand? ==> p.workers[w].pc.send in Pending(p.workers[w]);
  }

  lemma WorkerConservesOne(p: Pool, w: nat, v: nat, id: SessionId)
    requires Enabled(p, WorkerStep(w)) && v < |p.workers|
    ensures var x := p.workers[w];
      var sent := if x.pc.Hand? then p.sent + [x.pc.send] else p.sent;
      (v != w && x.pc.Hand? ==> x.pc.send.key != id) ==>
        For(sent, id) + For(Pending(if v == w then WorkerNext(x) else p.workers[v]), id)
          == For(p.sent, id) + For(Pending(p.workers[v]), id)
  {
    var x := p.workers[w];
    WorkerHandsInOrder(x);
    if x.pc.Hand? {
      if v == w {
        HandedOn(p.sent, x.pc.send, Pending(WorkerNext(x)), id);
      } else if x.pc.send.key != id {
        ForJoined(p.sent, [x.pc.send], id);
        assert For([x.pc.send], id) == [];
      }
    }
  }

  lemma PosterConserves(hash: SessionId -> nat, n: nat, p: Pool)
    requires Inv(hash, n, p) && Enabled(p, PosterStep)
    ensures Conserved(hash, Step(hash, p, PosterStep))
  {
    var q := Step(hash, p, PosterStep);
    if p.poster.Stopping? && p.poster.w < n {
      PacketsPosted(p.workers[p.poster.w].queue, Stop);
    }
    assert forall w :: 0 <= w < n ==> Pending(q.workers[w]) == Pending(p.workers[w]);
    forall id ensures For(q.sent, id) + For(Pending(q.workers[Route(hash, n, id)]), id) == For(q.issued, id) {
      assert For(p.sent, id) + For(Pending(p.workers[Route(hash, n, id)]), id) == For(p.issued, id);
    }
  }

  lemma PosterKeepsWorkers(hash: SessionId -> nat, n: nat, p: Pool)
    requires Inv(hash, n, p) && Enabled(p, PosterStep)
    ensures WorkersOk(hash, Step(hash, p, PosterStep))
  {
    var q := Step(hash, p, PosterStep);
    forall w | 0 <= w < n
      ensures Routed(hash, n, q.workers[w], w) && Wakeful(q.workers[w], q.poster, w)
      ensures Ended(q.workers[w], ToldToStop(q.poster, w))
    {
      if p.poster.Stopping? && p.poster.w == w {
        PacketsPosted(p.workers[w].queue, Stop);
      }
      assert Pending(q.workers[w]) == Pending(p.workers[w]);
    }
  }

  lemma IssueKeepsWorkers(hash: SessionId -> nat, n: nat, p: Pool, s: Send)
    requires Inv(hash, n, p) && Enabled(p, Issue(s))
    ensures WorkersOk(hash, Step(hash, p, Issue(s)))
  {
    var q := Step(hash, p, Issue(s));
    forall w | 0 <= w < n
      ensures Routed(hash, n, q.workers[w], w) && Wakeful(q.workers[w], q.poster, w)
      ensures Ended(q.workers[w], ToldToStop(q.poster, w))
    {
      if w == Route(hash, n, s.key) {
        PacketsPosted(p.workers[w].queue, Packet(s));
        assert Pending(q.workers[w]) == Pending(p.workers[w]) + [s];
      }
    }
  }

  lemma PendingStaysRouted(hash: SessionId -> nat, n: nat, x: Worker, w: nat)
    requires n > 0 && Routed(hash, n, x, w) && !x.pc.Blocked? && !x.pc.Exited?
    ensures Routed(hash, n, WorkerNext(x), w)
  {
    var y := WorkerNext(x);
    WorkerHandsInOrder(x);
  }

  lemma WorkerStaysEnded(x: Worker, told: bool)
    requires Ended(x, told) && !x.pc.Blocked? && !x.pc.Exited?
    ensures Ended(WorkerNext(x), told)
  {
    if x.pc.Drain? && told && x.queue[0].Packet? {
      assert x.queue[1..][..|x.queue| - 2] == x.queue[..|x.queue| - 1][1..];
    }
  }

  lemma WorkerKeepsWorkers(hash: SessionId -> nat, n: nat, p: Pool, w: nat)
    requires Inv(hash, n, p) && Enabled(p, WorkerStep(w))
    ensures WorkersOk(hash, Step(hash, p, WorkerStep(w)))
  {
    PendingStaysRouted(hash, n, p.workers[w], w);
    WorkerStaysEnded(p.workers[w], ToldToStop(p.poster, w));
    assert Wakeful(p.workers[w], p.poster, w);
    assert Wakeful(WorkerNext(p.workers[w]), p.poster, w);
  }

  lemma StepKeepsInv(hash: SessionId -> nat, n: nat, p: Pool, e: Event)
    requires Inv(hash, n, p) && Enabled(p, e)
    ensures Inv(hash, n, Step(hash, p, e))
  {
    match e {
      case Issue(s) =>
        IssueConserves(hash, n, p, s);
        IssueKeepsWorkers(hash, n, p, s);
      case PosterStep =>
        PosterConserves(hash, n, p);
        PosterKeepsWorkers(hash, n, p);
      case WorkerStep(w) =>
        WorkerConserves(hash, n, p, w);
        WorkerKeepsWorkers(hash, n, p, w);
      case ContentJoined =>
      case SpuriousWake(w) =>
        assert Pending(p.workers[w].(pc := Wait)) == Pending(p.workers[w]);
    }
  }

  lemma {:induction false} Reachable(hash: SessionId -> nat, n: nat, run: seq<Event>)
    requires n > 0
    ensures Inv(hash, n, Exec(hash, n, run))
  {
    if run != [] {
      var p, e := Exec(hash, n, run[..|run| - 1]), run[|run| - 1];
      Reachable(hash, n, run[..|run| - 1]);
      if Enabled(p, e) {
        StepKeepsInv(hash, n, p, e);
      }
    }
  }

  // -------------------------------------------------------------- theorems

  /**
   The pool refines direct sending: at every moment the packets of a session given to send_packet are a prefix of those
   the content thread issued for it, which are the ones a single-threaded server would have sent by then.
   */
  lemma SentIsPrefix(hash: SessionId -> nat, n: nat, run: seq<Event>, id: SessionId)
    requires n > 0
    ensures var p := Exec(hash, n, run); For(p.sent, id) <= For(p.issued, id)
  {
    Reachable(hash, n, run);
    var p := Exec(hash, n, run);
    assert For(p.sent, id) + For(Pending(p.workers[Route(hash, n, id)]), id) == For(p.issued, id);
  }

  /** Once stop_send_pool has joined every worker, all of them have been sent. */
  lemma AllSentOnceStopped(hash: SessionId -> nat, n: nat, run: seq<Event>, id: SessionId)
    requires n > 0 && Exec(hash, n, run).poster == Joining(n)
    ensures var p := Exec(hash, n, run); For(p.sent, id) == For(p.issued, id)
  {
    Reachable(hash, n, run);
    var p := Exec(hash, n, run);
    var w := Route(hash, n, id);
    assert p.workers[w].pc.Exited?;
    assert Ended(p.workers[w], ToldToStop(p.poster, w));
    assert For(p.sent, id) + For(Pending(p.workers[w]), id) == For(p.issued, id);
  }

  /** The steps by which the content thread enqueues these packets one after another. */
  function Feed(sends: seq<Send>): seq<Event> {
    if sends == [] then []
    else Feed(sends[..|sends| - 1]) + [Issue(sends[|sends| - 1])] + [PosterStep] + [PosterStep]
  }

  lemma ExecSnoc(hash: SessionId -> nat, n: nat, run: seq<Event>, e: Event)
    ensures var p := Exec(hash, n, run);
      Exec(hash, n, run + [e]) == if Enabled(p, e) then Step(hash, p, e) else p
  {
    assert (run + [e])[..|run|] == run;
  }

  lemma PostEnds(hash: SessionId -> nat, n: nat, p: Pool, w: nat)
    requires Inv(hash, n, p) && w < n && (p.poster == Enqueued(w) || p.poster == Woken(w))
    ensures Enabled(p, PosterStep)
    ensures var q := Step(hash, p, PosterStep);
      q.issued == p.issued && q.poster == (if p.poster.Enqueued? then Woken(w) else Handling)
  {
  }

  lemma FeedOne(hash: SessionId -> nat, n: nat, run: seq<Event>, s: Send)
    requires n > 0 && Exec(hash, n, run).poster.Handling?
    ensures var p, q := Exec(hash, n, run), Exec(hash, n, run + [Issue(s)] + [PosterStep] + [PosterStep]);
      q.issued == p.issued + [s] && q.poster.Handling?
  {
    var run1, w := run + [Issue(s)], Route(hash, n, s.key);
    Reachable(hash, n, run);
    ExecSnoc(hash, n, run, Issue(s));
    assert Exec(hash, n, run1).poster == Enqueued(w);
    Reachable(hash, n, run1);
    ExecSnoc(hash, n, run1, PosterStep);
    PostEnds(hash, n, Exec(hash, n, run1), w);
    Reachable(hash, n, run1 + [PosterStep]);
    ExecSnoc(hash, n, run1 + [PosterStep], PosterStep);
    PostEnds(hash, n, Exec(hash, n, run1 + [PosterStep]), w);
  }

  /** It never waits for a worker: whatever the handlers send can be enqueued in one go. */
  lemma {:induction false} FeedIssues(hash: SessionId -> nat, n: nat, sends: seq<Send>)
    requires n > 0
    ensures var p := Exec(hash, n, Feed(sends)); p.issued == sends && p.poster.Handling?
  {
    if sends != [] {
      var front, last := sends[..|sends| - 1], sends[|sends| - 1];
      FeedIssues(hash, n, front);
      FeedOne(hash, n, Feed(front), last);
      assert sends == front + [last];
    }
  }

  /** The multi-threaded server refines the single-threaded one: when the enqueue_send calls are the sends of a chat
      world whose handlers have run, each session has got a prefix of what the world sent it, all of it once the pool is
      stopped; and for every world there are such runs. */
  lemma PoolServesWorld(hash: SessionId -> nat, n: nat, world: ChatWorld, id: SessionId)
    requires n > 0
    ensures exists run :: Exec(hash, n, run).issued == world.outbox
    ensures forall run :: Exec(hash, n, run).issued == world.outbox ==>
      var p := Exec(hash, n, run);
      && For(p.sent, id) <= For(world.outbox, id)
      && (p.poster == Joining(n) ==> For(p.sent, id) == For(world.outbox, id))
  {
    FeedIssues(hash, n, world.outbox);
    forall run | Exec(hash, n, run).issued == world.outbox
      ensures var p := Exec(hash, n, run);
        && For(p.sent, id) <= For(world.outbox, id)
        && (p.poster == Joining(n) ==> For(p.sent, id) == For(world.outbox, id))
    {
      SentIsPrefix(hash, n, run, id);
      if Exec(hash, n, run).poster == Joining(n) {
        AllSentOnceStopped(hash, n, run, id);
      }
    }
  }

  /** No worker sleeps beside work unless the post that brought it is still under way. */
  lemma NoSleepBesideWork(hash: SessionId -> nat, n: nat, run: seq<Event>, w: nat)
    requires n > 0
    ensures var p := Exec(hash, n, run);
      w < |p.workers| && p.workers[w].pc.Blocked? && p.workers[w].queue != [] ==> MidPost(p.poster, w)
  {
    Reachable(hash, n, run);
  }

  /** What a worker still has to do once every sentinel is posted. */
  function Work(x: Worker): nat {
    match x.pc
    case Exited => 0
    case Wait => 3 * |x.queue| + 2
    case Blocked => 3 * |x.queue| + 3
    case Clear => 3 * |x.queue| + 1
    case Hand(_) => 3 * |x.queue| + 1
    case Drain => 3 * |x.queue|
  }

  /** The joins end: no worker is blocked any more, and every step of a worker leaves it less to do. */
  lemma StopEnds(hash: SessionId -> nat, n: nat, run: seq<Event>, w: nat)
    requires n > 0
    ensures var p := Exec(hash, n, run);
      p.poster.Joining? && w < |p.workers| && !p.workers[w].pc.Exited? ==>
        && Enabled(p, WorkerStep(w))
        && Work(Step(hash, p, WorkerStep(w)).workers[w]) < Work(p.workers[w])
  {
    Reachable(hash, n, run);
    var p := Exec(hash, n, run);
    if p.poster.Joining? && w < n && !p.workers[w].pc.Exited? {
      assert Wakeful(p.workers[w], p.poster, w) && Ended(p.workers[w], ToldToStop(p.poster, w));
    }
  }
}
