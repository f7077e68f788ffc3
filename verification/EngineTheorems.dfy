/**
 The session engine's guarantees, for every run of any number of threads on any number of slots.
 A run is any sequence of thread and kernel steps from the state after start().
 */
module EngineTheorems {
  import opened Bytes
  import opened Sequences
  import opened EngineModel
  import opened Options
  import opened Tallies
  import opened EngineTallies
  import opened EngineSlots
  import opened EngineSteps
  import opened EngineTotals
  import opened EngineTokens
  import opened EngineInvariant
  import opened EngineQueue
  import opened EngineFlags
  import opened EngineStory
  import opened EngineRuns

  /** References held on slot i by the frames of all threads. */
  function Holders(s: State, i: nat): nat {
    Total(s.threads, At(i, 0)).ref
  }

  function Outstanding(x: Slot): nat {
    (if x.flow.recvIo.Idle? then 0 else 1) + (if x.flow.sendIo.Idle? then 0 else 1)
  }

  /** A frame of some thread. */
  ghost predicate Runs(s: State, f: Frame) {
    exists t, k :: 0 <= t < |s.threads| && 0 <= k < |s.threads[t]| && s.threads[t][k] == f
  }

  // ---------------------------------------------------------------- references and generations

  /** ref_count is exactly the references held by API callers, stale-id acquirers that have not backed out, the
      accept thread, workers and posters, plus one for every outstanding operation. */
  lemma RefsExact(n: nat, others: seq<bool>, run: seq<Label>)
    ensures var s := Exec(Init(n, others), run);
      forall i: nat :: i < |s.slots| ==> s.slots[i].core.refs == Holders(s, i) + Outstanding(s.slots[i])
  {
    var s := Exec(Init(n, others), run);
    Reachable(n, others, run);
    forall i: nat | i < |s.slots| ensures s.slots[i].core.refs == Holders(s, i) + Outstanding(s.slots[i]) {
      assert Accounted(s.slots[i], multiset(s.free)[i], Total(s.threads, At(i, 0)));
    }
  }

  /** An index is on the free stack at most once, and only while nobody holds its slot. */
  lemma FreeMeansUnheld(n: nat, others: seq<bool>, run: seq<Label>)
    ensures var s := Exec(Init(n, others), run);
      forall i: nat :: i < |s.slots| ==>
        && multiset(s.free)[i] <= 1
        && (i in s.free ==> s.slots[i].core.refs == 0 && !s.slots[i].core.open && Clean(s.slots[i]))
  {
    var s := Exec(Init(n, others), run);
    Reachable(n, others, run);
    forall i: nat | i < |s.slots|
      ensures multiset(s.free)[i] <= 1
      ensures i in s.free ==> s.slots[i].core.refs == 0 && !s.slots[i].core.open && Clean(s.slots[i])
    {
      assert Accounted(s.slots[i], multiset(s.free)[i], Total(s.threads, At(i, 0)));
      if i in s.free {
        assert multiset(s.free)[i] > 0;
      }
    }
  }

  lemma GenerationStep(f: Frame, x: Slot, i: nat, c: Choice)
    requires Local(f, x, i, c).x.core.gen != x.core.gen
    ensures f.Rel? && f.lp.LGen? && Local(f, x, i, c).x.core.gen == x.core.gen + 1
    ensures Local(f, x, i, c).x.core.refs == x.core.refs && Local(f, x, i, c).fx.Nothing?
  {
    match f
    case Usr => return;
    case Stop(_, _) => return;
    case Acc(_, _, _) => return;
    case Wk(_, _, _, _) => return;
    case Dis(_, _, _) => return;
    case Snd(_, _, _, _) => return;
    case Grp(_, _, _) => return;
    case Post(_, _, _, _, _) => return;
    case Recv(_, _, _, _, _) => return;
    case Acq(_, _, _, _) => return;
    case Rel(_, _, _, _) => return;
  }

  /** A slot's generation changes by one, at zero references, while its index is off the free stack. */
  lemma GenerationMoves(n: nat, others: seq<bool>, run: seq<Label>, l: Label, i: nat)
    requires i < n
    ensures var s := Exec(Init(n, others), run);
      var s' := Step(s, l);
      && |s.slots| == |s'.slots| == n
      && (s'.slots[i].core.gen != s.slots[i].core.gen ==>
            && s'.slots[i].core.gen == s.slots[i].core.gen + 1
            && s.slots[i].core.refs == s'.slots[i].core.refs == 0
            && i !in s.free && i !in s'.free)
  {
    var s := Exec(Init(n, others), run);
    RunKeepsSlots(n, others, run);
    Reachable(n, others, run);
    StepKeepsSlots(s, l);
    match l
    case Kernel(_, _, _, _) =>
    case Run(t, c) =>
      if t < |s.threads| {
        var target := Target(s, Top(s.threads[t]), c);
        if target.Some? && target.value < |s.slots| {
          if target.value == i {
            SlotGenerationMoves(s, t, i, c);
          } else {
            MovingSteps(s, t, target.value, c);
          }
        } else {
          RestingSteps(s, t, c);
        }
      }
  }

  lemma SlotGenerationMoves(s: State, t: nat, i: nat, c: Choice)
    requires Moving(s, t, i, c)
    ensures var s' := RunStep(s, t, c);
      && |s'.slots| == |s.slots|
      && (s'.slots[i].core.gen != s.slots[i].core.gen ==>
            && s'.slots[i].core.gen == s.slots[i].core.gen + 1
            && s.slots[i].core.refs == s'.slots[i].core.refs == 0
            && i !in s.free && i !in s'.free)
  {
    var f, x, o := Top(s.threads[t]), s.slots[i], Outcome(s, t, i, c);
    MovingSteps(s, t, i, c);
    MovingReady(s, t, i, c, 0);
    if o.x.core.gen != x.core.gen {
      GenerationStep(f, x, i, c);
      assert TearOf(f) == 1;
      assert multiset(s.free)[i] == 0 && multiset(RunStep(s, t, c).free)[i] == 0;
    }
  }

  /** The generation a frame holds its slot for, once it has checked it. */
  function SessionGen(f: Frame): Option<nat> {
    match f
    case Acc(pc, _, g) => if pc.AInJoin? || pc.ARecv? || pc.ARel? then Some(g) else None
    case Wk(pc, _, g, _) => if pc.WIdle? || pc.WGot? || pc.WInRecv? || pc.WInPost? || pc.WInRel? then None else Some(g)
    case Dis(pc, id, _) => if pc.DFlag? || pc.DCancel? || pc.DRel? then Some(id.gen) else None
    case Snd(pc, id, _, _) =>
      if pc.SAcq? || pc.SInAcq? || pc.SInPost? || pc.SInRel? || pc.SEnd? then None else Some(id.gen)
    case Grp(pc, id, _) => if pc.GSet? || pc.GRel? then Some(id.gen) else None
    case Post(_, _, _, cg, _) => Some(cg)
    case Recv(_, _, _, cg, _) => Some(cg)
    case _ => None
  }

  lemma SessionHeld(f: Frame, x: Slot, exited: bool)
    requires FrameOk(f, x, exited) && SessionGen(f).Some?
    ensures x.core.gen == SessionGen(f).value && RefOf(f) > 0 && Where(f).Some?
  {
    match f
    case Acc(_, _, _) => return;
    case Wk(_, _, _, _) => return;
    case Dis(_, _, _) => return;
    case Snd(_, _, _, _) => return;
    case Grp(_, _, _) => return;
    case Post(_, _, _, _, _) => return;
    case Recv(_, _, _, _, _) => return;
    case _ => return;
  }

  /** acquire_session never returns a slot of another generation, and a slot keeps its generation while anybody
      who acquired it, or posts or dispatches for it, still holds it. */
  lemma HoldersKnowTheirSession(n: nat, others: seq<bool>, run: seq<Label>, t: nat, k: nat)
    ensures var s := Exec(Init(n, others), run);
      t < |s.threads| && k < |s.threads[t]| && SessionGen(s.threads[t][k]).Some? ==>
        var f := s.threads[t][k];
        && Where(f).Some? && Where(f).value < |s.slots|
        && s.slots[Where(f).value].core.gen == SessionGen(f).value
        && s.slots[Where(f).value].core.refs > 0
        && Where(f).value !in s.free
  {
    var s := Exec(Init(n, others), run);
    Reachable(n, others, run);
    if t < |s.threads| && k < |s.threads[t]| && SessionGen(s.threads[t][k]).Some? {
      var f := s.threads[t][k];
      assert FrameFits(s, f);
      SessionHeld(f, SlotOf(s, f), s.exited);
      var i := Where(f).value;
      HeldSlot(s, t, k, i);
    }
  }

  lemma HeldSlot(s: State, t: nat, k: nat, i: nat)
    requires Inv(s) && t < |s.threads| && k < |s.threads[t]| && i < |s.slots|
    requires Where(s.threads[t][k]) == Some(i) && RefOf(s.threads[t][k]) > 0
    ensures s.slots[i].core.refs > 0 && i !in s.free
  {
    InSumAll(Weights(s.threads, At(i, 0)), t, k);
    NearWeight(s.threads[t][k], i, 0);
    assert Accounted(s.slots[i], multiset(s.free)[i], Total(s.threads, At(i, 0)));
    assert multiset(s.free)[i] == 0;
  }

  /** The nested acquire_session in recv_post and send_post never fails: the caller already holds a reference. */
  lemma NestedAcquireNeverFails(n: nat, others: seq<bool>, run: seq<Label>, t: nat, k: nat)
    ensures var s := Exec(Init(n, others), run);
      t < |s.threads| && k < |s.threads[t]| ==>
        && !(s.threads[t][k].Post? && s.threads[t][k].pp.PAcqFail?)
        && !(s.threads[t][k].Recv? && s.threads[t][k].rp.RAcqFail?)
  {
    var s := Exec(Init(n, others), run);
    Reachable(n, others, run);
    if t < |s.threads| && k < |s.threads[t]| {
      assert FrameFits(s, s.threads[t][k]);
      NotFailed(s.threads[t][k], SlotOf(s, s.threads[t][k]), s.exited);
    }
  }

  lemma NotFailed(f: Frame, x: Slot, exited: bool)
    requires FrameOk(f, x, exited)
    ensures !(f.Post? && f.pp.PAcqFail?) && !(f.Recv? && f.rp.RAcqFail?)
  {
    if f.Post? { return; } else if f.Recv? { return; }
  }

  // ---------------------------------------------------------------- callbacks

  /** In every run the history of every slot is lawful (module Lifecycles says what follows for each session),
      and each past generation was joined and torn down exactly once; its on_client_leave has run or is the next
      thing its teardown does. */
  lemma HistoryLawful(n: nat, others: seq<bool>, run: seq<Label>, i: nat, g: nat)
    ensures var s := Exec(Init(n, others), run);
      i < |s.slots| ==>
        var x := s.slots[i];
        && Lifecycle(x.hist)
        && (Tear(g) in x.hist <==> g < x.core.gen)
        && (g < x.core.gen ==> Join(g) in x.hist)
        && (g > x.core.gen ==> Join(g) !in x.hist)
        && (if Leave(g) in x.hist then 1 else 0) + Total(s.threads, At(i, g)).leave == (if g < x.core.gen then 1 else 0)
  {
    var s := Exec(Init(n, others), run);
    ReachableAll(n, others, run);
    if i < |s.slots| {
      assert Tells(s.slots[i], Total(s.threads, At(i, g)), g);
    }
  }

  // ---------------------------------------------------------------- sending and disconnecting

  /** At most one send and one receive are outstanding or about to be; nobody else owns send_flag. */
  lemma SingleFlight(n: nat, others: seq<bool>, run: seq<Label>)
    ensures var s := Exec(Init(n, others), run);
      forall i: nat :: i < |s.slots| ==>
        var x, T := s.slots[i], Total(s.threads, At(i, 0));
        && T.send + Busy(x.flow.sendIo) <= 1
        && T.recv + Busy(x.flow.recvIo) <= 1
        && (x.flow.sendFlag <==> T.send + Busy(x.flow.sendIo) == 1 || x.flow.stuck)
  {
    var s := Exec(Init(n, others), run);
    Reachable(n, others, run);
    forall i: nat | i < |s.slots|
      ensures var x, T := s.slots[i], Total(s.threads, At(i, 0));
        && T.send + Busy(x.flow.sendIo) <= 1 && T.recv + Busy(x.flow.recvIo) <= 1
        && (x.flow.sendFlag <==> T.send + Busy(x.flow.sendIo) == 1 || x.flow.stuck)
    {
      assert Accounted(s.slots[i], multiset(s.free)[i], Total(s.threads, At(i, 0)));
    }
  }

  /** Only the owner of send_flag, or the teardown, touches in_flight_packets. */
  lemma InFlightOwned(n: nat, others: seq<bool>, run: seq<Label>, t: nat, i: nat, c: Choice)
    requires var s := Exec(Init(n, others), run); Moving(s, t, i, c)
    ensures var s := Exec(Init(n, others), run);
      var x, y, f := s.slots[i], Outcome(s, t, i, c).x, Top(s.threads[t]);
      y.queue.inFlight != x.queue.inFlight || y.queue.offset != x.queue.offset ==>
        SendOf(f) == 1 || (TearOf(f) == 1 && x.core.refs == 0)
  {
    var s := Exec(Init(n, others), run);
    var f := Top(s.threads[t]);
    MovingKept(s, t, i, c, 0);
    MovingReady(s, t, i, c, 0);
  }

  lemma SomeFrame(s: State, i: nat, w: Field) returns (f: Frame)
    requires Get(Total(s.threads, At(i, 0)), w) > 0
    ensures Runs(s, f) && Where(f) == Some(i)
    ensures w.RetryP? ==> RetryPOf(f) > 0
    ensures w.CanR? ==> CanROf(f) > 0
    ensures w.CanS? ==> CanSOf(f) > 0
  {
    var u, k := SomeHolder(Weights(s.threads, At(i, 0)), w);
    f := s.threads[u][k];
    assert Runs(s, f);
    assert Get(V(f, At(i, 0)), w) > 0;
    WeightFlags(f, 0);
  }

  /** Still ahead of a WSASend or of finding nothing to send: a worker that got a paid completion, a caller about to
      enter send_post, or a thread inside it that has not failed. */
  predicate WillTrySend(f: Frame) {
    match f
    case Wk(pc, _, _, job) =>
      || pc.WSend? || pc.WPost?
      || ((pc.WGot? || pc.WDisp?) && job.kind.SendKind? && job.ok && job.bytes > 0)
    case Snd(pc, _, _, _) => pc.SPost?
    case Post(pc, _, _, _, _) =>
      || pc.PFlagX? || pc.PId? || pc.PTop? || pc.PDrain? || pc.PClear? || pc.PEmpty? || pc.PRetake?
      || pc.PChk? || pc.PInAcq? || pc.PIo?
    case _ => false
  }

  /** Who owns send_flag without trying again has seen the session flagged, or its send fail. */
  lemma TriesOrFailed(f: Frame, x: Slot, exited: bool)
    requires FrameOk(f, x, exited) && RetryPOf(f) > 0
    ensures WillTrySend(f) || x.flow.discFlag || x.flow.failed
  {
    match f
    case Wk(_, _, _, _) => return;
    case Snd(_, _, _, _) => return;
    case Post(_, _, _, _, _) => return;
    case _ => return;
  }

  /** No packet is stranded: while packets wait, a send is outstanding, some thread will still try to send,
      the session is disconnecting, or its last send failed. */
  lemma NoStrandedPacket(n: nat, others: seq<bool>, run: seq<Label>, i: nat)
    ensures var s := Exec(Init(n, others), run);
      i < |s.slots| && s.slots[i].core.refs > 0 && s.slots[i].queue.pending != [] ==>
        var x := s.slots[i];
        || !x.flow.sendIo.Idle? || x.flow.discFlag || x.flow.failed
        || exists f :: Runs(s, f) && Where(f) == Some(i) && WillTrySend(f)
  {
    var s := Exec(Init(n, others), run);
    ReachableAll(n, others, run);
    if i < |s.slots| && s.slots[i].core.refs > 0 && s.slots[i].queue.pending != [] {
      var x, T := s.slots[i], Total(s.threads, At(i, 0));
      assert Tells(x, T, 0);
      if T.retryP > 0 {
        var f := SomeFrame(s, i, RetryP);
        assert FrameFits(s, f);
        TriesOrFailed(f, x, s.exited);
      }
    }
  }

  /** No operation survives a disconnect: one that is posted on a flagged session and not cancelled has a thread
      that will still cancel it. */
  lemma NoIoSurvivesDisconnect(n: nat, others: seq<bool>, run: seq<Label>, i: nat)
    ensures var s := Exec(Init(n, others), run);
      i < |s.slots| && s.slots[i].flow.discFlag ==>
        var x := s.slots[i];
        && (x.flow.recvIo == Posted(false) ==> exists f :: Runs(s, f) && Where(f) == Some(i) && CanROf(f) > 0)
        && (x.flow.sendIo == Posted(false) ==> exists f :: Runs(s, f) && Where(f) == Some(i) && CanSOf(f) > 0)
  {
    var s := Exec(Init(n, others), run);
    ReachableAll(n, others, run);
    if i < |s.slots| && s.slots[i].flow.discFlag {
      assert Tells(s.slots[i], Total(s.threads, At(i, 0)), 0);
      if s.slots[i].flow.recvIo == Posted(false) {
        var f := SomeFrame(s, i, CanR);
      }
      if s.slots[i].flow.sendIo == Posted(false) {
        var f := SomeFrame(s, i, CanS);
      }
    }
  }

  /** Send-stream conservation.  While a session lives and no send completion has failed: the bytes its socket took,
      the in-flight bytes from in_flight_offset on (less what a completion already took), and the pending packets are
      together exactly the packets in the order they were enqueued.  Whatever fails, the socket only ever took a
      prefix of them. */
  lemma StreamConserved(n: nat, others: seq<bool>, run: seq<Label>)
    ensures var s := Exec(Init(n, others), run);
      forall i: nat :: i < |s.slots| ==>
        var x := s.slots[i];
        && x.queue.wire <= Concat(x.queue.enqueued)
        && (x.core.refs > 0 && !x.flow.stuck ==> Conserved(x, Total(s.threads, At(i, 0)).credit))
  {
    var s := Exec(Init(n, others), run);
    ReachableAll(n, others, run);
    forall i: nat | i < |s.slots|
      ensures var x := s.slots[i];
        && x.queue.wire <= Concat(x.queue.enqueued)
        && (x.core.refs > 0 && !x.flow.stuck ==> Conserved(x, Total(s.threads, At(i, 0)).credit))
    {
      assert Tells(s.slots[i], Total(s.threads, At(i, 0)), 0);
    }
  }

  /** pending_send_count is pending + in flight + reserved on every session not in teardown; it never exceeds the
      limit, a batch never exceeds SEND_BATCH_SIZE, and in_flight_offset stays inside the first packet. */
  lemma QueueBounded(n: nat, others: seq<bool>, run: seq<Label>)
    ensures var s := Exec(Init(n, others), run);
      forall i: nat :: i < |s.slots| ==>
        var x, T := s.slots[i], Total(s.threads, At(i, 0));
        && (T.tear == 0 ==> x.queue.count == |x.queue.pending| + |x.queue.inFlight| + T.reserved)
        && x.queue.count <= MAX_PENDING_SENDS
        && |x.queue.inFlight| <= SEND_BATCH_SIZE
        && (x.queue.inFlight != [] ==> x.queue.offset < |x.queue.inFlight[0]|)
  {
    var s := Exec(Init(n, others), run);
    ReachableAll(n, others, run);
    forall i: nat | i < |s.slots|
      ensures var x, T := s.slots[i], Total(s.threads, At(i, 0));
        && (T.tear == 0 ==> x.queue.count == |x.queue.pending| + |x.queue.inFlight| + T.reserved)
        && x.queue.count <= MAX_PENDING_SENDS && |x.queue.inFlight| <= SEND_BATCH_SIZE
        && (x.queue.inFlight != [] ==> x.queue.offset < |x.queue.inFlight[0]|)
    {
      assert Tells(s.slots[i], Total(s.threads, At(i, 0)), 0);
    }
  }
}
