/**
 stop(): after the accept thread is joined and the sweep is over, every live session is flagged; when
 active_session_count reads zero the engine is quiescent and stays so.
 */
module EngineShutdown {
  import opened EngineModel
  import opened Tallies
  import opened EngineTallies
  import opened EngineSlots
  import opened EngineStability
  import opened EngineSteps
  import opened EngineTotals
  import opened EngineInvariant
  import opened EngineRuns

  /** The session that was on this slot is gone, or has been told to go. */
  ghost predicate Swept(x: Slot) {
    x.core.refs == 0 || x.flow.discFlag
  }

  ghost predicate StopProgress(s: State, f: Frame) {
    f.Stop? ==>
      && (f.sp.TRun? || f.sp.TJoin? || s.exited)
      && (f.sp.TSweep? || f.sp.TInDis? || f.sp.TPoll? || f.sp.TDone? ==>
            forall i :: 0 <= i < f.k && i < |s.slots| ==> Swept(s.slots[i]))
      && (f.sp.TPoll? || f.sp.TDone? ==> f.k >= |s.slots|)
      && (f.sp.TDone? ==> s.active == 0)
  }

  ghost predicate StopInv(s: State) {
    |s.threads| >= 2 && s.threads[1] != [] && StopProgress(s, s.threads[1][0])
  }

  /** stop() is the root of thread 1. */
  lemma StopIsRoot(s: State)
    requires Inv(s)
    ensures s.threads[1] != [] && s.threads[1][0].Stop?
  {
    assert RootOk(1, s.threads[1][0]);
  }

  lemma GuaranteeKeepsSwept(x: Slot, y: Slot, send: nat, pre: nat, tear: nat)
    requires Guarantee(x, y, send, pre, 0, tear) && (tear > 0 ==> x.core.refs == 0)
    requires Swept(x)
    ensures Swept(y)
  {
  }

  lemma MovingKeepsSwept(s: State, t: nat, i: nat, c: Choice)
    requires Moving(s, t, i, c) && s.exited && Swept(s.slots[i])
    ensures Swept(Outcome(s, t, i, c).x)
  {
    var f, x := Top(s.threads[t]), s.slots[i];
    MovingKept(s, t, i, c, 0);
    MovingReady(s, t, i, c, 0);
    ExitedOwnsNothing(s, t, i, c);
    GuaranteeKeepsSwept(x, Outcome(s, t, i, c).x, SendOf(f), PreOf(f), TearOf(f));
  }

  /** Nothing is counted any more, and nothing will be. */
  lemma MovingKeepsZero(s: State, t: nat, i: nat, c: Choice)
    requires Moving(s, t, i, c) && s.exited && s.active == 0
    ensures !Outcome(s, t, i, c).fx.ActiveUp? && !Outcome(s, t, i, c).fx.ActiveDown?
  {
    var f, o := Top(s.threads[t]), Outcome(s, t, i, c);
    MovingCounts(s, t, i, c);
    MovingStack(s, t, i, c);
    StepTotalsAll(s.threads, t, o.ctl);
    ExitedOwnsNothing(s, t, i, c);
    CountedUpdate(s.slots, i, o.x);
    UpNeedsPre(f, s.slots[i], i, c);
    DownNeedsDec(f, s.slots[i], i, c);
  }

  lemma UpNeedsPre(f: Frame, x: Slot, i: nat, c: Choice)
    ensures Local(f, x, i, c).fx.ActiveUp? ==> PreOf(f) > 0
  {
    match f
    case Usr => return;
    case Stop(_, _) => return;
    case Acc(_, _, _) => return;
    case Wk(_, _, _, _) => return;
    case Dis(_, _, _) => return;
    case Snd(_, _, _, _) => return;
    case Grp(_, _, _) => return;
    case Post(_, _, _, _, _) => return;
    case Recv(_, _, _, _, _) => return;
    case Acq(_, _, _, _) => return;
    case Rel(_, _, _, _) => return;
  }

  lemma DownNeedsDec(f: Frame, x: Slot, i: nat, c: Choice)
    ensures Local(f, x, i, c).fx.ActiveDown? ==> DecOf(f) > 0
  {
    match f
    case Usr => return;
    case Stop(_, _) => return;
    case Acc(_, _, _) => return;
    case Wk(_, _, _, _) => return;
    case Dis(_, _, _) => return;
    case Snd(_, _, _, _) => return;
    case Grp(_, _, _) => return;
    case Post(_, _, _, _, _) => return;
    case Recv(_, _, _, _, _) => return;
    case Acq(_, _, _, _) => return;
    case Rel(_, _, _, _) => return;
  }

  predicate HasRoots(s: State) {
    |s.threads| > 1 && s.threads[1] != []
  }

  /** How a step on a slot moves stop(): not at all, into the sweep's next disconnect, or back out of it. */
  lemma StopRootAfter(s: State, t: nat, i: nat, c: Choice)
    requires Moving(s, t, i, c)
    ensures HasRoots(s) && HasRoots(RunStep(s, t, c))
    ensures HasRoots(s) && HasRoots(RunStep(s, t, c)) ==>
      var g, g' := s.threads[1][0], RunStep(s, t, c).threads[1][0];
      && g.Stop? && g'.Stop?
      && (g' == g
          || (g.sp.TSweep? && g' == g.(sp := TInDis))
          || (g.sp.TInDis? && g' == Stop(TSweep, g.k + 1) && g.k == i && t == 1 && |s.threads[1]| == 2
              && Top(s.threads[1]).Dis? && Top(s.threads[1]).sweep && Outcome(s, t, i, c).ctl.Return?))
  {
    var s' := RunStep(s, t, c);
    StopIsRoot(s);
    MovingSteps(s, t, i, c);
    if t == 1 {
      var stk, o := s.threads[1], Outcome(s, t, i, c);
      var f := Top(stk);
      CallKept(f, s.slots[i], i, c);
      MovingActs(s, t, i, c);
      if |stk| == 1 {
        assert f == stk[0];
      } else if |stk| == 2 && o.ctl.Return? {
        assert Linked(stk[0], stk[1]);
      } else {
        assert s'.threads[1][0] == stk[0];
      }
    }
  }

  lemma SweptAfter(s: State, t: nat, i: nat, c: Choice)
    requires Moving(s, t, i, c) && StopInv(s) && s.exited
    ensures var s', g := RunStep(s, t, c), s.threads[1][0];
      g.Stop? && !g.sp.TRun? && !g.sp.TJoin? ==>
        forall j :: 0 <= j < g.k && j < |s.slots| ==> Swept(s'.slots[j])
  {
    MovingSteps(s, t, i, c);
    var g := s.threads[1][0];
    if g.Stop? && !g.sp.TRun? && !g.sp.TJoin? && i < g.k {
      MovingKeepsSwept(s, t, i, c);
    }
  }

  /** The sweep's disconnect of slot k leaves nobody unflagged there. */
  lemma SweepReturns(s: State, t: nat, i: nat, c: Choice)
    requires Moving(s, t, i, c) && s.exited && Top(s.threads[t]).Dis? && Top(s.threads[t]).sweep
    requires Outcome(s, t, i, c).ctl.Return?
    ensures Swept(Outcome(s, t, i, c).x)
  {
    MovingKept(s, t, i, c, 0);
  }

  lemma SlotStepStop(s: State, t: nat, i: nat, c: Choice)
    requires Moving(s, t, i, c) && StopInv(s)
    ensures StopInv(RunStep(s, t, c))
  {
    var s' := RunStep(s, t, c);
    MovingSteps(s, t, i, c);
    StopRootAfter(s, t, i, c);
    var g, g' := s.threads[1][0], s'.threads[1][0];
    if s.exited {
      SweptAfter(s, t, i, c);
      if s.active == 0 {
        MovingKeepsZero(s, t, i, c);
      }
      if g.sp.TInDis? && g'.sp.TSweep? {
        SweepReturns(s, t, i, c);
      }
    }
  }

  lemma RestStepStop(s: State, t: nat, c: Choice)
    requires Resting(s, t, c) && StopInv(s)
    ensures StopInv(RunStep(s, t, c))
  {
    var s', f, o := RunStep(s, t, c), Top(s.threads[t]), Global(s, Top(s.threads[t]), c);
    RestingSteps(s, t, c);
    StopIsRoot(s);
    if t == 1 && !o.ctl.Stay? {
      assert f == s.threads[1][0];
      assert s'.threads[1] == [o.ctl.f];
    } else {
      assert s'.threads[1] == s.threads[1];
    }
  }

  lemma StepKeepsStop(s: State, l: Label)
    requires Inv(s) && StopInv(s)
    ensures StopInv(Step(s, l))
  {
    match l
    case Run(t, c) =>
      if t < |s.threads| {
        var target := Target(s, Top(s.threads[t]), c);
        if target.Some? && target.value < |s.slots| {
          SlotStepStop(s, t, target.value, c);
        } else {
          RestStepStop(s, t, c);
        }
      }
    case Kernel(i, kind, ok, bytes) =>
  }

  lemma {:induction false} ReachableStop(n: nat, others: seq<bool>, run: seq<Label>)
    ensures StopInv(Exec(Init(n, others), run))
  {
    if run != [] {
      var s, l := Exec(Init(n, others), run[..|run| - 1]), run[|run| - 1];
      ReachableStop(n, others, run[..|run| - 1]);
      Reachable(n, others, run[..|run| - 1]);
      StepKeepsStop(s, l);
      assert Exec(Init(n, others), run) == Step(s, l);
    }
  }

  lemma {:induction false} NoneCountedSlot(slots: seq<Slot>, i: nat)
    requires CountedSlots(slots) == 0 && i < |slots|
    ensures !slots[i].core.counted
  {
    if i < |slots| - 1 {
      NoneCountedSlot(slots[..|slots| - 1], i);
    }
  }

  /** A slot nobody holds, with no operation outstanding, back on the free stack, and clean. */
  ghost predicate Quiescent(s: State, i: nat)
    requires i < |s.slots|
  {
    var x, T := s.slots[i], Total(s.threads, At(i, 0));
    && x.core.refs == 0 && x.flow.recvIo.Idle? && x.flow.sendIo.Idle? && !x.core.open && Clean(x)
    && T.ref == 0 && T.tear == 0 && T.pre == 0 && T.mid == 0
    && multiset(s.free)[i] == 1
  }

  ghost predicate SweepOver(s: State) {
    && |s.threads| >= 2 && s.threads[1] != [] && s.threads[1][0].Stop?
    && (s.threads[1][0].sp.TPoll? || s.threads[1][0].sp.TDone?)
  }

  ghost predicate StopDone(s: State) {
    SweepOver(s) && s.threads[1][0].sp.TDone?
  }

  /** After the sweep every live session is flagged. */
  lemma SweptAll(n: nat, others: seq<bool>, run: seq<Label>)
    ensures var s := Exec(Init(n, others), run);
      SweepOver(s) ==> forall i :: 0 <= i < |s.slots| ==> Swept(s.slots[i])
  {
    ReachableStop(n, others, run);
  }

  /** Once stop() has joined the accept thread and seen active_session_count zero, the whole engine is at rest. */
  lemma ShutdownQuiescent(n: nat, others: seq<bool>, run: seq<Label>)
    ensures var s := Exec(Init(n, others), run);
      StopDone(s) ==> forall i: nat :: i < |s.slots| ==> Quiescent(s, i)
  {
    var s := Exec(Init(n, others), run);
    if StopDone(s) {
      Reachable(n, others, run);
      ReachableStop(n, others, run);
      forall i: nat | i < |s.slots| ensures Quiescent(s, i) {
        NoneCountedSlot(s.slots, i);
        AcceptOwns(s.threads, i, 0);
        assert Accounted(s.slots[i], multiset(s.free)[i], Total(s.threads, At(i, 0)));
      }
    }
  }

  /** ... and it stays at rest: no step of any thread or of the kernel brings stop() back or wakes a slot. */
  lemma StopDoneStays(n: nat, others: seq<bool>, run: seq<Label>, l: Label)
    requires StopDone(Exec(Init(n, others), run))
    ensures StopDone(Step(Exec(Init(n, others), run), l))
  {
    var s := Exec(Init(n, others), run);
    Reachable(n, others, run);
    match l
    case Run(t, c) =>
      if t < |s.threads| {
        var target := Target(s, Top(s.threads[t]), c);
        if target.Some? && target.value < |s.slots| {
          StopRootAfter(s, t, target.value, c);
          MovingSteps(s, t, target.value, c);
          SlotStepShape(s, RunStep(s, t, c), t, target.value, c);
        } else {
          RestingSteps(s, t, c);
        }
      }
    case Kernel(i, kind, ok, bytes) =>
  }
}
