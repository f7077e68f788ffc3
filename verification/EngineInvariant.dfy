/**
 The invariant of the whole engine, and the proof that every step of every run keeps it.
 */
module EngineInvariant {
  import opened EngineModel
  import opened Options
  import opened Tallies
  import opened EngineTallies
  import opened EngineSlots
  import opened EngineStability
  import opened EngineSteps
  import opened EngineTotals

  function CountedSlots(slots: seq<Slot>): nat {
    if slots == [] then 0
    else CountedSlots(slots[..|slots| - 1]) + (if slots[|slots| - 1].core.counted then 1 else 0)
  }

  ghost function SlotOf(s: State, f: Frame): Slot {
    if Where(f).Some? && Where(f).value < |s.slots| then s.slots[Where(f).value] else EMPTY_SLOT
  }

  /** From the sweep on, stop() has joined the accept thread. */
  ghost predicate StopOk(f: Frame, exited: bool) {
    f.Stop? && !f.sp.TRun? && !f.sp.TJoin? ==> exited
  }

  ghost predicate FrameFits(s: State, f: Frame) {
    && (Where(f).Some? ==> Where(f).value < |s.slots|)
    && FrameOk(f, SlotOf(s, f), s.exited)
    && StopOk(f, s.exited)
  }

  ghost predicate RootOk(t: nat, f: Frame) {
    if t == 0 then f.Acc? else if t == 1 then f.Stop? else f.Wk? || f.Usr?
  }

  ghost predicate LinkedStack(stk: seq<Frame>) {
    forall k :: 0 < k < |stk| ==> Linked(stk[k - 1], stk[k])
  }

  ghost predicate Shaped(threads: seq<seq<Frame>>) {
    && |threads| >= 2
    && forall t :: 0 <= t < |threads| ==> threads[t] != [] && RootOk(t, threads[t][0]) && LinkedStack(threads[t])
  }

  ghost predicate AllFit(s: State) {
    forall t, k :: 0 <= t < |s.threads| && 0 <= k < |s.threads[t]| ==> FrameFits(s, s.threads[t][k])
  }

  ghost predicate SlotsAccounted(s: State) {
    forall i: nat, probe: nat :: i < |s.slots| ==>
      Accounted(s.slots[i], multiset(s.free)[i], Total(s.threads, At(i, probe)))
  }

  ghost predicate Globals(s: State) {
    && (forall k :: 0 <= k < |s.free| ==> s.free[k] < |s.slots|)
    && Total(s.threads, All).acc == (if s.exited then 0 else 1)
    && s.active == CountedSlots(s.slots) + Total(s.threads, All).dec
  }

  ghost predicate Inv(s: State) {
    Shaped(s.threads) && AllFit(s) && SlotsAccounted(s) && Globals(s)
  }

  lemma {:induction false} CountedUpdate(slots: seq<Slot>, i: nat, y: Slot)
    requires i < |slots|
    ensures CountedSlots(slots[i := y]) + (if slots[i].core.counted then 1 else 0)
         == CountedSlots(slots) + (if y.core.counted then 1 else 0)
  {
    var n := |slots| - 1;
    var changed := slots[i := y];
    if i == n {
      assert changed[..n] == slots[..n];
    } else {
      assert changed[..n] == slots[..n][i := y];
      CountedUpdate(slots[..n], i, y);
    }
  }

  // ---------------------------------------------------------------- before a step

  lemma BaseBalanced(threads: seq<seq<Frame>>, t: nat, i: nat, probe: nat)
    requires t < |threads| && threads[t] != []
    ensures Balanced(Base(threads, t, At(i, probe)))
  {
    TotalBalanced(threads, i, probe);
    var low: seq<Tally> := StackWeights(Below(threads[t]), At(i, probe));
    forall k | 0 <= k < |low| ensures Balanced(low[k]) {
      VBalanced(threads[t][k], i, probe);
    }
    SumBalanced(low);
  }

  /** Every frame but the moving one is part of the base. */
  lemma InBase(threads: seq<seq<Frame>>, t: nat, u: nat, k: nat, w: Who)
    requires t < |threads| && threads[t] != [] && u < |threads| && k < |threads[u]|
    requires u != t || k < |threads[t]| - 1
    ensures Leq(V(threads[u][k], w), Base(threads, t, w))
  {
    if u == t {
      InSum(StackWeights(Below(threads[t]), w), k);
    } else {
      InRest(Weights(threads, w), t, u, k);
    }
  }

  lemma OffSlotFrames(f: Frame, x: Slot, y: Slot, exited: bool)
    requires Where(f).None? && FrameOk(f, x, exited)
    ensures FrameOk(f, y, exited)
  {
    match f
    case Usr => return;
    case Stop(_, _) => return;
    case Acc(_, _, _) => return;
    case Wk(_, _, _, _) => return;
    case _ => return;
  }

  // ---------------------------------------------------------------- a step on a slot

  /** Thread t's next step works on slot i. */
  ghost predicate Moving(s: State, t: nat, i: nat, c: Choice) {
    && Inv(s) && t < |s.threads| && i < |s.slots|
    && Target(s, Top(s.threads[t]), c) == Some(i)
  }

  ghost function Outcome(s: State, t: nat, i: nat, c: Choice): Out
    requires Moving(s, t, i, c)
  {
    Local(Top(s.threads[t]), s.slots[i], i, c)
  }

  lemma MovingActs(s: State, t: nat, i: nat, c: Choice)
    requires Moving(s, t, i, c)
    ensures var f := Top(s.threads[t]);
      ActsOn(f, i) && !f.Usr? && (f.Stop? ==> i == f.k && s.exited) && FrameOk(f, s.slots[i], s.exited)
    ensures Top(s.threads[t]).Acc? && Top(s.threads[t]).ap.AWait? ==> s.free != [] && s.free[|s.free| - 1] == i
  {
    var f := Top(s.threads[t]);
    assert FrameFits(s, f);
    if Where(f).None? {
      OffSlotFrames(f, SlotOf(s, f), s.slots[i], s.exited);
    }
  }

  lemma MovingReady(s: State, t: nat, i: nat, c: Choice, probe: nat)
    requires Moving(s, t, i, c)
    ensures Ready(Top(s.threads[t]), s.slots[i], i, multiset(s.free)[i], Base(s.threads, t, At(i, probe)), s.exited,
                  probe)
  {
    var f, x, occ := Top(s.threads[t]), s.slots[i], multiset(s.free)[i];
    MovingActs(s, t, i, c);
    BaseBalanced(s.threads, t, i, probe);
    TotalBefore(s.threads, t, At(i, probe));
    NearWeight(f, i, probe);
    assert Accounted(x, occ, Total(s.threads, At(i, probe)));
    if f.Acc? && f.ap.AWait? {
      assert i in multiset(s.free);
    }
  }

  /** The caller of the moving frame keeps its own reference apart from the moving frame's. */
  lemma CallerRefs(s: State, t: nat, i: nat, c: Choice)
    requires Moving(s, t, i, c) && |s.threads[t]| >= 2
    ensures var p, f := Top(Below(s.threads[t])), Top(s.threads[t]);
      && Linked(p, f) && FrameOk(p, s.slots[i], s.exited)
      && s.slots[i].core.refs >= RefOf(p) + RefOf(f)
  {
    var stk := s.threads[t];
    var p, f := Top(Below(stk)), Top(stk);
    assert Linked(stk[|stk| - 2], stk[|stk| - 1]);
    MovingActs(s, t, i, c);
    assert Where(f) == Some(i) by { CalleesHaveSlots(p, f); }
    CallerNear(p, f, true, i);
    assert FrameFits(s, stk[|stk| - 2]);
    if Where(p).None? {
      OffSlotFrames(p, SlotOf(s, p), s.slots[i], s.exited);
    }
    MovingReady(s, t, i, c, 0);
    InBase(s.threads, t, t, |stk| - 2, At(i, 0));
    NearWeight(p, i, 0);
  }

  lemma CalleesHaveSlots(p: Frame, f: Frame)
    requires Linked(p, f)
    ensures Where(f).Some? && !IsRoot(f)
  {
    match p
    case Usr => return;
    case Stop(_, _) => return;
    case Acc(_, _, _) => return;
    case Wk(_, _, _, _) => return;
    case Dis(_, _, _) => return;
    case Snd(_, _, _, _) => return;
    case Grp(_, _, _) => return;
    case Post(_, _, _, _, _) => return;
    case Recv(_, _, _, _, _) => return;
    case Acq(_, _, _, _) => return;
    case Rel(_, _, _, _) => return;
  }

  lemma MovingStack(s: State, t: nat, i: nat, c: Choice)
    requires Moving(s, t, i, c)
    ensures StackReady(s.threads[t], i, Outcome(s, t, i, c).ctl)
  {
    var stk, o := s.threads[t], Outcome(s, t, i, c);
    var f := Top(stk);
    MovingActs(s, t, i, c);
    StepStaysNear(f, s.slots[i], i, c);
    CallKept(f, s.slots[i], i, c);
    if |stk| >= 2 {
      CallerRefs(s, t, i, c);
      LinkKept(Top(Below(stk)), f, s.slots[i], i, c, s.exited);
      CalleesHaveSlots(Top(Below(stk)), f);
    }
  }

  lemma MovingKept(s: State, t: nat, i: nat, c: Choice, probe: nat)
    requires Moving(s, t, i, c)
    ensures Kept(Top(s.threads[t]), s.slots[i], Outcome(s, t, i, c), multiset(s.free)[i],
                 Base(s.threads, t, At(i, probe)),
                 s.exited, probe)
  {
    MovingActs(s, t, i, c);
    MovingReady(s, t, i, c, probe);
    LocalKept(Top(s.threads[t]), s.slots[i], i, c, multiset(s.free)[i], Base(s.threads, t, At(i, probe)), s.exited,
              probe);
  }

  // ---------------------------------------------------------------- after a step

  /** What a slot step may do outside the slot. */
  lemma LocalEffects(f: Frame, x: Slot, i: nat, c: Choice)
    ensures var fx := Local(f, x, i, c).fx;
      && !fx.AcceptExit? && !fx.RunningOff?
      && (fx.Pop? ==> f.Acc? && f.ap.AWait?)
  {
    match f
    case Usr => return;
    case Stop(_, _) => return;
    case Acc(_, _, _) => return;
    case Wk(_, _, _, _) => return;
    case Dis(_, _, _) => return;
    case Snd(_, _, _, _) => return;
    case Grp(_, _, _) => return;
    case Post(_, _, _, _, _) => return;
    case Recv(_, _, _, _, _) => return;
    case Acq(_, _, _, _) => return;
    case Rel(_, _, _, _) => return;
  }

  lemma AffectFree(s: State, i: nat, fx: Effect)
    requires fx.Pop? ==> s.free != [] && s.free[|s.free| - 1] == i
    ensures multiset(Affect(s, i, fx).free)[i] == Occ(multiset(s.free)[i], fx)
    ensures forall j: nat :: j != i ==> multiset(Affect(s, i, fx).free)[j] == multiset(s.free)[j]
    ensures forall k :: 0 <= k < |Affect(s, i, fx).free| ==>
      Affect(s, i, fx).free[k] == i || Affect(s, i, fx).free[k] in s.free
  {
    if fx.Pop? {
      assert s.free == s.free[..|s.free| - 1] + [i];
    }
  }

  ghost predicate SlotStep(s: State, s': State, t: nat, i: nat, o: Out)
    requires t < |s.threads| && s.threads[t] != [] && i < |s.slots|
  {
    && s'.slots == s.slots[i := o.x]
    && s'.threads == s.threads[t := NextStack(s.threads[t], o.ctl)]
    && s'.exited == s.exited && s'.running == s.running
    && s'.active == s.active + (if o.fx.ActiveUp? then 1 else if o.fx.ActiveDown? then -1 else 0)
    && multiset(s'.free)[i] == Occ(multiset(s.free)[i], o.fx)
    && (forall j: nat :: j != i ==> multiset(s'.free)[j] == multiset(s.free)[j])
    && (forall k :: 0 <= k < |s'.free| ==> s'.free[k] == i || s'.free[k] in s.free)
  }

  lemma MovingSteps(s: State, t: nat, i: nat, c: Choice)
    requires Moving(s, t, i, c)
    ensures SlotStep(s, RunStep(s, t, c), t, i, Outcome(s, t, i, c))
  {
    var f, o := Top(s.threads[t]), Outcome(s, t, i, c);
    MovingActs(s, t, i, c);
    LocalEffects(f, s.slots[i], i, c);
    var mid := s.(slots := s.slots[i := o.x], threads := s.threads[t := NextStack(s.threads[t], o.ctl)]);
    AffectFree(mid, i, o.fx);
    assert RunStep(s, t, c) == Affect(mid, i, o.fx);
  }

  lemma SlotStepAccounts(s: State, s': State, t: nat, i: nat, c: Choice)
    requires Moving(s, t, i, c) && SlotStep(s, s', t, i, Outcome(s, t, i, c))
    ensures SlotsAccounted(s')
  {
    MovingStack(s, t, i, c);
    forall j: nat, probe: nat | j < |s'.slots|
      ensures Accounted(s'.slots[j], multiset(s'.free)[j], Total(s'.threads, At(j, probe)))
    {
      SlotStepAccountsAt(s, s', t, i, c, j, probe);
    }
  }

  lemma SlotStepAccountsAt(s: State, s': State, t: nat, i: nat, c: Choice, j: nat, probe: nat)
    requires Moving(s, t, i, c) && SlotStep(s, s', t, i, Outcome(s, t, i, c))
    requires StackReady(s.threads[t], i, Outcome(s, t, i, c).ctl) && j < |s.slots|
    ensures Accounted(s'.slots[j], multiset(s'.free)[j], Total(s'.threads, At(j, probe)))
  {
    var ctl := Outcome(s, t, i, c).ctl;
    if j == i {
      MovingKept(s, t, i, c, probe);
      StepTotals(s.threads, t, i, ctl, probe);
    } else {
      assert Accounted(s.slots[j], multiset(s.free)[j], Total(s.threads, At(j, probe)));
      StepTotalsElsewhere(s.threads, t, i, j, ctl, probe);
    }
  }

  lemma SlotStepShape(s: State, s': State, t: nat, i: nat, c: Choice)
    requires Moving(s, t, i, c) && SlotStep(s, s', t, i, Outcome(s, t, i, c))
    ensures Shaped(s'.threads)
  {
    var stk, o := s.threads[t], Outcome(s, t, i, c);
    MovingStack(s, t, i, c);
    MovingKept(s, t, i, c, 0);
    CallKept(Top(stk), s.slots[i], i, c);
    if |stk| >= 2 {
      CallerRefs(s, t, i, c);
      LinkKept(Top(Below(stk)), Top(stk), s.slots[i], i, c, s.exited);
    }
    NextShape(s.threads, t, Top(stk), o.ctl);
  }

  lemma NextShape(threads: seq<seq<Frame>>, t: nat, f: Frame, ctl: Ctl)
    requires Shaped(threads) && t < |threads| && f == Top(threads[t])
    requires KeepsCall(f, ctl)
    requires |threads[t]| >= 2 ==>
      match ctl
      case Stay => true
      case Goto(g) => Linked(Top(Below(threads[t])), g)
      case Call(g, callee) => Linked(Top(Below(threads[t])), g)
      case Return(_) => true
    requires ctl.Call? ==> Linked(ctl.f, ctl.callee)
    ensures Shaped(threads[t := NextStack(threads[t], ctl)])
  {
    var stk := threads[t];
    var next := NextStack(stk, ctl);
    match ctl {
      case Stay =>
      case Goto(g) =>
      case Call(g, callee) =>
      case Return(r) => ReturnShape(stk, t, r);
    }
  }

  lemma ReturnShape(stk: seq<Frame>, t: nat, r: bool)
    requires stk != [] && RootOk(t, stk[0]) && LinkedStack(stk) && !IsRoot(Top(stk))
    ensures var next := NextStack(stk, Return(r)); next != [] && RootOk(t, next[0]) && LinkedStack(next)
  {
    var p := Top(Below(stk));
    if |stk| >= 3 {
      ResumeLinked(stk[|stk| - 3], p, r);
    }
  }

  lemma ResumeLinked(q: Frame, p: Frame, r: bool)
    requires Linked(q, p)
    ensures Linked(q, Resume(p, r))
  {
  }

  // ---------------------------------------------------------------- what frames rely on after a step

  lemma ExitedOwnsNothing(s: State, t: nat, i: nat, c: Choice)
    requires Moving(s, t, i, c) && s.exited
    ensures PreOf(Top(s.threads[t])) == 0 && MidOf(Top(s.threads[t])) == 0
  {
    var f := Top(s.threads[t]);
    MovingActs(s, t, i, c);
    AcceptOwns(s.threads, i, 0);
    TotalBefore(s.threads, t, At(i, 0));
    NearWeight(f, i, 0);
  }

  /** Frames that did not move still have what they rely on. */
  lemma OtherFrameFits(s: State, s': State, t: nat, i: nat, c: Choice, u: nat, k: nat)
    requires Moving(s, t, i, c) && SlotStep(s, s', t, i, Outcome(s, t, i, c))
    requires u < |s.threads| && k < |s.threads[u]| && (u != t || k < |s.threads[t]| - 1)
    ensures FrameFits(s', s.threads[u][k])
  {
    var h, f := s.threads[u][k], Top(s.threads[t]);
    assert FrameFits(s, h);
    if Where(h) == Some(i) {
      var x, occ, base := s.slots[i], multiset(s.free)[i], Base(s.threads, t, At(i, 0));
      MovingReady(s, t, i, c, 0);
      MovingKept(s, t, i, c, 0);
      InBase(s.threads, t, u, k, At(i, 0));
      NearWeight(h, i, 0);
      if s.exited {
        ExitedOwnsNothing(s, t, i, c);
      }
      ApartFrom(Weight(h, 0), Weight(f, 0), x, occ, base, s.exited);
      Stable(h, x, s'.slots[i], SendOf(f), PreOf(f), MidOf(f), TearOf(f), s.exited);
    }
  }

  lemma PlacedFits(s': State, i: nat, g: Frame)
    requires i < |s'.slots| && Near(g, i) && FrameOk(g, s'.slots[i], s'.exited) && StopOk(g, s'.exited)
    ensures FrameFits(s', g)
  {
    if Where(g).None? {
      OffSlotFrames(g, s'.slots[i], EMPTY_SLOT, s'.exited);
    }
  }

  /** The caller goes on with what it relies on. */
  lemma ResumedFits(s: State, i: nat, p: Frame, f: Frame, r: bool)
    requires i < |s.slots| && FrameFits(s, p) && Near(p, i) && Near(Resume(p, r), i)
    requires Linked(p, f) && Promise(f, r, s.slots[i], s.exited) && (r || !f.Acq? || !(p.Post? || p.Recv?))
    ensures FrameFits(s, Resume(p, r))
  {
    if Where(p).None? {
      OffSlotFrames(p, EMPTY_SLOT, s.slots[i], s.exited);
    }
    ResumeOk(p, f, r, s.slots[i], s.exited, 0);
    PlacedFits(s, i, Resume(p, r));
  }

  lemma ReturnFits(s: State, s': State, t: nat, i: nat, c: Choice)
    requires Moving(s, t, i, c) && SlotStep(s, s', t, i, Outcome(s, t, i, c))
    requires Outcome(s, t, i, c).ctl.Return? && |s.threads[t]| >= 2
    ensures FrameFits(s', Resume(Top(Below(s.threads[t])), Outcome(s, t, i, c).ctl.result))
  {
    var stk, ctl := s.threads[t], Outcome(s, t, i, c).ctl;
    var p, f := Top(Below(stk)), Top(stk);
    MovingStack(s, t, i, c);
    MovingKept(s, t, i, c, 0);
    CallerNear(p, f, ctl.result, i);
    OtherFrameFits(s, s', t, i, c, t, |stk| - 2);
    ResumedFits(s', i, p, f, ctl.result);
  }

  /** A frame that takes the top frame's place. */
  predicate Replaces(stk: seq<Frame>, ctl: Ctl, g: Frame)
    requires stk != []
  {
    match ctl
    case Stay => g == Top(stk)
    case Goto(h) => g == h
    case Call(h, callee) => g == h || g == callee
    case Return(_) => false
  }

  lemma ReplacingOk(stk: seq<Frame>, i: nat, ctl: Ctl, g: Frame, y: Slot, exited: bool)
    requires StackReady(stk, i, ctl) && KeepsCall(Top(stk), ctl) && FramesOk(Top(stk), ctl, y, exited)
    requires StopOk(Top(stk), exited) && Replaces(stk, ctl, g)
    ensures Near(g, i) && FrameOk(g, y, exited) && StopOk(g, exited)
  {
    match ctl {
      case Stay =>
      case Goto(_) =>
      case Call(p, callee) => CalleesHaveSlots(p, callee);
    }
  }

  lemma GotoFits(s: State, s': State, t: nat, i: nat, c: Choice, g: Frame)
    requires Moving(s, t, i, c) && SlotStep(s, s', t, i, Outcome(s, t, i, c))
    requires Replaces(s.threads[t], Outcome(s, t, i, c).ctl, g)
    ensures FrameFits(s', g)
  {
    var stk, ctl := s.threads[t], Outcome(s, t, i, c).ctl;
    MovingStack(s, t, i, c);
    MovingKept(s, t, i, c, 0);
    CallKept(Top(stk), s.slots[i], i, c);
    assert FrameFits(s, Top(stk));
    ReplacingOk(stk, i, ctl, g, s'.slots[i], s'.exited);
    PlacedFits(s', i, g);
  }

  /** Where a frame of the next stack comes from. */
  lemma NextPlace(stk: seq<Frame>, ctl: Ctl, k: nat)
    requires stk != [] && (ctl.Return? ==> |stk| >= 2) && k < |NextStack(stk, ctl)|
    ensures var kept := if ctl.Return? then |stk| - 2 else |stk| - 1;
      && (k < kept ==> NextStack(stk, ctl)[k] == stk[k])
      && (ctl.Return? && k >= kept ==> NextStack(stk, ctl)[k] == Resume(Top(Below(stk)), ctl.result))
      && (!ctl.Return? && k >= kept ==> Replaces(stk, ctl, NextStack(stk, ctl)[k]))
  {
  }

  lemma PlaceFits(s: State, s': State, t: nat, i: nat, c: Choice, u: nat, k: nat)
    requires Moving(s, t, i, c) && SlotStep(s, s', t, i, Outcome(s, t, i, c))
    requires u < |s'.threads| && k < |s'.threads[u]|
    ensures FrameFits(s', s'.threads[u][k])
  {
    MovingStack(s, t, i, c);
    if u != t {
      OtherFrameFits(s, s', t, i, c, u, k);
    } else {
      TopPlaceFits(s, s', t, i, c, k);
    }
  }

  lemma TopPlaceFits(s: State, s': State, t: nat, i: nat, c: Choice, k: nat)
    requires Moving(s, t, i, c) && SlotStep(s, s', t, i, Outcome(s, t, i, c))
    requires StackReady(s.threads[t], i, Outcome(s, t, i, c).ctl)
    requires k < |s'.threads[t]|
    ensures FrameFits(s', s'.threads[t][k])
  {
    var stk, ctl := s.threads[t], Outcome(s, t, i, c).ctl;
    NextPlace(stk, ctl, k);
    if k < (if ctl.Return? then |stk| - 2 else |stk| - 1) {
      OtherFrameFits(s, s', t, i, c, t, k);
    } else if ctl.Return? {
      ReturnFits(s, s', t, i, c);
    } else {
      GotoFits(s, s', t, i, c, s'.threads[t][k]);
    }
  }

  lemma SlotStepFits(s: State, s': State, t: nat, i: nat, c: Choice)
    requires Moving(s, t, i, c) && SlotStep(s, s', t, i, Outcome(s, t, i, c))
    ensures AllFit(s')
  {
    forall u, k | 0 <= u < |s'.threads| && 0 <= k < |s'.threads[u]| ensures FrameFits(s', s'.threads[u][k]) {
      PlaceFits(s, s', t, i, c, u, k);
    }
  }

  // ---------------------------------------------------------------- the global counters

  /** active_session_count follows the counted slots and the decrements still to come; the accept loop stays. */
  ghost predicate CountsMatch(f: Frame, x: Slot, o: Out) {
    && (if o.x.core.counted then 1 else 0)
       + (match o.ctl
          case Stay => DecOf(f)
          case Goto(g) => DecOf(g)
          case Call(g, callee) => DecOf(g) + DecOf(callee)
          case Return(_) => 0)
       == (if x.core.counted then 1 else 0) + DecOf(f)
          + (if o.fx.ActiveUp? then 1 else if o.fx.ActiveDown? then -1 else 0)
    && (match o.ctl
        case Stay => true
        case Goto(g) => AccOf(g) == AccOf(f)
        case Call(g, callee) => AccOf(g) + AccOf(callee) == AccOf(f)
        case Return(_) => AccOf(f) == 0)
  }

  lemma CountsMatchRoots(f: Frame, x: Slot, i: nat, c: Choice)
    requires IsRoot(f) && (f.Acc? && f.ap.AGot? ==> !x.core.counted)
    ensures CountsMatch(f, x, Local(f, x, i, c))
  {
    match f
    case Usr => return;
    case Stop(_, _) => return;
    case Acc(_, _, _) => return;
    case Wk(_, _, _, _) => return;
  }

  lemma CountsMatchApi(f: Frame, x: Slot, i: nat, c: Choice)
    requires f.Dis? || f.Snd? || f.Grp?
    ensures CountsMatch(f, x, Local(f, x, i, c))
  {
    match f
    case Dis(_, _, _) => return;
    case Snd(_, _, _, _) => return;
    case Grp(_, _, _) => return;
  }

  lemma CountsMatchPosts(f: Frame, x: Slot, i: nat, c: Choice)
    requires f.Post? || f.Recv?
    ensures CountsMatch(f, x, Local(f, x, i, c))
  {
    match f
    case Post(_, _, _, _, _) => return;
    case Recv(_, _, _, _, _) => return;
  }

  lemma CountsMatchRefs(f: Frame, x: Slot, i: nat, c: Choice)
    requires (f.Acq? || f.Rel?) && (f.Rel? && f.lp.LPush? ==> x.core.counted)
    ensures CountsMatch(f, x, Local(f, x, i, c))
  {
    match f
    case Acq(_, _, _, _) => return;
    case Rel(_, _, _, _) => return;
  }

  lemma CountedBy(f: Frame, x: Slot, occ: nat, b: Tally)
    requires Accounted(x, occ, Plus(b, Weight(f, 0)))
    ensures f.Acc? && f.ap.AGot? ==> !x.core.counted
    ensures f.Rel? && f.lp.LPush? ==> x.core.counted
  {
  }

  lemma MovingCounts(s: State, t: nat, i: nat, c: Choice)
    requires Moving(s, t, i, c)
    ensures CountsMatch(Top(s.threads[t]), s.slots[i], Outcome(s, t, i, c))
  {
    var f, x := Top(s.threads[t]), s.slots[i];
    MovingReady(s, t, i, c, 0);
    CountedBy(f, x, multiset(s.free)[i], Base(s.threads, t, At(i, 0)));
    if IsRoot(f) {
      CountsMatchRoots(f, x, i, c);
    } else if f.Dis? || f.Snd? || f.Grp? {
      CountsMatchApi(f, x, i, c);
    } else if f.Post? || f.Recv? {
      CountsMatchPosts(f, x, i, c);
    } else {
      CountsMatchRefs(f, x, i, c);
    }
  }

  lemma SlotStepGlobals(s: State, s': State, t: nat, i: nat, c: Choice)
    requires Moving(s, t, i, c) && SlotStep(s, s', t, i, Outcome(s, t, i, c))
    ensures Globals(s')
  {
    var o := Outcome(s, t, i, c);
    MovingCounts(s, t, i, c);
    MovingStack(s, t, i, c);
    StepTotalsAll(s.threads, t, o.ctl);
    CountedUpdate(s.slots, i, o.x);
  }

  lemma SlotStepKeepsInv(s: State, t: nat, i: nat, c: Choice)
    requires Moving(s, t, i, c)
    ensures Inv(RunStep(s, t, c))
  {
    MovingSteps(s, t, i, c);
    SlotStepShape(s, RunStep(s, t, c), t, i, c);
    SlotStepFits(s, RunStep(s, t, c), t, i, c);
    SlotStepAccounts(s, RunStep(s, t, c), t, i, c);
    SlotStepGlobals(s, RunStep(s, t, c), t, i, c);
  }

  // ---------------------------------------------------------------- steps on no slot

  ghost predicate Resting(s: State, t: nat, c: Choice) {
    && Inv(s) && t < |s.threads|
    && (Target(s, Top(s.threads[t]), c).Some? ==> Target(s, Top(s.threads[t]), c).value >= |s.slots|)
  }

  /** Steps on no slot move a root frame, or make a user thread call the API. */
  ghost predicate RootStep(f: Frame, o: Out, exited: bool, n: nat) {
    && KeepsCall(f, o.ctl)
    && (o.fx.Nothing? || o.fx.RunningOff? || (o.fx.AcceptExit? && f.Acc? && o.ctl == Goto(Acc(AExit, 0, 0))))
    && match o.ctl
       case Stay => true
       case Goto(g) =>
         && Where(f).None? && Where(g).None? && StopOk(g, exited)
         && FrameOk(g, EMPTY_SLOT, exited || o.fx.AcceptExit?)
         && (!o.fx.AcceptExit? ==> AccOf(g) == AccOf(f))
       case Call(g, callee) =>
         && f.Usr? && g.Usr? && Linked(g, callee) && Where(callee).Some? && Where(callee).value < n
         && (forall x: Slot :: FrameOk(callee, x, exited))
         && (forall probe: nat :: Weight(callee, probe) == ZERO)
       case Return(_) => false
  }

  lemma UserCalls(f: Frame, s: State, c: Choice)
    requires f.Usr?
    ensures RootStep(f, Global(s, f, c), s.exited, |s.slots|)
  {
    match c.api
    case NoCall => return;
    case CallDisconnect(_) => return;
    case CallSend(_, _) => return;
    case CallSetGroup(_, _) => return;
  }

  lemma RootSteps(f: Frame, s: State, c: Choice)
    requires FrameFits(s, f) && (Where(f).Some? ==> f.Acc? || f.Wk? || !IsRoot(f))
    requires Target(s, f, c).Some? ==> Target(s, f, c).value >= |s.slots|
    ensures RootStep(f, Global(s, f, c), s.exited, |s.slots|)
  {
    match f
    case Usr => UserCalls(f, s, c); return;
    case Stop(pc, _) => if pc.TJoin? { return; } else { return; }
    case Acc(pc, _, _) => if pc.ACheck? { return; } else { return; }
    case _ => return;
  }

  ghost predicate RestStep(s: State, s': State, t: nat, o: Out)
    requires t < |s.threads| && s.threads[t] != []
  {
    && s'.slots == s.slots && s'.free == s.free && s'.active == s.active
    && s'.threads == s.threads[t := NextStack(s.threads[t], o.ctl)]
    && s'.exited == (s.exited || o.fx.AcceptExit?)
    && s'.running == (s.running && !o.fx.RunningOff?)
  }

  lemma RestingSteps(s: State, t: nat, c: Choice)
    requires Resting(s, t, c)
    ensures var f := Top(s.threads[t]);
      RootStep(f, Global(s, f, c), s.exited, |s.slots|) && RestStep(s, RunStep(s, t, c), t, Global(s, f, c))
    ensures Global(s, Top(s.threads[t]), c).ctl.Stay? || |s.threads[t]| == 1
  {
    var stk, f := s.threads[t], Top(s.threads[t]);
    assert FrameFits(s, f);
    RootSteps(f, s, c);
    if |stk| >= 2 {
      assert Linked(stk[|stk| - 2], stk[|stk| - 1]);
      CalleesHaveSlots(Top(Below(stk)), f);
    }
  }

  lemma NowhereHoldsNothing(f: Frame, i: nat, probe: nat)
    requires Where(f).None? || Weight(f, probe) == ZERO
    ensures V(f, At(i, probe)) == ZERO
  {
  }

  /** What a step on no slot moves weighs nothing. */
  ghost predicate Weightless(f: Frame, ctl: Ctl, w: Who) {
    match ctl
    case Stay => true
    case Goto(g) => V(f, w) == ZERO && V(g, w) == ZERO
    case Call(g, callee) => V(f, w) == ZERO && V(g, w) == ZERO && V(callee, w) == ZERO
    case Return(_) => false
  }

  lemma RestHoldsNothing(f: Frame, o: Out, exited: bool, n: nat, i: nat, probe: nat)
    requires RootStep(f, o, exited, n)
    ensures Weightless(f, o.ctl, At(i, probe))
  {
    match o.ctl
    case Stay => return;
    case Goto(g) => return;
    case Call(g, callee) => NowhereHoldsNothing(callee, i, probe); return;
    case Return(_) => return;
  }

  lemma PushWeightless(stk: seq<Frame>, f: Frame, w: Who)
    requires V(f, w) == ZERO
    ensures Sum(StackWeights(stk + [f], w)) == Sum(StackWeights(stk, w))
  {
    SumPush(stk, f, w);
    PlusZero(Sum(StackWeights(stk, w)));
  }

  /** A stack with a weightless top weighs what the rest does. */
  lemma TopWeightless(stk: seq<Frame>, w: Who)
    requires stk != [] && V(Top(stk), w) == ZERO
    ensures Sum(StackWeights(stk, w)) == Sum(StackWeights(Below(stk), w))
  {
    PushWeightless(Below(stk), Top(stk), w);
    assert Below(stk) + [Top(stk)] == stk;
  }

  lemma QuietStack(stk: seq<Frame>, ctl: Ctl, w: Who)
    requires stk != [] && Weightless(Top(stk), ctl, w)
    ensures Sum(StackWeights(NextStack(stk, ctl), w)) == Sum(StackWeights(stk, w))
  {
    var low := Below(stk);
    match ctl
    case Stay => return;
    case Goto(g) =>
      TopWeightless(stk, w);
      PushWeightless(low, g, w);
      return;
    case Call(g, callee) =>
      TopWeightless(stk, w);
      PushWeightless(low, g, w);
      PushWeightless(low + [g], callee, w);
      return;
    case Return(_) => return;
  }

  /** A stack in place of one that weighs as much. */
  lemma SameTotal(threads: seq<seq<Frame>>, t: nat, stk: seq<Frame>, w: Who)
    requires t < |threads| && Sum(StackWeights(stk, w)) == Sum(StackWeights(threads[t], w))
    ensures Total(threads[t := stk], w) == Total(threads, w)
  {
    TotalSplit(threads, t, stk, w);
    TotalOf(threads, t, w);
  }

  lemma QuietTotals(threads: seq<seq<Frame>>, t: nat, ctl: Ctl, w: Who)
    requires t < |threads| && threads[t] != [] && Weightless(Top(threads[t]), ctl, w)
    ensures Total(threads[t := NextStack(threads[t], ctl)], w) == Total(threads, w)
  {
    QuietStack(threads[t], ctl, w);
    SameTotal(threads, t, NextStack(threads[t], ctl), w);
  }

  lemma RestTotals(s: State, s': State, t: nat, o: Out, i: nat, probe: nat)
    requires t < |s.threads| && s.threads[t] != [] && RestStep(s, s', t, o)
    requires Weightless(Top(s.threads[t]), o.ctl, At(i, probe))
    ensures Total(s'.threads, At(i, probe)) == Total(s.threads, At(i, probe))
  {
    QuietTotals(s.threads, t, o.ctl, At(i, probe));
  }

  lemma RestAccounts(s: State, s': State, t: nat, o: Out)
    requires Inv(s) && t < |s.threads| && RestStep(s, s', t, o)
    requires RootStep(Top(s.threads[t]), o, s.exited, |s.slots|)
    ensures SlotsAccounted(s')
  {
    forall i: nat, probe: nat | i < |s'.slots|
      ensures Accounted(s'.slots[i], multiset(s'.free)[i], Total(s'.threads, At(i, probe)))
    {
      RestHoldsNothing(Top(s.threads[t]), o, s.exited, |s.slots|, i, probe);
      RestTotals(s, s', t, o, i, probe);
      assert Accounted(s.slots[i], multiset(s.free)[i], Total(s.threads, At(i, probe)));
    }
  }

  lemma RestCounts(f: Frame, o: Out, exited: bool, n: nat)
    requires RootStep(f, o, exited, n)
    requires f.Acc? && o.fx.AcceptExit? ==> !f.ap.AExit?
    ensures match o.ctl
            case Stay => !o.fx.AcceptExit?
            case Goto(g) => DecOf(g) == DecOf(f) == 0 && AccOf(g) == AccOf(f) - (if o.fx.AcceptExit? then 1 else 0)
            case Call(g, callee) =>
              AccOf(f) == AccOf(g) == AccOf(callee) == DecOf(f) == DecOf(g) == DecOf(callee) == 0 && !o.fx.AcceptExit?
            case Return(_) => false
  {
    match o.ctl
    case Stay => return;
    case Goto(g) => return;
    case Call(g, callee) => return;
  }

  lemma RestGlobals(s: State, s': State, t: nat, c: Choice)
    requires Resting(s, t, c) && RestStep(s, s', t, Global(s, Top(s.threads[t]), c))
    ensures Globals(s')
  {
    var f, o := Top(s.threads[t]), Global(s, Top(s.threads[t]), c);
    RestingSteps(s, t, c);
    RestCounts(f, o, s.exited, |s.slots|);
    if o.fx.AcceptExit? {
      assert FrameFits(s, f);
    }
    StepTotalsAll(s.threads, t, o.ctl);
  }

  lemma ExitFits(h: Frame, x: Slot)
    requires FrameOk(h, x, false) && !h.Acc?
    ensures FrameOk(h, x, true)
  {
    match h
    case Usr => return;
    case Stop(_, _) => return;
    case Wk(_, _, _, _) => return;
    case Dis(_, _, _) => return;
    case Snd(_, _, _, _) => return;
    case Grp(_, _, _) => return;
    case Post(_, _, _, _, _) => return;
    case Recv(_, _, _, _, _) => return;
    case Acq(_, _, _, _) => return;
    case Rel(_, _, _, _) => return;
  }

  /** The accept loop is the root of thread 0 and of no other. */
  lemma OneAcceptLoop(threads: seq<seq<Frame>>, t: nat, u: nat, k: nat)
    requires Shaped(threads) && t < |threads| && threads[t][0].Acc?
    requires u < |threads| && k < |threads[u]| && threads[u][k].Acc?
    ensures t == u && k == 0
  {
    assert RootOk(t, threads[t][0]);
    if k > 0 {
      assert Linked(threads[u][k - 1], threads[u][k]);
      CalleesHaveSlots(threads[u][k - 1], threads[u][k]);
    } else {
      assert RootOk(u, threads[u][0]);
    }
  }

  lemma RestStepFits(s: State, s': State, t: nat, o: Out)
    requires Inv(s) && t < |s.threads| && RestStep(s, s', t, o)
    requires RootStep(Top(s.threads[t]), o, s.exited, |s.slots|) && (o.ctl.Stay? || |s.threads[t]| == 1)
    ensures AllFit(s')
  {
    forall u, k | 0 <= u < |s'.threads| && 0 <= k < |s'.threads[u]| ensures FrameFits(s', s'.threads[u][k]) {
      var h := s'.threads[u][k];
      if u == t && !o.ctl.Stay? {
      } else {
        assert FrameFits(s, s.threads[u][k]);
        if o.fx.AcceptExit? && !s.exited {
          if h.Acc? {
            OneAcceptLoop(s.threads, t, u, k);
          }
          ExitFits(h, SlotOf(s, h));
        }
      }
    }
  }

  lemma RunStepKeepsInv(s: State, t: nat, c: Choice)
    requires Inv(s)
    ensures Inv(RunStep(s, t, c))
  {
    if t < |s.threads| {
      var target := Target(s, Top(s.threads[t]), c);
      if target.Some? && target.value < |s.slots| {
        SlotStepKeepsInv(s, t, target.value, c);
      } else {
        var o := Global(s, Top(s.threads[t]), c);
        RestingSteps(s, t, c);
        NextShape(s.threads, t, Top(s.threads[t]), o.ctl);
        RestAccounts(s, RunStep(s, t, c), t, o);
        RestGlobals(s, RunStep(s, t, c), t, c);
        RestStepFits(s, RunStep(s, t, c), t, o);
      }
    }
  }

  // ---------------------------------------------------------------- kernel steps

  /** A completion changes nothing but the operation's state and the wire. */
  ghost predicate Completes(x: Slot, y: Slot) {
    && y.core == x.core && y.hist == x.hist
    && y.flow == x.flow.(recvIo := y.flow.recvIo, sendIo := y.flow.sendIo)
    && y.queue == x.queue.(wire := y.queue.wire)
    && (y.flow.recvIo.Idle? <==> x.flow.recvIo.Idle?) && (y.flow.sendIo.Idle? <==> x.flow.sendIo.Idle?)
    && (!x.flow.recvIo.Idle? || !x.flow.sendIo.Idle?)
  }

  lemma KernelCompletes(s: State, i: nat, kind: IoKind, ok: bool, bytes: nat)
    requires KernelStep(s, i, kind, ok, bytes) != s
    ensures var s' := KernelStep(s, i, kind, ok, bytes);
      i < |s.slots| == |s'.slots| && s' == s.(slots := s.slots[i := s'.slots[i]]) && Completes(s.slots[i], s'.slots[i])
  {
  }

  lemma CompletionAccounts(x: Slot, y: Slot, occ: nat, T: Tally)
    requires Accounted(x, occ, T) && Completes(x, y)
    ensures Accounted(y, occ, T) && x.core.refs > 0
  {
  }

  lemma KernelStepKeepsInv(s: State, i: nat, kind: IoKind, ok: bool, bytes: nat)
    requires Inv(s)
    ensures Inv(KernelStep(s, i, kind, ok, bytes))
  {
    var s' := KernelStep(s, i, kind, ok, bytes);
    if s' != s {
      KernelCompletes(s, i, kind, ok, bytes);
      forall j: nat, probe: nat | j < |s'.slots|
        ensures Accounted(s'.slots[j], multiset(s'.free)[j], Total(s'.threads, At(j, probe)))
      {
        assert Accounted(s.slots[j], multiset(s.free)[j], Total(s.threads, At(j, probe)));
        if j == i {
          CompletionAccounts(s.slots[i], s'.slots[i], multiset(s.free)[i], Total(s.threads, At(i, probe)));
        }
      }
      assert Accounted(s.slots[i], multiset(s.free)[i], Total(s.threads, At(i, 0)));
      CompletionAccounts(s.slots[i], s'.slots[i], multiset(s.free)[i], Total(s.threads, At(i, 0)));
      KernelFits(s, s', i);
      CountedUpdate(s.slots, i, s'.slots[i]);
    }
  }

  lemma KernelFits(s: State, s': State, i: nat)
    requires Inv(s) && i < |s.slots| == |s'.slots| && s' == s.(slots := s.slots[i := s'.slots[i]])
    requires s.slots[i].core.refs > 0 && Guarantee(s.slots[i], s'.slots[i], 0, 0, 0, 0)
    ensures AllFit(s')
  {
    var x, y := s.slots[i], s'.slots[i];
    forall u, k | 0 <= u < |s'.threads| && 0 <= k < |s'.threads[u]| ensures FrameFits(s', s'.threads[u][k]) {
      var h := s.threads[u][k];
      assert FrameFits(s, h);
      if Where(h) == Some(i) {
        assert Accounted(x, multiset(s.free)[i], Total(s.threads, At(i, 0)));
        InSumAll(Weights(s.threads, At(i, 0)), u, k);
        NearWeight(h, i, 0);
        PlusZero(Total(s.threads, At(i, 0)));
        ApartFrom(Weight(h, 0), ZERO, x, multiset(s.free)[i], Total(s.threads, At(i, 0)), s.exited);
        Stable(h, x, y, 0, 0, 0, 0, s.exited);
      }
    }
  }

  lemma StepKeepsInv(s: State, l: Label)
    requires Inv(s)
    ensures Inv(Step(s, l))
  {
    match l
    case Run(t, c) => RunStepKeepsInv(s, t, c);
    case Kernel(i, kind, ok, bytes) => KernelStepKeepsInv(s, i, kind, ok, bytes);
  }

  // ---------------------------------------------------------------- whole runs

  lemma {:induction false} NoneCounted(slots: seq<Slot>)
    requires forall i :: 0 <= i < |slots| ==> slots[i] == EMPTY_SLOT
    ensures CountedSlots(slots) == 0
  {
    if slots != [] {
      NoneCounted(slots[..|slots| - 1]);
    }
  }

  lemma {:induction false} EachOnce(n: nat, i: nat)
    ensures multiset(seq(n, (k: nat) => k))[i] == if i < n then 1 else 0
  {
    if n > 0 {
      assert seq(n, (k: nat) => k) == seq(n - 1, (k: nat) => k) + [n - 1];
      EachOnce(n - 1, i);
    }
  }

  lemma InitTotals(n: nat, others: seq<bool>)
    ensures forall i: nat, probe: nat :: Total(Init(n, others).threads, At(i, probe)) == ZERO
    ensures Total(Init(n, others).threads, All) == ZERO.(acc := 1)
  {
    var threads := Init(n, others).threads;
    forall i: nat, probe: nat ensures Total(threads, At(i, probe)) == ZERO {
      SumAllSingles(Weights(threads, At(i, probe)));
    }
    SumAllSingles(Weights(threads, All));
  }

  lemma InitInv(n: nat, others: seq<bool>)
    ensures Inv(Init(n, others))
  {
    var s := Init(n, others);
    InitTotals(n, others);
    NoneCounted(s.slots);
    forall i: nat, probe: nat | i < n
      ensures Accounted(s.slots[i], multiset(s.free)[i], Total(s.threads, At(i, probe)))
    {
      EachOnce(n, i);
      assert Total(s.threads, At(i, probe)) == ZERO;
    }
    forall t, k | 0 <= t < |s.threads| && 0 <= k < |s.threads[t]| ensures FrameFits(s, s.threads[t][k]) {
      assert s.threads[t][k].Acc? || s.threads[t][k].Stop? || s.threads[t][k].Wk? || s.threads[t][k].Usr?;
    }
  }

  lemma StepKeepsSlots(s: State, l: Label)
    ensures |Step(s, l).slots| == |s.slots| && |Step(s, l).threads| == |s.threads|
  {
    match l
    case Run(t, c) => return;
    case Kernel(i, kind, ok, bytes) => return;
  }

  lemma {:induction false} RunKeepsSlots(n: nat, others: seq<bool>, run: seq<Label>)
    ensures |Exec(Init(n, others), run).slots| == n
  {
    if run != [] {
      RunKeepsSlots(n, others, run[..|run| - 1]);
      StepKeepsSlots(Exec(Init(n, others), run[..|run| - 1]), run[|run| - 1]);
    }
  }

  /** The invariant holds in every state of every run. */
  lemma {:induction false} Reachable(n: nat, others: seq<bool>, run: seq<Label>)
    ensures Inv(Exec(Init(n, others), run))
  {
    if run == [] {
      InitInv(n, others);
    } else {
      var s, l := Exec(Init(n, others), run[..|run| - 1]), run[|run| - 1];
      Reachable(n, others, run[..|run| - 1]);
      StepKeepsInv(s, l);
      assert Exec(Init(n, others), run) == Step(s, l);
    }
  }
}
