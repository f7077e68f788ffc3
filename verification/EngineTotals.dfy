/**
 How one step changes the totals: on the slot it works on, what the moving frame held is replaced by what
 the frames in its place hold; on every other slot nothing changes.
 */
module EngineTotals {
  import opened EngineModel
  import opened Options
  import opened Tallies
  import opened EngineTallies
  import opened EngineSlots
  import opened EngineSteps

  lemma GainsPlus(a: Tally, b: Tally, ref: nat, lock: nat)
    requires Gains(a, b, ref, lock)
    ensures a == Plus(b, ZERO.(ref := ref, lock := lock))
  {
  }

  function Top(stk: seq<Frame>): Frame
    requires stk != []
  {
    stk[|stk| - 1]
  }

  function Below(stk: seq<Frame>): seq<Frame>
    requires stk != []
  {
    stk[..|stk| - 1]
  }

  lemma SumPush(stk: seq<Frame>, f: Frame, w: Who)
    ensures Sum(StackWeights(stk + [f], w)) == Plus(Sum(StackWeights(stk, w)), V(f, w))
  {
    var ts: seq<Tally> := StackWeights(stk + [f], w);
    assert ts[..|ts| - 1] == StackWeights(stk, w);
  }

  /** What everything but the top frame of thread t holds. */
  function Base(threads: seq<seq<Frame>>, t: nat, w: Who): Tally
    requires t < |threads| && threads[t] != []
  {
    Plus(Rest(Weights(threads, w), t), Sum(StackWeights(Below(threads[t]), w)))
  }

  lemma SameUpdate<T>(s: seq<T>, t: nat)
    requires t < |s|
    ensures s[t := s[t]] == s
  {
  }

  lemma TotalOf(threads: seq<seq<Frame>>, t: nat, w: Who)
    requires t < |threads|
    ensures Total(threads, w) == Plus(Rest(Weights(threads, w), t), Sum(StackWeights(threads[t], w)))
  {
    TotalSplit(threads, t, threads[t], w);
    SameUpdate(threads, t);
  }

  lemma Rebuilt(stk: seq<Frame>)
    requires stk != []
    ensures Below(stk) + [Top(stk)] == stk
  {
  }

  lemma StackSplit(stk: seq<Frame>, w: Who)
    requires stk != []
    ensures Sum(StackWeights(stk, w)) == Plus(Sum(StackWeights(Below(stk), w)), V(Top(stk), w))
  {
    SumPush(Below(stk), Top(stk), w);
    Rebuilt(stk);
  }

  lemma TotalBefore(threads: seq<seq<Frame>>, t: nat, w: Who)
    requires t < |threads| && threads[t] != []
    ensures Total(threads, w) == Plus(Base(threads, t, w), V(Top(threads[t]), w))
  {
    var stk := threads[t];
    TotalOf(threads, t, w);
    StackSplit(stk, w);
    PlusSwap(Rest(Weights(threads, w), t), Sum(StackWeights(Below(stk), w)), V(Top(stk), w));
  }

  /** What the frames that take the place of the top frame hold. */
  function AfterV(f: Frame, ctl: Ctl, handed: Tally, w: Who): Tally {
    match ctl
    case Stay => V(f, w)
    case Goto(g) => V(g, w)
    case Call(g, callee) => Plus(V(g, w), V(callee, w))
    case Return(_) => handed
  }

  lemma ResumedSum(low: seq<Frame>, p: Frame, p': Frame, handed: Tally, w: Who)
    requires V(p', w) == Plus(V(p, w), handed)
    ensures Sum(StackWeights(low + [p'], w)) == Plus(Sum(StackWeights(low + [p], w)), handed)
  {
    SumPush(low, p', w);
    SumPush(low, p, w);
    PlusSwap(Sum(StackWeights(low, w)), V(p, w), handed);
  }

  lemma ReturnedStack(stk: seq<Frame>, r: bool)
    requires |stk| >= 2
    ensures NextStack(stk, Return(r)) == Below(Below(stk)) + [Resume(Top(Below(stk)), r)]
    ensures Below(stk) == Below(Below(stk)) + [Top(Below(stk))]
  {
    assert Below(Below(stk)) == stk[..|stk| - 2];
  }

  lemma TotalAfterReturn(threads: seq<seq<Frame>>, t: nat, r: bool, handed: Tally, w: Who)
    requires t < |threads| && |threads[t]| >= 2
    requires var p := Top(Below(threads[t])); V(Resume(p, r), w) == Plus(V(p, w), handed)
    ensures Total(threads[t := NextStack(threads[t], Return(r))], w) == Plus(Base(threads, t, w), handed)
  {
    var stk := threads[t];
    var low, p := Below(Below(stk)), Top(Below(stk));
    ReturnedStack(stk, r);
    TotalSplit(threads, t, low + [Resume(p, r)], w);
    ResumedSum(low, p, Resume(p, r), handed, w);
    PlusSwap(Rest(Weights(threads, w), t), Sum(StackWeights(Below(stk), w)), handed);
  }

  lemma TotalAfter(threads: seq<seq<Frame>>, t: nat, ctl: Ctl, handed: Tally, w: Who)
    requires t < |threads| && threads[t] != []
    requires ctl.Return? ==>
      |threads[t]| >= 2 && var p := Top(Below(threads[t])); V(Resume(p, ctl.result), w) == Plus(V(p, w), handed)
    ensures Total(threads[t := NextStack(threads[t], ctl)], w)
         == Plus(Base(threads, t, w), AfterV(Top(threads[t]), ctl, handed, w))
  {
    var stk := threads[t];
    var rest, low := Rest(Weights(threads, w), t), Below(stk);
    match ctl
    case Stay =>
      assert threads[t := stk] == threads;
      TotalBefore(threads, t, w);
    case Goto(g) =>
      TotalSplit(threads, t, low + [g], w);
      SumPush(low, g, w);
      PlusSwap(rest, Sum(StackWeights(low, w)), V(g, w));
    case Call(g, callee) =>
      TotalSplit(threads, t, low + [g] + [callee], w);
      SumPush(low + [g], callee, w);
      SumPush(low, g, w);
      PlusSwap(Sum(StackWeights(low, w)), V(g, w), V(callee, w));
      PlusSwap(rest, Sum(StackWeights(low, w)), Plus(V(g, w), V(callee, w)));
    case Return(r) =>
      TotalAfterReturn(threads, t, r, handed, w);
  }

  // ---------------------------------------------------------------- slots

  /** A frame that works on slot i or on none. */
  ghost predicate Near(f: Frame, i: nat) {
    Where(f).None? || Where(f).value == i
  }

  /** Frame f takes its next step on slot i. */
  ghost predicate ActsOn(f: Frame, i: nat) {
    || Where(f) == Some(i)
    || (f.Acc? && f.ap.AWait?)
    || (f.Wk? && f.wp.WIdle?)
    || (f.Stop? && f.sp.TSweep? && f.k == i)
  }

  lemma NowhereWeighsNothing(f: Frame, probe: nat)
    requires Where(f).None?
    ensures Weight(f, probe) == ZERO
  {
    match f
    case Usr => return;
    case Stop(_, _) => return;
    case Acc(_, _, _) => return;
    case Wk(_, _, _, _) => return;
    case _ => return;
  }

  lemma NearWeight(f: Frame, i: nat, probe: nat)
    requires Near(f, i)
    ensures V(f, At(i, probe)) == Weight(f, probe)
  {
    if Where(f).None? {
      NowhereWeighsNothing(f, probe);
    }
  }

  lemma FarWeight(f: Frame, i: nat, j: nat, probe: nat)
    requires Near(f, i) && j != i
    ensures V(f, At(j, probe)) == ZERO
  {
  }

  ghost predicate StaysNear(ctl: Ctl, i: nat) {
    match ctl
    case Goto(g) => Near(g, i)
    case Call(g, callee) => Near(g, i) && Near(callee, i)
    case _ => true
  }

  lemma StepStaysNear(f: Frame, x: Slot, i: nat, c: Choice)
    requires ActsOn(f, i)
    ensures StaysNear(Local(f, x, i, c).ctl, i)
  {
    match f {
      case Usr => return;
      case Stop(_, _) => return;
      case Acc(_, _, _) => return;
      case Wk(_, _, _, _) => return;
      case _ => CalleeStaysNear(f, x, i, c);
    }
  }

  lemma CalleeStaysNear(f: Frame, x: Slot, i: nat, c: Choice)
    requires Where(f) == Some(i) && !f.Acc? && !f.Wk?
    ensures StaysNear(Local(f, x, i, c).ctl, i)
  {
    match f
    case Dis(_, _, _) => return;
    case Snd(_, _, _, _) => return;
    case Grp(_, _, _) => return;
    case Post(_, _, _, _, _) => return;
    case Recv(_, _, _, _, _) => return;
    case Acq(_, _, _, _) => return;
    case Rel(_, _, _, _) => return;
  }

  lemma CallerNear(p: Frame, f: Frame, r: bool, i: nat)
    requires Linked(p, f) && Where(f) == Some(i)
    ensures Near(p, i) && Near(Resume(p, r), i)
  {
    match p
    case Usr => return;
    case Stop(_, _) => return;
    case Acc(_, _, _) => return;
    case Wk(_, _, _, _) => return;
    case Dis(_, _, _) => return;
    case Snd(_, _, _, _) => return;
    case Grp(_, _, _) => return;
    case Post(_, _, _, _, _) => return;
    case Recv(_, _, _, _, _) => return;
    case Acq(_, _, _, _) => return;
    case Rel(_, _, _, _) => return;
  }

  /** What holds of a stack before its top frame steps with outcome ctl. */
  ghost predicate StackReady(stk: seq<Frame>, i: nat, ctl: Ctl) {
    && stk != []
    && ActsOn(Top(stk), i)
    && StaysNear(ctl, i)
    && (|stk| >= 2 ==> Linked(Top(Below(stk)), Top(stk)))
    && (ctl.Return? ==>
          && |stk| >= 2 && Where(Top(stk)) == Some(i)
          && (ctl.result || !Top(stk).Acq? || !(Top(Below(stk)).Post? || Top(Below(stk)).Recv?)))
  }

  lemma ReturnsHere(stk: seq<Frame>, i: nat, ctl: Ctl, probe: nat)
    requires StackReady(stk, i, ctl) && ctl.Return?
    ensures var p, f := Top(Below(stk)), Top(stk);
      V(Resume(p, ctl.result), At(i, probe))
      == Plus(V(p, At(i, probe)), ZERO.(ref := HandsRef(f, ctl), lock := HandsLock(f)))
  {
    var p, f := Top(Below(stk)), Top(stk);
    CallerNear(p, f, ctl.result, i);
    NearWeight(p, i, probe);
    NearWeight(Resume(p, ctl.result), i, probe);
    ResumeWeight(p, f, ctl, probe);
    GainsPlus(Weight(Resume(p, ctl.result), probe), Weight(p, probe), HandsRef(f, ctl), HandsLock(f));
  }

  /** On the slot a step works on, the total changes from b + what f held to b + what takes its place. */
  lemma StepTotals(threads: seq<seq<Frame>>, t: nat, i: nat, ctl: Ctl, probe: nat)
    requires t < |threads| && StackReady(threads[t], i, ctl)
    ensures var b, f := Base(threads, t, At(i, probe)), Top(threads[t]);
      && Total(threads, At(i, probe)) == Plus(b, Weight(f, probe))
      && Total(threads[t := NextStack(threads[t], ctl)], At(i, probe)) == Plus(b, After(f, ctl, probe))
  {
    var stk := threads[t];
    var f := Top(stk);
    var handed := ZERO.(ref := HandsRef(f, ctl), lock := HandsLock(f));
    NearWeight(f, i, probe);
    TotalBefore(threads, t, At(i, probe));
    match ctl {
      case Stay =>
      case Goto(g) => NearWeight(g, i, probe);
      case Call(g, callee) => NearWeight(g, i, probe); NearWeight(callee, i, probe);
      case Return(_) => ReturnsHere(stk, i, ctl, probe);
    }
    TotalAfter(threads, t, ctl, handed, At(i, probe));
  }

  lemma ReturnsFar(stk: seq<Frame>, i: nat, j: nat, ctl: Ctl, probe: nat)
    requires StackReady(stk, i, ctl) && ctl.Return? && j != i
    ensures var p := Top(Below(stk)); V(Resume(p, ctl.result), At(j, probe)) == V(p, At(j, probe)) == ZERO
  {
    var p := Top(Below(stk));
    CallerNear(p, Top(stk), ctl.result, i);
    FarWeight(p, i, j, probe);
    FarWeight(Resume(p, ctl.result), i, j, probe);
  }

  lemma NothingElsewhere(stk: seq<Frame>, i: nat, j: nat, ctl: Ctl, probe: nat)
    requires StackReady(stk, i, ctl) && !ctl.Return? && j != i
    ensures AfterV(Top(stk), ctl, ZERO, At(j, probe)) == ZERO
  {
    match ctl
    case Stay => FarWeight(Top(stk), i, j, probe); return;
    case Goto(g) => FarWeight(g, i, j, probe); return;
    case Call(g, callee) => FarWeight(g, i, j, probe); FarWeight(callee, i, j, probe); PlusZero(ZERO); return;
  }

  /** On every other slot it stays the same. */
  lemma StepTotalsElsewhere(threads: seq<seq<Frame>>, t: nat, i: nat, j: nat, ctl: Ctl, probe: nat)
    requires t < |threads| && StackReady(threads[t], i, ctl) && j != i
    ensures Total(threads[t := NextStack(threads[t], ctl)], At(j, probe)) == Total(threads, At(j, probe))
  {
    var w := At(j, probe);
    TotalBefore(threads, t, w);
    FarWeight(Top(threads[t]), i, j, probe);
    assert AfterV(Top(threads[t]), ctl, ZERO, w) == ZERO by {
      if !ctl.Return? { NothingElsewhere(threads[t], i, j, ctl, probe); }
    }
    if ctl.Return? {
      ReturnsFar(threads[t], i, j, ctl, probe);
      PlusZero(V(Top(Below(threads[t])), w));
    }
    TotalAfter(threads, t, ctl, ZERO, w);
  }

  // ---------------------------------------------------------------- the engine as a whole

  function AccOf(f: Frame): nat { if f.Acc? && !f.ap.AExit? then 1 else 0 }
  function DecOf(f: Frame): nat { if f.Rel? && f.lp.LDec? then 1 else 0 }

  /** The accept loop and the decrements of active_session_count still to come. */
  lemma StepTotalsAll(threads: seq<seq<Frame>>, t: nat, ctl: Ctl)
    requires t < |threads| && threads[t] != []
    requires |threads[t]| >= 2 ==> Linked(Top(Below(threads[t])), Top(threads[t]))
    requires ctl.Return? ==> |threads[t]| >= 2
    ensures var f, b := Top(threads[t]), Base(threads, t, All);
      var after := Total(threads[t := NextStack(threads[t], ctl)], All);
      && Total(threads, All).acc == b.acc + AccOf(f) && Total(threads, All).dec == b.dec + DecOf(f)
      && match ctl
         case Stay => after.acc == b.acc + AccOf(f) && after.dec == b.dec + DecOf(f)
         case Goto(g) => after.acc == b.acc + AccOf(g) && after.dec == b.dec + DecOf(g)
         case Call(g, callee) =>
           && after.acc == b.acc + AccOf(g) + AccOf(callee)
           && after.dec == b.dec + DecOf(g) + DecOf(callee)
         case Return(_) => after.acc == b.acc && after.dec == b.dec
  {
    var stk := threads[t];
    TotalBefore(threads, t, All);
    if ctl.Return? {
      var p := Top(Below(stk));
      ResumeAll(p, Top(stk), ctl.result);
      PlusZero(V(p, All));
    }
    TotalAfter(threads, t, ctl, ZERO, All);
  }

  lemma ResumeAll(p: Frame, f: Frame, r: bool)
    requires Linked(p, f)
    ensures V(Resume(p, r), All) == V(p, All)
  {
    match p
    case Acc(_, _, _) => return;
    case Rel(_, _, _, _) => return;
    case _ => return;
  }
}
