/**
 Queue, hand-shakes and history over whole runs.
 */
module EngineRuns {
  import opened EngineModel
  import opened Tallies
  import opened EngineTallies
  import opened EngineSlots
  import opened EngineSteps
  import opened EngineTotals
  import opened EngineTokens
  import opened EngineInvariant
  import opened EngineQueue
  import opened EngineFlags
  import opened EngineStory

  ghost predicate Tells(x: Slot, T: Tally, probe: nat) {
    Queued(x, T) && Flagged(x, T) && Storied(x, T, probe)
  }

  ghost predicate SlotsTell(s: State) {
    forall i: nat, probe: nat :: i < |s.slots| ==> Tells(s.slots[i], Total(s.threads, At(i, probe)), probe)
  }

  ghost predicate FullInv(s: State) {
    Inv(s) && SlotsTell(s)
  }

  lemma MovingTells(s: State, t: nat, i: nat, c: Choice, probe: nat)
    requires SlotsTell(s) && Moving(s, t, i, c)
    ensures var f := Top(s.threads[t]);
      Tells(s.slots[i], Plus(Base(s.threads, t, At(i, probe)), Weight(f, probe)), probe)
  {
    MovingStack(s, t, i, c);
    StepTotals(s.threads, t, i, Outcome(s, t, i, c).ctl, probe);
    assert Tells(s.slots[i], Total(s.threads, At(i, probe)), probe);
  }

  lemma MovingKeepsTelling(s: State, t: nat, i: nat, c: Choice, probe: nat)
    requires SlotsTell(s) && Moving(s, t, i, c)
    ensures var f, o := Top(s.threads[t]), Outcome(s, t, i, c);
      Tells(o.x, Plus(Base(s.threads, t, At(i, probe)), After(f, o.ctl, probe)), probe)
  {
    var f, x, occ := Top(s.threads[t]), s.slots[i], multiset(s.free)[i];
    var g := EventGen(f, x);
    var b, own := Base(s.threads, t, At(i, probe)), Base(s.threads, t, At(i, g));
    MovingActs(s, t, i, c);
    MovingReady(s, t, i, c, probe);
    MovingReady(s, t, i, c, g);
    MovingTells(s, t, i, c, probe);
    MovingTells(s, t, i, c, g);
    QueueKept(f, x, i, c, occ, b, s.exited, probe);
    FlagsKept(f, x, i, c, occ, b, s.exited, probe);
    StoryKept(f, x, i, c, occ, b, own, s.exited, probe);
  }

  lemma SlotStepTells(s: State, s': State, t: nat, i: nat, c: Choice)
    requires SlotsTell(s) && Moving(s, t, i, c) && SlotStep(s, s', t, i, Outcome(s, t, i, c))
    ensures SlotsTell(s')
  {
    MovingStack(s, t, i, c);
    forall j: nat, probe: nat | j < |s'.slots|
      ensures Tells(s'.slots[j], Total(s'.threads, At(j, probe)), probe)
    {
      SlotStepTellsAt(s, s', t, i, c, j, probe);
    }
  }

  lemma SlotStepTellsAt(s: State, s': State, t: nat, i: nat, c: Choice, j: nat, probe: nat)
    requires SlotsTell(s) && Moving(s, t, i, c) && SlotStep(s, s', t, i, Outcome(s, t, i, c))
    requires StackReady(s.threads[t], i, Outcome(s, t, i, c).ctl) && j < |s.slots|
    ensures Tells(s'.slots[j], Total(s'.threads, At(j, probe)), probe)
  {
    var ctl := Outcome(s, t, i, c).ctl;
    if j == i {
      MovingKeepsTelling(s, t, i, c, probe);
      StepTotals(s.threads, t, i, ctl, probe);
    } else {
      assert Tells(s.slots[j], Total(s.threads, At(j, probe)), probe);
      StepTotalsElsewhere(s.threads, t, i, j, ctl, probe);
    }
  }

  lemma RestStepTells(s: State, s': State, t: nat, o: Out)
    requires FullInv(s) && t < |s.threads| && RestStep(s, s', t, o)
    requires RootStep(Top(s.threads[t]), o, s.exited, |s.slots|)
    ensures SlotsTell(s')
  {
    forall i: nat, probe: nat | i < |s'.slots|
      ensures Tells(s'.slots[i], Total(s'.threads, At(i, probe)), probe)
    {
      RestHoldsNothing(Top(s.threads[t]), o, s.exited, |s.slots|, i, probe);
      RestTotals(s, s', t, o, i, probe);
      assert Tells(s.slots[i], Total(s.threads, At(i, probe)), probe);
    }
  }

  lemma RunStepTells(s: State, t: nat, c: Choice)
    requires FullInv(s)
    ensures SlotsTell(RunStep(s, t, c))
  {
    if t < |s.threads| {
      var target := Target(s, Top(s.threads[t]), c);
      if target.Some? && target.value < |s.slots| {
        MovingSteps(s, t, target.value, c);
        SlotStepTells(s, RunStep(s, t, c), t, target.value, c);
      } else {
        RestingSteps(s, t, c);
        RestStepTells(s, RunStep(s, t, c), t, Global(s, Top(s.threads[t]), c));
      }
    }
  }

  lemma KernelTells(x: Slot, y: Slot, occ: nat, T: Tally, probe: nat, kind: IoKind, ok: bool, bytes: nat)
    requires Accounted(x, occ, T) && Balanced(T) && Tells(x, T, probe)
    requires
      || (kind.RecvKind? && x.flow.recvIo.Posted? && y == x.(flow := x.flow.(recvIo := Done(ok, bytes))))
      || (kind.SendKind? && x.flow.sendIo.Posted? && bytes <= |Unsent(x)|
          && y == x.(flow := x.flow.(sendIo := Done(ok, bytes)),
                     queue := x.queue.(wire := x.queue.wire + Unsent(x)[..bytes])))
    ensures Tells(y, T, probe)
  {
    if kind.SendKind? {
      assert T.credit == 0 && !x.flow.stuck && x.core.refs > 0;
      Take(x, y, T.reserved, ok, bytes, T.tear);
    } else {
      assert Unsent(y) == Unsent(x);
    }
  }

  lemma KernelStepTells(s: State, i: nat, kind: IoKind, ok: bool, bytes: nat)
    requires FullInv(s)
    ensures SlotsTell(KernelStep(s, i, kind, ok, bytes))
  {
    var s' := KernelStep(s, i, kind, ok, bytes);
    forall j: nat, probe: nat | j < |s'.slots|
      ensures Tells(s'.slots[j], Total(s'.threads, At(j, probe)), probe)
    {
      KernelTellsAt(s, i, kind, ok, bytes, j, probe);
    }
  }

  lemma KernelTellsAt(s: State, i: nat, kind: IoKind, ok: bool, bytes: nat, j: nat, probe: nat)
    requires FullInv(s) && j < |s.slots|
    ensures var s' := KernelStep(s, i, kind, ok, bytes);
      |s'.slots| == |s.slots| && Tells(s'.slots[j], Total(s'.threads, At(j, probe)), probe)
  {
    var s', T := KernelStep(s, i, kind, ok, bytes), Total(s.threads, At(j, probe));
    assert Tells(s.slots[j], T, probe);
    assert Accounted(s.slots[j], multiset(s.free)[j], T);
    TotalBalanced(s.threads, j, probe);
    if j == i && s' != s {
      KernelTells(s.slots[i], s'.slots[i], multiset(s.free)[i], T, probe, kind, ok, bytes);
    }
  }

  lemma InitTells(n: nat, others: seq<bool>)
    ensures SlotsTell(Init(n, others))
  {
    var s := Init(n, others);
    InitTotals(n, others);
    forall i: nat, probe: nat | i < n ensures Tells(s.slots[i], Total(s.threads, At(i, probe)), probe) {
      assert Total(s.threads, At(i, probe)) == ZERO;
    }
  }

  lemma StepKeepsAll(s: State, l: Label)
    requires FullInv(s)
    ensures FullInv(Step(s, l))
  {
    StepKeepsInv(s, l);
    match l
    case Run(t, c) => RunStepTells(s, t, c);
    case Kernel(i, kind, ok, bytes) => KernelStepTells(s, i, kind, ok, bytes);
  }

  /** Everything holds in every state of every run. */
  lemma {:induction false} ReachableAll(n: nat, others: seq<bool>, run: seq<Label>)
    ensures FullInv(Exec(Init(n, others), run))
  {
    if run == [] {
      InitInv(n, others);
      InitTells(n, others);
    } else {
      var s, l := Exec(Init(n, others), run[..|run| - 1]), run[|run| - 1];
      ReachableAll(n, others, run[..|run| - 1]);
      StepKeepsAll(s, l);
      assert Exec(Init(n, others), run) == Step(s, l);
    }
  }
}
