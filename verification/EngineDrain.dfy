/**
 Why a flagged session drains: posting, completing and picking up an operation all use up a measure that
 nothing refills once disconnect_flag is set.
 */
module EngineDrain {
  import opened EngineModel
  import opened Tallies
  import opened EngineTallies
  import opened EngineSlots
  import opened EngineSteps
  import opened EngineTotals
  import opened EngineTokens
  import opened EngineInvariant

  function Stage(io: Io): nat {
    match io
    case Idle => 0
    case Done(_, _) => 1
    case Posted(_) => 2
  }

  /** Where the operations of a slot stand. */
  function Work(x: Slot): nat {
    Stage(x.flow.recvIo) + Stage(x.flow.sendIo)
  }

  /** Threads past the flag check that have not posted yet, and outstanding operations. */
  function Pressure(s: State, i: nat): nat
    requires i < |s.slots|
  {
    3 * Total(s.threads, At(i, 0)).past + Work(s.slots[i])
  }

  ghost predicate Drains(f: Frame, x: Slot, o: Out) {
    var g, h := NewTop(f, o.ctl), Called(o.ctl);
    var before, after := 3 * PastOf(f) + Work(x), 3 * (PastOf(g) + PastOf(h)) + Work(o.x);
    after <= before && (Work(o.x) != Work(x) ==> after < before)
  }

  lemma DrainRoots(f: Frame, x: Slot, i: nat, c: Choice)
    requires f.Usr? || f.Stop? || f.Acc?
    ensures Drains(f, x, Local(f, x, i, c))
  {
    match f
    case Usr => return;
    case Stop(_, _) => return;
    case Acc(_, _, _) => return;
  }

  lemma DrainWk(f: Frame, x: Slot, i: nat, c: Choice)
    requires f.Wk?
    ensures Drains(f, x, Local(f, x, i, c))
  {
    match f.wp
    case WIdle => return;
    case WSend => return;
    case WDispatch => return;
    case _ => return;
  }

  lemma DrainApi(f: Frame, x: Slot, i: nat, c: Choice)
    requires f.Dis? || f.Grp?
    ensures Drains(f, x, Local(f, x, i, c))
  {
    match f
    case Dis(_, _, _) => return;
    case Grp(_, _, _) => return;
  }

  lemma DrainSnd(f: Frame, x: Slot, i: nat, c: Choice)
    requires f.Snd?
    ensures Drains(f, x, Local(f, x, i, c))
  {
  }

  lemma DrainAcq(f: Frame, x: Slot, i: nat, c: Choice)
    requires f.Acq?
    ensures Drains(f, x, Local(f, x, i, c))
  {
  }

  lemma DrainRel(f: Frame, x: Slot, i: nat, c: Choice)
    requires f.Rel?
    ensures Drains(f, x, Local(f, x, i, c))
  {
  }

  /** On a flagged session the posting functions only ever use up what they have. */
  lemma DrainPost(f: Frame, x: Slot, i: nat, c: Choice)
    requires f.Post? && x.flow.discFlag
    ensures Drains(f, x, Local(f, x, i, c))
  {
    match f.pp
    case PDrain => return;
    case PChk => return;
    case PIo => return;
    case PRel => return;
    case PPosted => return;
    case PCancel => return;
    case _ => return;
  }

  lemma DrainRecv(f: Frame, x: Slot, i: nat, c: Choice)
    requires f.Recv? && x.flow.discFlag
    ensures Drains(f, x, Local(f, x, i, c))
  {
  }

  lemma DrainStep(f: Frame, x: Slot, i: nat, c: Choice)
    requires x.flow.discFlag
    ensures Drains(f, x, Local(f, x, i, c))
  {
    if f.Wk? {
      DrainWk(f, x, i, c);
    } else if IsRoot(f) {
      DrainRoots(f, x, i, c);
    } else if f.Post? {
      DrainPost(f, x, i, c);
    } else if f.Recv? {
      DrainRecv(f, x, i, c);
    } else if f.Acq? {
      DrainAcq(f, x, i, c);
    } else if f.Rel? {
      DrainRel(f, x, i, c);
    } else if f.Snd? {
      DrainSnd(f, x, i, c);
    } else {
      DrainApi(f, x, i, c);
    }
  }

  lemma HeldPast(f: Frame)
    ensures Weight(f, 0).past == PastOf(f)
  {
    WeightFlags(f, 0);
  }

  lemma KeptPast(f: Frame, ctl: Ctl)
    ensures After(f, ctl, 0).past == PastOf(NewTop(f, ctl)) + PastOf(Called(ctl))
  {
    AfterFlags(f, ctl, 0);
  }

  lemma SlotStepDrains(s: State, t: nat, j: nat, c: Choice, i: nat)
    requires Moving(s, t, j, c) && i < |s.slots| && s.slots[i].flow.discFlag
    ensures var s' := RunStep(s, t, c);
      && |s'.slots| == |s.slots|
      && Pressure(s', i) <= Pressure(s, i)
      && (Work(s'.slots[i]) != Work(s.slots[i]) ==> Pressure(s', i) < Pressure(s, i))
  {
    var f, o := Top(s.threads[t]), Outcome(s, t, j, c);
    MovingSteps(s, t, j, c);
    MovingStack(s, t, j, c);
    if i == j {
      StepTotals(s.threads, t, i, o.ctl, 0);
      HeldPast(f);
      KeptPast(f, o.ctl);
      DrainStep(f, s.slots[i], i, c);
    } else {
      StepTotalsElsewhere(s.threads, t, j, i, o.ctl, 0);
    }
  }

  lemma RestStepDrains(s: State, t: nat, c: Choice, i: nat)
    requires Resting(s, t, c) && i < |s.slots|
    ensures |RunStep(s, t, c).slots| == |s.slots| && Pressure(RunStep(s, t, c), i) == Pressure(s, i)
    ensures RunStep(s, t, c).slots == s.slots
  {
    var f, o := Top(s.threads[t]), Global(s, Top(s.threads[t]), c);
    RestingSteps(s, t, c);
    if o.ctl.Stay? {
      assert s.threads[t := s.threads[t]] == s.threads;
    } else {
      RestHoldsNothing(f, o, s.exited, |s.slots|, i, 0);
      QuietTotals(s.threads, t, o.ctl, At(i, 0));
    }
  }

  lemma KernelDrains(s: State, j: nat, kind: IoKind, ok: bool, bytes: nat, i: nat)
    requires i < |s.slots|
    ensures var s' := KernelStep(s, j, kind, ok, bytes);
      && |s'.slots| == |s.slots|
      && Pressure(s', i) <= Pressure(s, i)
      && (Work(s'.slots[i]) != Work(s.slots[i]) ==> Pressure(s', i) < Pressure(s, i))
  {
    if kind.RecvKind? { return; }
  }

  /** On a flagged session every step keeps or lowers the measure, and every post, completion and pick-up lowers it. */
  lemma StepDrains(s: State, l: Label, i: nat)
    requires Inv(s) && i < |s.slots| && s.slots[i].flow.discFlag
    ensures |Step(s, l).slots| == |s.slots|
    ensures Pressure(Step(s, l), i) <= Pressure(s, i)
    ensures Work(Step(s, l).slots[i]) != Work(s.slots[i]) ==> Pressure(Step(s, l), i) < Pressure(s, i)
  {
    match l
    case Run(t, c) =>
      if t < |s.threads| {
        var target := Target(s, Top(s.threads[t]), c);
        if target.Some? && target.value < |s.slots| {
          SlotStepDrains(s, t, target.value, c, i);
        } else {
          RestStepDrains(s, t, c, i);
        }
      }
    case Kernel(j, kind, ok, bytes) => KernelDrains(s, j, kind, ok, bytes, i);
  }

  /** How many steps of a run post, complete or pick up an operation of slot i. */
  function IoSteps(s: State, run: seq<Label>, i: nat): nat
    requires i < |s.slots|
    decreases run
  {
    if run == [] then 0
    else
      StepKeepsSlots(s, run[0]);
      IoSteps(Step(s, run[0]), run[1..], i) + (if Work(Step(s, run[0]).slots[i]) != Work(s.slots[i]) then 1 else 0)
  }

  /** The slot stays flagged throughout the run. */
  ghost predicate StaysFlagged(s: State, run: seq<Label>, i: nat)
    requires i < |s.slots|
    decreases run
  {
    s.slots[i].flow.discFlag
    && (run != [] ==> (StepKeepsSlots(s, run[0]); StaysFlagged(Step(s, run[0]), run[1..], i)))
  }

  /** So while a session stays flagged, at most as many I/O steps can happen on it as the measure says at the start. */
  lemma {:induction false} DrainBound(s: State, run: seq<Label>, i: nat)
    requires Inv(s) && i < |s.slots| && StaysFlagged(s, run, i)
    ensures IoSteps(s, run, i) <= Pressure(s, i)
    decreases run
  {
    if run != [] {
      StepKeepsInv(s, run[0]);
      StepDrains(s, run[0], i);
      DrainBound(Step(s, run[0]), run[1..], i);
    }
  }
}
