/**
 The per-class lemmas of EngineSlots in one statement: a step of any frame keeps the accounting of its
 slot, leaves frames of the same class with what they rely on, and promises the rest of the system a Guarantee.
 */
module EngineSteps {
  import opened EngineModel
  import opened Tallies
  import opened EngineTallies
  import opened EngineSlots

  /** A returning frame hands its lent or acquired reference, and the session lock, back to its caller. */
  ghost function HandsRef(f: Frame, ctl: Ctl): nat {
    if f.Recv? || f.Post? || (f.Acq? && ctl.Return? && ctl.result) then 1 else 0
  }

  ghost function HandsLock(f: Frame): nat {
    if f.Recv? && f.held then 1 else 0
  }

  ghost predicate Gains(a: Tally, b: Tally, ref: int, lock: int) {
    && a.ref == b.ref + ref && a.send == b.send && a.recv == b.recv && a.lock == b.lock + lock && a.pre == b.pre
    && a.mid == b.mid && a.tear == b.tear && a.early == b.early && a.preJoin == b.preJoin
    && a.reserved == b.reserved && a.credit == b.credit && a.retryP == b.retryP && a.retryI == b.retryI
    && a.canR == b.canR && a.canS == b.canS && a.past == b.past && a.cbJ == b.cbJ && a.cbR == b.cbR
    && a.cbS == b.cbS && a.pl == b.pl && a.leave == b.leave
    && a.acc == b.acc && a.dec == b.dec
  }

  /** What the frames in place of `f` hold after its step. */
  ghost function After(f: Frame, ctl: Ctl, probe: nat): Tally {
    match ctl
    case Stay => Weight(f, probe)
    case Goto(g) => Weight(g, probe)
    case Call(g, callee) => Plus(Weight(g, probe), Weight(callee, probe))
    case Return(_) => ZERO.(ref := HandsRef(f, ctl), lock := HandsLock(f))
  }

  /** The frames in place of `f` have what they rely on. */
  ghost predicate FramesOk(f: Frame, ctl: Ctl, x: Slot, exited: bool) {
    match ctl
    case Stay => FrameOk(f, x, exited)
    case Goto(g) => FrameOk(g, x, exited)
    case Call(g, callee) => FrameOk(g, x, exited) && FrameOk(callee, x, exited) && Linked(g, callee)
    case Return(r) => Promise(f, r, x, exited)
  }

  /** Frame f may take its next step on slot x, which it reaches as slot i. */
  ghost predicate Ready(f: Frame, x: Slot, i: nat, occ: nat, b: Tally, exited: bool, probe: nat) {
    && Balanced(b)
    && FrameOk(f, x, exited)
    && Accounted(x, occ, Plus(b, Weight(f, probe)))
    && (f.Acc? && f.ap.AWait? ==> occ == 1)
    && (Where(f).Some? ==> Where(f).value == i)
    && (f.Stop? ==> exited)
  }

  ghost predicate Kept(f: Frame, x: Slot, o: Out, occ: nat, b: Tally, exited: bool, probe: nat) {
    && Occ(occ, o.fx) >= 0
    && Accounted(o.x, Occ(occ, o.fx), Plus(b, After(f, o.ctl, probe)))
    && Guarantee(x, o.x, SendOf(f), PreOf(f), MidOf(f), TearOf(f))
    && FramesOk(f, o.ctl, o.x, exited)
  }

  lemma CallCounts(v: Tally, w: Tally, y: Slot, occ: int, b: Tally, ref: int, recv: int, lock: int)
    requires AccountedBy(y, occ, b.ref + ref + v.ref, b.send + v.send, b.recv + recv + v.recv, b.lock + lock + v.lock,
                         b.pre + v.pre, b.mid + v.mid, b.tear + v.tear)
    requires w.ref == ref && w.recv == recv && w.lock == lock && w.send == w.pre == w.mid == w.tear == 0
    ensures Accounted(y, occ, Plus(b, Plus(v, w)))
  {
  }

  lemma FreshWeight(callee: Frame, y: Slot, exited: bool, probe: nat)
    requires CalleeOk(callee, y, exited)
    ensures var w := Weight(callee, probe);
      && w.ref == EntryRef(callee) && w.recv == EntryRecv(callee) && w.lock == EntryLock(callee)
      && w.send == 0 && w.pre == 0 && w.mid == 0 && w.tear == 0
  {
  }

  lemma CountedAcc(f: Frame, ctl: Ctl, y: Slot, occ: int, b: Tally, exited: bool, probe: nat)
    requires f.Acc? && CountsAcc(f, ctl, y, occ, b)
    requires ctl.Call? ==> CalleeOk(ctl.callee, y, exited)
    ensures Accounted(y, occ, Plus(b, After(f, ctl, probe)))
  {
    match ctl
    case Stay => return;
    case Goto(g) => return;
    case Call(g, callee) =>
      FreshWeight(callee, y, exited, probe);
      CallCounts(Weight(g, probe), Weight(callee, probe), y, occ, b, EntryRef(callee), EntryRecv(callee),
                 EntryLock(callee));
      return;
    case Return(r) => return;
  }

  lemma ControlledAcc(f: Frame, ctl: Ctl, x: Slot, y: Slot, exited: bool)
    requires f.Acc? && ControlAcc(f, ctl, y, exited) && (ctl.Stay? ==> x == y) && FrameOk(f, x, exited)
    ensures FramesOk(f, ctl, y, exited)
  {
    match ctl
    case Stay => return;
    case Goto(g) => return;
    case Call(g, callee) => return;
    case Return(_) => return;
  }

  lemma CountedWk(f: Frame, ctl: Ctl, y: Slot, occ: int, b: Tally, exited: bool, probe: nat)
    requires f.Wk? && CountsWk(f, ctl, y, occ, b)
    requires ctl.Call? ==> CalleeOk(ctl.callee, y, exited)
    ensures Accounted(y, occ, Plus(b, After(f, ctl, probe)))
  {
    match ctl
    case Stay => return;
    case Goto(g) => return;
    case Call(g, callee) =>
      FreshWeight(callee, y, exited, probe);
      CallCounts(Weight(g, probe), Weight(callee, probe), y, occ, b, EntryRef(callee), EntryRecv(callee),
                 EntryLock(callee));
      return;
    case Return(r) => return;
  }

  lemma ControlledWk(f: Frame, ctl: Ctl, x: Slot, y: Slot, exited: bool)
    requires f.Wk? && ControlWk(f, ctl, y, exited) && (ctl.Stay? ==> x == y) && FrameOk(f, x, exited)
    ensures FramesOk(f, ctl, y, exited)
  {
    match ctl
    case Stay => return;
    case Goto(g) => return;
    case Call(g, callee) => return;
    case Return(_) => return;
  }

  lemma CountedDis(f: Frame, ctl: Ctl, y: Slot, occ: int, b: Tally, exited: bool, probe: nat)
    requires f.Dis? && CountsDis(f, ctl, y, occ, b)
    requires ctl.Call? ==> CalleeOk(ctl.callee, y, exited)
    ensures Accounted(y, occ, Plus(b, After(f, ctl, probe)))
  {
    match ctl
    case Stay => return;
    case Goto(g) => return;
    case Call(g, callee) =>
      FreshWeight(callee, y, exited, probe);
      CallCounts(Weight(g, probe), Weight(callee, probe), y, occ, b, EntryRef(callee), EntryRecv(callee),
                 EntryLock(callee));
      return;
    case Return(r) => return;
  }

  lemma ControlledDis(f: Frame, ctl: Ctl, x: Slot, y: Slot, exited: bool)
    requires f.Dis? && ControlDis(f, ctl, y, exited) && (ctl.Stay? ==> x == y) && FrameOk(f, x, exited)
    ensures FramesOk(f, ctl, y, exited)
  {
    match ctl
    case Stay => return;
    case Goto(g) => return;
    case Call(g, callee) => return;
    case Return(_) => return;
  }

  lemma CountedSnd(f: Frame, ctl: Ctl, y: Slot, occ: int, b: Tally, exited: bool, probe: nat)
    requires f.Snd? && CountsSnd(f, ctl, y, occ, b)
    requires ctl.Call? ==> CalleeOk(ctl.callee, y, exited)
    ensures Accounted(y, occ, Plus(b, After(f, ctl, probe)))
  {
    match ctl
    case Stay => return;
    case Goto(g) => return;
    case Call(g, callee) =>
      FreshWeight(callee, y, exited, probe);
      CallCounts(Weight(g, probe), Weight(callee, probe), y, occ, b, EntryRef(callee), EntryRecv(callee),
                 EntryLock(callee));
      return;
    case Return(r) => return;
  }

  lemma ControlledSnd(f: Frame, ctl: Ctl, x: Slot, y: Slot, exited: bool)
    requires f.Snd? && ControlSnd(f, ctl, y, exited) && (ctl.Stay? ==> x == y) && FrameOk(f, x, exited)
    ensures FramesOk(f, ctl, y, exited)
  {
    match ctl
    case Stay => return;
    case Goto(g) => return;
    case Call(g, callee) => return;
    case Return(_) => return;
  }

  lemma CountedGrp(f: Frame, ctl: Ctl, y: Slot, occ: int, b: Tally, exited: bool, probe: nat)
    requires f.Grp? && CountsGrp(f, ctl, y, occ, b)
    requires ctl.Call? ==> CalleeOk(ctl.callee, y, exited)
    ensures Accounted(y, occ, Plus(b, After(f, ctl, probe)))
  {
    match ctl
    case Stay => return;
    case Goto(g) => return;
    case Call(g, callee) =>
      FreshWeight(callee, y, exited, probe);
      CallCounts(Weight(g, probe), Weight(callee, probe), y, occ, b, EntryRef(callee), EntryRecv(callee),
                 EntryLock(callee));
      return;
    case Return(r) => return;
  }

  lemma ControlledGrp(f: Frame, ctl: Ctl, x: Slot, y: Slot, exited: bool)
    requires f.Grp? && ControlGrp(f, ctl, y, exited) && (ctl.Stay? ==> x == y) && FrameOk(f, x, exited)
    ensures FramesOk(f, ctl, y, exited)
  {
    match ctl
    case Stay => return;
    case Goto(g) => return;
    case Call(g, callee) => return;
    case Return(_) => return;
  }

  lemma CountedPost(f: Frame, ctl: Ctl, y: Slot, occ: int, b: Tally, exited: bool, probe: nat)
    requires f.Post? && CountsPost(f, ctl, y, occ, b)
    requires ctl.Call? ==> CalleeOk(ctl.callee, y, exited)
    ensures Accounted(y, occ, Plus(b, After(f, ctl, probe)))
  {
    match ctl
    case Stay => return;
    case Goto(g) => return;
    case Call(g, callee) =>
      FreshWeight(callee, y, exited, probe);
      CallCounts(Weight(g, probe), Weight(callee, probe), y, occ, b, EntryRef(callee), EntryRecv(callee),
                 EntryLock(callee));
      return;
    case Return(r) => return;
  }

  lemma ControlledPost(f: Frame, ctl: Ctl, x: Slot, y: Slot, exited: bool)
    requires f.Post? && ControlPost(f, ctl, y, exited) && (ctl.Stay? ==> x == y) && FrameOk(f, x, exited)
    ensures FramesOk(f, ctl, y, exited)
  {
    match ctl
    case Stay => return;
    case Goto(g) => return;
    case Call(g, callee) => return;
    case Return(_) => return;
  }

  lemma CountedRecv(f: Frame, ctl: Ctl, y: Slot, occ: int, b: Tally, exited: bool, probe: nat)
    requires f.Recv? && CountsRecv(f, ctl, y, occ, b)
    requires ctl.Call? ==> CalleeOk(ctl.callee, y, exited)
    ensures Accounted(y, occ, Plus(b, After(f, ctl, probe)))
  {
    match ctl
    case Stay => return;
    case Goto(g) => return;
    case Call(g, callee) =>
      FreshWeight(callee, y, exited, probe);
      CallCounts(Weight(g, probe), Weight(callee, probe), y, occ, b, EntryRef(callee), EntryRecv(callee),
                 EntryLock(callee));
      return;
    case Return(r) => return;
  }

  lemma ControlledRecv(f: Frame, ctl: Ctl, x: Slot, y: Slot, exited: bool)
    requires f.Recv? && ControlRecv(f, ctl, y, exited) && (ctl.Stay? ==> x == y) && FrameOk(f, x, exited)
    ensures FramesOk(f, ctl, y, exited)
  {
    match ctl
    case Stay => return;
    case Goto(g) => return;
    case Call(g, callee) => return;
    case Return(_) => return;
  }

  lemma CountedAcq(f: Frame, ctl: Ctl, y: Slot, occ: int, b: Tally, exited: bool, probe: nat)
    requires f.Acq? && CountsAcq(f, ctl, y, occ, b)
    requires ctl.Call? ==> CalleeOk(ctl.callee, y, exited)
    ensures Accounted(y, occ, Plus(b, After(f, ctl, probe)))
  {
    match ctl
    case Stay => return;
    case Goto(g) => return;
    case Call(g, callee) =>
      FreshWeight(callee, y, exited, probe);
      CallCounts(Weight(g, probe), Weight(callee, probe), y, occ, b, EntryRef(callee), EntryRecv(callee),
                 EntryLock(callee));
      return;
    case Return(r) => if r { return; }
  }

  lemma ControlledAcq(f: Frame, ctl: Ctl, x: Slot, y: Slot, exited: bool)
    requires f.Acq? && ControlAcq(f, ctl, y, exited) && (ctl.Stay? ==> x == y) && FrameOk(f, x, exited)
    ensures FramesOk(f, ctl, y, exited)
  {
    match ctl
    case Stay => return;
    case Goto(g) => return;
    case Call(g, callee) => return;
    case Return(_) => return;
  }

  lemma CountedRel(f: Frame, ctl: Ctl, y: Slot, occ: int, b: Tally, exited: bool, probe: nat)
    requires f.Rel? && CountsRel(f, ctl, y, occ, b)
    requires ctl.Call? ==> CalleeOk(ctl.callee, y, exited)
    ensures Accounted(y, occ, Plus(b, After(f, ctl, probe)))
  {
    match ctl
    case Stay => return;
    case Goto(g) => return;
    case Call(g, callee) =>
      FreshWeight(callee, y, exited, probe);
      CallCounts(Weight(g, probe), Weight(callee, probe), y, occ, b, EntryRef(callee), EntryRecv(callee),
                 EntryLock(callee));
      return;
    case Return(r) => return;
  }

  lemma ControlledRel(f: Frame, ctl: Ctl, x: Slot, y: Slot, exited: bool)
    requires f.Rel? && ControlRel(f, ctl, y, exited) && (ctl.Stay? ==> x == y) && FrameOk(f, x, exited)
    ensures FramesOk(f, ctl, y, exited)
  {
    match ctl
    case Stay => return;
    case Goto(g) => return;
    case Call(g, callee) => return;
    case Return(_) => return;
  }

  lemma ReadyAccFrom(f: Frame, x: Slot, i: nat, occ: nat, b: Tally, exited: bool, probe: nat)
    requires f.Acc? && Ready(f, x, i, occ, b, exited, probe)
    ensures ReadyAcc(f, x, i, occ, b, exited)
  {
  }

  lemma JoinAcc(f: Frame, x: Slot, o: Out, occ: nat, b: Tally, exited: bool, probe: nat)
    requires f.Acc? && FrameOk(f, x, exited) && KeptAcc(f, x, o, occ, b, exited) && (o.ctl.Stay? ==> x == o.x)
    ensures Kept(f, x, o, occ, b, exited, probe)
  {
    CountedAcc(f, o.ctl, o.x, Occ(occ, o.fx), b, exited, probe);
    ControlledAcc(f, o.ctl, x, o.x, exited);
    assert Guarantee(x, o.x, 0, PreAcc(f.ap), MidAcc(f.ap), 0);
  }

  lemma ReadyWkFrom(f: Frame, x: Slot, i: nat, occ: nat, b: Tally, exited: bool, probe: nat)
    requires f.Wk? && Ready(f, x, i, occ, b, exited, probe)
    ensures ReadyWk(f, x, i, occ, b, exited)
  {
  }

  lemma JoinWk(f: Frame, x: Slot, o: Out, occ: nat, b: Tally, exited: bool, probe: nat)
    requires f.Wk? && FrameOk(f, x, exited) && KeptWk(f, x, o, occ, b, exited) && (o.ctl.Stay? ==> x == o.x)
    ensures Kept(f, x, o, occ, b, exited, probe)
  {
    CountedWk(f, o.ctl, o.x, Occ(occ, o.fx), b, exited, probe);
    ControlledWk(f, o.ctl, x, o.x, exited);
    assert Guarantee(x, o.x, SendWk(f.wp, f.job), 0, 0, 0);
  }

  lemma ReadyDisFrom(f: Frame, x: Slot, i: nat, occ: nat, b: Tally, exited: bool, probe: nat)
    requires f.Dis? && Ready(f, x, i, occ, b, exited, probe)
    ensures ReadyDis(f, x, occ, b, exited)
  {
  }

  lemma JoinDis(f: Frame, x: Slot, o: Out, occ: nat, b: Tally, exited: bool, probe: nat)
    requires f.Dis? && FrameOk(f, x, exited) && KeptDis(f, x, o, occ, b, exited) && (o.ctl.Stay? ==> x == o.x)
    ensures Kept(f, x, o, occ, b, exited, probe)
  {
    CountedDis(f, o.ctl, o.x, Occ(occ, o.fx), b, exited, probe);
    ControlledDis(f, o.ctl, x, o.x, exited);
    assert Guarantee(x, o.x, 0, 0, 0, 0);
  }

  lemma ReadySndFrom(f: Frame, x: Slot, i: nat, occ: nat, b: Tally, exited: bool, probe: nat)
    requires f.Snd? && Ready(f, x, i, occ, b, exited, probe)
    ensures ReadySnd(f, x, occ, b, exited)
  {
  }

  lemma JoinSnd(f: Frame, x: Slot, o: Out, occ: nat, b: Tally, exited: bool, probe: nat)
    requires f.Snd? && FrameOk(f, x, exited) && KeptSnd(f, x, o, occ, b, exited) && (o.ctl.Stay? ==> x == o.x)
    ensures Kept(f, x, o, occ, b, exited, probe)
  {
    CountedSnd(f, o.ctl, o.x, Occ(occ, o.fx), b, exited, probe);
    ControlledSnd(f, o.ctl, x, o.x, exited);
    assert Guarantee(x, o.x, 0, 0, 0, 0);
  }

  lemma ReadyGrpFrom(f: Frame, x: Slot, i: nat, occ: nat, b: Tally, exited: bool, probe: nat)
    requires f.Grp? && Ready(f, x, i, occ, b, exited, probe)
    ensures ReadyGrp(f, x, occ, b, exited)
  {
  }

  lemma JoinGrp(f: Frame, x: Slot, o: Out, occ: nat, b: Tally, exited: bool, probe: nat)
    requires f.Grp? && FrameOk(f, x, exited) && KeptGrp(f, x, o, occ, b, exited) && (o.ctl.Stay? ==> x == o.x)
    ensures Kept(f, x, o, occ, b, exited, probe)
  {
    CountedGrp(f, o.ctl, o.x, Occ(occ, o.fx), b, exited, probe);
    ControlledGrp(f, o.ctl, x, o.x, exited);
    assert Guarantee(x, o.x, 0, 0, 0, 0);
  }

  lemma ReadyPostFrom(f: Frame, x: Slot, i: nat, occ: nat, b: Tally, exited: bool, probe: nat)
    requires f.Post? && Ready(f, x, i, occ, b, exited, probe)
    ensures ReadyPost(f, x, occ, b, exited)
  {
  }

  lemma JoinPost(f: Frame, x: Slot, o: Out, occ: nat, b: Tally, exited: bool, probe: nat)
    requires f.Post? && FrameOk(f, x, exited) && KeptPost(f, x, o, occ, b, exited) && (o.ctl.Stay? ==> x == o.x)
    ensures Kept(f, x, o, occ, b, exited, probe)
  {
    CountedPost(f, o.ctl, o.x, Occ(occ, o.fx), b, exited, probe);
    ControlledPost(f, o.ctl, x, o.x, exited);
    assert Guarantee(x, o.x, SendPost(f.pp), 0, 0, 0);
  }

  lemma ReadyRecvFrom(f: Frame, x: Slot, i: nat, occ: nat, b: Tally, exited: bool, probe: nat)
    requires f.Recv? && Ready(f, x, i, occ, b, exited, probe)
    ensures ReadyRecv(f, x, occ, b, exited)
  {
  }

  lemma JoinRecv(f: Frame, x: Slot, o: Out, occ: nat, b: Tally, exited: bool, probe: nat)
    requires f.Recv? && FrameOk(f, x, exited) && KeptRecv(f, x, o, occ, b, exited) && (o.ctl.Stay? ==> x == o.x)
    ensures Kept(f, x, o, occ, b, exited, probe)
  {
    CountedRecv(f, o.ctl, o.x, Occ(occ, o.fx), b, exited, probe);
    ControlledRecv(f, o.ctl, x, o.x, exited);
    assert Guarantee(x, o.x, 0, 0, 0, 0);
  }

  lemma ReadyAcqFrom(f: Frame, x: Slot, i: nat, occ: nat, b: Tally, exited: bool, probe: nat)
    requires f.Acq? && Ready(f, x, i, occ, b, exited, probe)
    ensures ReadyAcq(f, x, occ, b, exited)
  {
  }

  lemma JoinAcq(f: Frame, x: Slot, o: Out, occ: nat, b: Tally, exited: bool, probe: nat)
    requires f.Acq? && FrameOk(f, x, exited) && KeptAcq(f, x, o, occ, b, exited) && (o.ctl.Stay? ==> x == o.x)
    ensures Kept(f, x, o, occ, b, exited, probe)
  {
    CountedAcq(f, o.ctl, o.x, Occ(occ, o.fx), b, exited, probe);
    ControlledAcq(f, o.ctl, x, o.x, exited);
    assert Guarantee(x, o.x, 0, 0, 0, 0);
  }

  lemma ReadyRelFrom(f: Frame, x: Slot, i: nat, occ: nat, b: Tally, exited: bool, probe: nat)
    requires f.Rel? && Ready(f, x, i, occ, b, exited, probe)
    ensures ReadyRel(f, x, occ, b, exited)
  {
  }

  lemma JoinRel(f: Frame, x: Slot, o: Out, occ: nat, b: Tally, exited: bool, probe: nat)
    requires f.Rel? && FrameOk(f, x, exited) && KeptRel(f, x, o, occ, b, exited) && (o.ctl.Stay? ==> x == o.x)
    ensures Kept(f, x, o, occ, b, exited, probe)
  {
    CountedRel(f, o.ctl, o.x, Occ(occ, o.fx), b, exited, probe);
    ControlledRel(f, o.ctl, x, o.x, exited);
    assert Guarantee(x, o.x, 0, 0, 0, TearRel(f.lp));
  }

  lemma StayKeeps(f: Frame, x: Slot, i: nat, c: Choice)
    ensures Local(f, x, i, c).ctl.Stay? ==> Local(f, x, i, c).x == x
  {
    match f
    case Usr => return;
    case Stop(_, _) => return;
    case Acc(_, _, _) => return;
    case Wk(_, _, _, _) => return;
    case Dis(_, _, _) => return;
    case Snd(_, _, _, _) => return;
    case Grp(_, _, _) => return;
    case Post(_, _, _, _, _) => return;
    case Recv(_, _, _, _, _) => return;
    case Acq(_, _, _, _) => return;
    case Rel(_, _, _, _) => return;
  }

  lemma SweepCounts(x: Slot, occ: nat, b: Tally, f: Frame, g: Frame, callee: Frame, probe: nat)
    requires f.Stop? && g.Stop? && callee.Dis? && callee.dp.DAcq?
    requires Accounted(x, occ, Plus(b, Weight(f, probe)))
    ensures Accounted(x, occ, Plus(b, Plus(Weight(g, probe), Weight(callee, probe))))
  {
    assert Weight(f, probe) == Weight(g, probe) == ZERO;
    CallCounts(ZERO, Weight(callee, probe), x, occ, b, 0, 0, 0);
  }

  lemma StopWeighsNothing(f: Frame, probe: nat)
    requires f.Stop?
    ensures Weight(f, probe) == ZERO && SendOf(f) == PreOf(f) == MidOf(f) == TearOf(f) == 0
  {
  }

  lemma SweepFrames(f: Frame, ctl: Ctl, x: Slot, exited: bool)
    requires ctl.Call? && f.Stop? && ctl.f.Stop? && ctl.f.sp.TInDis? && exited
    requires ctl.callee == NewDis(Id(ctl.f.k, x.core.gen), true)
    ensures FramesOk(f, ctl, x, exited)
  {
  }

  lemma JoinStop(f: Frame, x: Slot, o: Out, occ: nat, b: Tally, exited: bool, probe: nat)
    requires f.Stop? && o.x == x && o.fx.Nothing? && exited && Accounted(x, occ, Plus(b, Weight(f, probe)))
    requires o.ctl.Stay? || (o.ctl.Call? && o.ctl.f.Stop? && o.ctl.f.sp.TInDis?
                             && o.ctl.callee == NewDis(Id(o.ctl.f.k, x.core.gen), true))
    ensures Kept(f, x, o, occ, b, exited, probe)
  {
    StopWeighsNothing(f, probe);
    if o.ctl.Call? {
      SweepCounts(x, occ, b, f, o.ctl.f, o.ctl.callee, probe);
      SweepFrames(f, o.ctl, x, exited);
    }
  }

  /** stop() reads the generation of slot k and disconnects the session it finds there. */
  lemma LocalStop(f: Frame, x: Slot, i: nat, c: Choice, occ: nat, b: Tally, exited: bool, probe: nat)
    requires f.Stop? && i == f.k && Ready(f, x, i, occ, b, exited, probe)
    ensures Kept(f, x, Local(f, x, i, c), occ, b, exited, probe)
  {
    assert Local(f, x, i, c) == StepStop(f, x, i);
    JoinStop(f, x, StepStop(f, x, i), occ, b, exited, probe);
  }

  lemma LocalAcc(f: Frame, x: Slot, i: nat, c: Choice, occ: nat, b: Tally, exited: bool, probe: nat)
    requires f.Acc? && Ready(f, x, i, occ, b, exited, probe)
    ensures Kept(f, x, Local(f, x, i, c), occ, b, exited, probe)
  {
    ReadyAccFrom(f, x, i, occ, b, exited, probe);
    StepAccKept(f, x, i, c, occ, b, exited);
    assert Local(f, x, i, c) == StepAcc(f, x, i, c);
    StayKeeps(f, x, i, c);
    JoinAcc(f, x, StepAcc(f, x, i, c), occ, b, exited, probe);
  }

  lemma LocalWk(f: Frame, x: Slot, i: nat, c: Choice, occ: nat, b: Tally, exited: bool, probe: nat)
    requires f.Wk? && Ready(f, x, i, occ, b, exited, probe)
    ensures Kept(f, x, Local(f, x, i, c), occ, b, exited, probe)
  {
    ReadyWkFrom(f, x, i, occ, b, exited, probe);
    StepWkKept(f, x, i, c, occ, b, exited);
    assert Local(f, x, i, c) == StepWk(f, x, i, c);
    StayKeeps(f, x, i, c);
    JoinWk(f, x, StepWk(f, x, i, c), occ, b, exited, probe);
  }

  lemma LocalDis(f: Frame, x: Slot, i: nat, c: Choice, occ: nat, b: Tally, exited: bool, probe: nat)
    requires f.Dis? && Ready(f, x, i, occ, b, exited, probe)
    ensures Kept(f, x, Local(f, x, i, c), occ, b, exited, probe)
  {
    ReadyDisFrom(f, x, i, occ, b, exited, probe);
    StepDisKept(f, x, occ, b, exited);
    assert Local(f, x, i, c) == StepDis(f, x);
    StayKeeps(f, x, i, c);
    JoinDis(f, x, StepDis(f, x), occ, b, exited, probe);
  }

  lemma LocalSnd(f: Frame, x: Slot, i: nat, c: Choice, occ: nat, b: Tally, exited: bool, probe: nat)
    requires f.Snd? && Ready(f, x, i, occ, b, exited, probe)
    ensures Kept(f, x, Local(f, x, i, c), occ, b, exited, probe)
  {
    ReadySndFrom(f, x, i, occ, b, exited, probe);
    StepSndKept(f, x, c, occ, b, exited);
    assert Local(f, x, i, c) == StepSnd(f, x, c);
    StayKeeps(f, x, i, c);
    JoinSnd(f, x, StepSnd(f, x, c), occ, b, exited, probe);
  }

  lemma LocalGrp(f: Frame, x: Slot, i: nat, c: Choice, occ: nat, b: Tally, exited: bool, probe: nat)
    requires f.Grp? && Ready(f, x, i, occ, b, exited, probe)
    ensures Kept(f, x, Local(f, x, i, c), occ, b, exited, probe)
  {
    ReadyGrpFrom(f, x, i, occ, b, exited, probe);
    StepGrpKept(f, x, occ, b, exited);
    assert Local(f, x, i, c) == StepGrp(f, x);
    StayKeeps(f, x, i, c);
    JoinGrp(f, x, StepGrp(f, x), occ, b, exited, probe);
  }

  lemma LocalPost(f: Frame, x: Slot, i: nat, c: Choice, occ: nat, b: Tally, exited: bool, probe: nat)
    requires f.Post? && Ready(f, x, i, occ, b, exited, probe)
    ensures Kept(f, x, Local(f, x, i, c), occ, b, exited, probe)
  {
    ReadyPostFrom(f, x, i, occ, b, exited, probe);
    StepPostKept(f, x, c, occ, b, exited);
    assert Local(f, x, i, c) == StepPost(f, x, c);
    StayKeeps(f, x, i, c);
    JoinPost(f, x, StepPost(f, x, c), occ, b, exited, probe);
  }

  lemma LocalRecv(f: Frame, x: Slot, i: nat, c: Choice, occ: nat, b: Tally, exited: bool, probe: nat)
    requires f.Recv? && Ready(f, x, i, occ, b, exited, probe)
    ensures Kept(f, x, Local(f, x, i, c), occ, b, exited, probe)
  {
    ReadyRecvFrom(f, x, i, occ, b, exited, probe);
    StepRecvKept(f, x, c, occ, b, exited);
    assert Local(f, x, i, c) == StepRecv(f, x, c);
    StayKeeps(f, x, i, c);
    JoinRecv(f, x, StepRecv(f, x, c), occ, b, exited, probe);
  }

  lemma LocalAcq(f: Frame, x: Slot, i: nat, c: Choice, occ: nat, b: Tally, exited: bool, probe: nat)
    requires f.Acq? && Ready(f, x, i, occ, b, exited, probe)
    ensures Kept(f, x, Local(f, x, i, c), occ, b, exited, probe)
  {
    ReadyAcqFrom(f, x, i, occ, b, exited, probe);
    StepAcqKept(f, x, c, occ, b, exited);
    assert Local(f, x, i, c) == StepAcq(f, x, c);
    StayKeeps(f, x, i, c);
    JoinAcq(f, x, StepAcq(f, x, c), occ, b, exited, probe);
  }

  lemma LocalRel(f: Frame, x: Slot, i: nat, c: Choice, occ: nat, b: Tally, exited: bool, probe: nat)
    requires f.Rel? && Ready(f, x, i, occ, b, exited, probe)
    ensures Kept(f, x, Local(f, x, i, c), occ, b, exited, probe)
  {
    ReadyRelFrom(f, x, i, occ, b, exited, probe);
    StepRelKept(f, x, occ, b, exited);
    assert Local(f, x, i, c) == StepRel(f, x);
    StayKeeps(f, x, i, c);
    JoinRel(f, x, StepRel(f, x), occ, b, exited, probe);
  }

  lemma LocalKept(f: Frame, x: Slot, i: nat, c: Choice, occ: nat, b: Tally, exited: bool, probe: nat)
    requires !f.Usr? && (f.Stop? ==> i == f.k) && Ready(f, x, i, occ, b, exited, probe)
    ensures Kept(f, x, Local(f, x, i, c), occ, b, exited, probe)
  {
    match f
    case Stop(_, _) => LocalStop(f, x, i, c, occ, b, exited, probe); return;
    case Acc(_, _, _) => LocalAcc(f, x, i, c, occ, b, exited, probe); return;
    case Wk(_, _, _, _) => LocalWk(f, x, i, c, occ, b, exited, probe); return;
    case Dis(_, _, _) => LocalDis(f, x, i, c, occ, b, exited, probe); return;
    case Snd(_, _, _, _) => LocalSnd(f, x, i, c, occ, b, exited, probe); return;
    case Grp(_, _, _) => LocalGrp(f, x, i, c, occ, b, exited, probe); return;
    case Post(_, _, _, _, _) => LocalPost(f, x, i, c, occ, b, exited, probe); return;
    case Recv(_, _, _, _, _) => LocalRecv(f, x, i, c, occ, b, exited, probe); return;
    case Acq(_, _, _, _) => LocalAcq(f, x, i, c, occ, b, exited, probe); return;
    case Rel(_, _, _, _) => LocalRel(f, x, i, c, occ, b, exited, probe); return;
  }

  /** A step keeps the arguments a function was called with. */
  ghost predicate SameCall(f: Frame, g: Frame) {
    match f
    case Usr => g.Usr?
    case Stop(_, _) => g.Stop?
    case Acc(_, _, _) => g.Acc?
    case Wk(_, _, _, _) => g.Wk?
    case Dis(_, id, sweep) => g.Dis? && g.id == id && g.sweep == sweep
    case Snd(_, id, pkt, _) => g.Snd? && g.id == id && g.pkt == pkt
    case Grp(_, id, value) => g.Grp? && g.id == id && g.value == value
    case Post(_, i, _, cg, _) => g.Post? && g.i == i && g.cg == cg
    case Recv(_, i, _, cg, held) => g.Recv? && g.i == i && g.cg == cg && g.held == held
    case Acq(_, id, _, sweep) => g.Acq? && g.id == id && g.sweep == sweep
    case Rel(_, i, _, _) => g.Rel? && g.i == i
  }

  ghost predicate KeepsCall(f: Frame, ctl: Ctl) {
    match ctl
    case Stay => true
    case Goto(g) => SameCall(f, g)
    case Call(g, _) => SameCall(f, g)
    case Return(_) => !IsRoot(f)
  }

  lemma CallKept(f: Frame, x: Slot, i: nat, c: Choice)
    ensures KeepsCall(f, Local(f, x, i, c).ctl)
  {
    match f
    case Usr => return;
    case Stop(_, _) => return;
    case Acc(_, _, _) => return;
    case Wk(_, _, _, _) => return;
    case Dis(_, _, _) => return;
    case Snd(_, _, _, _) => return;
    case Grp(_, _, _) => return;
    case Post(_, _, _, _, _) => return;
    case Recv(_, _, _, _, _) => return;
    case Acq(_, _, _, _) => return;
    case Rel(_, _, _, _) => return;
  }

  /** The nested acquire of the posting functions succeeds at once, and the release after a failed
      post never drops the last reference: the caller's own reference is still there. */
  lemma NestedStep(p: Frame, f: Frame, x: Slot, i: nat, c: Choice, exited: bool)
    requires p.Post? || p.Recv?
    requires Linked(p, f) && FrameOk(p, x, exited) && x.core.refs >= RefOf(p) + RefOf(f)
    ensures match Local(f, x, i, c).ctl
            case Stay => true
            case Goto(g) => Linked(p, g)
            case Call(g, _) => Linked(p, g)
            case Return(r) => r || !f.Acq?
  {
    CallKept(f, x, i, c);
    if f.Acq? { return; } else if f.Rel? { return; }
  }

  lemma LinkKept(p: Frame, f: Frame, x: Slot, i: nat, c: Choice, exited: bool)
    requires Linked(p, f) && FrameOk(p, x, exited) && x.core.refs >= RefOf(p) + RefOf(f)
    ensures match Local(f, x, i, c).ctl
            case Stay => true
            case Goto(g) => Linked(p, g)
            case Call(g, _) => Linked(p, g)
            case Return(r) => r || !f.Acq? || !(p.Post? || p.Recv?)
  {
    if p.Post? || p.Recv? {
      NestedStep(p, f, x, i, c, exited);
      return;
    }
    CallKept(f, x, i, c);
    match p
    case Usr => return;
    case Stop(_, _) => return;
    case Acc(_, _, _) => return;
    case Wk(_, _, _, _) => return;
    case Dis(_, _, _) => return;
    case Snd(_, _, _, _) => return;
    case Grp(_, _, _) => return;
    case Acq(_, _, _, _) => return;
    case Rel(_, _, _, _) => return;
  }

  /** The caller continues with what it relies on, and with the weight it had plus what was handed to it. */
  lemma ResumeOk(p: Frame, f: Frame, r: bool, y: Slot, exited: bool, probe: nat)
    requires Linked(p, f) && FrameOk(p, y, exited) && Promise(f, r, y, exited)
    requires r || !f.Acq? || !(p.Post? || p.Recv?)
    ensures FrameOk(Resume(p, r), y, exited)
    ensures SameCall(p, Resume(p, r))
  {
    match p
    case Usr => return;
    case Stop(_, _) => return;
    case Acc(_, _, _) => return;
    case Wk(_, _, _, _) => return;
    case Dis(_, _, _) => return;
    case Snd(_, _, _, _) => return;
    case Grp(_, _, _) => return;
    case Post(_, _, _, _, _) => return;
    case Recv(_, _, _, _, _) => return;
    case Acq(_, _, _, _) => return;
    case Rel(_, _, _, _) => return;
  }

  lemma ResumeWeightApi(p: Frame, f: Frame, ctl: Ctl, probe: nat)
    requires p.Dis? || p.Grp? || p.Acq?
    requires Linked(p, f) && ctl.Return?
    ensures Gains(Weight(Resume(p, ctl.result), probe), Weight(p, probe), HandsRef(f, ctl), HandsLock(f))
  {
    if p.Acq? {
      return;
    } else if p.Grp? {
      if !p.gp.GInAcq? { return; } else if ctl.result { return; }
    } else {
      if !p.dp.DInAcq? { return; } else if ctl.result { return; }
    }
  }

  lemma ResumeWeightSnd(p: Frame, f: Frame, ctl: Ctl, probe: nat)
    requires p.Snd?
    requires Linked(p, f) && ctl.Return?
    ensures Gains(Weight(Resume(p, ctl.result), probe), Weight(p, probe), HandsRef(f, ctl), HandsLock(f))
  {
    match p.np
    case SInAcq => if ctl.result { return; }
    case SInDis => return;
    case SInPost => return;
    case SInRel => return;
  }

  lemma ResumeWeightPosts(p: Frame, f: Frame, ctl: Ctl, probe: nat)
    requires p.Post? || p.Recv?
    requires Linked(p, f) && ctl.Return? && (ctl.result || !f.Acq?)
    ensures Gains(Weight(Resume(p, ctl.result), probe), Weight(p, probe), HandsRef(f, ctl), HandsLock(f))
  {
    if p.Post? {
      if p.pp.PInAcq? { return; } else { return; }
    } else {
      if p.rp.RInAcq? { return; } else if p.rp.RInDis? { return; }
    }
  }

  lemma ResumeWeightRoots(p: Frame, f: Frame, ctl: Ctl, probe: nat)
    requires IsRoot(p)
    requires Linked(p, f) && ctl.Return?
    ensures Gains(Weight(Resume(p, ctl.result), probe), Weight(p, probe), HandsRef(f, ctl), HandsLock(f))
  {
    if p.Usr? {
      return;
    } else if p.Stop? {
      return;
    } else if p.Acc? {
      if p.ap.AInRecv? { return; } else { return; }
    } else {
      match p.wp
      case WInRecv => return;
      case WInDis => return;
      case WInPost => return;
      case WInRel => return;
    }
  }

  lemma ResumeWeight(p: Frame, f: Frame, ctl: Ctl, probe: nat)
    requires Linked(p, f) && ctl.Return?
    requires ctl.result || !f.Acq? || !(p.Post? || p.Recv?)
    ensures Gains(Weight(Resume(p, ctl.result), probe), Weight(p, probe), HandsRef(f, ctl), HandsLock(f))
  {
    if IsRoot(p) {
      ResumeWeightRoots(p, f, ctl, probe);
    } else if p.Post? || p.Recv? {
      ResumeWeightPosts(p, f, ctl, probe);
    } else if p.Snd? {
      ResumeWeightSnd(p, f, ctl, probe);
    } else {
      ResumeWeightApi(p, f, ctl, probe);
    }
  }
}
