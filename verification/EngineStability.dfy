/**
 What one frame relies on survives the steps of every other frame.
 */
module EngineStability {
  import opened EngineModel
  import opened Tallies
  import opened EngineTallies
  import opened EngineSlots

  /** The tokens of two frames on one slot exclude each other: w is what one frame holds, send .. tear what the
      moving frame holds. */
  ghost predicate Apart(w: Tally, x: Slot, send: int, pre: int, mid: int, tear: int, exited: bool) {
    && (w.ref > 0 ==> x.core.refs > 0 && pre == 0 && mid == 0 && tear == 0)
    && (w.send > 0 ==> send == 0)
    && (w.tear > 0 ==> x.core.refs == 0 && pre == 0 && mid == 0 && tear == 0)
    && (exited ==> pre == 0 && mid == 0)
    && (x.core.refs > 0 ==> mid == 0 && tear == 0)
  }

  /** Exact accounting makes the tokens exclusive. */
  lemma ApartFrom(w: Tally, v: Tally, x: Slot, occ: nat, base: Tally, exited: bool)
    requires Accounted(x, occ, Plus(base, v)) && Leq(w, base)
    requires exited ==> v.pre == 0 && v.mid == 0
    ensures Apart(w, x, v.send, v.pre, v.mid, v.tear, exited)
  {
  }

  lemma StableAcc(h: Frame, x: Slot, y: Slot, send: int, pre: int, mid: int, tear: int, exited: bool)
    requires h.Acc? && Apart(Weight(h, 0), x, send, pre, mid, tear, exited) && Guarantee(x, y, send, pre, mid, tear)
    requires AccOk(h, x, exited)
    ensures AccOk(h, y, exited)
  {
  }

  lemma StableWk(h: Frame, x: Slot, y: Slot, send: int, pre: int, mid: int, tear: int, exited: bool)
    requires h.Wk? && Apart(Weight(h, 0), x, send, pre, mid, tear, exited) && Guarantee(x, y, send, pre, mid, tear)
    requires WkOk(h, x)
    ensures WkOk(h, y)
  {
    if h.wp.WIdle? || h.wp.WInRecv? || h.wp.WInPost? || h.wp.WInRel? {
      return;
    } else {
      assert RefOf(h) > 0;
      if h.wp.WGot? { return; }
    }
  }

  lemma StableDis(h: Frame, x: Slot, y: Slot, send: int, pre: int, mid: int, tear: int, exited: bool)
    requires h.Dis? && Apart(Weight(h, 0), x, send, pre, mid, tear, exited) && Guarantee(x, y, send, pre, mid, tear)
    requires DisOk(h, x, exited)
    ensures DisOk(h, y, exited)
  {
    if h.sweep { return; }
  }

  lemma StablePost(h: Frame, x: Slot, y: Slot, send: int, pre: int, mid: int, tear: int, exited: bool)
    requires h.Post? && Apart(Weight(h, 0), x, send, pre, mid, tear, exited) && Guarantee(x, y, send, pre, mid, tear)
    requires PostOk(h, x)
    ensures PostOk(h, y)
  {
    assert RefOf(h) > 0;
    if SendOf(h) > 0 { return; }
  }

  lemma StableRel(h: Frame, x: Slot, y: Slot, send: int, pre: int, mid: int, tear: int, exited: bool)
    requires h.Rel? && Apart(Weight(h, 0), x, send, pre, mid, tear, exited) && Guarantee(x, y, send, pre, mid, tear)
    requires RelOk(h.lp, h.g, h.grp, x)
    ensures RelOk(h.lp, h.g, h.grp, y)
  {
    if TearOf(h) > 0 { return; }
  }

  lemma StableOther(h: Frame, x: Slot, y: Slot, send: int, pre: int, mid: int, tear: int, exited: bool)
    requires h.Usr? || h.Stop? || h.Snd? || h.Grp? || h.Recv? || h.Acq?
    requires Apart(Weight(h, 0), x, send, pre, mid, tear, exited) && Guarantee(x, y, send, pre, mid, tear)
    requires FrameOk(h, x, exited)
    ensures FrameOk(h, y, exited)
  {
    match h
    case Usr => return;
    case Stop(_, _) => return;
    case Snd(_, _, _, _) => return;
    case Grp(_, _, _) => return;
    case Recv(_, _, _, _, _) => return;
    case Acq(_, _, _, _) => return;
  }

  lemma Stable(h: Frame, x: Slot, y: Slot, send: int, pre: int, mid: int, tear: int, exited: bool)
    requires Apart(Weight(h, 0), x, send, pre, mid, tear, exited) && Guarantee(x, y, send, pre, mid, tear)
    requires FrameOk(h, x, exited)
    ensures FrameOk(h, y, exited)
  {
    match h
    case Acc(_, _, _) => StableAcc(h, x, y, send, pre, mid, tear, exited); return;
    case Wk(_, _, _, _) => StableWk(h, x, y, send, pre, mid, tear, exited); return;
    case Dis(_, _, _) => StableDis(h, x, y, send, pre, mid, tear, exited); return;
    case Post(_, _, _, _, _) => StablePost(h, x, y, send, pre, mid, tear, exited); return;
    case Rel(_, _, _, _) => StableRel(h, x, y, send, pre, mid, tear, exited); return;
    case _ => StableOther(h, x, y, send, pre, mid, tear, exited); return;
  }
}
