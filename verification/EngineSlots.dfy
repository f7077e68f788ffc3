/**
 One slot of the session engine: the invariant that ties its fields to the tally of everything the
 frames hold on it, what each frame may rely on, and the proof that every step of every frame keeps both.
 All lemmas here speak of one slot x, the tally `base` of the frames that do not move, the top frame f
 and the frame p below it; EngineRuns lifts them to whole runs.
 */
module EngineSlots {
  import opened EngineModel
  import opened Options
  import opened Tallies
  import opened EngineTallies

  ghost function Busy(io: Io): nat { if io.Idle? then 0 else 1 }

  /** A slot between two sessions. */
  ghost predicate Clean(x: Slot) {
    && x.core.group == None && x.queue.pending == [] && x.queue.inFlight == []
    && x.queue.offset == 0 && x.queue.count == 0
    && !x.flow.sendFlag && !x.flow.stuck && !x.flow.discFlag
  }

  /** Exact accounting.  occ is how often the slot's index occurs in free_indices; the other numbers are
      the totals over all frames of the tokens of the same names. */
  ghost predicate AccountedBy(x: Slot, occ: int, ref: int, send: int, recv: int, lock: int, pre: int, mid: int,
                              tear: int) {
    && x.core.refs == ref + Busy(x.flow.recvIo) + Busy(x.flow.sendIo)
    && occ + pre == (if x.core.counted then 0 else 1)
    && mid + tear + (if x.core.refs > 0 then 1 else 0) == (if x.core.counted then 1 else 0)
    && (if x.flow.sendFlag then 1 else 0) == send + Busy(x.flow.sendIo) + (if x.flow.stuck then 1 else 0)
    && recv + Busy(x.flow.recvIo) <= 1
    && (if x.core.locked then 1 else 0) == lock
    && (x.core.refs > 0 || mid > 0 ==> x.core.open)
    && (!x.core.counted ==> !x.core.open)
    && (x.core.refs == 0 && tear == 0 ==> Clean(x))
    && (x.queue.inFlight == [] ==> x.queue.offset == 0)
    && (!x.flow.recvIo.Idle? ==> Joined(x))
    && (!x.flow.sendIo.Idle? ==> Announced(x) && x.queue.inFlight != [])
  }

  ghost predicate Accounted(x: Slot, occ: int, T: Tally) {
    AccountedBy(x, occ, T.ref, T.send, T.recv, T.lock, T.pre, T.mid, T.tear)
  }

  /** What a teardown frame knows at each of its program points. */
  ghost predicate RelOk(pc: RelPc, g: nat, grp: Option<nat>, x: Slot) {
    var cleared := x.core.group == None && !x.core.open && x.core.gen == g + 1
      && (grp.Some? ==> Grouped(g, grp.value) in x.hist);
    var emptied := cleared && x.queue.pending == [] && x.queue.inFlight == [] && x.queue.offset == 0;
    match pc
    case LSub => true
    case LBar => true
    case LGrp => true
    case LClose => x.core.gen == g && x.core.group == None
    case LGen => x.core.gen == g && x.core.group == None && !x.core.open
    case LPend => cleared
    case LCount => emptied
    case LSendF => emptied && x.queue.count == 0
    case LDiscF => emptied && x.queue.count == 0 && !x.flow.sendFlag && !x.flow.stuck
    case LLeave => cleared && Clean(x)
    case LPush => Clean(x) && !x.core.open && x.core.gen == g + 1
    case _ => g < x.core.gen
  }

  ghost predicate PostOk(f: Frame, x: Slot)
    requires f.Post?
  {
    && x.core.gen == f.cg && Announced(x)
    && (!f.pp.PFlagX? && !f.pp.PId? ==> f.g == f.cg)
    && (match f.pp
        case PDrain => |x.queue.inFlight| == f.drained <= SEND_BATCH_SIZE && x.queue.offset == 0
        case PClear => x.queue.inFlight == []
        case PChk => x.queue.inFlight != []
        case PInAcq => x.queue.inFlight != []
        case PIo => x.queue.inFlight != []
        case PRel => x.flow.failed
        case PInRel => x.flow.failed
        case PDrop => x.flow.discFlag || x.flow.failed
        case PCancel => x.flow.discFlag
        case PAcqFail => false
        case _ => true)
  }

  ghost predicate WkOk(f: Frame, x: Slot)
    requires f.Wk?
  {
    match f.wp
    case WIdle => true
    case WInRecv => f.job.kind.RecvKind? && f.job.ok && f.job.bytes > 0
    case WInPost => f.job.kind.SendKind?
    case WInRel => true
    case WGot => if f.job.kind.RecvKind? then Joined(x) else Announced(x)
    case _ =>
      && x.core.gen == f.g
      && (if f.job.kind.RecvKind? then Joined(x) else Announced(x))
      && ((f.wp.WLock? || f.wp.WCommit? || f.wp.WParse? || f.wp.WDispatch? || f.wp.WInCb? || f.wp.WInDis?) ==>
            f.job.kind.RecvKind?)
      && ((f.wp.WSend? || f.wp.WPost? || f.wp.WSent? || f.wp.WInSent?) ==> f.job.kind.SendKind?)
      && ((f.wp.WLock? || f.wp.WCommit? || f.wp.WSend?) ==> f.job.ok)
      && ((f.wp.WLock? || f.wp.WCommit?) ==> f.job.bytes > 0)
      && (f.wp.WInCb? ==> f.job.pkts > 0)
  }

  /** The swept session is gone for good, or the id the sweep read is still its id. */
  ghost predicate SweepOk(x: Slot, id: Id, exited: bool) {
    exited && (x.core.refs == 0 || x.core.gen == id.gen)
  }

  ghost predicate AccOk(f: Frame, x: Slot, exited: bool)
    requires f.Acc?
  {
    && (f.ap.AInJoin? || f.ap.ARecv? || f.ap.ARel? ==> x.core.gen == f.g && Joined(x))
    && (!f.ap.AExit? ==> !exited)
  }

  ghost predicate DisOk(f: Frame, x: Slot, exited: bool)
    requires f.Dis?
  {
    && (f.dp.DFlag? || f.dp.DCancel? || f.dp.DRel? ==> x.core.gen == f.id.gen && Announced(x))
    && (f.dp.DCancel? || f.dp.DRel? ==> x.flow.discFlag)
    && (f.sweep ==>
          && SweepOk(x, f.id, exited)
          && (f.dp.DInRel? || f.dp.DDone? ==> x.core.refs == 0 || x.flow.discFlag)
          && (f.dp.DFail? ==> x.core.refs == 0))
  }

  ghost predicate SndOk(f: Frame, x: Slot)
    requires f.Snd?
  {
    && f.pkt != []
    && (f.np.SAcq? || f.np.SInAcq? || f.np.SInPost? || f.np.SInRel? || f.np.SEnd?
        || (x.core.gen == f.id.gen && Announced(x)))
  }

  ghost predicate GrpOk(f: Frame, x: Slot)
    requires f.Grp?
  {
    f.gp.GSet? || f.gp.GRel? ==> x.core.gen == f.id.gen && Announced(x)
  }

  ghost predicate RecvOk(f: Frame, x: Slot)
    requires f.Recv?
  {
    && x.core.gen == f.cg && Joined(x) && (!f.rp.RId? ==> f.g == f.cg) && !f.rp.RAcqFail?
    && (f.rp.RCancel? ==> x.flow.discFlag)
  }

  ghost predicate AcqOk(f: Frame, x: Slot, exited: bool)
    requires f.Acq?
  {
    && (f.qp.QCas? ==> f.read > 0)
    && (f.sweep ==> SweepOk(x, f.id, exited) && (f.qp.QLoad? || f.qp.QCas? || f.qp.QGen?))
  }

  /** What a frame relies on. */
  ghost predicate FrameOk(f: Frame, x: Slot, exited: bool) {
    match f
    case Usr => true
    case Stop(_, _) => true
    case Acc(_, _, _) => AccOk(f, x, exited)
    case Wk(_, _, _, _) => WkOk(f, x)
    case Dis(_, _, _) => DisOk(f, x, exited)
    case Snd(_, _, _, _) => SndOk(f, x)
    case Grp(_, _, _) => GrpOk(f, x)
    case Post(_, _, _, _, _) => PostOk(f, x)
    case Recv(_, _, _, _, _) => RecvOk(f, x)
    case Acq(_, _, _, _) => AcqOk(f, x, exited)
    case Rel(pc, _, g, grp) => RelOk(pc, g, grp, x)
  }

  /** Which callee may sit above which caller. */
  ghost predicate Linked(p: Frame, f: Frame) {
    match p
    case Usr => (f.Dis? && !f.sweep) || f.Snd? || f.Grp?
    case Stop(pc, k) => pc.TInDis? && f.Dis? && f.sweep && f.id.index == k
    case Acc(pc, i, g) =>
      (pc.AInRecv? && f.Recv? && f.i == i && f.cg == g && !f.held) || (pc.AInRel? && f.Rel? && f.i == i)
    case Wk(pc, i, g, job) =>
      || (pc.WInRecv? && f.Recv? && f.i == i && f.cg == g && f.held)
      || (pc.WInDis? && f.Dis? && f.id == Id(i, g) && !f.sweep)
      || (pc.WInPost? && f.Post? && f.i == i && f.cg == g)
      || (pc.WInRel? && f.Rel? && f.i == i)
    case Dis(pc, id, sweep) =>
      || (pc.DInAcq? && f.Acq? && f.id == id && f.sweep == sweep)
      || (pc.DInRel? && f.Rel? && f.i == id.index)
    case Snd(pc, id, pkt, seen) =>
      || (pc.SInAcq? && f.Acq? && f.id == id && !f.sweep)
      || (pc.SInDis? && f.Dis? && f.id == id && !f.sweep)
      || (pc.SInPost? && f.Post? && f.i == id.index && f.cg == id.gen)
      || (pc.SInRel? && f.Rel? && f.i == id.index)
    case Grp(pc, id, value) =>
      || (pc.GInAcq? && f.Acq? && f.id == id && !f.sweep)
      || (pc.GInRel? && f.Rel? && f.i == id.index)
    case Post(pc, i, g, cg, drained) =>
      || (pc.PInAcq? && f.Acq? && f.id == Id(i, g) && !f.sweep && (f.qp.QLoad? || f.qp.QCas? || f.qp.QGen?))
      || (pc.PInRel? && f.Rel? && f.i == i && f.lp.LSub?)
    case Recv(pc, i, g, cg, held) =>
      || (pc.RInDis? && f.Dis? && f.id == Id(i, g) && !f.sweep)
      || (pc.RInAcq? && f.Acq? && f.id == Id(i, g) && !f.sweep && (f.qp.QLoad? || f.qp.QCas? || f.qp.QGen?))
      || (pc.RInRel? && f.Rel? && f.i == i && f.lp.LSub?)
    case Acq(pc, id, read, sweep) => pc.QInRel? && f.Rel? && f.i == id.index
    case Rel(_, _, _, _) => false
  }

  ghost predicate IsRoot(f: Frame) {
    f.Usr? || f.Stop? || f.Acc? || f.Wk?
  }

  /** What a called function starts with: a reference lent to it, and what goes with it. */
  ghost function EntryRef(callee: Frame): nat { if callee.Recv? || callee.Post? || callee.Rel? then 1 else 0 }
  ghost function EntryRecv(callee: Frame): nat { if callee.Recv? then 1 else 0 }
  ghost function EntryLock(callee: Frame): nat { if callee.Recv? && callee.held then 1 else 0 }

  ghost function Occ(occ: int, fx: Effect): int {
    match fx
    case Pop => occ - 1
    case Push => occ + 1
    case _ => occ
  }

  /** The caller's side of accounting: b is what all other frames hold, `ref`, `recv`, `lock` what a callee
      starts with. */
  ghost predicate HasAcc(x: Slot, occ: int, b: Tally, ref: int, recv: int, lock: int, pc: AccPc) {
    AccountedBy(x, occ, b.ref + ref + RefAcc(pc), b.send, b.recv + recv + RecvAcc(pc),
                b.lock + lock, b.pre + PreAcc(pc), b.mid + MidAcc(pc), b.tear)
  }

  ghost predicate HasWk(x: Slot, occ: int, b: Tally, ref: int, recv: int, lock: int, pc: WkPc, job: Job) {
    AccountedBy(x, occ, b.ref + ref + RefWk(pc), b.send + SendWk(pc, job), b.recv + recv + RecvWk(pc, job.kind),
                b.lock + lock + LockWk(pc), b.pre, b.mid, b.tear)
  }

  ghost predicate HasDis(x: Slot, occ: int, b: Tally, ref: int, recv: int, lock: int, pc: DisPc) {
    AccountedBy(x, occ, b.ref + ref + RefDis(pc), b.send, b.recv + recv,
                b.lock + lock, b.pre, b.mid, b.tear)
  }

  ghost predicate HasSnd(x: Slot, occ: int, b: Tally, ref: int, recv: int, lock: int, pc: SndPc) {
    AccountedBy(x, occ, b.ref + ref + RefSnd(pc), b.send, b.recv + recv,
                b.lock + lock, b.pre, b.mid, b.tear)
  }

  ghost predicate HasGrp(x: Slot, occ: int, b: Tally, ref: int, recv: int, lock: int, pc: GrpPc) {
    AccountedBy(x, occ, b.ref + ref + RefGrp(pc), b.send, b.recv + recv,
                b.lock + lock, b.pre, b.mid, b.tear)
  }

  ghost predicate HasPost(x: Slot, occ: int, b: Tally, ref: int, recv: int, lock: int, pc: PostPc) {
    AccountedBy(x, occ, b.ref + ref + RefPost(pc), b.send + SendPost(pc), b.recv + recv,
                b.lock + lock, b.pre, b.mid, b.tear)
  }

  ghost predicate HasRecv(x: Slot, occ: int, b: Tally, ref: int, recv: int, lock: int, pc: RecvPc, held: bool) {
    AccountedBy(x, occ, b.ref + ref + RefRecv(pc), b.send, b.recv + recv + RecvRecv(pc),
                b.lock + lock + (if held then 1 else 0), b.pre, b.mid, b.tear)
  }

  ghost predicate HasAcq(x: Slot, occ: int, b: Tally, ref: int, recv: int, lock: int, pc: AcqPc) {
    AccountedBy(x, occ, b.ref + ref + RefAcq(pc), b.send, b.recv + recv,
                b.lock + lock, b.pre, b.mid, b.tear)
  }

  ghost predicate HasRel(x: Slot, occ: int, b: Tally, ref: int, recv: int, lock: int, pc: RelPc) {
    AccountedBy(x, occ, b.ref + ref + RefRel(pc), b.send, b.recv + recv,
                b.lock + lock, b.pre, b.mid, b.tear + TearRel(pc))
  }

  ghost predicate CountsAcc(f: Frame, ctl: Ctl, x: Slot, occ: int, b: Tally)
    requires f.Acc?
  {
    match ctl
    case Stay => HasAcc(x, occ, b, 0, 0, 0, f.ap)
    case Goto(g) => g.Acc? && HasAcc(x, occ, b, 0, 0, 0, g.ap)
    case Call(g, callee) =>
      g.Acc? && HasAcc(x, occ, b, EntryRef(callee), EntryRecv(callee), EntryLock(callee), g.ap)
    case Return(r) => false
  }

  ghost predicate CountsWk(f: Frame, ctl: Ctl, x: Slot, occ: int, b: Tally)
    requires f.Wk?
  {
    match ctl
    case Stay => HasWk(x, occ, b, 0, 0, 0, f.wp, f.job)
    case Goto(g) => g.Wk? && HasWk(x, occ, b, 0, 0, 0, g.wp, g.job)
    case Call(g, callee) =>
      g.Wk? && HasWk(x, occ, b, EntryRef(callee), EntryRecv(callee), EntryLock(callee), g.wp, g.job)
    case Return(r) => false
  }

  ghost predicate CountsDis(f: Frame, ctl: Ctl, x: Slot, occ: int, b: Tally)
    requires f.Dis?
  {
    match ctl
    case Stay => HasDis(x, occ, b, 0, 0, 0, f.dp)
    case Goto(g) => g.Dis? && HasDis(x, occ, b, 0, 0, 0, g.dp)
    case Call(g, callee) =>
      g.Dis? && HasDis(x, occ, b, EntryRef(callee), EntryRecv(callee), EntryLock(callee), g.dp)
    case Return(r) => AccountedBy(x, occ, b.ref, b.send, b.recv, b.lock, b.pre, b.mid, b.tear)
  }

  ghost predicate CountsSnd(f: Frame, ctl: Ctl, x: Slot, occ: int, b: Tally)
    requires f.Snd?
  {
    match ctl
    case Stay => HasSnd(x, occ, b, 0, 0, 0, f.np)
    case Goto(g) => g.Snd? && HasSnd(x, occ, b, 0, 0, 0, g.np)
    case Call(g, callee) =>
      g.Snd? && HasSnd(x, occ, b, EntryRef(callee), EntryRecv(callee), EntryLock(callee), g.np)
    case Return(r) => AccountedBy(x, occ, b.ref, b.send, b.recv, b.lock, b.pre, b.mid, b.tear)
  }

  ghost predicate CountsGrp(f: Frame, ctl: Ctl, x: Slot, occ: int, b: Tally)
    requires f.Grp?
  {
    match ctl
    case Stay => HasGrp(x, occ, b, 0, 0, 0, f.gp)
    case Goto(g) => g.Grp? && HasGrp(x, occ, b, 0, 0, 0, g.gp)
    case Call(g, callee) =>
      g.Grp? && HasGrp(x, occ, b, EntryRef(callee), EntryRecv(callee), EntryLock(callee), g.gp)
    case Return(r) => AccountedBy(x, occ, b.ref, b.send, b.recv, b.lock, b.pre, b.mid, b.tear)
  }

  ghost predicate CountsPost(f: Frame, ctl: Ctl, x: Slot, occ: int, b: Tally)
    requires f.Post?
  {
    match ctl
    case Stay => HasPost(x, occ, b, 0, 0, 0, f.pp)
    case Goto(g) => g.Post? && HasPost(x, occ, b, 0, 0, 0, g.pp)
    case Call(g, callee) =>
      g.Post? && HasPost(x, occ, b, EntryRef(callee), EntryRecv(callee), EntryLock(callee), g.pp)
    case Return(r) => AccountedBy(x, occ, b.ref + 1, b.send, b.recv, b.lock, b.pre, b.mid, b.tear)
  }

  ghost predicate CountsRecv(f: Frame, ctl: Ctl, x: Slot, occ: int, b: Tally)
    requires f.Recv?
  {
    match ctl
    case Stay => HasRecv(x, occ, b, 0, 0, 0, f.rp, f.held)
    case Goto(g) => g.Recv? && HasRecv(x, occ, b, 0, 0, 0, g.rp, g.held)
    case Call(g, callee) =>
      g.Recv? && HasRecv(x, occ, b, EntryRef(callee), EntryRecv(callee), EntryLock(callee), g.rp, g.held)
    case Return(r) => AccountedBy(x, occ, b.ref + 1, b.send, b.recv, b.lock + (if f.held then 1 else 0), b.pre, b.mid,
                                  b.tear)
  }

  ghost predicate CountsAcq(f: Frame, ctl: Ctl, x: Slot, occ: int, b: Tally)
    requires f.Acq?
  {
    match ctl
    case Stay => HasAcq(x, occ, b, 0, 0, 0, f.qp)
    case Goto(g) => g.Acq? && HasAcq(x, occ, b, 0, 0, 0, g.qp)
    case Call(g, callee) =>
      g.Acq? && HasAcq(x, occ, b, EntryRef(callee), EntryRecv(callee), EntryLock(callee), g.qp)
    case Return(r) =>
      if r then AccountedBy(x, occ, b.ref + 1, b.send, b.recv, b.lock, b.pre, b.mid, b.tear)
      else AccountedBy(x, occ, b.ref, b.send, b.recv, b.lock, b.pre, b.mid, b.tear)
  }

  ghost predicate CountsRel(f: Frame, ctl: Ctl, x: Slot, occ: int, b: Tally)
    requires f.Rel?
  {
    match ctl
    case Stay => HasRel(x, occ, b, 0, 0, 0, f.lp)
    case Goto(g) => g.Rel? && HasRel(x, occ, b, 0, 0, 0, g.lp)
    case Call(g, callee) =>
      g.Rel? && HasRel(x, occ, b, EntryRef(callee), EntryRecv(callee), EntryLock(callee), g.lp)
    case Return(r) => AccountedBy(x, occ, b.ref, b.send, b.recv, b.lock, b.pre, b.mid, b.tear)
  }

  /** What a callee promises on return. */
  ghost predicate Promise(f: Frame, r: bool, x: Slot, exited: bool) {
    match f
    case Recv(_, _, _, cg, _) => x.core.gen == cg && Joined(x)
    case Post(_, _, _, cg, _) => x.core.gen == cg && Announced(x)
    case Acq(_, id, _, sweep) => if r then x.core.gen == id.gen && Announced(x) else sweep ==> x.core.refs == 0
    case Dis(_, _, sweep) => sweep ==> x.core.refs == 0 || (r && x.flow.discFlag)
    case _ => true
  }

  /** A called frame starts at its first program point with what it relies on. */
  ghost predicate CalleeOk(callee: Frame, x: Slot, exited: bool) {
    match callee
    case Recv(pc, _, _, _, _) => pc.RId? && RecvOk(callee, x)
    case Post(pc, _, _, _, _) => pc.PFlagX? && PostOk(callee, x)
    case Acq(pc, _, _, _) => pc.QLoad? && AcqOk(callee, x, exited)
    case Dis(pc, _, _) => pc.DAcq? && DisOk(callee, x, exited)
    case Rel(pc, _, _, _) => pc.LSub?
    case _ => false
  }

  /** What a step may do to a slot that frames of other threads rely on. */
  ghost predicate Guarantee(x: Slot, y: Slot, send: int, pre: int, mid: int, tear: int) {
    && (y.core.gen == x.core.gen || (tear > 0 && y.core.gen == x.core.gen + 1))
    && x.hist <= y.hist
    && (send == 0 && tear == 0 ==> y.queue.inFlight == x.queue.inFlight && y.queue.offset == x.queue.offset)
    && (x.flow.discFlag && tear == 0 ==> y.flow.discFlag)
    && (x.flow.failed && send == 0 && mid == 0 ==> y.flow.failed)
    && (x.core.refs == 0 && mid == 0 ==> y.core.refs == 0)
    && (x.core.refs == 0 && pre == 0 && mid == 0 && tear == 0 ==> y == x.(hist := y.hist))
  }

  ghost predicate ReadyAcc(f: Frame, x: Slot, i: nat, occ: nat, b: Tally, exited: bool) {
    && f.Acc? && Balanced(b) && HasAcc(x, occ, b, 0, 0, 0, f.ap) && AccOk(f, x, exited)
    && (f.ap.AWait? ==> occ == 1) && (Where(f).Some? ==> f.i == i)
  }

  ghost predicate ControlAcc(f: Frame, ctl: Ctl, x: Slot, exited: bool)
    requires f.Acc?
  {
    match ctl
    case Stay => true
    case Goto(g) => g.Acc? && AccOk(g, x, exited)
    case Call(g, callee) => g.Acc? && AccOk(g, x, exited) && CalleeOk(callee, x, exited) && Linked(g, callee)
    case Return(r) => false
  }

  ghost predicate KeptAcc(f: Frame, x: Slot, o: Out, occ: nat, b: Tally, exited: bool)
    requires f.Acc?
  {
    && Occ(occ, o.fx) >= 0
    && CountsAcc(f, o.ctl, o.x, Occ(occ, o.fx), b)
    && Guarantee(x, o.x, 0, PreOf(f), MidOf(f), 0)
    && ControlAcc(f, o.ctl, o.x, exited)
  }

  ghost predicate ReadyWk(f: Frame, x: Slot, i: nat, occ: nat, b: Tally, exited: bool) {
    f.Wk? && Balanced(b) && HasWk(x, occ, b, 0, 0, 0, f.wp, f.job) && WkOk(f, x) && (Where(f).Some? ==> f.i == i)
  }

  ghost predicate ControlWk(f: Frame, ctl: Ctl, x: Slot, exited: bool)
    requires f.Wk?
  {
    match ctl
    case Stay => true
    case Goto(g) => g.Wk? && WkOk(g, x)
    case Call(g, callee) => g.Wk? && WkOk(g, x) && CalleeOk(callee, x, exited) && Linked(g, callee)
    case Return(r) => false
  }

  ghost predicate KeptWk(f: Frame, x: Slot, o: Out, occ: nat, b: Tally, exited: bool)
    requires f.Wk?
  {
    && Occ(occ, o.fx) >= 0
    && CountsWk(f, o.ctl, o.x, Occ(occ, o.fx), b)
    && Guarantee(x, o.x, SendWk(f.wp, f.job), 0, 0, 0)
    && ControlWk(f, o.ctl, o.x, exited)
  }

  ghost predicate ReadyDis(f: Frame, x: Slot, occ: nat, b: Tally, exited: bool) {
    f.Dis? && Balanced(b) && HasDis(x, occ, b, 0, 0, 0, f.dp) && DisOk(f, x, exited)
  }

  ghost predicate ControlDis(f: Frame, ctl: Ctl, x: Slot, exited: bool)
    requires f.Dis?
  {
    match ctl
    case Stay => true
    case Goto(g) => g.Dis? && DisOk(g, x, exited)
    case Call(g, callee) => g.Dis? && DisOk(g, x, exited) && CalleeOk(callee, x, exited) && Linked(g, callee)
    case Return(r) => Promise(f, r, x, exited)
  }

  ghost predicate KeptDis(f: Frame, x: Slot, o: Out, occ: nat, b: Tally, exited: bool)
    requires f.Dis?
  {
    && Occ(occ, o.fx) >= 0
    && CountsDis(f, o.ctl, o.x, Occ(occ, o.fx), b)
    && Guarantee(x, o.x, 0, 0, 0, 0)
    && ControlDis(f, o.ctl, o.x, exited)
  }

  ghost predicate ReadySnd(f: Frame, x: Slot, occ: nat, b: Tally, exited: bool) {
    f.Snd? && Balanced(b) && HasSnd(x, occ, b, 0, 0, 0, f.np) && SndOk(f, x)
  }

  ghost predicate ControlSnd(f: Frame, ctl: Ctl, x: Slot, exited: bool)
    requires f.Snd?
  {
    match ctl
    case Stay => true
    case Goto(g) => g.Snd? && SndOk(g, x)
    case Call(g, callee) => g.Snd? && SndOk(g, x) && CalleeOk(callee, x, exited) && Linked(g, callee)
    case Return(r) => true
  }

  ghost predicate KeptSnd(f: Frame, x: Slot, o: Out, occ: nat, b: Tally, exited: bool)
    requires f.Snd?
  {
    && Occ(occ, o.fx) >= 0
    && CountsSnd(f, o.ctl, o.x, Occ(occ, o.fx), b)
    && Guarantee(x, o.x, 0, 0, 0, 0)
    && ControlSnd(f, o.ctl, o.x, exited)
  }

  ghost predicate ReadyGrp(f: Frame, x: Slot, occ: nat, b: Tally, exited: bool) {
    f.Grp? && Balanced(b) && HasGrp(x, occ, b, 0, 0, 0, f.gp) && GrpOk(f, x)
  }

  ghost predicate ControlGrp(f: Frame, ctl: Ctl, x: Slot, exited: bool)
    requires f.Grp?
  {
    match ctl
    case Stay => true
    case Goto(g) => g.Grp? && GrpOk(g, x)
    case Call(g, callee) => g.Grp? && GrpOk(g, x) && CalleeOk(callee, x, exited) && Linked(g, callee)
    case Return(r) => true
  }

  ghost predicate KeptGrp(f: Frame, x: Slot, o: Out, occ: nat, b: Tally, exited: bool)
    requires f.Grp?
  {
    && Occ(occ, o.fx) >= 0
    && CountsGrp(f, o.ctl, o.x, Occ(occ, o.fx), b)
    && Guarantee(x, o.x, 0, 0, 0, 0)
    && ControlGrp(f, o.ctl, o.x, exited)
  }

  ghost predicate ReadyPost(f: Frame, x: Slot, occ: nat, b: Tally, exited: bool) {
    f.Post? && Balanced(b) && HasPost(x, occ, b, 0, 0, 0, f.pp) && PostOk(f, x)
  }

  ghost predicate ControlPost(f: Frame, ctl: Ctl, x: Slot, exited: bool)
    requires f.Post?
  {
    match ctl
    case Stay => true
    case Goto(g) => g.Post? && PostOk(g, x)
    case Call(g, callee) => g.Post? && PostOk(g, x) && CalleeOk(callee, x, exited) && Linked(g, callee)
    case Return(r) => Promise(f, r, x, exited)
  }

  ghost predicate KeptPost(f: Frame, x: Slot, o: Out, occ: nat, b: Tally, exited: bool)
    requires f.Post?
  {
    && Occ(occ, o.fx) >= 0
    && CountsPost(f, o.ctl, o.x, Occ(occ, o.fx), b)
    && Guarantee(x, o.x, SendPost(f.pp), 0, 0, 0)
    && ControlPost(f, o.ctl, o.x, exited)
  }

  ghost predicate ReadyRecv(f: Frame, x: Slot, occ: nat, b: Tally, exited: bool) {
    f.Recv? && Balanced(b) && HasRecv(x, occ, b, 0, 0, 0, f.rp, f.held) && RecvOk(f, x)
  }

  ghost predicate ControlRecv(f: Frame, ctl: Ctl, x: Slot, exited: bool)
    requires f.Recv?
  {
    match ctl
    case Stay => true
    case Goto(g) => g.Recv? && RecvOk(g, x)
    case Call(g, callee) => g.Recv? && RecvOk(g, x) && CalleeOk(callee, x, exited) && Linked(g, callee)
    case Return(r) => Promise(f, r, x, exited)
  }

  ghost predicate KeptRecv(f: Frame, x: Slot, o: Out, occ: nat, b: Tally, exited: bool)
    requires f.Recv?
  {
    && Occ(occ, o.fx) >= 0
    && CountsRecv(f, o.ctl, o.x, Occ(occ, o.fx), b)
    && Guarantee(x, o.x, 0, 0, 0, 0)
    && ControlRecv(f, o.ctl, o.x, exited)
  }

  ghost predicate ReadyAcq(f: Frame, x: Slot, occ: nat, b: Tally, exited: bool) {
    f.Acq? && Balanced(b) && HasAcq(x, occ, b, 0, 0, 0, f.qp) && AcqOk(f, x, exited)
  }

  ghost predicate ControlAcq(f: Frame, ctl: Ctl, x: Slot, exited: bool)
    requires f.Acq?
  {
    match ctl
    case Stay => true
    case Goto(g) => g.Acq? && AcqOk(g, x, exited)
    case Call(g, callee) => g.Acq? && AcqOk(g, x, exited) && CalleeOk(callee, x, exited) && Linked(g, callee)
    case Return(r) => Promise(f, r, x, exited)
  }

  ghost predicate KeptAcq(f: Frame, x: Slot, o: Out, occ: nat, b: Tally, exited: bool)
    requires f.Acq?
  {
    && Occ(occ, o.fx) >= 0
    && CountsAcq(f, o.ctl, o.x, Occ(occ, o.fx), b)
    && Guarantee(x, o.x, 0, 0, 0, 0)
    && ControlAcq(f, o.ctl, o.x, exited)
  }

  ghost predicate ReadyRel(f: Frame, x: Slot, occ: nat, b: Tally, exited: bool) {
    f.Rel? && Balanced(b) && HasRel(x, occ, b, 0, 0, 0, f.lp) && RelOk(f.lp, f.g, f.grp, x)
  }

  ghost predicate ControlRel(f: Frame, ctl: Ctl, x: Slot, exited: bool)
    requires f.Rel?
  {
    match ctl
    case Stay => true
    case Goto(g) => g.Rel? && RelOk(g.lp, g.g, g.grp, x)
    case Call(_, _) => false
    case Return(r) => true
  }

  ghost predicate KeptRel(f: Frame, x: Slot, o: Out, occ: nat, b: Tally, exited: bool)
    requires f.Rel?
  {
    && Occ(occ, o.fx) >= 0
    && CountsRel(f, o.ctl, o.x, Occ(occ, o.fx), b)
    && Guarantee(x, o.x, 0, 0, 0, TearRel(f.lp))
    && ControlRel(f, o.ctl, o.x, exited)
  }

  lemma AccTakesKept(f: Frame, x: Slot, i: nat, c: Choice, occ: nat, b: Tally, exited: bool)
    requires ReadyAcc(f, x, i, occ, b, exited)
    requires f.ap.ACheck? || f.ap.AWait? || f.ap.AGot? || f.ap.ARef?
    ensures KeptAcc(f, x, StepAcc(f, x, i, c), occ, b, exited)
  {
    if f.ap.ACheck? { return; } else if f.ap.AWait? { return; } else if f.ap.AGot? { return; }
  }

  lemma AccJoinsKept(f: Frame, x: Slot, i: nat, c: Choice, occ: nat, b: Tally, exited: bool)
    requires ReadyAcc(f, x, i, occ, b, exited)
    requires f.ap.AJoin? || f.ap.AInJoin? || f.ap.ARecv?
    ensures KeptAcc(f, x, StepAcc(f, x, i, c), occ, b, exited)
  {
    if f.ap.AJoin? { return; } else if f.ap.AInJoin? { return; }
  }

  lemma AccReleasesKept(f: Frame, x: Slot, i: nat, c: Choice, occ: nat, b: Tally, exited: bool)
    requires ReadyAcc(f, x, i, occ, b, exited)
    requires f.ap.AInRecv? || f.ap.ARel? || f.ap.AInRel? || f.ap.AExit?
    ensures KeptAcc(f, x, StepAcc(f, x, i, c), occ, b, exited)
  {
    if f.ap.AInRecv? { return; } else if f.ap.ARel? { return; } else if f.ap.AInRel? { return; }
  }

  lemma StepAccKept(f: Frame, x: Slot, i: nat, c: Choice, occ: nat, b: Tally, exited: bool)
    requires ReadyAcc(f, x, i, occ, b, exited)
    ensures KeptAcc(f, x, StepAcc(f, x, i, c), occ, b, exited)
  {
    if f.ap.ACheck? || f.ap.AWait? || f.ap.AGot? || f.ap.ARef? {
      AccTakesKept(f, x, i, c, occ, b, exited);
    } else if f.ap.AJoin? || f.ap.AInJoin? || f.ap.ARecv? {
      AccJoinsKept(f, x, i, c, occ, b, exited);
    } else {
      AccReleasesKept(f, x, i, c, occ, b, exited);
    }
  }

  lemma WkTakesRecvKept(f: Frame, x: Slot, i: nat, c: Choice, occ: nat, b: Tally, exited: bool)
    requires ReadyWk(f, x, i, occ, b, exited)
    requires f.wp.WIdle? && c.kind.RecvKind?
    ensures KeptWk(f, x, StepWk(f, x, i, c), occ, b, exited)
  {
  }

  lemma WkTakesSendKept(f: Frame, x: Slot, i: nat, c: Choice, occ: nat, b: Tally, exited: bool)
    requires ReadyWk(f, x, i, occ, b, exited)
    requires f.wp.WIdle? && c.kind.SendKind?
    ensures KeptWk(f, x, StepWk(f, x, i, c), occ, b, exited)
  {
  }

  lemma WkGotKept(f: Frame, x: Slot, i: nat, c: Choice, occ: nat, b: Tally, exited: bool)
    requires ReadyWk(f, x, i, occ, b, exited)
    requires f.wp.WGot?
    ensures KeptWk(f, x, StepWk(f, x, i, c), occ, b, exited)
  {
  }

  lemma WkResultKept(f: Frame, x: Slot, i: nat, c: Choice, occ: nat, b: Tally, exited: bool)
    requires ReadyWk(f, x, i, occ, b, exited)
    requires f.wp.WDisp?
    ensures KeptWk(f, x, StepWk(f, x, i, c), occ, b, exited)
  {
  }

  lemma WkLockKept(f: Frame, x: Slot, i: nat, c: Choice, occ: nat, b: Tally, exited: bool)
    requires ReadyWk(f, x, i, occ, b, exited)
    requires f.wp.WLock? || f.wp.WCommit?
    ensures KeptWk(f, x, StepWk(f, x, i, c), occ, b, exited)
  {
    if f.wp.WLock? { return; }
  }

  lemma WkParseKept(f: Frame, x: Slot, i: nat, c: Choice, occ: nat, b: Tally, exited: bool)
    requires ReadyWk(f, x, i, occ, b, exited)
    requires f.wp.WInRecv? || f.wp.WParse? || f.wp.WInCb? || f.wp.WInDis?
    ensures KeptWk(f, x, StepWk(f, x, i, c), occ, b, exited)
  {
    if f.wp.WInRecv? { return; } else if f.wp.WParse? { return; } else if f.wp.WInCb? { return; }
  }

  lemma WkDispatchKept(f: Frame, x: Slot, i: nat, c: Choice, occ: nat, b: Tally, exited: bool)
    requires ReadyWk(f, x, i, occ, b, exited)
    requires f.wp.WDispatch? && f.job.pkts > 0
    ensures KeptWk(f, x, StepWk(f, x, i, c), occ, b, exited)
  {
    if !c.ok { return; } else if x.core.group.Some? { return; }
  }

  lemma WkDispatchedKept(f: Frame, x: Slot, i: nat, c: Choice, occ: nat, b: Tally, exited: bool)
    requires ReadyWk(f, x, i, occ, b, exited)
    requires f.wp.WDispatch? && f.job.pkts == 0
    ensures KeptWk(f, x, StepWk(f, x, i, c), occ, b, exited)
  {
    if f.job.desync { return; }
  }

  lemma WkSendKept(f: Frame, x: Slot, i: nat, c: Choice, occ: nat, b: Tally, exited: bool)
    requires ReadyWk(f, x, i, occ, b, exited)
    requires f.wp.WSend?
    ensures KeptWk(f, x, StepWk(f, x, i, c), occ, b, exited)
  {
    if f.job.bytes == 0 { return; } else if x.queue.inFlight == [] { return; }
  }

  lemma WkPostKept(f: Frame, x: Slot, i: nat, c: Choice, occ: nat, b: Tally, exited: bool)
    requires ReadyWk(f, x, i, occ, b, exited)
    requires f.wp.WPost? || f.wp.WInPost?
    ensures KeptWk(f, x, StepWk(f, x, i, c), occ, b, exited)
  {
    if f.wp.WPost? { return; }
  }

  lemma WkSentKept(f: Frame, x: Slot, i: nat, c: Choice, occ: nat, b: Tally, exited: bool)
    requires ReadyWk(f, x, i, occ, b, exited)
    requires f.wp.WSent? || f.wp.WInSent?
    ensures KeptWk(f, x, StepWk(f, x, i, c), occ, b, exited)
  {
    if f.wp.WSent? { return; }
  }

  lemma WkReleasesKept(f: Frame, x: Slot, i: nat, c: Choice, occ: nat, b: Tally, exited: bool)
    requires ReadyWk(f, x, i, occ, b, exited)
    requires f.wp.WRel? || f.wp.WInRel?
    ensures KeptWk(f, x, StepWk(f, x, i, c), occ, b, exited)
  {
    if f.wp.WRel? { return; }
  }

  lemma StepWkKept(f: Frame, x: Slot, i: nat, c: Choice, occ: nat, b: Tally, exited: bool)
    requires ReadyWk(f, x, i, occ, b, exited)
    ensures KeptWk(f, x, StepWk(f, x, i, c), occ, b, exited)
  {
    if f.wp.WIdle? && c.kind.RecvKind? {
      WkTakesRecvKept(f, x, i, c, occ, b, exited);
    } else if f.wp.WIdle? {
      WkTakesSendKept(f, x, i, c, occ, b, exited);
    } else if f.wp.WGot? {
      WkGotKept(f, x, i, c, occ, b, exited);
    } else if f.wp.WDisp? {
      WkResultKept(f, x, i, c, occ, b, exited);
    } else if f.wp.WLock? || f.wp.WCommit? {
      WkLockKept(f, x, i, c, occ, b, exited);
    } else if f.wp.WInRecv? || f.wp.WParse? || f.wp.WInCb? || f.wp.WInDis? {
      WkParseKept(f, x, i, c, occ, b, exited);
    } else if f.wp.WDispatch? && f.job.pkts > 0 {
      WkDispatchKept(f, x, i, c, occ, b, exited);
    } else if f.wp.WDispatch? {
      WkDispatchedKept(f, x, i, c, occ, b, exited);
    } else if f.wp.WSend? {
      WkSendKept(f, x, i, c, occ, b, exited);
    } else if f.wp.WPost? || f.wp.WInPost? {
      WkPostKept(f, x, i, c, occ, b, exited);
    } else if f.wp.WSent? || f.wp.WInSent? {
      WkSentKept(f, x, i, c, occ, b, exited);
    } else {
      WkReleasesKept(f, x, i, c, occ, b, exited);
    }
  }

  lemma DisAcquiresKept(f: Frame, x: Slot, occ: nat, b: Tally, exited: bool)
    requires ReadyDis(f, x, occ, b, exited)
    requires f.dp.DAcq? || f.dp.DInAcq?
    ensures KeptDis(f, x, StepDis(f, x), occ, b, exited)
  {
    if f.dp.DAcq? { return; }
  }

  lemma DisFlagsKept(f: Frame, x: Slot, occ: nat, b: Tally, exited: bool)
    requires ReadyDis(f, x, occ, b, exited)
    requires f.dp.DFlag? || f.dp.DCancel?
    ensures KeptDis(f, x, StepDis(f, x), occ, b, exited)
  {
    if f.dp.DFlag? { return; }
  }

  lemma DisReleasesKept(f: Frame, x: Slot, occ: nat, b: Tally, exited: bool)
    requires ReadyDis(f, x, occ, b, exited)
    requires f.dp.DRel? || f.dp.DInRel? || f.dp.DDone? || f.dp.DFail?
    ensures KeptDis(f, x, StepDis(f, x), occ, b, exited)
  {
    if f.dp.DRel? { return; } else if f.dp.DInRel? { return; } else if f.dp.DDone? { return; }
  }

  lemma StepDisKept(f: Frame, x: Slot, occ: nat, b: Tally, exited: bool)
    requires ReadyDis(f, x, occ, b, exited)
    ensures KeptDis(f, x, StepDis(f, x), occ, b, exited)
  {
    if f.dp.DAcq? || f.dp.DInAcq? {
      DisAcquiresKept(f, x, occ, b, exited);
    } else if f.dp.DFlag? || f.dp.DCancel? {
      DisFlagsKept(f, x, occ, b, exited);
    } else {
      DisReleasesKept(f, x, occ, b, exited);
    }
  }

  lemma SndReservesKept(f: Frame, x: Slot, c: Choice, occ: nat, b: Tally, exited: bool)
    requires ReadySnd(f, x, occ, b, exited)
    requires f.np.SAcq? || f.np.SInAcq? || f.np.SLoad? || f.np.SCas? || f.np.SFull?
    ensures KeptSnd(f, x, StepSnd(f, x, c), occ, b, exited)
  {
    if f.np.SAcq? { return; } else if f.np.SInAcq? { return; } else if f.np.SLoad? { return; }
    else if f.np.SCas? { return; }
  }

  lemma SndPostsKept(f: Frame, x: Slot, c: Choice, occ: nat, b: Tally, exited: bool)
    requires ReadySnd(f, x, occ, b, exited)
    requires f.np.SInDis? || f.np.SEnq? || f.np.SPost? || f.np.SInPost? || f.np.SRel? || f.np.SInRel? || f.np.SEnd?
    ensures KeptSnd(f, x, StepSnd(f, x, c), occ, b, exited)
  {
    if f.np.SInDis? { return; } else if f.np.SEnq? { return; } else if f.np.SPost? { return; }
    else if f.np.SInPost? { return; } else if f.np.SRel? { return; } else if f.np.SInRel? { return; }
  }

  lemma StepSndKept(f: Frame, x: Slot, c: Choice, occ: nat, b: Tally, exited: bool)
    requires ReadySnd(f, x, occ, b, exited)
    ensures KeptSnd(f, x, StepSnd(f, x, c), occ, b, exited)
  {
    if f.np.SAcq? || f.np.SInAcq? || f.np.SLoad? || f.np.SCas? || f.np.SFull? {
      SndReservesKept(f, x, c, occ, b, exited);
    } else {
      SndPostsKept(f, x, c, occ, b, exited);
    }
  }

  lemma StepGrpKept(f: Frame, x: Slot, occ: nat, b: Tally, exited: bool)
    requires ReadyGrp(f, x, occ, b, exited)
    ensures KeptGrp(f, x, StepGrp(f, x), occ, b, exited)
  {
    match f.gp
    case GAcq => return; case GInAcq => return; case GSet => return; case GRel => return; case GInRel => return;
    case GEnd => return;
  }

  lemma PostTakesFlagKept(f: Frame, x: Slot, c: Choice, occ: nat, b: Tally, exited: bool)
    requires ReadyPost(f, x, occ, b, exited)
    requires f.pp.PFlagX? || f.pp.PId? || f.pp.PTop?
    ensures KeptPost(f, x, StepPost(f, x, c), occ, b, exited)
  {
    if f.pp.PFlagX? { return; } else if f.pp.PId? { return; }
  }

  lemma PostDrainsKept(f: Frame, x: Slot, c: Choice, occ: nat, b: Tally, exited: bool)
    requires ReadyPost(f, x, occ, b, exited) && f.pp.PDrain?
    ensures KeptPost(f, x, StepPost(f, x, c), occ, b, exited)
  {
    if f.drained < SEND_BATCH_SIZE && x.queue.pending != [] { return; }
  }

  lemma PostClearsKept(f: Frame, x: Slot, c: Choice, occ: nat, b: Tally, exited: bool)
    requires ReadyPost(f, x, occ, b, exited) && (f.pp.PClear? || f.pp.PEmpty?)
    ensures KeptPost(f, x, StepPost(f, x, c), occ, b, exited)
  {
    if f.pp.PClear? { return; }
  }

  lemma PostChecksKept(f: Frame, x: Slot, c: Choice, occ: nat, b: Tally, exited: bool)
    requires ReadyPost(f, x, occ, b, exited)
    requires f.pp.PRetake? || f.pp.PChk? || f.pp.PInAcq? || f.pp.PIo?
    ensures KeptPost(f, x, StepPost(f, x, c), occ, b, exited)
  {
    if f.pp.PRetake? { return; } else if f.pp.PChk? { return; } else if f.pp.PInAcq? { return; }
  }

  lemma PostEndsKept(f: Frame, x: Slot, c: Choice, occ: nat, b: Tally, exited: bool)
    requires ReadyPost(f, x, occ, b, exited)
    requires f.pp.PPosted? || f.pp.PCancel? || f.pp.PDrop? || f.pp.PRel? || f.pp.PInRel? || f.pp.PAcqFail?
    ensures KeptPost(f, x, StepPost(f, x, c), occ, b, exited)
  {
    if f.pp.PPosted? { return; } else if f.pp.PCancel? { return; } else if f.pp.PDrop? { return; }
    else if f.pp.PRel? { return; } else if f.pp.PInRel? { return; }
  }

  lemma StepPostKept(f: Frame, x: Slot, c: Choice, occ: nat, b: Tally, exited: bool)
    requires ReadyPost(f, x, occ, b, exited)
    ensures KeptPost(f, x, StepPost(f, x, c), occ, b, exited)
  {
    if f.pp.PFlagX? || f.pp.PId? || f.pp.PTop? {
      PostTakesFlagKept(f, x, c, occ, b, exited);
    } else if f.pp.PDrain? {
      PostDrainsKept(f, x, c, occ, b, exited);
    } else if f.pp.PClear? || f.pp.PEmpty? {
      PostClearsKept(f, x, c, occ, b, exited);
    } else if f.pp.PRetake? || f.pp.PChk? || f.pp.PInAcq? || f.pp.PIo? {
      PostChecksKept(f, x, c, occ, b, exited);
    } else {
      PostEndsKept(f, x, c, occ, b, exited);
    }
  }

  lemma RecvStartsKept(f: Frame, x: Slot, c: Choice, occ: nat, b: Tally, exited: bool)
    requires ReadyRecv(f, x, occ, b, exited)
    requires f.rp.RId? || f.rp.RFull? || f.rp.RInDis?
    ensures KeptRecv(f, x, StepRecv(f, x, c), occ, b, exited)
  {
    if f.rp.RId? { return; } else if f.rp.RFull? { return; }
  }

  lemma RecvPostsKept(f: Frame, x: Slot, c: Choice, occ: nat, b: Tally, exited: bool)
    requires ReadyRecv(f, x, occ, b, exited)
    requires f.rp.RChk? || f.rp.RInAcq? || f.rp.RIo?
    ensures KeptRecv(f, x, StepRecv(f, x, c), occ, b, exited)
  {
    if f.rp.RChk? { return; } else if f.rp.RInAcq? { return; }
  }

  lemma RecvEndsKept(f: Frame, x: Slot, c: Choice, occ: nat, b: Tally, exited: bool)
    requires ReadyRecv(f, x, occ, b, exited)
    requires f.rp.RPosted? || f.rp.RCancel? || f.rp.RRel? || f.rp.RInRel? || f.rp.REnd? || f.rp.RAcqFail?
    ensures KeptRecv(f, x, StepRecv(f, x, c), occ, b, exited)
  {
    if f.rp.RPosted? { return; } else if f.rp.RCancel? { return; } else if f.rp.RRel? { return; }
    else if f.rp.RInRel? { return; } else if f.rp.REnd? { return; }
  }

  lemma StepRecvKept(f: Frame, x: Slot, c: Choice, occ: nat, b: Tally, exited: bool)
    requires ReadyRecv(f, x, occ, b, exited)
    ensures KeptRecv(f, x, StepRecv(f, x, c), occ, b, exited)
  {
    if f.rp.RId? || f.rp.RFull? || f.rp.RInDis? {
      RecvStartsKept(f, x, c, occ, b, exited);
    } else if f.rp.RChk? || f.rp.RInAcq? || f.rp.RIo? {
      RecvPostsKept(f, x, c, occ, b, exited);
    } else {
      RecvEndsKept(f, x, c, occ, b, exited);
    }
  }

  lemma AcqCountsKept(f: Frame, x: Slot, c: Choice, occ: nat, b: Tally, exited: bool)
    requires ReadyAcq(f, x, occ, b, exited)
    requires f.qp.QLoad? || f.qp.QCas?
    ensures KeptAcq(f, x, StepAcq(f, x, c), occ, b, exited)
  {
    if f.qp.QLoad? { return; }
  }

  lemma AcqChecksKept(f: Frame, x: Slot, c: Choice, occ: nat, b: Tally, exited: bool)
    requires ReadyAcq(f, x, occ, b, exited)
    requires f.qp.QGen? || f.qp.QBack? || f.qp.QInRel? || f.qp.QFail?
    ensures KeptAcq(f, x, StepAcq(f, x, c), occ, b, exited)
  {
    if f.qp.QGen? { return; } else if f.qp.QBack? { return; } else if f.qp.QInRel? { return; }
  }

  lemma StepAcqKept(f: Frame, x: Slot, c: Choice, occ: nat, b: Tally, exited: bool)
    requires ReadyAcq(f, x, occ, b, exited)
    ensures KeptAcq(f, x, StepAcq(f, x, c), occ, b, exited)
  {
    if f.qp.QLoad? || f.qp.QCas? {
      AcqCountsKept(f, x, c, occ, b, exited);
    } else {
      AcqChecksKept(f, x, c, occ, b, exited);
    }
  }

  lemma RelCountsKept(f: Frame, x: Slot, occ: nat, b: Tally, exited: bool)
    requires ReadyRel(f, x, occ, b, exited)
    requires f.lp.LSub? || f.lp.LBar? || f.lp.LGrp? || f.lp.LClose?
    ensures KeptRel(f, x, StepRel(f, x), occ, b, exited)
  {
    if f.lp.LSub? { return; } else if f.lp.LBar? { return; } else if f.lp.LGrp? { return; }
  }

  lemma RelClearsKept(f: Frame, x: Slot, occ: nat, b: Tally, exited: bool)
    requires ReadyRel(f, x, occ, b, exited)
    requires f.lp.LGen? || f.lp.LPend? || f.lp.LCount? || f.lp.LSendF?
    ensures KeptRel(f, x, StepRel(f, x), occ, b, exited)
  {
    if f.lp.LGen? { return; } else if f.lp.LPend? { return; } else if f.lp.LCount? { return; }
  }

  lemma RelReturnsSlotKept(f: Frame, x: Slot, occ: nat, b: Tally, exited: bool)
    requires ReadyRel(f, x, occ, b, exited)
    requires f.lp.LDiscF? || f.lp.LLeave? || f.lp.LPush?
    ensures KeptRel(f, x, StepRel(f, x), occ, b, exited)
  {
    if f.lp.LDiscF? { return; } else if f.lp.LLeave? { return; }
  }

  lemma RelLeavesKept(f: Frame, x: Slot, occ: nat, b: Tally, exited: bool)
    requires ReadyRel(f, x, occ, b, exited)
    requires f.lp.LDec? || f.lp.LCb? || f.lp.LInCb?
    ensures KeptRel(f, x, StepRel(f, x), occ, b, exited)
  {
    if f.lp.LDec? { return; } else if f.lp.LCb? { return; }
  }

  lemma StepRelKept(f: Frame, x: Slot, occ: nat, b: Tally, exited: bool)
    requires ReadyRel(f, x, occ, b, exited)
    ensures KeptRel(f, x, StepRel(f, x), occ, b, exited)
  {
    if f.lp.LSub? || f.lp.LBar? || f.lp.LGrp? || f.lp.LClose? {
      RelCountsKept(f, x, occ, b, exited);
    } else if f.lp.LGen? || f.lp.LPend? || f.lp.LCount? || f.lp.LSendF? {
      RelClearsKept(f, x, occ, b, exited);
    } else if f.lp.LDiscF? || f.lp.LLeave? || f.lp.LPush? {
      RelReturnsSlotKept(f, x, occ, b, exited);
    } else {
      RelLeavesKept(f, x, occ, b, exited);
    }
  }
}
