/**
 The IOCP session engine (net_server.cpp; server.cpp is the same engine with another packet type)
 as a step system.  Every thread has a call stack of frames; a frame is a program point of one
 engine function with its locals.  One step runs one atomic operation (or one kernel call) of one
 thread; completions are steps of the kernel.  A run is any sequence of such choices.
 */
module EngineModel {
  import opened Bytes
  import opened Sequences
  import opened Options

  type Packet = seq<Byte>

  const MAX_PENDING_SENDS: nat := 1024
  const SEND_BATCH_SIZE: nat := 128

  /** A session id: slot index and generation (pack_session_id). */
  datatype Id = Id(index: nat, gen: nat)

  datatype IoKind = RecvKind | SendKind

  /** One overlapped operation.  A Done operation sits in the completion port's queue. */
  datatype Io = Idle | Posted(cancelled: bool) | Done(ok: bool, bytes: nat)

  /** What a slot's history records; every event carries the generation it belongs to. */
  datatype Event =
    | Guess(g: nat)       // an API caller acquired the id before on_client_join announced it
    | Join(g: nat) | JoinEnd(g: nat)
    | RecvBegin(g: nat) | RecvEnd(g: nat)
    | SendBegin(g: nat) | SendEnd(g: nat)
    | Tear(g: nat) | Grouped(g: nat, group: nat)
    | PostLeave(g: nat, group: nat)
    | Leave(g: nat)

  /** A session slot, in three parts and a history.  counted, stuck, failed, enqueued, wire and hist are
      bookkeeping that no branch reads. */
  datatype Core = Core(refs: nat, gen: nat, group: Option<nat>, open: bool, locked: bool, counted: bool)
  datatype Flow = Flow(sendFlag: bool, discFlag: bool, recvIo: Io, sendIo: Io, stuck: bool, failed: bool)
  datatype Queue = Queue(pending: seq<Packet>, count: nat, inFlight: seq<Packet>, offset: nat,
                         enqueued: seq<Packet>, wire: seq<Byte>)
  datatype Slot = Slot(core: Core, flow: Flow, queue: Queue, hist: seq<Event>)

  datatype AccPc = ACheck | AWait | AGot | ARef | AJoin | AInJoin | ARecv | AInRecv | ARel | AInRel | AExit
  datatype WkPc = WIdle | WGot | WDisp | WLock | WCommit | WInRecv | WParse | WDispatch | WInCb | WInDis
                | WSend | WPost | WInPost | WSent | WInSent | WRel | WInRel
  datatype DisPc = DAcq | DInAcq | DFlag | DCancel | DRel | DInRel | DDone | DFail
  datatype SndPc = SAcq | SInAcq | SLoad | SCas | SFull | SInDis | SEnq | SPost | SInPost | SRel | SInRel | SEnd
  datatype GrpPc = GAcq | GInAcq | GSet | GRel | GInRel | GEnd
  datatype PostPc = PFlagX | PId | PTop | PDrain | PClear | PEmpty | PRetake | PChk | PInAcq | PIo
                  | PPosted | PCancel | PDrop | PRel | PInRel | PAcqFail
  datatype RecvPc = RId | RFull | RInDis | RChk | RInAcq | RIo | RPosted | RCancel | RRel | RInRel | REnd | RAcqFail
  datatype AcqPc = QLoad | QCas | QGen | QBack | QInRel | QFail
  datatype RelPc = LSub | LBar | LGrp | LClose | LGen | LPend | LCount | LSendF | LDiscF | LLeave | LPush | LDec
                 | LCb | LInCb
  datatype StopPc = TRun | TJoin | TSweep | TInDis | TPoll | TDone

  /** The completion a worker handles: its result, the bytes still to consume, the packets still to dispatch. */
  datatype Job = Job(kind: IoKind, ok: bool, bytes: nat, pkts: nat, desync: bool)

  const NO_JOB := Job(RecvKind, false, 0, 0, false)

  /** Stack frames.  `cg` is the generation the caller of a posting function works on, `held` says that
      the caller of recv_post holds the session lock, `sweep` marks the disconnect calls that stop() makes. */
  datatype Frame =
    | Usr
    | Stop(sp: StopPc, k: nat)
    | Acc(ap: AccPc, i: nat, g: nat)
    | Wk(wp: WkPc, i: nat, g: nat, job: Job)
    | Dis(dp: DisPc, id: Id, sweep: bool)
    | Snd(np: SndPc, id: Id, pkt: Packet, seen: nat)
    | Grp(gp: GrpPc, id: Id, value: Option<nat>)
    | Post(pp: PostPc, i: nat, g: nat, cg: nat, drained: nat)
    | Recv(rp: RecvPc, i: nat, g: nat, cg: nat, held: bool)
    | Acq(qp: AcqPc, id: Id, read: nat, sweep: bool)
    | Rel(lp: RelPc, i: nat, g: nat, grp: Option<nat>)

  /** What a user thread may ask for. */
  datatype Api = NoCall | CallDisconnect(id: Id) | CallSend(id: Id, pkt: Packet) | CallSetGroup(id: Id,
                                                                                                group: Option<nat>)

  /** The nondeterminism of one thread step: outcome of a kernel call or spurious CAS failure,
      which slot or completion, how many packets, which API call. */
  datatype Choice = Choice(ok: bool, flag: bool, n: nat, kind: IoKind, api: Api)

  datatype Label =
    | Run(t: nat, c: Choice)
    | Kernel(index: nat, io: IoKind, ok: bool, bytes: nat)

  datatype State = State(
    slots: seq<Slot>, free: seq<nat>, active: int, running: bool, exited: bool,
    threads: seq<seq<Frame>>)

  /** Where control goes: replace the top frame, call, or return a result to the frame below. */
  datatype Ctl = Stay | Goto(f: Frame) | Call(f: Frame, callee: Frame) | Return(result: bool)

  /** Effects outside the slot. */
  datatype Effect = Nothing | Pop | Push | ActiveUp | ActiveDown | AcceptExit | RunningOff

  datatype Out = Out(x: Slot, ctl: Ctl, fx: Effect)

  const EMPTY_SLOT := Slot(Core(0, 0, None, false, false, false), Flow(false, false, Idle, Idle, false, false),
                           Queue([], 0, [], 0, [], []), [])

  /** The in-flight bytes from in_flight_offset on: exactly what send_post hands to WSASend. */
  function Unsent(x: Slot): seq<Byte> {
    var all := Concat(x.queue.inFlight);
    if x.queue.offset <= |all| then all[x.queue.offset..] else []
  }

  function Cancel(io: Io): Io {
    if io.Posted? then Posted(true) else io
  }

  /** CancelIoEx(socket, nullptr): every outstanding operation of the socket. */
  function CancelAll(x: Slot): Slot {
    x.(flow := x.flow.(recvIo := Cancel(x.flow.recvIo), sendIo := Cancel(x.flow.sendIo)))
  }

  function Log(x: Slot, e: Event): Slot {
    x.(hist := x.hist + [e])
  }

  predicate Joined(x: Slot) {
    Join(x.core.gen) in x.hist
  }

  predicate Announced(x: Slot) {
    Joined(x) || Guess(x.core.gen) in x.hist
  }

  function NewRel(i: nat): Frame { Rel(LSub, i, 0, None) }
  function NewAcq(id: Id, sweep: bool): Frame { Acq(QLoad, id, 0, sweep) }
  function NewDis(id: Id, sweep: bool): Frame { Dis(DAcq, id, sweep) }
  function NewRecv(i: nat, cg: nat, held: bool): Frame { Recv(RId, i, 0, cg, held) }
  function NewPost(i: nat, cg: nat): Frame { Post(PFlagX, i, 0, cg, 0) }

  // ---------------------------------------------------------------- accept_thread_proc

  function StepAcc(f: Frame, x: Slot, i: nat, c: Choice): Out
    requires f.Acc?
  {
    match f.ap
    case AWait => Out(x, Goto(Acc(AGot, i, 0)), Pop)
    case AGot =>
      if c.ok
      then Out(x.(core := x.core.(open := true, counted := true)), Goto(f.(ap := ARef)), ActiveUp)
      else Out(x, Goto(Acc(ACheck, 0, 0)), Push)
    case ARef =>
      Out(x.(core := x.core.(refs := x.core.refs + 1), queue := x.queue.(enqueued := [], wire := []),
             flow := x.flow.(failed := false)),
          Goto(f.(ap := AJoin)), Nothing)
    case AJoin => Out(Log(x, Join(x.core.gen)), Goto(f.(ap := AInJoin, g := x.core.gen)), Nothing)
    case AInJoin => Out(Log(x, JoinEnd(f.g)), Goto(f.(ap := ARecv)), Nothing)
    case ARecv => Out(x, Call(f.(ap := AInRecv), NewRecv(i, f.g, false)), Nothing)
    case ARel => Out(x, Call(f.(ap := AInRel), NewRel(i)), Nothing)
    case _ => Out(x, Stay, Nothing)
  }

  // ---------------------------------------------------------------- worker_thread_proc

  /** A worker takes the send completion.  One that failed, or took nothing, leaves send_flag set for good. */
  function SendTaken(w: Flow): Flow
    requires w.sendIo.Done?
  {
    if w.sendIo.ok && w.sendIo.bytes > 0 then w.(sendIo := Idle)
    else w.(sendIo := Idle, stuck := true, failed := true)
  }

  function StepWk(f: Frame, x: Slot, i: nat, c: Choice): Out
    requires f.Wk?
  {
    match f.wp
    case WIdle =>
      if c.kind.RecvKind? && x.flow.recvIo.Done? then
        Out(x.(flow := x.flow.(recvIo := Idle)),
            Goto(Wk(WGot, i, 0, Job(RecvKind, x.flow.recvIo.ok, x.flow.recvIo.bytes, 0, false))), Nothing)
      else if c.kind.SendKind? && x.flow.sendIo.Done? then
        Out(x.(flow := SendTaken(x.flow)),
            Goto(Wk(WGot, i, 0, Job(SendKind, x.flow.sendIo.ok, x.flow.sendIo.bytes, 0, false))), Nothing)
      else Out(x, Stay, Nothing)
    case WGot => Out(x, Goto(f.(wp := WDisp, g := x.core.gen)), Nothing)
    case WDisp =>
      if !f.job.ok || f.job.bytes == 0 then
        Out(x, Goto(f.(wp := WRel)), Nothing)
      else Out(x, Goto(f.(wp := if f.job.kind.RecvKind? then WLock else WSend)), Nothing)
    case WLock =>
      if x.core.locked then Out(x, Stay, Nothing)
      else Out(x.(core := x.core.(locked := true)), Goto(f.(wp := WCommit)), Nothing)
    case WCommit => Out(x, Call(f.(wp := WInRecv), NewRecv(i, f.g, true)), Nothing)
    case WParse =>
      Out(x.(core := x.core.(locked := false)),
          Goto(f.(wp := WDispatch, job := f.job.(pkts := c.n, desync := c.flag))), Nothing)
    case WDispatch =>
      if f.job.pkts > 0 then
        if !c.ok then Out(x, Call(f.(wp := WInDis), NewDis(Id(i, f.g), false)), Nothing)
        else if x.core.group.Some? then Out(x, Goto(f.(job := f.job.(pkts := f.job.pkts - 1))), Nothing)
        else Out(Log(x, RecvBegin(f.g)), Goto(f.(wp := WInCb)), Nothing)
      else if f.job.desync then Out(x, Call(f.(wp := WInDis), NewDis(Id(i, f.g), false)), Nothing)
      else Out(x, Goto(f.(wp := WRel)), Nothing)
    case WInCb =>
      Out(Log(x, RecvEnd(f.g)),
          Goto(f.(wp := WDispatch, job := f.job.(pkts := if f.job.pkts > 0 then f.job.pkts - 1 else 0))), Nothing)
    case WSend =>
      if f.job.bytes > 0 && x.queue.inFlight != [] then
        var first := |x.queue.inFlight[0]| - x.queue.offset;
        if f.job.bytes >= first && first >= 0 then
          Out(x.(queue := x.queue.(inFlight := x.queue.inFlight[1..], offset := 0,
                                   count := if x.queue.count > 0 then x.queue.count - 1 else 0)),
              Goto(f.(job := f.job.(bytes := f.job.bytes - first))), Nothing)
        else Out(x.(queue := x.queue.(offset := x.queue.offset + f.job.bytes)),
                 Goto(f.(job := f.job.(bytes := 0))), Nothing)
      else Out(x.(flow := x.flow.(sendFlag := false)), Goto(f.(wp := WPost)), Nothing)
    case WPost => Out(x, Call(f.(wp := WInPost), NewPost(i, f.g)), Nothing)
    case WSent => Out(Log(x, SendBegin(f.g)), Goto(f.(wp := WInSent)), Nothing)
    case WInSent => Out(Log(x, SendEnd(f.g)), Goto(f.(wp := WRel)), Nothing)
    case WRel => Out(x, Call(f.(wp := WInRel), NewRel(i)), Nothing)
    case _ => Out(x, Stay, Nothing)
  }

  // ---------------------------------------------------------------- disconnect

  function StepDis(f: Frame, x: Slot): Out
    requires f.Dis?
  {
    match f.dp
    case DAcq => Out(x, Call(f.(dp := DInAcq), NewAcq(f.id, f.sweep)), Nothing)
    case DFlag => Out(x.(flow := x.flow.(discFlag := true)), Goto(f.(dp := DCancel)), Nothing)
    case DCancel => Out(CancelAll(x), Goto(f.(dp := DRel)), Nothing)
    case DRel => Out(x, Call(f.(dp := DInRel), NewRel(f.id.index)), Nothing)
    case DDone => Out(x, Return(true), Nothing)
    case DFail => Out(x, Return(false), Nothing)
    case _ => Out(x, Stay, Nothing)
  }

  // ---------------------------------------------------------------- send_packet

  function StepSnd(f: Frame, x: Slot, c: Choice): Out
    requires f.Snd?
  {
    match f.np
    case SAcq => Out(x, Call(f.(np := SInAcq), NewAcq(f.id, false)), Nothing)
    case SLoad => Out(x, Goto(f.(np := SCas, seen := x.queue.count)), Nothing)
    case SCas =>
      if f.seen >= MAX_PENDING_SENDS then Out(x, Goto(f.(np := SFull)), Nothing)
      else if x.queue.count == f.seen && c.ok then Out(x.(queue := x.queue.(count := x.queue.count + 1)),
                                                       Goto(f.(np := SEnq)), Nothing)
      else Out(x, Goto(Snd(SCas, f.id, f.pkt, x.queue.count)), Nothing)
    case SFull => Out(x, Call(f.(np := SInDis), NewDis(f.id, false)), Nothing)
    case SEnq =>
      Out(x.(queue := x.queue.(pending := x.queue.pending + [f.pkt], enqueued := x.queue.enqueued + [f.pkt])),
          Goto(f.(np := SPost)), Nothing)
    case SPost => Out(x, Call(f.(np := SInPost), NewPost(f.id.index, f.id.gen)), Nothing)
    case SRel => Out(x, Call(f.(np := SInRel), NewRel(f.id.index)), Nothing)
    case SEnd => Out(x, Return(true), Nothing)
    case _ => Out(x, Stay, Nothing)
  }

  // ---------------------------------------------------------------- set_session_group

  function StepGrp(f: Frame, x: Slot): Out
    requires f.Grp?
  {
    match f.gp
    case GAcq => Out(x, Call(f.(gp := GInAcq), NewAcq(f.id, false)), Nothing)
    case GSet => Out(x.(core := x.core.(group := f.value)), Goto(f.(gp := GRel)), Nothing)
    case GRel => Out(x, Call(f.(gp := GInRel), NewRel(f.id.index)), Nothing)
    case GEnd => Out(x, Return(true), Nothing)
    case _ => Out(x, Stay, Nothing)
  }

  // ---------------------------------------------------------------- send_post

  function StepPost(f: Frame, x: Slot, c: Choice): Out
    requires f.Post?
  {
    match f.pp
    case PFlagX =>
      if x.flow.sendFlag then Out(x, Return(false), Nothing)
      else Out(x.(flow := x.flow.(sendFlag := true)), Goto(f.(pp := PId)), Nothing)
    case PId => Out(x, Goto(f.(pp := PTop, g := x.core.gen)), Nothing)
    case PTop =>
      Out(x, Goto(if x.queue.inFlight == [] then f.(pp := PDrain, drained := 0) else f.(pp := PChk)), Nothing)
    case PDrain =>
      if f.drained < SEND_BATCH_SIZE && x.queue.pending != [] then
        Out(x.(queue := x.queue.(inFlight := x.queue.inFlight + [x.queue.pending[0]], pending := x.queue.pending[1..])),
            Goto(f.(drained := f.drained + 1)), Nothing)
      else Out(x.(queue := x.queue.(offset := 0)),
               Goto(f.(pp := if x.queue.inFlight == [] then PClear else PChk)), Nothing)
    case PClear => Out(x.(flow := x.flow.(sendFlag := false)), Goto(f.(pp := PEmpty)), Nothing)
    case PEmpty =>
      if x.queue.pending == [] then Out(x, Return(true), Nothing)
      else Out(x, Goto(f.(pp := PRetake)), Nothing)
    case PRetake =>
      if x.flow.sendFlag then Out(x, Return(true), Nothing)
      else Out(x.(flow := x.flow.(sendFlag := true)), Goto(f.(pp := PTop)), Nothing)
    case PChk =>
      if x.flow.discFlag then Out(x, Goto(f.(pp := PDrop)), Nothing)
      else Out(x, Call(f.(pp := PInAcq), NewAcq(Id(f.i, f.g), false)), Nothing)
    case PIo =>
      if c.ok
      then Out(x.(flow := x.flow.(sendIo := Posted(false), failed := false)), Goto(f.(pp := PPosted)), Nothing)
      else Out(x.(flow := x.flow.(failed := true)), Goto(f.(pp := PRel)), Nothing)
    case PRel => Out(x, Call(f.(pp := PInRel), NewRel(f.i)), Nothing)
    case PPosted => if x.flow.discFlag then Out(x, Goto(f.(pp := PCancel)), Nothing) else Out(x, Return(true), Nothing)
    case PCancel => Out(CancelAll(x), Return(true), Nothing)
    case PDrop => Out(x.(flow := x.flow.(sendFlag := false)), Return(false), Nothing)
    case PAcqFail => Out(x.(flow := x.flow.(sendFlag := false)), Return(false), Nothing)
    case _ => Out(x, Stay, Nothing)
  }

  // ---------------------------------------------------------------- recv_post

  function StepRecv(f: Frame, x: Slot, c: Choice): Out
    requires f.Recv?
  {
    match f.rp
    case RId => Out(x, Goto(f.(rp := RFull, g := x.core.gen)), Nothing)
    case RFull =>
      if c.flag then Out(x, Call(f.(rp := RInDis), NewDis(Id(f.i, f.g), false)), Nothing)
      else Out(x, Goto(f.(rp := RChk)), Nothing)
    case RChk =>
      if x.flow.discFlag then Out(x, Goto(f.(rp := REnd)), Nothing)
      else Out(x, Call(f.(rp := RInAcq), NewAcq(Id(f.i, f.g), false)), Nothing)
    case RIo =>
      if c.ok then Out(x.(flow := x.flow.(recvIo := Posted(false))), Goto(f.(rp := RPosted)), Nothing)
      else Out(x, Goto(f.(rp := RRel)), Nothing)
    case RRel => Out(x, Call(f.(rp := RInRel), NewRel(f.i)), Nothing)
    case RPosted => Out(x, Goto(f.(rp := if x.flow.discFlag then RCancel else REnd)), Nothing)
    case RCancel => Out(CancelAll(x), Goto(f.(rp := REnd)), Nothing)
    case REnd => Out(x, Return(true), Nothing)
    case RAcqFail => Out(x, Return(false), Nothing)
    case _ => Out(x, Stay, Nothing)
  }

  // ---------------------------------------------------------------- acquire_session

  function StepAcq(f: Frame, x: Slot, c: Choice): Out
    requires f.Acq?
  {
    match f.qp
    case QLoad =>
      if x.core.refs == 0 then Out(x, Return(false), Nothing)
      else Out(x, Goto(f.(qp := QCas, read := x.core.refs)), Nothing)
    case QCas =>
      if x.core.refs == f.read && c.ok then Out(x.(core := x.core.(refs := x.core.refs + 1)),
                                                Goto(f.(qp := QGen)), Nothing)
      else if x.core.refs == 0 then Out(x, Return(false), Nothing)
      else Out(x, Goto(f.(read := x.core.refs)), Nothing)
    case QGen =>
      if x.core.gen == f.id.gen then Out(if Joined(x) then x else Log(x, Guess(x.core.gen)), Return(true), Nothing)
      else Out(x, Goto(f.(qp := QBack)), Nothing)
    case QBack => Out(x, Call(f.(qp := QInRel), NewRel(f.id.index)), Nothing)
    case QFail => Out(x, Return(false), Nothing)
    case _ => Out(x, Stay, Nothing)
  }

  // ---------------------------------------------------------------- release_session

  function StepRel(f: Frame, x: Slot): Out
    requires f.Rel?
  {
    match f.lp
    case LSub =>
      var y := x.(core := x.core.(refs := if x.core.refs > 0 then x.core.refs - 1 else 0));
      if x.core.refs == 1 then Out(y, Goto(f.(lp := LBar)), Nothing) else Out(y, Return(true), Nothing)
    case LBar => if x.core.locked then Out(x, Stay, Nothing) else Out(x, Goto(f.(lp := LGrp)), Nothing)
    case LGrp =>
      Out(x.(core := x.core.(group := None)), Goto(f.(lp := LClose, g := x.core.gen, grp := x.core.group)), Nothing)
    case LClose => Out(x.(core := x.core.(open := false)), Goto(f.(lp := LGen)), Nothing)
    case LGen =>
      var y := Log(x.(core := x.core.(gen := x.core.gen + 1)), Tear(f.g));
      Out(if f.grp.Some? then Log(y, Grouped(f.g, f.grp.value)) else y, Goto(f.(lp := LPend)), Nothing)
    case LPend =>
      Out(x.(queue := x.queue.(pending := [], inFlight := [], offset := 0)), Goto(f.(lp := LCount)), Nothing)
    case LCount => Out(x.(queue := x.queue.(count := 0)), Goto(f.(lp := LSendF)), Nothing)
    case LSendF => Out(x.(flow := x.flow.(sendFlag := false, stuck := false)), Goto(f.(lp := LDiscF)), Nothing)
    case LDiscF => Out(x.(flow := x.flow.(discFlag := false)), Goto(f.(lp := LLeave)), Nothing)
    case LLeave =>
      Out(if f.grp.Some? then Log(x, PostLeave(f.g, f.grp.value)) else x, Goto(f.(lp := LPush)), Nothing)
    case LPush => Out(x.(core := x.core.(counted := false)), Goto(f.(lp := LDec)), Push)
    case LDec => Out(x, Goto(f.(lp := LCb)), ActiveDown)
    case LCb => Out(Log(x, Leave(f.g)), Goto(f.(lp := LInCb)), Nothing)
    case LInCb => Out(x, Return(true), Nothing)
  }

  // ---------------------------------------------------------------- stop()

  function StepStop(f: Frame, x: Slot, i: nat): Out
    requires f.Stop?
  {
    if f.sp.TSweep? then Out(x, Call(f.(sp := TInDis), NewDis(Id(i, x.core.gen), true)), Nothing)
    else Out(x, Stay, Nothing)
  }

  /** The frame below after the top frame returned `r` to it. */
  function Resume(p: Frame, r: bool): Frame {
    match p
    case Usr => p
    case Stop(pc, k) => if pc.TInDis? then Stop(TSweep, k + 1) else p
    case Acc(pc, i, g) => if pc.AInRecv? then p.(ap := ARel) else if pc.AInRel? then Acc(ACheck, 0, 0) else p
    case Wk(pc, i, g, job) =>
      (match pc
       case WInRecv => p.(wp := WParse)
       case WInDis => p.(wp := WRel)
       case WInPost => p.(wp := WSent)
       case WInRel => Wk(WIdle, 0, 0, NO_JOB)
       case _ => p)
    case Dis(pc, id, sweep) =>
      if pc.DInAcq? then p.(dp := if r then DFlag else DFail) else if pc.DInRel? then p.(dp := DDone) else p
    case Snd(pc, id, pkt, seen) =>
      (match pc
       case SInAcq => p.(np := if r then SLoad else SEnd)
       case SInDis => p.(np := SRel)
       case SInPost => p.(np := SRel)
       case SInRel => p.(np := SEnd)
       case _ => p)
    case Grp(pc, id, value) =>
      if pc.GInAcq? then p.(gp := if r then GSet else GEnd) else if pc.GInRel? then p.(gp := GEnd) else p
    case Post(pc, i, g, cg, drained) =>
      if pc.PInAcq? then p.(pp := if r then PIo else PAcqFail) else if pc.PInRel? then p.(pp := PDrop) else p
    case Recv(pc, i, g, cg, held) =>
      if pc.RInAcq? then p.(rp := if r then RIo else RAcqFail)
      else if pc.RInDis? || pc.RInRel? then p.(rp := REnd) else p
    case Acq(pc, id, seen, sweep) => if pc.QInRel? then p.(qp := QFail) else p
    case Rel(pc, i, g, grp) => p
  }

  /** The slot a frame works on, for frames that have one. */
  function Where(f: Frame): Option<nat> {
    match f
    case Usr => None
    case Stop(_, _) => None
    case Acc(pc, i, g) => if pc.ACheck? || pc.AWait? || pc.AExit? then None else Some(i)
    case Wk(pc, i, g, job) => if pc.WIdle? then None else Some(i)
    case Dis(pc, id, sweep) => Some(id.index)
    case Snd(pc, id, pkt, seen) => Some(id.index)
    case Grp(pc, id, value) => Some(id.index)
    case Post(pc, i, g, cg, drained) => Some(i)
    case Recv(pc, i, g, cg, held) => Some(i)
    case Acq(pc, id, seen, sweep) => Some(id.index)
    case Rel(pc, i, g, grp) => Some(i)
  }

  /** One step of a frame on its slot. */
  function Local(f: Frame, x: Slot, i: nat, c: Choice): Out {
    match f
    case Usr => Out(x, Stay, Nothing)
    case Stop(_, _) => StepStop(f, x, i)
    case Acc(_, _, _) => StepAcc(f, x, i, c)
    case Wk(_, _, _, _) => StepWk(f, x, i, c)
    case Dis(_, _, _) => StepDis(f, x)
    case Snd(_, _, _, _) => StepSnd(f, x, c)
    case Grp(_, _, _) => StepGrp(f, x)
    case Post(_, _, _, _, _) => StepPost(f, x, c)
    case Recv(_, _, _, _, _) => StepRecv(f, x, c)
    case Acq(_, _, _, _) => StepAcq(f, x, c)
    case Rel(_, _, _, _) => StepRel(f, x)
  }

  /** The slot the next step of frame `f` touches: its own, the popped one, the completed one, the swept one. */
  function Target(s: State, f: Frame, c: Choice): Option<nat> {
    if Where(f).Some? then Where(f)
    else if f.Acc? && f.ap.AWait? && c.ok && s.free != [] then Some(s.free[|s.free| - 1])
    else if f.Wk? then Some(c.n)
    else if f.Stop? && f.sp.TSweep? then Some(f.k)
    else None
  }

  /** Steps that touch no slot. */
  function Global(s: State, f: Frame, c: Choice): Out {
    match f
    case Usr =>
      Out(EMPTY_SLOT,
          (match c.api
           case NoCall => Stay
           case CallDisconnect(id) => if id.index < |s.slots| then Call(Usr, NewDis(id, false)) else Stay
           case CallSend(id, pkt) =>
             if id.index < |s.slots| && pkt != [] then Call(Usr, Snd(SAcq, id, pkt, 0)) else Stay
           case CallSetGroup(id, group) => if id.index < |s.slots| then Call(Usr, Grp(GAcq, id, group)) else Stay),
          Nothing)
    case Stop(pc, k) =>
      if pc.TRun? then
        if s.running then Out(EMPTY_SLOT, Goto(Stop(TJoin, 0)), RunningOff) else Out(EMPTY_SLOT, Stay, Nothing)
      else if pc.TJoin? && s.exited then Out(EMPTY_SLOT, Goto(Stop(TSweep, 0)), Nothing)
      else if pc.TSweep? && k >= |s.slots| then Out(EMPTY_SLOT, Goto(Stop(TPoll, k)), Nothing)
      else if pc.TPoll? && s.active == 0 then Out(EMPTY_SLOT, Goto(Stop(TDone, k)), Nothing)
      else Out(EMPTY_SLOT, Stay, Nothing)
    case Acc(pc, _, _) =>
      if pc.ACheck? then
        if s.running then Out(EMPTY_SLOT, Goto(Acc(AWait, 0, 0)), Nothing)
        else Out(EMPTY_SLOT, Goto(Acc(AExit, 0, 0)), AcceptExit)
      else if pc.AWait? then Out(EMPTY_SLOT, Goto(Acc(ACheck, 0, 0)), Nothing)
      else Out(EMPTY_SLOT, Stay, Nothing)
    case _ => Out(EMPTY_SLOT, Stay, Nothing)
  }

  function NextStack(stk: seq<Frame>, ctl: Ctl): seq<Frame>
    requires stk != []
  {
    match ctl
    case Stay => stk
    case Goto(f) => stk[..|stk| - 1] + [f]
    case Call(f, callee) => stk[..|stk| - 1] + [f] + [callee]
    case Return(r) => if |stk| >= 2 then stk[..|stk| - 2] + [Resume(stk[|stk| - 2], r)] else stk
  }

  function Affect(s: State, i: nat, fx: Effect): State {
    match fx
    case Nothing => s
    case Pop => if s.free != [] then s.(free := s.free[..|s.free| - 1]) else s
    case Push => s.(free := s.free + [i])
    case ActiveUp => s.(active := s.active + 1)
    case ActiveDown => s.(active := s.active - 1)
    case AcceptExit => s.(exited := true)
    case RunningOff => s.(running := false)
  }

  function RunStep(s: State, t: nat, c: Choice): State {
    if t >= |s.threads| || s.threads[t] == [] then s
    else
      var stk := s.threads[t];
      var f := stk[|stk| - 1];
      var target := Target(s, f, c);
      if target.Some? && target.value < |s.slots| then
        var i := target.value;
        var o := Local(f, s.slots[i], i, c);
        Affect(s.(slots := s.slots[i := o.x], threads := s.threads[t := NextStack(stk, o.ctl)]), i, o.fx)
      else
        var o := Global(s, f, c);
        Affect(s.(threads := s.threads[t := NextStack(stk, o.ctl)]), 0, o.fx)
  }

  /** An outstanding operation completes: a receive with any count, a send with any count up to what was posted. */
  function KernelStep(s: State, i: nat, kind: IoKind, ok: bool, bytes: nat): State {
    if i >= |s.slots| then s
    else
      var x := s.slots[i];
      if kind.RecvKind? && x.flow.recvIo.Posted? then
        s.(slots := s.slots[i := x.(flow := x.flow.(recvIo := Done(ok, bytes)))])
      else if kind.SendKind? && x.flow.sendIo.Posted? && bytes <= |Unsent(x)| then
        s.(slots := s.slots[i := x.(flow := x.flow.(sendIo := Done(ok, bytes)),
                                    queue := x.queue.(wire := x.queue.wire + Unsent(x)[..bytes]))])
      else s
  }

  function Step(s: State, l: Label): State {
    match l
    case Run(t, c) => RunStep(s, t, c)
    case Kernel(i, kind, ok, bytes) => KernelStep(s, i, kind, ok, bytes)
  }

  function Exec(s: State, run: seq<Label>): State {
    if run == [] then s else Step(Exec(s, run[..|run| - 1]), run[|run| - 1])
  }

  /** After start(): n free slots, one accept thread, one thread that may call stop(),
      and any mix of I/O workers and user threads. */
  function Init(n: nat, others: seq<bool>): State {
    State(seq(n, (i: nat) => EMPTY_SLOT), seq(n, (i: nat) => i), 0, true, false,
          [[Acc(ACheck, 0, 0)], [Stop(TRun, 0)]]
          + seq(|others|, (j: nat) => if 0 <= j < |others| && others[j] then [Wk(WIdle, 0, 0, NO_JOB)] else [Usr]))
  }
}
