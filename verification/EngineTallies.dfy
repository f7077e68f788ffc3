/**
 Accounting for the session engine: what every frame holds on its slot, summed over all threads.
 The slot invariants relate a slot to its tally.
 */
module EngineTallies {
  import opened EngineModel
  import opened Options
  import opened Tallies

  // What a frame holds, by its program point.
  //   Ref: references to the slot - its own, one lent by its caller, one acquired for an operation about to be posted
  //   Send: ownership of send_flag, and with it of in_flight_packets and in_flight_offset
  //   Recv: the right to post the next receive        Lock: the session lock
  function RefAcc(pc: AccPc): nat { if pc.AJoin? || pc.AInJoin? || pc.ARecv? || pc.ARel? then 1 else 0 }
  function RecvAcc(pc: AccPc): nat { if pc.AJoin? || pc.AInJoin? || pc.ARecv? then 1 else 0 }
  function PreAcc(pc: AccPc): nat { if pc.AGot? then 1 else 0 }
  function MidAcc(pc: AccPc): nat { if pc.ARef? then 1 else 0 }
  function RefWk(pc: WkPc): nat { if pc.WIdle? || pc.WInRecv? || pc.WInPost? || pc.WInRel? then 0 else 1 }
  function SendWk(pc: WkPc, job: Job): nat {
    if pc.WSend? || (job.kind.SendKind? && job.ok && job.bytes > 0 && (pc.WGot? || pc.WDisp?)) then 1 else 0
  }
  function RecvWk(pc: WkPc, kind: IoKind): nat {
    if pc.WLock? || pc.WCommit? || (kind.RecvKind? && (pc.WGot? || pc.WDisp?)) then 1 else 0
  }
  function LockWk(pc: WkPc): nat { if pc.WCommit? || pc.WParse? then 1 else 0 }
  function RefDis(pc: DisPc): nat { if pc.DFlag? || pc.DCancel? || pc.DRel? then 1 else 0 }
  function RefSnd(pc: SndPc): nat { if pc.SAcq? || pc.SInAcq? || pc.SInPost? || pc.SInRel? || pc.SEnd? then 0 else 1 }
  function RefGrp(pc: GrpPc): nat { if pc.GSet? || pc.GRel? then 1 else 0 }
  function RefPost(pc: PostPc): nat { if pc.PIo? || pc.PRel? then 2 else 1 }
  function SendPost(pc: PostPc): nat {
    if pc.PFlagX? || pc.PEmpty? || pc.PRetake? || pc.PPosted? || pc.PCancel? then 0 else 1
  }
  function RefRecv(pc: RecvPc): nat { if pc.RIo? || pc.RRel? then 2 else 1 }
  function RecvRecv(pc: RecvPc): nat { if pc.RId? || pc.RFull? || pc.RChk? || pc.RInAcq? || pc.RIo? then 1 else 0 }
  function RefAcq(pc: AcqPc): nat { if pc.QGen? || pc.QBack? then 1 else 0 }
  function RefRel(pc: RelPc): nat { if pc.LSub? then 1 else 0 }
  function TearRel(pc: RelPc): nat { if pc.LSub? || pc.LDec? || pc.LCb? || pc.LInCb? then 0 else 1 }

  //   RetryI / RetryP: will still try send_post, as far as in_flight_packets / pending_sends is concerned
  function RetryIWk(pc: WkPc, job: Job): nat { if pc.WPost? then 1 else SendWk(pc, job) }
  function RetryISnd(pc: SndPc): nat { if pc.SPost? then 1 else 0 }
  function RetryIPost(pc: PostPc): nat { if pc.PFlagX? then 1 else SendPost(pc) }
  function RetryPPost(pc: PostPc): nat { if pc.PEmpty? || pc.PRetake? then 1 else RetryIPost(pc) }
  function EarlyRel(pc: RelPc): nat { if pc.LBar? || pc.LGrp? || pc.LClose? || pc.LGen? then 1 else 0 }
  function PlRel(pc: RelPc, grp: Option<nat>): nat {
    if grp.Some? && (pc.LPend? || pc.LCount? || pc.LSendF? || pc.LDiscF? || pc.LLeave?) then 1 else 0
  }
  function LeaveRel(pc: RelPc): nat {
    if pc.LSub? || pc.LBar? || pc.LGrp? || pc.LClose? || pc.LGen? || pc.LInCb? then 0 else 1
  }

  /** What a frame holds on the slot it works on; `leave` counts for generation `probe` only. */
  function Weight(f: Frame, probe: nat): Tally {
    match f
    case Acc(pc, _, _) =>
      ZERO.(ref := RefAcc(pc), recv := RecvAcc(pc), pre := PreAcc(pc), mid := MidAcc(pc),
            preJoin := (if pc.AJoin? then 1 else 0), cbJ := (if pc.AInJoin? then 1 else 0))
    case Wk(pc, _, _, job) =>
      ZERO.(ref := RefWk(pc), send := SendWk(pc, job), recv := RecvWk(pc, job.kind), lock := LockWk(pc),
            credit := (if SendWk(pc, job) == 1 then job.bytes else 0),
            retryP := RetryIWk(pc, job), retryI := RetryIWk(pc, job),
            cbR := (if pc.WInCb? then 1 else 0), cbS := (if pc.WInSent? then 1 else 0))
    case Dis(pc, _, _) =>
      ZERO.(ref := RefDis(pc), canR := (if pc.DCancel? then 1 else 0), canS := (if pc.DCancel? then 1 else 0))
    case Snd(pc, _, _, _) =>
      ZERO.(ref := RefSnd(pc), reserved := (if pc.SEnq? then 1 else 0), retryP := RetryISnd(pc),
            retryI := RetryISnd(pc))
    case Grp(pc, _, _) => ZERO.(ref := RefGrp(pc))
    case Post(pc, _, _, _, _) =>
      ZERO.(ref := RefPost(pc), send := SendPost(pc), retryP := RetryPPost(pc), retryI := RetryIPost(pc),
            canS := (if pc.PPosted? || pc.PCancel? then 1 else 0), past := (if pc.PInAcq? || pc.PIo? then 1 else 0))
    case Recv(pc, _, _, _, held) =>
      ZERO.(ref := RefRecv(pc), recv := RecvRecv(pc), lock := (if held then 1 else 0),
            canR := (if pc.RPosted? || pc.RCancel? then 1 else 0), past := (if pc.RInAcq? || pc.RIo? then 1 else 0))
    case Acq(pc, _, _, _) => ZERO.(ref := RefAcq(pc))
    case Rel(pc, _, g, grp) =>
      ZERO.(ref := RefRel(pc), tear := TearRel(pc), early := EarlyRel(pc), pl := PlRel(pc, grp),
            leave := (if g == probe then LeaveRel(pc) else 0))
    case _ => ZERO
  }

  function RefOf(f: Frame): nat { Weight(f, 0).ref }
  function SendOf(f: Frame): nat { Weight(f, 0).send }
  function PreOf(f: Frame): nat { Weight(f, 0).pre }
  function MidOf(f: Frame): nat { Weight(f, 0).mid }
  function TearOf(f: Frame): nat { Weight(f, 0).tear }

  /** A slot (looked at through one generation), or the engine as a whole. */
  datatype Who = At(i: nat, probe: nat) | All

  function V(f: Frame, w: Who): Tally {
    match w
    case At(i, probe) => if Where(f) == Some(i) then Weight(f, probe) else ZERO
    case All => ZERO.(acc := (if f.Acc? && !f.ap.AExit? then 1 else 0), dec := (if f.Rel? && f.lp.LDec? then 1 else 0))
  }

  function StackWeights(stk: seq<Frame>, w: Who): seq<Tally> {
    seq(|stk|, (k: nat) requires k < |stk| => V(stk[k], w))
  }

  function Weights(threads: seq<seq<Frame>>, w: Who): seq<seq<Tally>> {
    seq(|threads|, (t: nat) requires t < |threads| => StackWeights(threads[t], w))
  }

  /** What all frames of all threads hold. */
  function Total(threads: seq<seq<Frame>>, w: Who): Tally {
    SumAll(Weights(threads, w))
  }

  lemma WeightBalanced(f: Frame, probe: nat)
    ensures Balanced(Weight(f, probe))
  {
  }

  lemma VBalanced(f: Frame, i: nat, probe: nat)
    ensures Balanced(V(f, At(i, probe)))
  {
    WeightBalanced(f, probe);
  }

  /** The total splits into what the other threads hold and what thread t holds, whatever its stack. */
  lemma TotalSplit(threads: seq<seq<Frame>>, t: nat, stk: seq<Frame>, w: Who)
    requires t < |threads|
    ensures Total(threads[t := stk], w) == Plus(Rest(Weights(threads, w), t), Sum(StackWeights(stk, w)))
  {
    assert Weights(threads[t := stk], w) == Weights(threads, w)[t := StackWeights(stk, w)];
    SumSplit(Weights(threads, w), t, StackWeights(stk, w));
  }

  lemma TotalBalanced(threads: seq<seq<Frame>>, i: nat, probe: nat)
    ensures Balanced(Total(threads, At(i, probe)))
    ensures forall t :: 0 <= t < |threads| ==> Balanced(Rest(Weights(threads, At(i, probe)), t))
  {
    var tss: seq<seq<Tally>> := Weights(threads, At(i, probe));
    forall u, k | 0 <= u < |tss| && 0 <= k < |tss[u]| ensures Balanced(tss[u][k]) {
      VBalanced(threads[u][k], i, probe);
    }
    SumAllBalanced(tss);
    forall t | 0 <= t < |threads| ensures Balanced(Rest(tss, t)) {
      RestBalanced(tss, t);
    }
  }

  lemma FrameAcceptOwns(f: Frame, i: nat, probe: nat)
    ensures V(f, At(i, probe)).pre + V(f, At(i, probe)).mid <= V(f, All).acc
  {
    match f
    case Acc(pc, _, _) =>
    case _ =>
  }

  lemma AcceptOwns(threads: seq<seq<Frame>>, i: nat, probe: nat)
    ensures Total(threads, At(i, probe)).pre + Total(threads, At(i, probe)).mid <= Total(threads, All).acc
  {
    var a: seq<seq<Tally>>, b: seq<seq<Tally>> := Weights(threads, At(i, probe)), Weights(threads, All);
    forall u, k | 0 <= u < |a| && 0 <= k < |a[u]| ensures a[u][k].pre + a[u][k].mid <= b[u][k].acc {
      FrameAcceptOwns(threads[u][k], i, probe);
    }
    SumAllCovered(a, b);
  }
}
