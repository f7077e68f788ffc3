/**
 The two hand-shakes on a slot's flags.  Sending: a packet that waits has an operation outstanding, a thread
 that will still try send_post, or a session that is going away.  Disconnecting: an operation posted on a
 flagged session has been cancelled or will be.
 */
module EngineFlags {
  import opened EngineModel
  import opened Tallies
  import opened EngineTallies
  import opened EngineSlots
  import opened EngineSteps
  import opened EngineTokens

  ghost predicate FlaggedBy(x: Slot, retryP: nat, retryI: nat, canR: nat, canS: nat) {
    && (x.flow.stuck ==> x.flow.failed)
    && (x.core.refs > 0 && x.queue.pending != [] ==>
          !x.flow.sendIo.Idle? || retryP > 0 || x.flow.discFlag || x.flow.failed)
    && (x.core.refs > 0 && x.queue.inFlight != [] ==>
          !x.flow.sendIo.Idle? || retryI > 0 || x.flow.discFlag || x.flow.failed)
    && (x.flow.discFlag && x.flow.recvIo.Posted? && !x.flow.recvIo.cancelled ==> canR > 0)
    && (x.flow.discFlag && x.flow.sendIo.Posted? && !x.flow.sendIo.cancelled ==> canS > 0)
  }

  ghost predicate Flagged(x: Slot, T: Tally) {
    FlaggedBy(x, T.retryP, T.retryI, T.canR, T.canS)
  }

  ghost predicate FlagsBefore(f: Frame, x: Slot, b: Tally) {
    FlaggedBy(x, b.retryP + RetryPOf(f), b.retryI + RetryIOf(f), b.canR + CanROf(f), b.canS + CanSOf(f))
  }

  ghost predicate FlagsAfter(f: Frame, o: Out, b: Tally) {
    var g, h := NewTop(f, o.ctl), Called(o.ctl);
    FlaggedBy(o.x, b.retryP + (RetryPOf(g) + RetryPOf(h)), b.retryI + (RetryIOf(g) + RetryIOf(h)),
              b.canR + (CanROf(g) + CanROf(h)), b.canS + (CanSOf(g) + CanSOf(h)))
  }

  /** The step changes nothing the hand-shakes are about, and gives up none of its duties. */
  ghost predicate Calm(f: Frame, x: Slot, o: Out) {
    var g, h := NewTop(f, o.ctl), Called(o.ctl);
    && o.x.queue.pending == x.queue.pending && o.x.queue.inFlight == x.queue.inFlight
    && o.x.flow == x.flow.(sendFlag := o.x.flow.sendFlag)
    && (o.x.core.refs > 0 ==> x.core.refs > 0)
    && RetryPOf(g) + RetryPOf(h) >= RetryPOf(f) && RetryIOf(g) + RetryIOf(h) >= RetryIOf(f)
    && CanROf(g) + CanROf(h) >= CanROf(f) && CanSOf(g) + CanSOf(h) >= CanSOf(f)
  }

  lemma CalmKeeps(f: Frame, x: Slot, o: Out, b: Tally)
    requires FlagsBefore(f, x, b) && Calm(f, x, o)
    ensures FlagsAfter(f, o, b)
  {
  }

  /** The steps that matter to the hand-shakes. */
  ghost predicate Telling(f: Frame) {
    || (f.Acc? && f.ap.ARef?)
    || (f.Wk? && (f.wp.WIdle? || f.wp.WDisp? || f.wp.WSend?))
    || (f.Dis? && (f.dp.DFlag? || f.dp.DCancel?))
    || (f.Snd? && f.np.SEnq?)
    || (f.Post? && !f.pp.PId? && !f.pp.PTop? && !f.pp.PInAcq? && !f.pp.PRel? && !f.pp.PInRel?)
    || (f.Recv? && (f.rp.RIo? || f.rp.RPosted? || f.rp.RCancel?))
    || (f.Rel? && (f.lp.LPend? || f.lp.LSendF? || f.lp.LDiscF?))
  }

  lemma CalmAcc(f: Frame, x: Slot, i: nat, c: Choice)
    requires f.Acc? && !Telling(f)
    ensures Calm(f, x, Local(f, x, i, c))
  {
  }

  lemma CalmWk(f: Frame, x: Slot, i: nat, c: Choice)
    requires f.Wk? && !Telling(f)
    ensures Calm(f, x, Local(f, x, i, c))
  {
    if f.wp.WDispatch? || f.wp.WInCb? {
      CalmWkDispatch(f, x, i, c);
    } else if f.wp.WPost? || f.wp.WSent? || f.wp.WInSent? || f.wp.WRel? {
      CalmWkEnd(f, x, i, c);
    } else {
      CalmWkStart(f, x, i, c);
    }
  }

  lemma CalmWkStart(f: Frame, x: Slot, i: nat, c: Choice)
    requires f.Wk? && !Telling(f) && !f.wp.WDispatch? && !f.wp.WInCb?
    requires !f.wp.WPost? && !f.wp.WSent? && !f.wp.WInSent? && !f.wp.WRel?
    ensures Calm(f, x, Local(f, x, i, c))
  {
    match f.wp
    case WGot => return;
    case WLock => return;
    case WCommit => return;
    case WParse => return;
    case _ => return;
  }

  lemma CalmWkDispatch(f: Frame, x: Slot, i: nat, c: Choice)
    requires f.Wk? && (f.wp.WDispatch? || f.wp.WInCb?)
    ensures Calm(f, x, Local(f, x, i, c))
  {
    match f.wp
    case WDispatch => return;
    case WInCb => return;
  }

  lemma CalmWkEnd(f: Frame, x: Slot, i: nat, c: Choice)
    requires f.Wk? && (f.wp.WPost? || f.wp.WSent? || f.wp.WInSent? || f.wp.WRel?)
    ensures Calm(f, x, Local(f, x, i, c))
  {
    match f.wp
    case WPost => return;
    case WSent => return;
    case WInSent => return;
    case WRel => return;
  }

  lemma CalmApi(f: Frame, x: Slot, i: nat, c: Choice)
    requires (f.Dis? || f.Grp? || f.Snd? || f.Acq?) && !Telling(f)
    requires f.Acq? && f.qp.QCas? ==> f.read > 0
    ensures Calm(f, x, Local(f, x, i, c))
  {
    match f
    case Dis(_, _, _) => return;
    case Snd(_, _, _, _) => return;
    case Grp(_, _, _) => return;
    case Acq(_, _, _, _) => return;
  }

  lemma CalmInner(f: Frame, x: Slot, i: nat, c: Choice)
    requires (f.Post? || f.Recv? || f.Rel?) && !Telling(f)
    ensures Calm(f, x, Local(f, x, i, c))
  {
    match f
    case Post(_, _, _, _, _) => return;
    case Recv(_, _, _, _, _) => return;
    case Rel(_, _, _, _) => return;
  }

  /** What accounting and the frames themselves say at the telling steps. */
  ghost predicate TellingFacts(f: Frame, x: Slot, b: Tally) {
    && (f.Acc? && f.ap.ARef? ==> Clean(x))
    && (f.Post? && x.flow.sendFlag && (f.pp.PFlagX? || f.pp.PRetake?) ==>
          !x.flow.sendIo.Idle? || x.flow.stuck || b.retryI > 0)
    && (f.Post? && f.pp.PClear? ==> x.queue.inFlight == [])
    && (f.Post? && f.pp.PDrop? ==> x.flow.discFlag || x.flow.failed)
    && (f.Post? ==> !f.pp.PAcqFail?)
    && (f.Post? && f.pp.PIo? ==> !x.flow.stuck)
    && (f.Rel? && (f.lp.LPend? || f.lp.LSendF? || f.lp.LDiscF?) ==> x.core.refs == 0)
    && (f.Rel? && f.lp.LDiscF? ==> x.flow.recvIo.Idle? && x.flow.sendIo.Idle?)
    && (f.Acq? && f.qp.QCas? ==> f.read > 0)
    && b.retryI <= b.retryP
  }

  lemma TellingAcc(f: Frame, x: Slot, i: nat, occ: nat, b: Tally, exited: bool)
    requires ReadyAcc(f, x, i, occ, b, exited)
    ensures TellingFacts(f, x, b)
  {
  }

  lemma TellingPost(f: Frame, x: Slot, occ: nat, b: Tally, exited: bool)
    requires ReadyPost(f, x, occ, b, exited)
    ensures TellingFacts(f, x, b)
  {
  }

  lemma TellingRel(f: Frame, x: Slot, occ: nat, b: Tally, exited: bool)
    requires ReadyRel(f, x, occ, b, exited)
    ensures TellingFacts(f, x, b)
  {
  }

  lemma TellingFactsHold(f: Frame, x: Slot, i: nat, occ: nat, b: Tally, exited: bool, probe: nat)
    requires Ready(f, x, i, occ, b, exited, probe)
    ensures TellingFacts(f, x, b)
  {
    match f
    case Acc(_, _, _) => ReadyAccFrom(f, x, i, occ, b, exited, probe); TellingAcc(f, x, i, occ, b, exited); return;
    case Post(_, _, _, _, _) =>
      ReadyPostFrom(f, x, i, occ, b, exited, probe);
      TellingPost(f, x, occ, b, exited);
      return;
    case Rel(_, _, _, _) => ReadyRelFrom(f, x, i, occ, b, exited, probe); TellingRel(f, x, occ, b, exited); return;
    case _ => return;
  }

  lemma FlagsAcc(f: Frame, x: Slot, i: nat, c: Choice, b: Tally)
    requires f.Acc? && Telling(f) && TellingFacts(f, x, b) && FlagsBefore(f, x, b)
    ensures FlagsAfter(f, Local(f, x, i, c), b)
  {
  }

  lemma FlagsWk(f: Frame, x: Slot, i: nat, c: Choice, b: Tally)
    requires f.Wk? && Telling(f) && TellingFacts(f, x, b) && FlagsBefore(f, x, b)
    ensures FlagsAfter(f, Local(f, x, i, c), b)
  {
    match f.wp
    case WIdle => if c.kind.RecvKind? { return; } else { return; }
    case WDisp => return;
    case WSend => return;
  }

  lemma FlagsApi(f: Frame, x: Slot, i: nat, c: Choice, b: Tally)
    requires (f.Dis? || f.Snd?) && Telling(f) && TellingFacts(f, x, b) && FlagsBefore(f, x, b)
    ensures FlagsAfter(f, Local(f, x, i, c), b)
  {
    if f.Dis? { return; }
  }

  lemma FlagsPost(f: Frame, x: Slot, i: nat, c: Choice, b: Tally)
    requires f.Post? && Telling(f) && TellingFacts(f, x, b) && FlagsBefore(f, x, b)
    ensures FlagsAfter(f, Local(f, x, i, c), b)
  {
    match f.pp {
      case PFlagX => return;
      case PDrain => return;
      case PClear => return;
      case PEmpty => return;
      case PRetake => return;
      case _ => FlagsPostIo(f, x, i, c, b);
    }
  }

  lemma FlagsPostIo(f: Frame, x: Slot, i: nat, c: Choice, b: Tally)
    requires f.Post? && Telling(f) && TellingFacts(f, x, b) && FlagsBefore(f, x, b)
    requires !f.pp.PFlagX? && !f.pp.PDrain? && !f.pp.PClear? && !f.pp.PEmpty? && !f.pp.PRetake?
    ensures FlagsAfter(f, Local(f, x, i, c), b)
  {
    match f.pp
    case PChk => return;
    case PIo => return;
    case PPosted => return;
    case PCancel => return;
    case PDrop => return;
  }

  lemma FlagsInner(f: Frame, x: Slot, i: nat, c: Choice, b: Tally)
    requires (f.Recv? || f.Rel?) && Telling(f) && TellingFacts(f, x, b) && FlagsBefore(f, x, b)
    ensures FlagsAfter(f, Local(f, x, i, c), b)
  {
    if f.Recv? { return; }
  }

  lemma FlagsStep(f: Frame, x: Slot, i: nat, c: Choice, b: Tally)
    requires !f.Usr? && TellingFacts(f, x, b) && FlagsBefore(f, x, b)
    ensures FlagsAfter(f, Local(f, x, i, c), b)
  {
    if Telling(f) {
      match f
      case Acc(_, _, _) => FlagsAcc(f, x, i, c, b); return;
      case Wk(_, _, _, _) => FlagsWk(f, x, i, c, b); return;
      case Dis(_, _, _) => FlagsApi(f, x, i, c, b); return;
      case Snd(_, _, _, _) => FlagsApi(f, x, i, c, b); return;
      case Post(_, _, _, _, _) => FlagsPost(f, x, i, c, b); return;
      case Recv(_, _, _, _, _) => FlagsInner(f, x, i, c, b); return;
      case Rel(_, _, _, _) => FlagsInner(f, x, i, c, b); return;
    }
    assert Calm(f, x, Local(f, x, i, c)) by {
      if f.Acc? {
        CalmAcc(f, x, i, c);
      } else if f.Wk? {
        CalmWk(f, x, i, c);
      } else if f.Post? || f.Recv? || f.Rel? {
        CalmInner(f, x, i, c);
      } else if f.Stop? {
      } else {
        CalmApi(f, x, i, c);
      }
    }
    CalmKeeps(f, x, Local(f, x, i, c), b);
  }

  lemma FlagsBeforeFrom(f: Frame, x: Slot, b: Tally, probe: nat)
    requires Flagged(x, Plus(b, Weight(f, probe)))
    ensures FlagsBefore(f, x, b)
  {
    WeightFlags(f, probe);
  }

  lemma FlagsAfterTo(f: Frame, o: Out, b: Tally, probe: nat)
    requires FlagsAfter(f, o, b)
    ensures Flagged(o.x, Plus(b, After(f, o.ctl, probe)))
  {
    AfterFlags(f, o.ctl, probe);
  }

  /** Every step of every frame keeps both hand-shakes. */
  lemma FlagsKept(f: Frame, x: Slot, i: nat, c: Choice, occ: nat, b: Tally, exited: bool, probe: nat)
    requires !f.Usr? && Ready(f, x, i, occ, b, exited, probe) && Flagged(x, Plus(b, Weight(f, probe)))
    ensures Flagged(Local(f, x, i, c).x, Plus(b, After(f, Local(f, x, i, c).ctl, probe)))
  {
    FlagsBeforeFrom(f, x, b, probe);
    TellingFactsHold(f, x, i, occ, b, exited, probe);
    FlagsStep(f, x, i, c, b);
    FlagsAfterTo(f, Local(f, x, i, c), b, probe);
  }
}
