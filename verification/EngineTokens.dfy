/**
 The single numbers of a tally, frame by frame: what the queue, the flags and the history are accounted with.
 */
module EngineTokens {
  import opened EngineModel
  import opened Tallies
  import opened EngineTallies
  import opened EngineSteps

  function ReservedOf(f: Frame): nat { if f.Snd? && f.np.SEnq? then 1 else 0 }
  function CreditOf(f: Frame): nat { if f.Wk? && SendWk(f.wp, f.job) == 1 then f.job.bytes else 0 }
  function TearingOf(f: Frame): nat { if f.Rel? then TearRel(f.lp) else 0 }
  function EarlyOf(f: Frame): nat { if f.Rel? then EarlyRel(f.lp) else 0 }
  function PreJoinOf(f: Frame): nat { if f.Acc? && f.ap.AJoin? then 1 else 0 }
  function PlOf(f: Frame): nat { if f.Rel? then PlRel(f.lp, f.grp) else 0 }
  function LeaveOf(f: Frame, probe: nat): nat { if f.Rel? && f.g == probe then LeaveRel(f.lp) else 0 }

  function SendingOf(f: Frame): nat {
    if f.Wk? then SendWk(f.wp, f.job) else if f.Post? then SendPost(f.pp) else 0
  }

  function RetryPOf(f: Frame): nat {
    if f.Wk? then RetryIWk(f.wp, f.job)
    else if f.Snd? then RetryISnd(f.np)
    else if f.Post? then RetryPPost(f.pp) else 0
  }

  function RetryIOf(f: Frame): nat {
    if f.Wk? then RetryIWk(f.wp, f.job)
    else if f.Snd? then RetryISnd(f.np)
    else if f.Post? then RetryIPost(f.pp) else 0
  }

  function CanROf(f: Frame): nat {
    if (f.Dis? && f.dp.DCancel?) || (f.Recv? && (f.rp.RPosted? || f.rp.RCancel?)) then 1 else 0
  }

  function CanSOf(f: Frame): nat {
    if (f.Dis? && f.dp.DCancel?) || (f.Post? && (f.pp.PPosted? || f.pp.PCancel?)) then 1 else 0
  }

  function PastOf(f: Frame): nat {
    if (f.Recv? && (f.rp.RInAcq? || f.rp.RIo?)) || (f.Post? && (f.pp.PInAcq? || f.pp.PIo?)) then 1 else 0
  }

  function CbJoinOf(f: Frame): nat { if f.Acc? && f.ap.AInJoin? then 1 else 0 }
  function CbRecvOf(f: Frame): nat { if f.Wk? && f.wp.WInCb? then 1 else 0 }
  function CbSendOf(f: Frame): nat { if f.Wk? && f.wp.WInSent? then 1 else 0 }

  /** The top frame after a step, and the frame it called (Usr when there is none). */
  function NewTop(f: Frame, ctl: Ctl): Frame {
    match ctl
    case Stay => f
    case Goto(g) => g
    case Call(g, _) => g
    case Return(_) => Usr
  }

  function Called(ctl: Ctl): Frame {
    if ctl.Call? then ctl.callee else Usr
  }

  ghost predicate QueueTokens(T: Tally, reserved: int, credit: int, tear: int) {
    T.reserved == reserved && T.credit == credit && T.tear == tear
  }

  ghost predicate FlagTokens(T: Tally, send: int, retryP: int, retryI: int, canR: int, canS: int, past: int) {
    T.send == send && T.retryP == retryP && T.retryI == retryI && T.canR == canR && T.canS == canS && T.past == past
  }

  ghost predicate StoryTokens(T: Tally, early: int, preJoin: int, cbJ: int, cbR: int, cbS: int, pl: int, leave: int) {
    && T.early == early && T.preJoin == preJoin && T.cbJ == cbJ && T.cbR == cbR && T.cbS == cbS
    && T.pl == pl && T.leave == leave
  }

  lemma WeightQueue(f: Frame, probe: nat)
    ensures QueueTokens(Weight(f, probe), ReservedOf(f), CreditOf(f), TearingOf(f))
  {
    match f
    case Snd(_, _, _, _) => return;
    case Wk(_, _, _, _) => return;
    case Rel(_, _, _, _) => return;
    case _ => return;
  }

  lemma WeightFlags(f: Frame, probe: nat)
    ensures FlagTokens(Weight(f, probe), SendingOf(f), RetryPOf(f), RetryIOf(f), CanROf(f), CanSOf(f), PastOf(f))
  {
    match f
    case Wk(_, _, _, _) => return;
    case Snd(_, _, _, _) => return;
    case Post(_, _, _, _, _) => return;
    case Recv(_, _, _, _, _) => return;
    case Dis(_, _, _) => return;
    case _ => return;
  }

  lemma WeightStory(f: Frame, probe: nat)
    ensures StoryTokens(Weight(f, probe), EarlyOf(f), PreJoinOf(f), CbJoinOf(f), CbRecvOf(f), CbSendOf(f),
                        PlOf(f), LeaveOf(f, probe))
  {
    match f
    case Acc(_, _, _) => return;
    case Wk(_, _, _, _) => return;
    case Rel(_, _, _, _) => return;
    case _ => return;
  }

  lemma AfterQueue(f: Frame, ctl: Ctl, probe: nat)
    ensures var g, h := NewTop(f, ctl), Called(ctl);
      QueueTokens(After(f, ctl, probe), ReservedOf(g) + ReservedOf(h), CreditOf(g) + CreditOf(h),
                  TearingOf(g) + TearingOf(h))
  {
    WeightQueue(NewTop(f, ctl), probe);
    WeightQueue(Called(ctl), probe);
  }

  lemma AfterFlags(f: Frame, ctl: Ctl, probe: nat)
    ensures var g, h := NewTop(f, ctl), Called(ctl);
      FlagTokens(After(f, ctl, probe), SendingOf(g) + SendingOf(h), RetryPOf(g) + RetryPOf(h),
                 RetryIOf(g) + RetryIOf(h),
                 CanROf(g) + CanROf(h), CanSOf(g) + CanSOf(h), PastOf(g) + PastOf(h))
  {
    WeightFlags(NewTop(f, ctl), probe);
    WeightFlags(Called(ctl), probe);
  }

  lemma AfterStory(f: Frame, ctl: Ctl, probe: nat)
    ensures var g, h := NewTop(f, ctl), Called(ctl);
      StoryTokens(After(f, ctl, probe), EarlyOf(g) + EarlyOf(h), PreJoinOf(g) + PreJoinOf(h), CbJoinOf(g) + CbJoinOf(h),
                  CbRecvOf(g) + CbRecvOf(h), CbSendOf(g) + CbSendOf(h), PlOf(g) + PlOf(h),
                    LeaveOf(g, probe) + LeaveOf(h, probe))
  {
    WeightStory(NewTop(f, ctl), probe);
    WeightStory(Called(ctl), probe);
  }
}
