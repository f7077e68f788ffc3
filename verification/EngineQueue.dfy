/**
 The send queue of one slot: nothing is lost, duplicated or reordered between send_packet and the socket,
 and pending_send_count never understates it.
 */
module EngineQueue {
  import opened Bytes
  import opened Sequences
  import opened EngineModel
  import opened Tallies
  import opened EngineTallies
  import opened EngineSlots
  import opened EngineSteps
  import opened EngineTokens

  ghost predicate NoneEmpty(ps: seq<Packet>) {
    forall k :: 0 <= k < |ps| ==> ps[k] != []
  }

  /** Bytes the kernel has taken that in_flight_packets still holds: of a completion in the port's queue, or of
      the one a worker is consuming. */
  ghost function Credit(x: Slot, credit: nat): nat {
    credit + (if x.flow.sendIo.Done? then x.flow.sendIo.bytes else 0)
  }

  /** What the socket took, what is in flight and not yet taken, and what is pending: exactly what was enqueued. */
  ghost predicate Conserved(x: Slot, credit: nat) {
    && Credit(x, credit) <= |Unsent(x)|
    && x.queue.wire + Unsent(x)[Credit(x, credit)..] + Concat(x.queue.pending) == Concat(x.queue.enqueued)
  }

  ghost predicate QueuedBy(x: Slot, reserved: nat, credit: nat, tear: nat) {
    && |x.queue.inFlight| <= SEND_BATCH_SIZE
    && x.queue.count <= MAX_PENDING_SENDS
    && (tear == 0 ==> x.queue.count == |x.queue.pending| + |x.queue.inFlight| + reserved)
    && NoneEmpty(x.queue.pending) && NoneEmpty(x.queue.inFlight)
    && (x.queue.inFlight != [] ==> x.queue.offset < |x.queue.inFlight[0]|)
    && x.queue.wire <= Concat(x.queue.enqueued)
    && (x.core.refs > 0 && !x.flow.stuck ==> Conserved(x, credit))
  }

  ghost predicate Queued(x: Slot, T: Tally) {
    QueuedBy(x, T.reserved, T.credit, T.tear)
  }

  /** A step that touches neither the queue nor what is known about it. */
  ghost predicate Untouched(x: Slot, y: Slot, credit: nat, credit': nat) {
    && y.queue == x.queue && y.flow.stuck == x.flow.stuck && Credit(y, credit') == Credit(x, credit)
    && (y.core.refs > 0 ==> x.core.refs > 0)
  }

  lemma QueueUntouched(x: Slot, y: Slot, reserved: nat, credit: nat, tear: nat, reserved': nat, credit': nat,
                       tear': nat)
    requires QueuedBy(x, reserved, credit, tear) && Untouched(x, y, credit, credit')
    requires reserved' == reserved && (tear' == 0 ==> tear == 0)
    ensures QueuedBy(y, reserved', credit', tear')
  {
  }

  // ---------------------------------------------------------------- steps that move packets

  lemma QueueReset(x: Slot, y: Slot, credit: nat, tear: nat)
    requires QueuedBy(x, 0, credit, tear) && Clean(x) && x.flow.sendIo.Idle? && credit == 0
    requires y == x.(core := y.core, flow := y.flow, queue := x.queue.(enqueued := [], wire := []))
    requires y.flow.sendIo.Idle?
    ensures QueuedBy(y, 0, 0, tear)
  {
  }

  /** send_packet enqueues. */
  lemma Enqueue(x: Slot, y: Slot, p: Packet, reserved: nat, credit: nat)
    requires QueuedBy(x, reserved + 1, credit, 0) && p != []
    requires y == x.(queue := x.queue.(pending := x.queue.pending + [p], enqueued := x.queue.enqueued + [p]))
    ensures QueuedBy(y, reserved, credit, 0)
  {
    ConcatAppend(x.queue.pending, [p]);
    ConcatAppend(x.queue.enqueued, [p]);
    assert Unsent(y) == Unsent(x);
  }

  /** send_post moves the oldest pending packet into the batch. */
  lemma Drain(x: Slot, y: Slot, reserved: nat)
    requires QueuedBy(x, reserved, 0, 0) && x.queue.pending != [] && x.queue.offset == 0
    requires |x.queue.inFlight| < SEND_BATCH_SIZE && x.flow.sendIo.Idle?
    requires y == x.(queue := x.queue.(inFlight := x.queue.inFlight + [x.queue.pending[0]],
                                       pending := x.queue.pending[1..]))
    ensures QueuedBy(y, reserved, 0, 0)
  {
    var q := x.queue;
    ConcatAppend(q.inFlight, [q.pending[0]]);
    ConcatOne(q.pending[0]);
    assert Unsent(x)[0..] == Concat(q.inFlight);
    assert Unsent(y)[0..] == Concat(q.inFlight) + q.pending[0];
  }

  lemma UnsentSplits(x: Slot)
    requires x.queue.inFlight != [] && x.queue.offset <= |x.queue.inFlight[0]|
    ensures Unsent(x) == x.queue.inFlight[0][x.queue.offset..] + Concat(x.queue.inFlight[1..])
  {
    assert Concat(x.queue.inFlight) == x.queue.inFlight[0] + Concat(x.queue.inFlight[1..]);
  }

  lemma DropBehind(head: seq<Byte>, tail: seq<Byte>, n: nat)
    requires |head| <= n <= |head + tail|
    ensures (head + tail)[n..] == tail[n - |head|..]
  {
  }

  /** A completion pays for the whole first packet. */
  lemma PopSent(x: Slot, y: Slot, reserved: nat, credit: nat)
    requires QueuedBy(x, reserved, credit, 0) && x.queue.inFlight != [] && x.flow.sendIo.Idle?
    requires var first := |x.queue.inFlight[0]| - x.queue.offset;
      && credit >= first
      && y == x.(queue := x.queue.(inFlight := x.queue.inFlight[1..], offset := 0, count := x.queue.count - 1))
    ensures QueuedBy(y, reserved, credit - (|x.queue.inFlight[0]| - x.queue.offset), 0)
  {
    var q := x.queue;
    UnsentSplits(x);
    assert Unsent(y) == Concat(q.inFlight[1..]);
    if Credit(x, credit) <= |Unsent(x)| {
      DropBehind(q.inFlight[0][q.offset..], Concat(q.inFlight[1..]), credit);
    }
  }

  /** A completion pays for part of it. */
  lemma AdvanceSent(x: Slot, y: Slot, reserved: nat, credit: nat)
    requires QueuedBy(x, reserved, credit, 0) && x.queue.inFlight != [] && x.flow.sendIo.Idle?
    requires credit < |x.queue.inFlight[0]| - x.queue.offset
    requires y == x.(queue := x.queue.(offset := x.queue.offset + credit))
    ensures QueuedBy(y, reserved, 0, 0)
  {
    assert Concat(x.queue.inFlight) == x.queue.inFlight[0] + Concat(x.queue.inFlight[1..]);
    assert Unsent(y) == Unsent(x)[credit..];
    assert Unsent(y)[0..] == Unsent(y);
  }

  /** The kernel takes the first bytes of what was posted. */
  lemma Take(x: Slot, y: Slot, reserved: nat, ok: bool, bytes: nat, tear: nat)
    requires QueuedBy(x, reserved, 0, tear) && x.flow.sendIo.Posted? && bytes <= |Unsent(x)|
    requires !x.flow.stuck && x.core.refs > 0
    requires y == x.(flow := x.flow.(sendIo := Done(ok, bytes)),
                     queue := x.queue.(wire := x.queue.wire + Unsent(x)[..bytes]))
    ensures QueuedBy(y, reserved, 0, tear)
  {
    var u := Unsent(x);
    assert u[..bytes] + u[bytes..] == u && u[0..] == u;
    assert Unsent(y) == u;
    assert y.queue.wire + u[bytes..] + Concat(x.queue.pending) == Concat(x.queue.enqueued);
    var w := y.queue.wire;
    assert w <= w + (u[bytes..] + Concat(x.queue.pending));
    assert w + (u[bytes..] + Concat(x.queue.pending)) == Concat(x.queue.enqueued);
  }

  // ---------------------------------------------------------------- every step

  function ReservedAfter(f: Frame, ctl: Ctl, b: Tally): nat {
    b.reserved + (ReservedOf(NewTop(f, ctl)) + ReservedOf(Called(ctl)))
  }

  function CreditAfter(f: Frame, ctl: Ctl, b: Tally): nat {
    b.credit + (CreditOf(NewTop(f, ctl)) + CreditOf(Called(ctl)))
  }

  function TearAfter(f: Frame, ctl: Ctl, b: Tally): nat {
    b.tear + (TearingOf(NewTop(f, ctl)) + TearingOf(Called(ctl)))
  }

  /** The step of f leaves queue, stuck and credit as they are, and f's tokens with them. */
  ghost predicate Idles(f: Frame, x: Slot, o: Out) {
    var g, h := NewTop(f, o.ctl), Called(o.ctl);
    && o.x.queue == x.queue && o.x.flow.stuck == x.flow.stuck
    && Credit(o.x, CreditOf(g) + CreditOf(h)) == Credit(x, CreditOf(f))
    && (o.x.core.refs > 0 ==> x.core.refs > 0)
    && ReservedOf(g) + ReservedOf(h) == ReservedOf(f)
    && TearingOf(g) + TearingOf(h) >= TearingOf(f)
  }

  ghost predicate QueueBefore(f: Frame, x: Slot, b: Tally) {
    QueuedBy(x, b.reserved + ReservedOf(f), b.credit + CreditOf(f), b.tear + TearingOf(f))
  }

  ghost predicate QueueAfter(f: Frame, o: Out, b: Tally) {
    QueuedBy(o.x, ReservedAfter(f, o.ctl, b), CreditAfter(f, o.ctl, b), TearAfter(f, o.ctl, b))
  }

  lemma QueueIdles(f: Frame, x: Slot, o: Out, b: Tally)
    requires QueueBefore(f, x, b) && Idles(f, x, o)
    ensures QueueAfter(f, o, b)
  {
    QueueUntouched(x, o.x, b.reserved + ReservedOf(f), b.credit + CreditOf(f), b.tear + TearingOf(f),
                   ReservedAfter(f, o.ctl, b), CreditAfter(f, o.ctl, b), TearAfter(f, o.ctl, b));
  }

  lemma QueueSettles(f: Frame, o: Out, b: Tally, reserved: nat, credit: nat, tear: nat)
    requires QueuedBy(o.x, reserved, credit, tear)
    requires ReservedAfter(f, o.ctl, b) == reserved && CreditAfter(f, o.ctl, b) == credit
    requires TearAfter(f, o.ctl, b) == tear
    ensures QueueAfter(f, o, b)
  {
  }

  /** A send completion that failed or took nothing. */
  predicate FailedSend(io: Io) {
    io.Done? && (!io.ok || io.bytes == 0)
  }

  /** The steps below are all that touch the queue or its tokens. */
  ghost predicate Special(f: Frame, x: Slot) {
    || (f.Acc? && f.ap.ARef?)
    || (f.Snd? && (f.np.SCas? || f.np.SEnq?))
    || (f.Post? && f.pp.PDrain?)
    || (f.Wk? && (f.wp.WSend? || (f.wp.WIdle? && FailedSend(x.flow.sendIo))))
    || (f.Rel? && (f.lp.LPend? || f.lp.LCount? || f.lp.LSendF? || f.lp.LPush?))
  }

  lemma IdleAcc(f: Frame, x: Slot, i: nat, c: Choice)
    requires f.Acc? && !Special(f, x)
    ensures Idles(f, x, Local(f, x, i, c))
  {
  }

  lemma IdleWk(f: Frame, x: Slot, i: nat, c: Choice)
    requires f.Wk? && !Special(f, x)
    ensures Idles(f, x, Local(f, x, i, c))
  {
    match f.wp
    case WIdle => return;
    case WGot => return;
    case WLock => return;
    case WCommit => return;
    case WDispatch => return;
    case _ => return;
  }

  lemma IdleApi(f: Frame, x: Slot, i: nat, c: Choice)
    requires (f.Dis? || f.Grp? || f.Snd? || f.Acq?) && !Special(f, x)
    requires f.Acq? && f.qp.QCas? ==> f.read > 0
    ensures Idles(f, x, Local(f, x, i, c))
  {
    match f
    case Dis(_, _, _) => return;
    case Snd(_, _, _, _) => return;
    case Grp(_, _, _) => return;
    case Acq(_, _, _, _) => return;
  }

  lemma IdlePost(f: Frame, x: Slot, i: nat, c: Choice)
    requires f.Post? && !Special(f, x) && (f.pp.PIo? ==> x.flow.sendIo.Idle?)
    ensures Idles(f, x, Local(f, x, i, c))
  {
    match f.pp
    case PChk => return;
    case PIo => return;
    case PRel => return;
    case _ => return;
  }

  lemma IdleRecv(f: Frame, x: Slot, i: nat, c: Choice)
    requires f.Recv?
    ensures Idles(f, x, Local(f, x, i, c))
  {
  }

  lemma IdleRel(f: Frame, x: Slot, i: nat, c: Choice)
    requires f.Rel? && !Special(f, x)
    ensures Idles(f, x, Local(f, x, i, c))
  {
    match f.lp
    case LSub => return;
    case LBar => return;
    case LGen => return;
    case _ => return;
  }

  /** What the accounting says at the special steps. */
  ghost predicate SpecialFacts(f: Frame, x: Slot, b: Tally) {
    && (f.Acc? && f.ap.ARef? ==> Clean(x) && x.flow.sendIo.Idle? && b.reserved == b.credit == 0)
    && (f.Snd? && f.np.SEnq? ==> f.pkt != [] && b.tear == 0)
    && (f.Post? && f.pp.PDrain? ==>
          && |x.queue.inFlight| == f.drained && x.queue.offset == 0 && x.flow.sendIo.Idle?
          && b.tear == b.credit == 0)
    && (f.Wk? && f.wp.WSend? ==> x.flow.sendIo.Idle? && b.tear == b.credit == 0)
    && (f.Rel? && (f.lp.LPend? || f.lp.LCount? || f.lp.LSendF?) ==> x.core.refs == 0)
    && (f.Rel? && f.lp.LPush? ==> x.core.refs == 0 && Clean(x) && b.reserved == 0)
    && (f.Acq? && f.qp.QCas? ==> f.read > 0)
    && (f.Post? && f.pp.PIo? ==> x.flow.sendIo.Idle?)
  }

  lemma SpecialFactsAcc(f: Frame, x: Slot, i: nat, occ: nat, b: Tally, exited: bool)
    requires ReadyAcc(f, x, i, occ, b, exited)
    ensures SpecialFacts(f, x, b)
  {
  }

  lemma SpecialFactsSnd(f: Frame, x: Slot, occ: nat, b: Tally, exited: bool)
    requires ReadySnd(f, x, occ, b, exited)
    ensures SpecialFacts(f, x, b)
  {
  }

  lemma SpecialFactsPost(f: Frame, x: Slot, occ: nat, b: Tally, exited: bool)
    requires ReadyPost(f, x, occ, b, exited)
    ensures SpecialFacts(f, x, b)
  {
  }

  lemma SpecialFactsWk(f: Frame, x: Slot, i: nat, occ: nat, b: Tally, exited: bool)
    requires ReadyWk(f, x, i, occ, b, exited)
    ensures SpecialFacts(f, x, b)
  {
  }

  lemma SpecialFactsRel(f: Frame, x: Slot, occ: nat, b: Tally, exited: bool)
    requires ReadyRel(f, x, occ, b, exited)
    ensures SpecialFacts(f, x, b)
  {
  }

  lemma QueueAccept(f: Frame, x: Slot, i: nat, c: Choice, b: Tally)
    requires f.Acc? && f.ap.ARef? && SpecialFacts(f, x, b) && QueueBefore(f, x, b)
    ensures QueueAfter(f, StepAcc(f, x, i, c), b)
  {
    var o := StepAcc(f, x, i, c);
    QueueReset(x, o.x, 0, b.tear);
    QueueSettles(f, o, b, 0, 0, b.tear);
  }

  lemma QueueSnd(f: Frame, x: Slot, c: Choice, b: Tally)
    requires f.Snd? && (f.np.SCas? || f.np.SEnq?) && SpecialFacts(f, x, b) && QueueBefore(f, x, b)
    ensures QueueAfter(f, StepSnd(f, x, c), b)
  {
    var o := StepSnd(f, x, c);
    if f.np.SEnq? {
      Enqueue(x, o.x, f.pkt, b.reserved, b.credit);
      QueueSettles(f, o, b, b.reserved, b.credit, 0);
      return;
    } else if f.seen < MAX_PENDING_SENDS && x.queue.count == f.seen && c.ok {
      assert Unsent(o.x) == Unsent(x);
      QueueSettles(f, o, b, b.reserved + 1, b.credit, b.tear);
      return;
    } else {
      QueueIdles(f, x, o, b);
      return;
    }
  }

  lemma QueueDrain(f: Frame, x: Slot, c: Choice, b: Tally)
    requires f.Post? && f.pp.PDrain? && SpecialFacts(f, x, b) && QueueBefore(f, x, b)
    ensures QueueAfter(f, StepPost(f, x, c), b)
  {
    var o := StepPost(f, x, c);
    if f.drained < SEND_BATCH_SIZE && x.queue.pending != [] {
      Drain(x, o.x, b.reserved);
      QueueSettles(f, o, b, b.reserved, 0, 0);
    } else {
      QueueIdles(f, x, o, b);
    }
  }

  /** A failed send completion keeps send_flag for good, so the bytes it may have sent no longer matter. */
  lemma QueueTakeFailed(f: Frame, x: Slot, i: nat, c: Choice, b: Tally)
    requires f.Wk? && f.wp.WIdle? && FailedSend(x.flow.sendIo) && SpecialFacts(f, x, b) && QueueBefore(f, x, b)
    ensures QueueAfter(f, StepWk(f, x, i, c), b)
  {
    var o := StepWk(f, x, i, c);
    if c.kind.SendKind? {
      QueueSettles(f, o, b, b.reserved, b.credit, b.tear);
    } else {
      QueueIdles(f, x, o, b);
    }
  }

  /** The worker's loop over the packets a completion pays for. */
  lemma QueueConsume(f: Frame, x: Slot, i: nat, c: Choice, b: Tally)
    requires f.Wk? && f.wp.WSend? && SpecialFacts(f, x, b) && QueueBefore(f, x, b)
    ensures QueueAfter(f, StepWk(f, x, i, c), b)
  {
    var o := StepWk(f, x, i, c);
    if f.job.bytes > 0 && x.queue.inFlight != [] {
      var first := |x.queue.inFlight[0]| - x.queue.offset;
      if f.job.bytes >= first {
        PopSent(x, o.x, b.reserved, f.job.bytes);
        QueueSettles(f, o, b, b.reserved, f.job.bytes - first, 0);
      } else {
        AdvanceSent(x, o.x, b.reserved, f.job.bytes);
        QueueSettles(f, o, b, b.reserved, 0, 0);
      }
    } else {
      assert x.queue.inFlight == [] ==> Unsent(x) == [];
      assert o.x.queue == x.queue;
      QueueSettles(f, o, b, b.reserved, 0, 0);
    }
  }

  lemma QueueTear(f: Frame, x: Slot, b: Tally)
    requires f.Rel? && (f.lp.LPend? || f.lp.LCount? || f.lp.LSendF? || f.lp.LPush?)
    requires SpecialFacts(f, x, b) && QueueBefore(f, x, b)
    ensures QueueAfter(f, StepRel(f, x), b)
  {
    var o := StepRel(f, x);
    match f.lp
    case LPend => QueueSettles(f, o, b, b.reserved, b.credit, b.tear + 1); return;
    case LCount => QueueSettles(f, o, b, b.reserved, b.credit, b.tear + 1); return;
    case LSendF => QueueSettles(f, o, b, b.reserved, b.credit, b.tear + 1); return;
    case LPush => QueueSettles(f, o, b, 0, b.credit, b.tear); return;
  }

  lemma SpecialFactsHold(f: Frame, x: Slot, i: nat, occ: nat, b: Tally, exited: bool, probe: nat)
    requires Ready(f, x, i, occ, b, exited, probe)
    ensures SpecialFacts(f, x, b)
  {
    match f
    case Acc(_, _, _) => ReadyAccFrom(f, x, i, occ, b, exited, probe); SpecialFactsAcc(f, x, i, occ, b, exited); return;
    case Wk(_, _, _, _) => ReadyWkFrom(f, x, i, occ, b, exited, probe); SpecialFactsWk(f, x, i, occ, b, exited); return;
    case Snd(_, _, _, _) => ReadySndFrom(f, x, i, occ, b, exited, probe); SpecialFactsSnd(f, x, occ, b, exited); return;
    case Post(_, _, _, _, _) =>
      ReadyPostFrom(f, x, i, occ, b, exited, probe);
      SpecialFactsPost(f, x, occ, b, exited);
      return;
    case Rel(_, _, _, _) => ReadyRelFrom(f, x, i, occ, b, exited, probe); SpecialFactsRel(f, x, occ, b, exited); return;
    case _ => return;
  }

  lemma QueueSpecial(f: Frame, x: Slot, i: nat, c: Choice, b: Tally)
    requires Special(f, x) && SpecialFacts(f, x, b) && QueueBefore(f, x, b)
    ensures QueueAfter(f, Local(f, x, i, c), b)
  {
    match f
    case Acc(_, _, _) => QueueAccept(f, x, i, c, b); return;
    case Snd(_, _, _, _) => QueueSnd(f, x, c, b); return;
    case Post(_, _, _, _, _) => QueueDrain(f, x, c, b); return;
    case Wk(pc, _, _, _) =>
      if pc.WSend? { QueueConsume(f, x, i, c, b); return; } else { QueueTakeFailed(f, x, i, c, b); return; }
    case Rel(_, _, _, _) => QueueTear(f, x, b); return;
  }

  lemma QueueIdle(f: Frame, x: Slot, i: nat, c: Choice, b: Tally)
    requires !f.Usr? && !Special(f, x) && SpecialFacts(f, x, b) && QueueBefore(f, x, b)
    ensures QueueAfter(f, Local(f, x, i, c), b)
  {
    var o := Local(f, x, i, c);
    assert Idles(f, x, o) by {
      if f.Acc? {
        IdleAcc(f, x, i, c);
      } else if f.Wk? {
        IdleWk(f, x, i, c);
      } else if f.Post? {
        IdlePost(f, x, i, c);
      } else if f.Recv? {
        IdleRecv(f, x, i, c);
      } else if f.Rel? {
        IdleRel(f, x, i, c);
      } else if f.Stop? {
      } else {
        IdleApi(f, x, i, c);
      }
    }
    QueueIdles(f, x, o, b);
  }

  lemma QueueBeforeFrom(f: Frame, x: Slot, b: Tally, probe: nat)
    requires Queued(x, Plus(b, Weight(f, probe)))
    ensures QueueBefore(f, x, b)
  {
    WeightQueue(f, probe);
  }

  lemma QueueAfterTo(f: Frame, o: Out, b: Tally, probe: nat)
    requires QueueAfter(f, o, b)
    ensures Queued(o.x, Plus(b, After(f, o.ctl, probe)))
  {
    AfterQueue(f, o.ctl, probe);
  }

  /** Every step of every frame keeps the queue accounted. */
  lemma QueueKept(f: Frame, x: Slot, i: nat, c: Choice, occ: nat, b: Tally, exited: bool, probe: nat)
    requires !f.Usr? && Ready(f, x, i, occ, b, exited, probe) && Queued(x, Plus(b, Weight(f, probe)))
    ensures Queued(Local(f, x, i, c).x, Plus(b, After(f, Local(f, x, i, c).ctl, probe)))
  {
    QueueBeforeFrom(f, x, b, probe);
    SpecialFactsHold(f, x, i, occ, b, exited, probe);
    if Special(f, x) {
      QueueSpecial(f, x, i, c, b);
    } else {
      QueueIdle(f, x, i, c, b);
    }
    QueueAfterTo(f, Local(f, x, i, c), b, probe);
  }
}
