/**
 The history of one slot.  Every event is lawful where it stands: callbacks run between the join and the
 teardown of their generation, the teardown finds them all finished, post_leave and on_client_leave follow it,
 and the next generation joins only when the groups of all earlier ones have been told.
 */
module EngineStory {
  import opened EngineModel
  import opened Options
  import opened Tallies
  import opened EngineTallies
  import opened EngineSlots
  import opened EngineSteps
  import opened EngineTokens

  function Count(h: seq<Event>, e: Event): nat {
    multiset(h)[e]
  }

  /** No callback of generation g is running. */
  predicate Quiet(h: seq<Event>, g: nat) {
    && Count(h, Join(g)) == Count(h, JoinEnd(g))
    && Count(h, RecvBegin(g)) == Count(h, RecvEnd(g))
    && Count(h, SendBegin(g)) == Count(h, SendEnd(g))
  }

  /** Every torn-down generation that had a group has been posted to it. */
  ghost predicate AllLeft(h: seq<Event>) {
    forall g: nat, q: nat :: Grouped(g, q) in h ==> PostLeave(g, q) in h
  }

  /** Event e may follow history h. */
  ghost predicate Lawful(h: seq<Event>, e: Event) {
    match e
    case Guess(g) => Join(g) !in h && Tear(g) !in h
    case Join(g) => Join(g) !in h && Tear(g) !in h && AllLeft(h) && (g > 0 ==> Tear(g - 1) in h)
    case JoinEnd(g) => Count(h, JoinEnd(g)) < Count(h, Join(g)) && Tear(g) !in h
    case RecvBegin(g) => Join(g) in h && Tear(g) !in h
    case RecvEnd(g) => Count(h, RecvEnd(g)) < Count(h, RecvBegin(g)) && Tear(g) !in h
    case SendBegin(g) => (Join(g) in h || Guess(g) in h) && Tear(g) !in h
    case SendEnd(g) => Count(h, SendEnd(g)) < Count(h, SendBegin(g)) && Tear(g) !in h
    case Tear(g) => Join(g) in h && Tear(g) !in h && Quiet(h, g)
    case Grouped(g, q) => Tear(g) in h && Leave(g) !in h && forall r: nat :: Grouped(g, r) !in h
    case PostLeave(g, q) => Grouped(g, q) in h && PostLeave(g, q) !in h && Leave(g) !in h
    case Leave(g) => Tear(g) in h && Leave(g) !in h
  }

  ghost predicate Lifecycle(h: seq<Event>) {
    h == [] || (Lifecycle(h[..|h| - 1]) && Lawful(h[..|h| - 1], h[|h| - 1]))
  }

  lemma Appended(h: seq<Event>, e: Event)
    requires Lifecycle(h) && Lawful(h, e)
    ensures Lifecycle(h + [e])
  {
    assert (h + [e])[..|h|] == h;
  }

  lemma AppendRecvBegin(h: seq<Event>, g: nat)
    requires Lifecycle(h) && Join(g) in h && Tear(g) !in h
    ensures Lifecycle(h + [RecvBegin(g)])
  {
    Appended(h, RecvBegin(g));
  }

  lemma AppendRecvEnd(h: seq<Event>, g: nat)
    requires Lifecycle(h) && Count(h, RecvEnd(g)) < Count(h, RecvBegin(g)) && Tear(g) !in h
    ensures Lifecycle(h + [RecvEnd(g)])
  {
    Appended(h, RecvEnd(g));
  }

  lemma AppendTear(h: seq<Event>, g: nat)
    requires Lifecycle(h) && Join(g) in h && Tear(g) !in h && Quiet(h, g)
    ensures Lifecycle(h + [Tear(g)])
  {
    Appended(h, Tear(g));
  }

  lemma AppendGrouped(h: seq<Event>, g: nat, q: nat)
    requires Lifecycle(h) && Join(g) in h && Tear(g) !in h && Quiet(h, g) && Leave(g) !in h
    requires forall r: nat :: Grouped(g, r) !in h
    ensures Lifecycle(h + [Tear(g)] + [Grouped(g, q)])
  {
    AppendTear(h, g);
    var h' := h + [Tear(g)];
    assert h'[|h|] == Tear(g);
    forall r: nat ensures Grouped(g, r) !in h' {
    }
    assert Leave(g) !in h';
    Appended(h', Grouped(g, q));
  }

  /** All generations before this one are torn down; their groups have been told, or are about to be by the one
      teardown in progress. */
  ghost predicate PastBy(h: seq<Event>, gen: nat, pl: int) {
    && (forall g: nat :: Tear(g) in h <==> g < gen)
    && (forall g: nat, q: nat :: Grouped(g, q) in h ==>
          g < gen && (PostLeave(g, q) in h <==> !(g + 1 == gen && pl > 0)))
    && (forall g: nat, q: nat :: PostLeave(g, q) in h ==> Grouped(g, q) in h)
    && (forall g: nat, q: nat, r: nat :: Grouped(g, q) in h && Grouped(g, r) in h ==> q == r)
  }

  /** Generation `probe` in the history of a slot whose current generation is gen. */
  ghost predicate StoryBy(h: seq<Event>, gen: nat, refs: nat, early: int, preJoin: int, cbJ: int, cbR: int, cbS: int,
                          leave: int, probe: nat) {
    && (Join(probe) in h <==> probe < gen || (probe == gen && (refs > 0 || early > 0) && preJoin == 0))
    && (if Leave(probe) in h then 1 else 0) + leave == (if probe < gen then 1 else 0)
    && Count(h, Join(probe)) == Count(h, JoinEnd(probe)) + (if probe == gen then cbJ else 0)
    && Count(h, RecvBegin(probe)) == Count(h, RecvEnd(probe)) + (if probe == gen then cbR else 0)
    && Count(h, SendBegin(probe)) == Count(h, SendEnd(probe)) + (if probe == gen then cbS else 0)
  }

  ghost predicate Storied(x: Slot, T: Tally, probe: nat) {
    && Lifecycle(x.hist)
    && PastBy(x.hist, x.core.gen, T.pl)
    && StoryBy(x.hist, x.core.gen, x.core.refs, T.early, T.preJoin, T.cbJ, T.cbR, T.cbS, T.leave, probe)
  }

  ghost predicate PastBefore(f: Frame, x: Slot, b: Tally) {
    PastBy(x.hist, x.core.gen, b.pl + PlOf(f))
  }

  ghost predicate PastAfter(f: Frame, o: Out, b: Tally) {
    PastBy(o.x.hist, o.x.core.gen, b.pl + (PlOf(NewTop(f, o.ctl)) + PlOf(Called(o.ctl))))
  }

  ghost predicate TaleBefore(f: Frame, x: Slot, b: Tally, probe: nat) {
    StoryBy(x.hist, x.core.gen, x.core.refs, b.early + EarlyOf(f), b.preJoin + PreJoinOf(f), b.cbJ + CbJoinOf(f),
            b.cbR + CbRecvOf(f), b.cbS + CbSendOf(f), b.leave + LeaveOf(f, probe), probe)
  }

  ghost predicate TaleAfter(f: Frame, o: Out, b: Tally, probe: nat) {
    var g, h := NewTop(f, o.ctl), Called(o.ctl);
    StoryBy(o.x.hist, o.x.core.gen, o.x.core.refs, b.early + (EarlyOf(g) + EarlyOf(h)),
            b.preJoin + (PreJoinOf(g) + PreJoinOf(h)), b.cbJ + (CbJoinOf(g) + CbJoinOf(h)),
            b.cbR + (CbRecvOf(g) + CbRecvOf(h)), b.cbS + (CbSendOf(g) + CbSendOf(h)),
            b.leave + (LeaveOf(g, probe) + LeaveOf(h, probe)), probe)
  }

  ghost predicate StoryBefore(f: Frame, x: Slot, b: Tally, probe: nat) {
    Lifecycle(x.hist) && PastBefore(f, x, b) && TaleBefore(f, x, b, probe)
  }

  ghost predicate StoryAfter(f: Frame, o: Out, b: Tally, probe: nat) {
    Lifecycle(o.x.hist) && PastAfter(f, o, b) && TaleAfter(f, o, b, probe)
  }

  /** The step records nothing and keeps its tokens. */
  ghost predicate Mute(f: Frame, x: Slot, o: Out, probe: nat) {
    var g, h := NewTop(f, o.ctl), Called(o.ctl);
    && o.x.hist == x.hist && o.x.core.gen == x.core.gen
    && (o.x.core.refs > 0 <==> x.core.refs > 0)
    && EarlyOf(g) + EarlyOf(h) == EarlyOf(f) && PreJoinOf(g) + PreJoinOf(h) == PreJoinOf(f)
    && CbJoinOf(g) + CbJoinOf(h) == CbJoinOf(f) && CbRecvOf(g) + CbRecvOf(h) == CbRecvOf(f)
    && CbSendOf(g) + CbSendOf(h) == CbSendOf(f) && PlOf(g) + PlOf(h) == PlOf(f)
    && LeaveOf(g, probe) + LeaveOf(h, probe) == LeaveOf(f, probe)
  }

  lemma MuteKeeps(f: Frame, x: Slot, o: Out, b: Tally, probe: nat)
    requires StoryBefore(f, x, b, probe) && Mute(f, x, o, probe)
    ensures StoryAfter(f, o, b, probe)
  {
  }

  /** The steps that write history or move a slot between its phases. */
  ghost predicate Noted(f: Frame) {
    || (f.Acc? && (f.ap.ARef? || f.ap.AJoin? || f.ap.AInJoin?))
    || (f.Wk? && (f.wp.WDispatch? || f.wp.WInCb? || f.wp.WSent? || f.wp.WInSent?))
    || (f.Acq? && f.qp.QGen?)
    || (f.Rel? && (f.lp.LSub? || f.lp.LGen? || f.lp.LLeave? || f.lp.LCb?))
  }

  lemma MuteRoots(f: Frame, x: Slot, i: nat, c: Choice, probe: nat)
    requires (f.Acc? || f.Wk?) && !Noted(f)
    ensures Mute(f, x, Local(f, x, i, c), probe)
  {
    if f.Acc? { return; }
    match f.wp
    case WIdle => return;
    case WDisp => return;
    case WLock => return;
    case WSend => return;
    case _ => return;
  }

  lemma MuteApi(f: Frame, x: Slot, i: nat, c: Choice, probe: nat)
    requires f.Dis? || f.Grp? || f.Snd?
    ensures Mute(f, x, Local(f, x, i, c), probe)
  {
    match f
    case Dis(_, _, _) => return;
    case Snd(_, _, _, _) => return;
    case Grp(_, _, _) => return;
  }

  lemma MuteAcq(f: Frame, x: Slot, i: nat, c: Choice, probe: nat)
    requires f.Acq? && !Noted(f) && (f.qp.QCas? ==> f.read > 0)
    ensures Mute(f, x, Local(f, x, i, c), probe)
  {
  }

  lemma MutePost(f: Frame, x: Slot, i: nat, c: Choice, probe: nat)
    requires f.Post?
    ensures Mute(f, x, Local(f, x, i, c), probe)
  {
    match f.pp
    case PFlagX => return;
    case PDrain => return;
    case PEmpty => return;
    case PRetake => return;
    case PChk => return;
    case PIo => return;
    case PRel => return;
    case PPosted => return;
    case PCancel => return;
    case _ => return;
  }

  lemma MuteRecv(f: Frame, x: Slot, i: nat, c: Choice, probe: nat)
    requires f.Recv?
    ensures Mute(f, x, Local(f, x, i, c), probe)
  {
  }

  lemma MuteRel(f: Frame, x: Slot, i: nat, c: Choice, probe: nat)
    requires f.Rel? && !Noted(f)
    ensures Mute(f, x, Local(f, x, i, c), probe)
  {
  }

  /** What accounting and the frames themselves say at the noted steps. */
  ghost predicate NotedFacts(f: Frame, x: Slot, b: Tally) {
    && (f.Acc? && f.ap.ARef? ==> x.core.refs == 0 && b.early == b.preJoin == 0)
    && (f.Acc? && f.ap.AJoin? ==> x.core.refs > 0 && b.preJoin == b.early == b.pl == 0)
    && (f.Acc? && f.ap.AInJoin? ==> x.core.refs > 0 && x.core.gen == f.g)
    && (f.Wk? && (f.wp.WDispatch? || f.wp.WInCb? || f.wp.WSent? || f.wp.WInSent?) ==>
          x.core.refs > 0 && x.core.gen == f.g)
    && (f.Wk? && f.wp.WDispatch? ==> Joined(x))
    && (f.Wk? && f.wp.WSent? ==> Announced(x))
    && (f.Acq? && f.qp.QGen? ==> x.core.refs > 0)
    && (f.Acq? && f.qp.QCas? ==> f.read > 0)
    && (f.Rel? && f.lp.LSub? ==> x.core.refs > 0 && b.early == 0 && (x.core.refs == 1 ==> b.preJoin == 0))
    && (f.Rel? && f.lp.LGen? ==>
          && x.core.refs == 0 && x.core.gen == f.g
          && b.preJoin == b.early == b.pl == b.cbJ == b.cbR == b.cbS == 0)
    && (f.Rel? && f.lp.LLeave? ==>
          x.core.gen == f.g + 1 && b.pl == 0 && (f.grp.Some? ==> Grouped(f.g, f.grp.value) in x.hist))
    && (f.Rel? && f.lp.LCb? ==> f.g < x.core.gen)
  }

  lemma NotedAcc(f: Frame, x: Slot, i: nat, occ: nat, b: Tally, exited: bool)
    requires ReadyAcc(f, x, i, occ, b, exited)
    ensures NotedFacts(f, x, b)
  {
  }

  lemma NotedWk(f: Frame, x: Slot, i: nat, occ: nat, b: Tally, exited: bool)
    requires ReadyWk(f, x, i, occ, b, exited)
    ensures NotedFacts(f, x, b)
  {
  }

  lemma NotedAcq(f: Frame, x: Slot, occ: nat, b: Tally, exited: bool)
    requires ReadyAcq(f, x, occ, b, exited)
    ensures NotedFacts(f, x, b)
  {
  }

  lemma NotedRel(f: Frame, x: Slot, occ: nat, b: Tally, exited: bool)
    requires ReadyRel(f, x, occ, b, exited)
    ensures NotedFacts(f, x, b)
  {
  }

  lemma NotedFactsHold(f: Frame, x: Slot, i: nat, occ: nat, b: Tally, exited: bool, probe: nat)
    requires Ready(f, x, i, occ, b, exited, probe)
    ensures NotedFacts(f, x, b)
  {
    match f
    case Acc(_, _, _) => ReadyAccFrom(f, x, i, occ, b, exited, probe); NotedAcc(f, x, i, occ, b, exited); return;
    case Wk(_, _, _, _) => ReadyWkFrom(f, x, i, occ, b, exited, probe); NotedWk(f, x, i, occ, b, exited); return;
    case Acq(_, _, _, _) => ReadyAcqFrom(f, x, i, occ, b, exited, probe); NotedAcq(f, x, occ, b, exited); return;
    case Rel(_, _, _, _) => ReadyRelFrom(f, x, i, occ, b, exited, probe); NotedRel(f, x, occ, b, exited); return;
    case _ => return;
  }

  /** The generation the next event of frame f belongs to. */
  function EventGen(f: Frame, x: Slot): nat {
    if f.Acc? && f.ap.AInJoin? then f.g
    else if f.Wk? || f.Rel? then f.g
    else x.core.gen
  }

  // ---------------------------------------------------------------- the next event is lawful

  lemma LawfulAcc(f: Frame, x: Slot, i: nat, c: Choice, b: Tally)
    requires f.Acc? && Noted(f) && NotedFacts(f, x, b) && StoryBefore(f, x, b, EventGen(f, x))
    ensures Lifecycle(StepAcc(f, x, i, c).x.hist)
  {
    if f.ap.AJoin? {
      Appended(x.hist, Join(x.core.gen));
      return;
    } else if f.ap.AInJoin? {
      Appended(x.hist, JoinEnd(f.g));
      return;
    }
  }

  /** A worker's session is not torn down, and the callback it is in is one that began. */
  lemma WorkerStory(f: Frame, x: Slot, b: Tally)
    requires f.Wk? && Noted(f) && NotedFacts(f, x, b) && StoryBefore(f, x, b, f.g)
    ensures Tear(f.g) !in x.hist
    ensures f.wp.WInCb? ==> Count(x.hist, RecvEnd(f.g)) < Count(x.hist, RecvBegin(f.g))
    ensures f.wp.WInSent? ==> Count(x.hist, SendEnd(f.g)) < Count(x.hist, SendBegin(f.g))
  {
  }

  lemma LawfulRecv(f: Frame, x: Slot, i: nat, c: Choice)
    requires f.Wk? && (f.wp.WDispatch? || f.wp.WInCb?) && Lifecycle(x.hist) && Tear(f.g) !in x.hist
    requires f.wp.WInCb? ==> Count(x.hist, RecvEnd(f.g)) < Count(x.hist, RecvBegin(f.g))
    requires f.wp.WDispatch? ==> Join(f.g) in x.hist
    ensures Lifecycle(StepWk(f, x, i, c).x.hist)
  {
    var h := StepWk(f, x, i, c).x.hist;
    if f.wp.WInCb? {
      AppendRecvEnd(x.hist, f.g);
      assert h == x.hist + [RecvEnd(f.g)];
      return;
    } else {
      AppendRecvBegin(x.hist, f.g);
      assert h == x.hist || h == x.hist + [RecvBegin(f.g)];
      return;
    }
  }

  lemma LawfulSend(f: Frame, x: Slot, i: nat, c: Choice)
    requires f.Wk? && (f.wp.WSent? || f.wp.WInSent?) && Lifecycle(x.hist) && Tear(f.g) !in x.hist
    requires f.wp.WInSent? ==> Count(x.hist, SendEnd(f.g)) < Count(x.hist, SendBegin(f.g))
    requires f.wp.WSent? ==> Join(f.g) in x.hist || Guess(f.g) in x.hist
    ensures Lifecycle(StepWk(f, x, i, c).x.hist)
  {
    if f.wp.WInSent? {
      Appended(x.hist, SendEnd(f.g));
      return;
    } else {
      Appended(x.hist, SendBegin(f.g));
      return;
    }
  }

  lemma LawfulWk(f: Frame, x: Slot, i: nat, c: Choice, b: Tally)
    requires f.Wk? && Noted(f) && NotedFacts(f, x, b) && StoryBefore(f, x, b, f.g)
    ensures Lifecycle(StepWk(f, x, i, c).x.hist)
  {
    WorkerStory(f, x, b);
    if f.wp.WDispatch? || f.wp.WInCb? {
      LawfulRecv(f, x, i, c);
    } else {
      LawfulSend(f, x, i, c);
    }
  }

  lemma LawfulAcq(f: Frame, x: Slot, c: Choice, b: Tally)
    requires f.Acq? && Noted(f) && NotedFacts(f, x, b) && StoryBefore(f, x, b, EventGen(f, x))
    ensures Lifecycle(StepAcq(f, x, c).x.hist)
  {
    if !Joined(x) {
      Appended(x.hist, Guess(x.core.gen));
    }
  }

  /** The last reference is gone: the session was joined, and none of its callbacks is running. */
  lemma TearStory(f: Frame, x: Slot, b: Tally)
    requires f.Rel? && f.lp.LGen? && NotedFacts(f, x, b) && StoryBefore(f, x, b, f.g)
    ensures Join(f.g) in x.hist && Tear(f.g) !in x.hist && Leave(f.g) !in x.hist && Quiet(x.hist, f.g)
    ensures forall q: nat :: Grouped(f.g, q) !in x.hist
  {
  }

  lemma LawfulTear(f: Frame, x: Slot)
    requires f.Rel? && f.lp.LGen? && Lifecycle(x.hist)
    requires Join(f.g) in x.hist && Tear(f.g) !in x.hist && Leave(f.g) !in x.hist && Quiet(x.hist, f.g)
    requires forall q: nat :: Grouped(f.g, q) !in x.hist
    ensures Lifecycle(StepRel(f, x).x.hist)
  {
    var h, h' := x.hist + [Tear(f.g)], StepRel(f, x).x.hist;
    if f.grp.Some? {
      AppendGrouped(x.hist, f.g, f.grp.value);
      assert h' == h + [Grouped(f.g, f.grp.value)];
    } else {
      AppendTear(x.hist, f.g);
      assert h' == h;
    }
  }

  lemma LeaveStory(f: Frame, x: Slot, b: Tally)
    requires f.Rel? && (f.lp.LLeave? || f.lp.LCb?) && NotedFacts(f, x, b) && StoryBefore(f, x, b, f.g)
    ensures Leave(f.g) !in x.hist && Tear(f.g) in x.hist
    ensures f.lp.LLeave? && f.grp.Some? ==>
      Grouped(f.g, f.grp.value) in x.hist && PostLeave(f.g, f.grp.value) !in x.hist
  {
  }

  lemma AppendLeave(h: seq<Event>, g: nat)
    requires Lifecycle(h) && Leave(g) !in h && Tear(g) in h
    ensures Lifecycle(h + [Leave(g)])
  {
    Appended(h, Leave(g));
  }

  lemma AppendPostLeave(h: seq<Event>, g: nat, q: nat)
    requires Lifecycle(h) && Leave(g) !in h && Grouped(g, q) in h && PostLeave(g, q) !in h
    ensures Lifecycle(h + [PostLeave(g, q)])
  {
    Appended(h, PostLeave(g, q));
  }

  lemma LawfulLeave(f: Frame, x: Slot)
    requires f.Rel? && (f.lp.LLeave? || f.lp.LCb?) && Lifecycle(x.hist)
    requires Leave(f.g) !in x.hist && Tear(f.g) in x.hist
    requires f.lp.LLeave? && f.grp.Some? ==>
      Grouped(f.g, f.grp.value) in x.hist && PostLeave(f.g, f.grp.value) !in x.hist
    ensures Lifecycle(StepRel(f, x).x.hist)
  {
    var h := StepRel(f, x).x.hist;
    if f.lp.LCb? {
      AppendLeave(x.hist, f.g);
      assert h == x.hist + [Leave(f.g)];
    } else if f.grp.Some? {
      AppendPostLeave(x.hist, f.g, f.grp.value);
      assert h == x.hist + [PostLeave(f.g, f.grp.value)];
    } else {
      assert h == x.hist;
    }
  }

  lemma LawfulRel(f: Frame, x: Slot, b: Tally)
    requires f.Rel? && Noted(f) && NotedFacts(f, x, b) && StoryBefore(f, x, b, f.g)
    ensures Lifecycle(StepRel(f, x).x.hist)
  {
    if f.lp.LSub? {
      return;
    } else if f.lp.LGen? {
      TearStory(f, x, b);
      LawfulTear(f, x);
      return;
    } else {
      LeaveStory(f, x, b);
      LawfulLeave(f, x);
      return;
    }
  }

  // ---------------------------------------------------------------- earlier generations

  lemma PastAppend(h: seq<Event>, gen: nat, pl: int, e: Event)
    requires PastBy(h, gen, pl) && !e.Tear? && !e.Grouped? && !e.PostLeave?
    ensures PastBy(h + [e], gen, pl)
  {
    var h' := h + [e];
    assert forall d: Event :: d.Tear? || d.Grouped? || d.PostLeave? ==> (d in h' <==> d in h);
  }

  lemma PastTear(h: seq<Event>, g: nat)
    requires PastBy(h, g, 0)
    ensures PastBy(h + [Tear(g)], g + 1, 0)
  {
    var h' := h + [Tear(g)];
    assert forall d: Event :: d.Tear? || d.Grouped? || d.PostLeave? ==> (d in h' <==> d in h || d == Tear(g));
  }

  lemma PastGrouped(h: seq<Event>, g: nat, q: nat)
    requires PastBy(h, g, 0)
    ensures PastBy(h + [Tear(g)] + [Grouped(g, q)], g + 1, 1)
  {
    var h' := h + [Tear(g)] + [Grouped(g, q)];
    assert forall d: Event :: d.Tear? || d.Grouped? || d.PostLeave? ==>
      (d in h' <==> d in h || d == Tear(g) || d == Grouped(g, q));
  }

  lemma PastLeave(h: seq<Event>, g: nat, q: nat)
    requires PastBy(h, g + 1, 1) && Grouped(g, q) in h
    ensures PastBy(h + [PostLeave(g, q)], g + 1, 0)
  {
    var h' := h + [PostLeave(g, q)];
    assert forall d: Event :: d.Tear? || d.Grouped? || d.PostLeave? ==> (d in h' <==> d in h || d == PostLeave(g, q));
  }

  // ---------------------------------------------------------------- the step in the history of one generation

  lemma Counts(h: seq<Event>, e: Event)
    ensures forall d: Event :: Count(h + [e], d) == Count(h, d) + (if d == e then 1 else 0)
    ensures forall d: Event :: d in h + [e] <==> d in h || d == e
  {
  }

  lemma StoryJoin(h: seq<Event>, gen: nat, refs: nat, early: int, cbJ: int, cbR: int, cbS: int, leave: int, probe: nat)
    requires StoryBy(h, gen, refs, early, 1, cbJ, cbR, cbS, leave, probe) && refs > 0
    ensures StoryBy(h + [Join(gen)], gen, refs, early, 0, cbJ + 1, cbR, cbS, leave, probe)
  {
    Counts(h, Join(gen));
  }

  lemma StoryJoinEnd(h: seq<Event>, gen: nat, refs: nat, early: int, pre: int, cbJ: int, cbR: int, cbS: int, leave: int,
                     probe: nat)
    requires StoryBy(h, gen, refs, early, pre, cbJ + 1, cbR, cbS, leave, probe)
    ensures StoryBy(h + [JoinEnd(gen)], gen, refs, early, pre, cbJ, cbR, cbS, leave, probe)
  {
    Counts(h, JoinEnd(gen));
  }

  lemma StoryRecv(h: seq<Event>, gen: nat, refs: nat, early: int, pre: int, cbJ: int, cbR: int, cbS: int, leave: int,
                  probe: nat)
    requires StoryBy(h, gen, refs, early, pre, cbJ, cbR, cbS, leave, probe)
    ensures StoryBy(h + [RecvBegin(gen)], gen, refs, early, pre, cbJ, cbR + 1, cbS, leave, probe)
    ensures StoryBy(h + [RecvEnd(gen)], gen, refs, early, pre, cbJ, cbR - 1, cbS, leave, probe)
  {
    Counts(h, RecvBegin(gen));
    Counts(h, RecvEnd(gen));
  }

  lemma StorySend(h: seq<Event>, gen: nat, refs: nat, early: int, pre: int, cbJ: int, cbR: int, cbS: int, leave: int,
                  probe: nat)
    requires StoryBy(h, gen, refs, early, pre, cbJ, cbR, cbS, leave, probe)
    ensures StoryBy(h + [SendBegin(gen)], gen, refs, early, pre, cbJ, cbR, cbS + 1, leave, probe)
    ensures StoryBy(h + [SendEnd(gen)], gen, refs, early, pre, cbJ, cbR, cbS - 1, leave, probe)
  {
    Counts(h, SendBegin(gen));
    Counts(h, SendEnd(gen));
  }

  /** Events that are neither callbacks nor the leave do not matter here. */
  lemma StoryOther(h: seq<Event>, gen: nat, refs: nat, early: int, pre: int, cbJ: int, cbR: int, cbS: int, leave: int,
                   probe: nat, e: Event)
    requires StoryBy(h, gen, refs, early, pre, cbJ, cbR, cbS, leave, probe)
    requires e.Guess? || e.Tear? || e.Grouped? || e.PostLeave?
    ensures StoryBy(h + [e], gen, refs, early, pre, cbJ, cbR, cbS, leave, probe)
  {
    Counts(h, e);
  }

  lemma StoryNext(h: seq<Event>, gen: nat, early: int, pre: int, leave: int, probe: nat)
    requires StoryBy(h, gen, 0, early, pre, 0, 0, 0, leave, probe) && early > 0 && pre == 0
    ensures StoryBy(h, gen + 1, 0, 0, 0, 0, 0, 0, leave + (if probe == gen then 1 else 0), probe)
  {
  }

  lemma StoryLeave(h: seq<Event>, g: nat, gen: nat, refs: nat, early: int, pre: int, cbJ: int, cbR: int, cbS: int,
                   leave: int, probe: nat)
    requires StoryBy(h, gen, refs, early, pre, cbJ, cbR, cbS, leave + (if g == probe then 1 else 0), probe)
    requires g < gen && leave >= 0
    ensures StoryBy(h + [Leave(g)], gen, refs, early, pre, cbJ, cbR, cbS, leave, probe)
  {
    Counts(h, Leave(g));
  }

  /** The tokens a frame holds, and those the frames in its place hold, added to those of the rest. */
  ghost predicate TokensWere(f: Frame, b: Tally, probe: nat, early: int, pre: int, cbJ: int, cbR: int, cbS: int,
                             leave: int) {
    && b.early + EarlyOf(f) == early && b.preJoin + PreJoinOf(f) == pre && b.cbJ + CbJoinOf(f) == cbJ
    && b.cbR + CbRecvOf(f) == cbR && b.cbS + CbSendOf(f) == cbS && b.leave + LeaveOf(f, probe) == leave
  }

  ghost predicate TokensAre(f: Frame, ctl: Ctl, b: Tally, probe: nat, early: int, pre: int, cbJ: int, cbR: int,
                            cbS: int,
                            leave: int) {
    var g, h := NewTop(f, ctl), Called(ctl);
    && b.early + (EarlyOf(g) + EarlyOf(h)) == early && b.preJoin + (PreJoinOf(g) + PreJoinOf(h)) == pre
    && b.cbJ + (CbJoinOf(g) + CbJoinOf(h)) == cbJ && b.cbR + (CbRecvOf(g) + CbRecvOf(h)) == cbR
    && b.cbS + (CbSendOf(g) + CbSendOf(h)) == cbS && b.leave + (LeaveOf(g, probe) + LeaveOf(h, probe)) == leave
  }

  lemma TaleOpens(f: Frame, x: Slot, b: Tally, probe: nat, early: int, pre: int, cbJ: int, cbR: int, cbS: int,
                  leave: int)
    requires TaleBefore(f, x, b, probe) && TokensWere(f, b, probe, early, pre, cbJ, cbR, cbS, leave)
    ensures StoryBy(x.hist, x.core.gen, x.core.refs, early, pre, cbJ, cbR, cbS, leave, probe)
  {
  }

  lemma TaleSettles(f: Frame, o: Out, b: Tally, probe: nat, h: seq<Event>, gen: nat, refs: nat, early: int, pre: int,
                    cbJ: int, cbR: int, cbS: int, leave: int)
    requires o.x.hist == h && o.x.core.gen == gen && (o.x.core.refs > 0 <==> refs > 0)
    requires StoryBy(h, gen, refs, early, pre, cbJ, cbR, cbS, leave, probe)
    requires TokensAre(f, o.ctl, b, probe, early, pre, cbJ, cbR, cbS, leave)
    ensures TaleAfter(f, o, b, probe)
  {
  }

  lemma NoteRef(f: Frame, x: Slot, i: nat, c: Choice, b: Tally, probe: nat)
    requires f.Acc? && f.ap.ARef? && NotedFacts(f, x, b) && TaleBefore(f, x, b, probe)
    ensures TaleAfter(f, StepAcc(f, x, i, c), b, probe)
  {
    TaleOpens(f, x, b, probe, 0, 0, b.cbJ, b.cbR, b.cbS, b.leave);
    TaleSettles(f, StepAcc(f, x, i, c), b, probe, x.hist, x.core.gen, x.core.refs + 1, 0, 1, b.cbJ, b.cbR, b.cbS,
                b.leave);
  }

  lemma NoteJoin(f: Frame, x: Slot, i: nat, c: Choice, b: Tally, probe: nat)
    requires f.Acc? && f.ap.AJoin? && NotedFacts(f, x, b) && TaleBefore(f, x, b, probe)
    ensures TaleAfter(f, StepAcc(f, x, i, c), b, probe)
  {
    var h, gen, refs := x.hist, x.core.gen, x.core.refs;
    TaleOpens(f, x, b, probe, b.early, 1, b.cbJ, b.cbR, b.cbS, b.leave);
    StoryJoin(h, gen, refs, b.early, b.cbJ, b.cbR, b.cbS, b.leave, probe);
    TaleSettles(f, StepAcc(f, x, i, c), b, probe, h + [Join(gen)], gen, refs, b.early, 0, b.cbJ + 1, b.cbR, b.cbS,
                b.leave);
  }

  lemma NoteJoinEnd(f: Frame, x: Slot, i: nat, c: Choice, b: Tally, probe: nat)
    requires f.Acc? && f.ap.AInJoin? && NotedFacts(f, x, b) && TaleBefore(f, x, b, probe)
    ensures TaleAfter(f, StepAcc(f, x, i, c), b, probe)
  {
    var h, gen, refs := x.hist, x.core.gen, x.core.refs;
    TaleOpens(f, x, b, probe, b.early, b.preJoin, b.cbJ + 1, b.cbR, b.cbS, b.leave);
    StoryJoinEnd(h, gen, refs, b.early, b.preJoin, b.cbJ, b.cbR, b.cbS, b.leave, probe);
    TaleSettles(f, StepAcc(f, x, i, c), b, probe, h + [JoinEnd(gen)], gen, refs, b.early, b.preJoin, b.cbJ, b.cbR,
                b.cbS,
                b.leave);
  }

  lemma NoteRecvBegin(f: Frame, x: Slot, i: nat, c: Choice, b: Tally, probe: nat)
    requires f.Wk? && f.wp.WDispatch? && NotedFacts(f, x, b) && TaleBefore(f, x, b, probe)
    ensures TaleAfter(f, StepWk(f, x, i, c), b, probe)
  {
    var h, gen, refs, o := x.hist, x.core.gen, x.core.refs, StepWk(f, x, i, c);
    TaleOpens(f, x, b, probe, b.early, b.preJoin, b.cbJ, b.cbR, b.cbS, b.leave);
    if f.job.pkts > 0 && c.ok && x.core.group.None? {
      StoryRecv(h, gen, refs, b.early, b.preJoin, b.cbJ, b.cbR, b.cbS, b.leave, probe);
      TaleSettles(f, o, b, probe, h + [RecvBegin(gen)], gen, refs, b.early, b.preJoin, b.cbJ, b.cbR + 1, b.cbS,
                  b.leave);
    } else {
      TaleSettles(f, o, b, probe, h, gen, refs, b.early, b.preJoin, b.cbJ, b.cbR, b.cbS, b.leave);
    }
  }

  lemma NoteRecvEnd(f: Frame, x: Slot, i: nat, c: Choice, b: Tally, probe: nat)
    requires f.Wk? && f.wp.WInCb? && NotedFacts(f, x, b) && TaleBefore(f, x, b, probe)
    ensures TaleAfter(f, StepWk(f, x, i, c), b, probe)
  {
    var h, gen, refs := x.hist, x.core.gen, x.core.refs;
    TaleOpens(f, x, b, probe, b.early, b.preJoin, b.cbJ, b.cbR + 1, b.cbS, b.leave);
    StoryRecv(h, gen, refs, b.early, b.preJoin, b.cbJ, b.cbR + 1, b.cbS, b.leave, probe);
    TaleSettles(f, StepWk(f, x, i, c), b, probe, h + [RecvEnd(gen)], gen, refs, b.early, b.preJoin, b.cbJ, b.cbR, b.cbS,
                b.leave);
  }

  lemma NoteSendBegin(f: Frame, x: Slot, i: nat, c: Choice, b: Tally, probe: nat)
    requires f.Wk? && f.wp.WSent? && NotedFacts(f, x, b) && TaleBefore(f, x, b, probe)
    ensures TaleAfter(f, StepWk(f, x, i, c), b, probe)
  {
    var h, gen, refs := x.hist, x.core.gen, x.core.refs;
    TaleOpens(f, x, b, probe, b.early, b.preJoin, b.cbJ, b.cbR, b.cbS, b.leave);
    StorySend(h, gen, refs, b.early, b.preJoin, b.cbJ, b.cbR, b.cbS, b.leave, probe);
    TaleSettles(f, StepWk(f, x, i, c), b, probe, h + [SendBegin(gen)], gen, refs, b.early, b.preJoin, b.cbJ, b.cbR,
                b.cbS + 1, b.leave);
  }

  lemma NoteSendEnd(f: Frame, x: Slot, i: nat, c: Choice, b: Tally, probe: nat)
    requires f.Wk? && f.wp.WInSent? && NotedFacts(f, x, b) && TaleBefore(f, x, b, probe)
    ensures TaleAfter(f, StepWk(f, x, i, c), b, probe)
  {
    var h, gen, refs := x.hist, x.core.gen, x.core.refs;
    TaleOpens(f, x, b, probe, b.early, b.preJoin, b.cbJ, b.cbR, b.cbS + 1, b.leave);
    StorySend(h, gen, refs, b.early, b.preJoin, b.cbJ, b.cbR, b.cbS + 1, b.leave, probe);
    TaleSettles(f, StepWk(f, x, i, c), b, probe, h + [SendEnd(gen)], gen, refs, b.early, b.preJoin, b.cbJ, b.cbR, b.cbS,
                b.leave);
  }

  lemma NoteGuess(f: Frame, x: Slot, c: Choice, b: Tally, probe: nat)
    requires f.Acq? && f.qp.QGen? && NotedFacts(f, x, b) && TaleBefore(f, x, b, probe)
    ensures TaleAfter(f, StepAcq(f, x, c), b, probe)
  {
    var h, gen, refs, o := x.hist, x.core.gen, x.core.refs, StepAcq(f, x, c);
    TaleOpens(f, x, b, probe, b.early, b.preJoin, b.cbJ, b.cbR, b.cbS, b.leave);
    StoryOther(h, gen, refs, b.early, b.preJoin, b.cbJ, b.cbR, b.cbS, b.leave, probe, Guess(gen));
    TaleSettles(f, o, b, probe, o.x.hist, gen, refs, b.early, b.preJoin, b.cbJ, b.cbR, b.cbS, b.leave);
  }

  lemma NoteDrop(f: Frame, x: Slot, b: Tally, probe: nat)
    requires f.Rel? && f.lp.LSub? && NotedFacts(f, x, b) && TaleBefore(f, x, b, probe)
    ensures TaleAfter(f, StepRel(f, x), b, probe)
  {
    var h, gen, refs := x.hist, x.core.gen, x.core.refs;
    TaleOpens(f, x, b, probe, 0, b.preJoin, b.cbJ, b.cbR, b.cbS, b.leave);
    if refs == 1 {
      TaleSettles(f, StepRel(f, x), b, probe, h, gen, 0, 1, 0, b.cbJ, b.cbR, b.cbS, b.leave);
    } else {
      TaleSettles(f, StepRel(f, x), b, probe, h, gen, refs - 1, 0, b.preJoin, b.cbJ, b.cbR, b.cbS, b.leave);
    }
  }

  lemma NoteTear(f: Frame, x: Slot, b: Tally, probe: nat)
    requires f.Rel? && f.lp.LGen? && NotedFacts(f, x, b) && TaleBefore(f, x, b, probe)
    ensures TaleAfter(f, StepRel(f, x), b, probe)
  {
    var o, h, gen := StepRel(f, x), x.hist, x.core.gen;
    TaleOpens(f, x, b, probe, 1, 0, 0, 0, 0, b.leave);
    StoryOther(h, gen, 0, 1, 0, 0, 0, 0, b.leave, probe, Tear(gen));
    if f.grp.Some? {
      StoryOther(h + [Tear(gen)], gen, 0, 1, 0, 0, 0, 0, b.leave, probe, Grouped(gen, f.grp.value));
    }
    StoryNext(o.x.hist, gen, 1, 0, b.leave, probe);
    TaleSettles(f, o, b, probe, o.x.hist, gen + 1, 0, 0, 0, 0, 0, 0, b.leave + (if probe == gen then 1 else 0));
  }

  lemma NotePostLeave(f: Frame, x: Slot, b: Tally, probe: nat)
    requires f.Rel? && f.lp.LLeave? && NotedFacts(f, x, b) && TaleBefore(f, x, b, probe)
    ensures TaleAfter(f, StepRel(f, x), b, probe)
  {
    var h, gen, refs, o := x.hist, x.core.gen, x.core.refs, StepRel(f, x);
    var leave := b.leave + LeaveOf(f, probe);
    TaleOpens(f, x, b, probe, b.early, b.preJoin, b.cbJ, b.cbR, b.cbS, leave);
    if f.grp.Some? {
      StoryOther(h, gen, refs, b.early, b.preJoin, b.cbJ, b.cbR, b.cbS, leave, probe, PostLeave(f.g, f.grp.value));
    }
    TaleSettles(f, o, b, probe, o.x.hist, gen, refs, b.early, b.preJoin, b.cbJ, b.cbR, b.cbS, leave);
  }

  lemma NoteLeave(f: Frame, x: Slot, b: Tally, probe: nat)
    requires f.Rel? && f.lp.LCb? && NotedFacts(f, x, b) && TaleBefore(f, x, b, probe)
    ensures TaleAfter(f, StepRel(f, x), b, probe)
  {
    var h, gen, refs := x.hist, x.core.gen, x.core.refs;
    TaleOpens(f, x, b, probe, b.early, b.preJoin, b.cbJ, b.cbR, b.cbS, b.leave + (if f.g == probe then 1 else 0));
    StoryLeave(h, f.g, gen, refs, b.early, b.preJoin, b.cbJ, b.cbR, b.cbS, b.leave, probe);
    TaleSettles(f, StepRel(f, x), b, probe, h + [Leave(f.g)], gen, refs, b.early, b.preJoin, b.cbJ, b.cbR, b.cbS,
                b.leave);
  }

  // ---------------------------------------------------------------- every step

  lemma PastRoots(f: Frame, x: Slot, i: nat, c: Choice, b: Tally)
    requires (f.Acc? || f.Wk?) && Noted(f) && PastBefore(f, x, b)
    ensures PastAfter(f, Local(f, x, i, c), b)
  {
    var o := Local(f, x, i, c);
    if o.x.hist != x.hist {
      var e := o.x.hist[|x.hist|];
      assert o.x.hist == x.hist + [e];
      PastAppend(x.hist, x.core.gen, b.pl, e);
    }
  }

  lemma PastAcq(f: Frame, x: Slot, i: nat, c: Choice, b: Tally)
    requires f.Acq? && Noted(f) && PastBefore(f, x, b)
    ensures PastAfter(f, Local(f, x, i, c), b)
  {
    PastAppend(x.hist, x.core.gen, b.pl, Guess(x.core.gen));
  }

  lemma PastRel(f: Frame, x: Slot, b: Tally)
    requires f.Rel? && Noted(f) && NotedFacts(f, x, b) && PastBefore(f, x, b)
    ensures PastAfter(f, StepRel(f, x), b)
  {
    match f.lp
    case LSub => return;
    case LGen =>
      if f.grp.Some? {
        PastGrouped(x.hist, f.g, f.grp.value);
        return;
      } else {
        PastTear(x.hist, f.g);
        return;
      }
    case LLeave =>
      if f.grp.Some? {
        PastLeave(x.hist, f.g, f.grp.value);
        return;
      } else {
        return;
      }
    case LCb => PastAppend(x.hist, x.core.gen, b.pl, Leave(f.g)); return;
  }

  lemma PastNoted(f: Frame, x: Slot, i: nat, c: Choice, b: Tally)
    requires Noted(f) && NotedFacts(f, x, b) && PastBefore(f, x, b)
    ensures PastAfter(f, Local(f, x, i, c), b)
  {
    if f.Acq? {
      PastAcq(f, x, i, c, b);
    } else if f.Rel? {
      PastRel(f, x, b);
    } else {
      PastRoots(f, x, i, c, b);
    }
  }

  lemma TaleRoots(f: Frame, x: Slot, i: nat, c: Choice, b: Tally, probe: nat)
    requires (f.Acc? || f.Wk?) && Noted(f) && NotedFacts(f, x, b) && TaleBefore(f, x, b, probe)
    ensures TaleAfter(f, Local(f, x, i, c), b, probe)
  {
    match f
    case Acc(pc, _, _) =>
      if pc.ARef? {
        NoteRef(f, x, i, c, b, probe); return;
      } else if pc.AJoin? {
        NoteJoin(f, x, i, c, b, probe); return;
      } else {
        NoteJoinEnd(f, x, i, c, b, probe); return;
      }
    case Wk(pc, _, _, _) =>
      if pc.WDispatch? {
        NoteRecvBegin(f, x, i, c, b, probe); return;
      } else if pc.WInCb? {
        NoteRecvEnd(f, x, i, c, b, probe); return;
      } else if pc.WSent? {
        NoteSendBegin(f, x, i, c, b, probe); return;
      } else {
        NoteSendEnd(f, x, i, c, b, probe); return;
      }
  }

  lemma TaleRel(f: Frame, x: Slot, b: Tally, probe: nat)
    requires f.Rel? && Noted(f) && NotedFacts(f, x, b) && TaleBefore(f, x, b, probe)
    ensures TaleAfter(f, StepRel(f, x), b, probe)
  {
    if f.lp.LSub? {
      NoteDrop(f, x, b, probe);
    } else if f.lp.LGen? {
      NoteTear(f, x, b, probe);
    } else if f.lp.LLeave? {
      NotePostLeave(f, x, b, probe);
    } else {
      NoteLeave(f, x, b, probe);
    }
  }

  lemma TaleNoted(f: Frame, x: Slot, i: nat, c: Choice, b: Tally, probe: nat)
    requires Noted(f) && NotedFacts(f, x, b) && TaleBefore(f, x, b, probe)
    ensures TaleAfter(f, Local(f, x, i, c), b, probe)
  {
    if f.Acq? {
      NoteGuess(f, x, c, b, probe);
    } else if f.Rel? {
      TaleRel(f, x, b, probe);
    } else {
      TaleRoots(f, x, i, c, b, probe);
    }
  }

  lemma LawfulRoots(f: Frame, x: Slot, i: nat, c: Choice, b: Tally)
    requires (f.Acc? || f.Wk?) && Noted(f) && NotedFacts(f, x, b) && StoryBefore(f, x, b, EventGen(f, x))
    ensures Lifecycle(Local(f, x, i, c).x.hist)
  {
    if f.Acc? {
      LawfulAcc(f, x, i, c, b);
    } else {
      LawfulWk(f, x, i, c, b);
    }
  }

  lemma LawfulNoted(f: Frame, x: Slot, i: nat, c: Choice, b: Tally)
    requires Noted(f) && NotedFacts(f, x, b) && StoryBefore(f, x, b, EventGen(f, x))
    ensures Lifecycle(Local(f, x, i, c).x.hist)
  {
    if f.Acq? {
      LawfulAcq(f, x, c, b);
    } else if f.Rel? {
      LawfulRel(f, x, b);
    } else {
      LawfulRoots(f, x, i, c, b);
    }
  }

  lemma MuteSteps(f: Frame, x: Slot, i: nat, c: Choice, b: Tally, probe: nat)
    requires !f.Usr? && !Noted(f) && NotedFacts(f, x, b)
    ensures Mute(f, x, Local(f, x, i, c), probe)
  {
    if f.Acc? || f.Wk? {
      MuteRoots(f, x, i, c, probe);
    } else if f.Post? {
      MutePost(f, x, i, c, probe);
    } else if f.Recv? {
      MuteRecv(f, x, i, c, probe);
    } else if f.Rel? {
      MuteRel(f, x, i, c, probe);
    } else if f.Acq? {
      MuteAcq(f, x, i, c, probe);
    } else if !f.Stop? {
      MuteApi(f, x, i, c, probe);
    }
  }

  lemma StoryBeforeFrom(f: Frame, x: Slot, b: Tally, probe: nat)
    requires Storied(x, Plus(b, Weight(f, probe)), probe)
    ensures StoryBefore(f, x, b, probe)
  {
    WeightStory(f, probe);
  }

  lemma StoryAfterTo(f: Frame, o: Out, b: Tally, probe: nat)
    requires StoryAfter(f, o, b, probe)
    ensures Storied(o.x, Plus(b, After(f, o.ctl, probe)), probe)
  {
    AfterStory(f, o.ctl, probe);
  }

  lemma StoryStep(f: Frame, x: Slot, i: nat, c: Choice, b: Tally, own: Tally, probe: nat)
    requires !f.Usr? && NotedFacts(f, x, b) && NotedFacts(f, x, own)
    requires StoryBefore(f, x, b, probe) && StoryBefore(f, x, own, EventGen(f, x))
    ensures StoryAfter(f, Local(f, x, i, c), b, probe)
  {
    if Noted(f) {
      LawfulNoted(f, x, i, c, own);
      PastNoted(f, x, i, c, b);
      TaleNoted(f, x, i, c, b, probe);
    } else {
      MuteSteps(f, x, i, c, b, probe);
      MuteKeeps(f, x, Local(f, x, i, c), b, probe);
    }
  }

  /** Every step of every frame keeps the history lawful.  `own` is the rest looked at through the generation
      the step's own event belongs to. */
  lemma StoryKept(f: Frame, x: Slot, i: nat, c: Choice, occ: nat, b: Tally, own: Tally, exited: bool, probe: nat)
    requires !f.Usr? && Ready(f, x, i, occ, b, exited, probe) && Storied(x, Plus(b, Weight(f, probe)), probe)
    requires var g := EventGen(f, x); Ready(f, x, i, occ, own, exited, g) && Storied(x, Plus(own, Weight(f, g)), g)
    ensures Storied(Local(f, x, i, c).x, Plus(b, After(f, Local(f, x, i, c).ctl, probe)), probe)
  {
    StoryBeforeFrom(f, x, b, probe);
    StoryBeforeFrom(f, x, own, EventGen(f, x));
    NotedFactsHold(f, x, i, occ, b, exited, probe);
    NotedFactsHold(f, x, i, occ, own, exited, EventGen(f, x));
    StoryStep(f, x, i, c, b, own, probe);
    StoryAfterTo(f, Local(f, x, i, c), b, probe);
  }
}
