/**
 What callers owe the engine so that on_client_join comes first: ids are numbered predictably and acquire_session
 accepts them from the moment the accept thread holds its reference, so who calls with an id that has not been announced
 can be ahead of the announcement.  Who does not, never is.
 */
module EngineCallers {
  import opened EngineModel
  import opened Options
  import opened Tallies
  import opened EngineTallies
  import opened EngineSlots
  import opened EngineSteps
  import opened EngineTotals
  import opened EngineTokens
  import opened EngineInvariant
  import opened EngineStory
  import opened EngineRuns
  import opened EngineTheorems
  import opened Lifecycles

  // ---------------------------------------------------------------- polite runs

  /** The id an API call names, if it is a call. */
  function NamedId(api: Api): Option<Id> {
    match api
    case NoCall => None
    case CallDisconnect(id) => Some(id)
    case CallSend(id, _) => Some(id)
    case CallSetGroup(id, _) => Some(id)
  }

  /** The id was announced by an on_client_join that has begun. */
  predicate AnnouncedId(s: State, id: Id) {
    id.index < |s.slots| ==> Join(id.gen) in s.slots[id.index].hist
  }

  /** If this step is an API call, it names an announced id. */
  ghost predicate PoliteStep(s: State, l: Label) {
    match l
    case Run(t, c) =>
      (t < |s.threads| && s.threads[t] != [] && Top(s.threads[t]).Usr? && NamedId(c.api).Some? ==>
         AnnouncedId(s, NamedId(c.api).value))
    case Kernel(_, _, _, _) => true
  }

  ghost predicate Polite(n: nat, others: seq<bool>, run: seq<Label>) {
    run == []
    || (Polite(n, others, run[..|run| - 1])
        && PoliteStep(Exec(Init(n, others), run[..|run| - 1]), run[|run| - 1]))
  }

  // ---------------------------------------------------------------- frames that know their id

  ghost predicate NoGuess(h: seq<Event>) {
    forall g: nat :: Guess(g) !in h
  }

  /** A call on an id, other than one of stop()'s sweep, is about an announced session. */
  ghost predicate Knows(f: Frame, h: seq<Event>) {
    match f
    case Dis(_, id, sweep) => sweep || Join(id.gen) in h
    case Snd(_, id, _, _) => Join(id.gen) in h
    case Grp(_, id, _) => Join(id.gen) in h
    case Acq(_, id, _, sweep) => sweep || Join(id.gen) in h
    case _ => true
  }

  lemma InLonger(h: seq<Event>, h': seq<Event>, e: Event)
    requires h <= h' && e in h
    ensures e in h'
  {
    var k :| 0 <= k < |h| && h[k] == e;
    assert h'[k] == e;
  }

  lemma KnowsStill(f: Frame, g: Frame, h: seq<Event>, h': seq<Event>)
    requires SameCall(f, g) && Knows(f, h) && h <= h'
    ensures Knows(g, h')
  {
    match f
    case Dis(_, id, sweep) => if !sweep { InLonger(h, h', Join(id.gen)); } return;
    case Snd(_, id, _, _) => InLonger(h, h', Join(id.gen)); return;
    case Grp(_, id, _) => InLonger(h, h', Join(id.gen)); return;
    case Acq(_, id, _, sweep) => if !sweep { InLonger(h, h', Join(id.gen)); } return;
    case Usr => return;
    case Stop(_, _) => return;
    case Acc(_, _, _) => return;
    case Wk(_, _, _, _) => return;
    case Post(_, _, _, _, _) => return;
    case Recv(_, _, _, _, _) => return;
    case Rel(_, _, _, _) => return;
  }

  lemma HistoryGrows(f: Frame, x: Slot, i: nat, c: Choice)
    ensures x.hist <= Local(f, x, i, c).x.hist
  {
    match f
    case Usr => return;
    case Stop(_, _) => return;
    case Acc(_, _, _) => return;
    case Wk(_, _, _, _) => return;
    case Dis(_, _, _) => return;
    case Snd(_, _, _, _) => return;
    case Grp(_, _, _) => return;
    case Post(_, _, _, _, _) => return;
    case Recv(_, _, _, _, _) => return;
    case Acq(_, _, _, _) => return;
    case Rel(_, _, _, _) => return;
  }

  /** What a frame calls on an id, it calls on its caller's, on a sweep's, or on that of a session it holds. */
  lemma CalleeKnows(f: Frame, x: Slot, i: nat, c: Choice, exited: bool)
    requires FrameOk(f, x, exited) && Knows(f, x.hist) && NoGuess(x.hist) && !f.Usr?
    ensures var o := Local(f, x, i, c); o.ctl.Call? ==> Knows(o.ctl.callee, x.hist)
  {
    match f
    case Stop(_, _) => return;
    case Acc(_, _, _) => return;
    case Wk(_, _, _, _) => return;
    case Dis(_, _, _) => return;
    case Snd(_, _, _, _) => return;
    case Grp(_, _, _) => return;
    case Post(_, _, _, _, _) => return;
    case Recv(_, _, _, _, _) => return;
    case Acq(_, _, _, _) => return;
    case Rel(_, _, _, _) => return;
  }

  lemma NoGuessLogged(f: Frame, x: Slot, i: nat, c: Choice)
    requires Knows(f, x.hist) && NoGuess(x.hist)
    requires f.Acq? && f.qp.QGen? && f.sweep ==> Joined(x)
    ensures NoGuess(Local(f, x, i, c).x.hist)
  {
    match f
    case Usr => return;
    case Stop(_, _) => return;
    case Acc(_, _, _) => return;
    case Wk(_, _, _, _) => return;
    case Dis(_, _, _) => return;
    case Snd(_, _, _, _) => return;
    case Grp(_, _, _) => return;
    case Post(_, _, _, _, _) => return;
    case Recv(_, _, _, _, _) => return;
    case Acq(_, _, _, _) => return;
    case Rel(_, _, _, _) => return;
  }

  // ---------------------------------------------------------------- states of polite runs

  ghost predicate KnowsAt(s: State, f: Frame) {
    Knows(f, SlotOf(s, f).hist)
  }

  ghost predicate Trusting(s: State) {
    && (forall i :: 0 <= i < |s.slots| ==> NoGuess(s.slots[i].hist))
    && (forall t, k :: 0 <= t < |s.threads| && 0 <= k < |s.threads[t]| ==> KnowsAt(s, s.threads[t][k]))
  }

  /** Histories only grow, so a frame that knows its id keeps knowing it. */
  lemma KnowsLater(s: State, s': State, f: Frame, g: Frame)
    requires KnowsAt(s, f) && SameCall(f, g) && |s.slots| == |s'.slots|
    requires forall i :: 0 <= i < |s.slots| ==> s.slots[i].hist <= s'.slots[i].hist
    ensures KnowsAt(s', g)
  {
    if f.Dis? || f.Snd? || f.Grp? || f.Acq? {
      KnowsStill(f, g, SlotOf(s, f).hist, SlotOf(s', g).hist);
    }
  }

  lemma SelfCall(f: Frame)
    ensures SameCall(f, f)
  {
  }

  lemma ResumedCall(p: Frame, r: bool)
    ensures SameCall(p, Resume(p, r))
  {
    match p
    case Usr => return;
    case Stop(_, _) => return;
    case Acc(_, _, _) => return;
    case Wk(_, _, _, _) => return;
    case Dis(_, _, _) => return;
    case Snd(_, _, _, _) => return;
    case Grp(_, _, _) => return;
    case Post(_, _, _, _, _) => return;
    case Recv(_, _, _, _, _) => return;
    case Acq(_, _, _, _) => return;
    case Rel(_, _, _, _) => return;
  }

  /** A frame that joins the slots it is about. */
  lemma PlacedKnows(s: State, i: nat, f: Frame)
    requires i < |s.slots| && Near(f, i) && Knows(f, s.slots[i].hist)
    ensures KnowsAt(s, f)
  {
  }

  lemma MovingKnows(s: State, s': State, t: nat, i: nat, c: Choice, u: nat, k: nat)
    requires Moving(s, t, i, c) && SlotStep(s, s', t, i, Outcome(s, t, i, c)) && Trusting(s)
    requires forall j :: 0 <= j < |s.slots| ==> s.slots[j].hist <= s'.slots[j].hist
    requires u < |s'.threads| && k < |s'.threads[u]|
    ensures KnowsAt(s', s'.threads[u][k])
  {
    var stk, ctl := s.threads[t], Outcome(s, t, i, c).ctl;
    var f, g := Top(stk), s'.threads[u][k];
    MovingStack(s, t, i, c);
    if u == t {
      NextPlace(stk, ctl, k);
    }
    if u != t || k < (if ctl.Return? then |stk| - 2 else |stk| - 1) {
      SelfCall(g);
      KnowsLater(s, s', s.threads[u][k], g);
    } else if ctl.Return? {
      ResumedCall(stk[|stk| - 2], ctl.result);
      KnowsLater(s, s', stk[|stk| - 2], g);
    } else if ctl.Call? && g == ctl.callee {
      MovingActs(s, t, i, c);
      StepStaysNear(f, s.slots[i], i, c);
      TopKnows(s, t, i);
      CalleeKnows(f, s.slots[i], i, c, s.exited);
      SelfCall(g);
      KnowsStill(g, g, s.slots[i].hist, s'.slots[i].hist);
      PlacedKnows(s', i, g);
    } else {
      CallKept(f, s.slots[i], i, c);
      SelfCall(f);
      KnowsLater(s, s', f, g);
    }
  }

  /** The moving frame knows its id on the slot it works on. */
  lemma TopKnows(s: State, t: nat, i: nat)
    requires Trusting(s) && t < |s.threads| && s.threads[t] != [] && i < |s.slots| && ActsOn(Top(s.threads[t]), i)
    ensures Knows(Top(s.threads[t]), s.slots[i].hist)
  {
    assert KnowsAt(s, s.threads[t][|s.threads[t]| - 1]);
  }

  /** Once the accept thread has exited nobody is about to announce a session. */
  lemma NoAnnouncer(s: State, i: nat, g: nat)
    requires Inv(s) && s.exited
    ensures Total(s.threads, At(i, g)).preJoin == 0
  {
    if Total(s.threads, At(i, g)).preJoin > 0 {
      var u, k := SomeHolder(Weights(s.threads, At(i, g)), PreJoin);
      assert FrameFits(s, s.threads[u][k]);
      AnnouncerRuns(s.threads[u][k], i, g, SlotOf(s, s.threads[u][k]), s.exited);
    }
  }

  /** So when the sweep acquires a slot, the slot's session has been announced. */
  lemma SweptIsJoined(s: State, t: nat, i: nat, c: Choice)
    requires FullInv(s) && Moving(s, t, i, c)
    requires var f := Top(s.threads[t]); f.Acq? && f.qp.QGen? && f.sweep
    ensures Joined(s.slots[i])
  {
    var x := s.slots[i];
    MovingActs(s, t, i, c);
    HeldSlot(s, t, |s.threads[t]| - 1, i);
    NoAnnouncer(s, i, x.core.gen);
    assert Tells(x, Total(s.threads, At(i, x.core.gen)), x.core.gen);
  }

  lemma AnnouncerRuns(f: Frame, i: nat, probe: nat, x: Slot, exited: bool)
    requires V(f, At(i, probe)).preJoin > 0 && FrameOk(f, x, exited)
    ensures !exited
  {
    match f
    case Acc(_, _, _) => return;
    case _ => WeightStory(f, probe); return;
  }

  lemma SlotStepTrusts(s: State, t: nat, i: nat, c: Choice)
    requires FullInv(s) && Trusting(s) && Moving(s, t, i, c)
    ensures Trusting(RunStep(s, t, c))
  {
    var s', f, x := RunStep(s, t, c), Top(s.threads[t]), s.slots[i];
    MovingSteps(s, t, i, c);
    MovingActs(s, t, i, c);
    HistoryGrows(f, x, i, c);
    TopKnows(s, t, i);
    if f.Acq? && f.qp.QGen? && f.sweep {
      SweptIsJoined(s, t, i, c);
    }
    NoGuessLogged(f, x, i, c);
    forall u, k | 0 <= u < |s'.threads| && 0 <= k < |s'.threads[u]| ensures KnowsAt(s', s'.threads[u][k]) {
      MovingKnows(s, s', t, i, c, u, k);
    }
  }

  /** A step on no slot places no frame with an id, but for a polite call. */
  lemma RestKnows(s: State, t: nat, c: Choice, u: nat, k: nat)
    requires Resting(s, t, c) && Trusting(s) && PoliteStep(s, Run(t, c))
    requires var s' := RunStep(s, t, c); u < |s'.threads| && k < |s'.threads[u]|
    ensures KnowsAt(RunStep(s, t, c), RunStep(s, t, c).threads[u][k])
  {
    var s', f := RunStep(s, t, c), Top(s.threads[t]);
    var o := Global(s, f, c);
    RestingSteps(s, t, c);
    var g := s'.threads[u][k];
    if u != t || o.ctl.Stay? {
      SelfCall(g);
      KnowsLater(s, s', s.threads[u][k], g);
    } else if o.ctl.Call? && k == 1 {
      CalledKnows(s, c);
    } else {
      RootKnows(o.ctl.f, s');
    }
  }

  lemma RootKnows(f: Frame, s: State)
    requires Where(f).None?
    ensures KnowsAt(s, f)
  {
  }

  lemma CalledKnows(s: State, c: Choice)
    requires NamedId(c.api).Some? ==> AnnouncedId(s, NamedId(c.api).value)
    ensures var o := Global(s, Usr, c); o.ctl.Call? ==> KnowsAt(s, o.ctl.callee)
  {
    match c.api
    case NoCall => return;
    case CallDisconnect(_) => return;
    case CallSend(_, _) => return;
    case CallSetGroup(_, _) => return;
  }

  lemma KernelTrusts(s: State, i: nat, kind: IoKind, ok: bool, bytes: nat)
    requires Trusting(s)
    ensures Trusting(KernelStep(s, i, kind, ok, bytes))
  {
    var s' := KernelStep(s, i, kind, ok, bytes);
    forall t, k | 0 <= t < |s'.threads| && 0 <= k < |s'.threads[t]| ensures KnowsAt(s', s'.threads[t][k]) {
      SelfCall(s.threads[t][k]);
      KnowsLater(s, s', s.threads[t][k], s.threads[t][k]);
    }
  }

  lemma RestTrusts(s: State, t: nat, c: Choice)
    requires Resting(s, t, c) && Trusting(s) && PoliteStep(s, Run(t, c))
    ensures Trusting(RunStep(s, t, c))
  {
    var s' := RunStep(s, t, c);
    RestingSteps(s, t, c);
    forall u, k | 0 <= u < |s'.threads| && 0 <= k < |s'.threads[u]| ensures KnowsAt(s', s'.threads[u][k]) {
      RestKnows(s, t, c, u, k);
    }
  }

  lemma StepTrusts(s: State, l: Label)
    requires FullInv(s) && Trusting(s) && PoliteStep(s, l)
    ensures Trusting(Step(s, l))
  {
    match l {
      case Kernel(i, kind, ok, bytes) => KernelTrusts(s, i, kind, ok, bytes);
      case Run(t, c) =>
        if t < |s.threads| {
          var target := Target(s, Top(s.threads[t]), c);
          if target.Some? && target.value < |s.slots| {
            SlotStepTrusts(s, t, target.value, c);
          } else {
            RestTrusts(s, t, c);
          }
        }
    }
  }

  lemma InitTrusts(n: nat, others: seq<bool>)
    ensures Trusting(Init(n, others))
  {
    var s := Init(n, others);
    forall t, k | 0 <= t < |s.threads| && 0 <= k < |s.threads[t]| ensures KnowsAt(s, s.threads[t][k]) {
      assert s.threads[t][k].Acc? || s.threads[t][k].Stop? || s.threads[t][k].Wk? || s.threads[t][k].Usr?;
    }
  }

  lemma {:induction false} PoliteTrusts(n: nat, others: seq<bool>, run: seq<Label>)
    requires Polite(n, others, run)
    ensures Trusting(Exec(Init(n, others), run))
  {
    if run == [] {
      InitTrusts(n, others);
    } else {
      var before := run[..|run| - 1];
      PoliteTrusts(n, others, before);
      ReachableAll(n, others, before);
      StepTrusts(Exec(Init(n, others), before), run[|run| - 1]);
    }
  }

  // ---------------------------------------------------------------- theorems

  lemma PrefixAmong(h: seq<Event>, k: nat, e: Event)
    requires k < |h|
    ensures e == h[k] || e in h[..k + 1] ==> e in h
  {
  }

  lemma Unguessed(h: seq<Event>, k: nat)
    requires NoGuess(h) && k < |h|
    ensures !h[k].Guess? && Guess(GenOf(h[k])) !in h[..k + 1]
  {
    PrefixAmong(h, k, Guess(GenOf(h[k])));
  }

  /** In every run whose API calls each name an id whose on_client_join has begun, no session is acquired before it is
      announced, and every event of a session comes after its on_client_join. */
  lemma PoliteJoinFirst(n: nat, others: seq<bool>, run: seq<Label>, i: nat, k: nat)
    requires Polite(n, others, run)
    ensures var s := Exec(Init(n, others), run);
      i < |s.slots| && k < |s.slots[i].hist| ==>
        var h := s.slots[i].hist;
        !h[k].Guess? && Join(GenOf(h[k])) in h[..k + 1]
  {
    var s := Exec(Init(n, others), run);
    PoliteTrusts(n, others, run);
    if i < |s.slots| && k < |s.slots[i].hist| {
      var h := s.slots[i].hist;
      HistoryLawful(n, others, run, i, 0);
      Unguessed(h, k);
      JoinFirst(h, k);
    }
  }

  /** In every run at all, the only callback of a session that can precede its on_client_join is on_send, and that only
      after a caller acquired the id unannounced; on_recv never does. */
  lemma OnlySendsPrecede(n: nat, others: seq<bool>, run: seq<Label>, i: nat, k: nat)
    ensures var s := Exec(Init(n, others), run);
      i < |s.slots| && k < |s.slots[i].hist| ==>
        var h := s.slots[i].hist;
        var g := GenOf(h[k]);
        Join(g) !in h[..k + 1] ==>
          && (h[k].Guess? || h[k].SendBegin? || h[k].SendEnd?)
          && Guess(g) in h[..k + 1]
  {
    var s := Exec(Init(n, others), run);
    if i < |s.slots| && k < |s.slots[i].hist| {
      HistoryLawful(n, others, run, i, 0);
      OthersFollowJoin(s.slots[i].hist, k);
      if Guess(GenOf(s.slots[i].hist[k])) !in s.slots[i].hist[..k + 1] {
        JoinFirst(s.slots[i].hist, k);
      }
    }
  }
}
