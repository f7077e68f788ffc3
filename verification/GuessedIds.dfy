/**
 Why on_client_join begins first only for sessions whose id nobody uses before it is announced: ids are numbered
 predictably, and acquire_session accepts them from the moment the accept thread holds its reference.
 */
module GuessedIds {
  import opened Bytes
  import opened Sequences
  import opened EngineModel
  import opened Options
  import opened EngineTallies
  import opened EngineSlots
  import opened EngineTotals
  import opened EngineInvariant
  import opened EngineRuns

  /** One slot, one worker, one user thread. */
  const START := Init(1, [true, false])

  ghost predicate Reached(s: State) {
    exists run :: Exec(START, run) == s
  }

  lemma Next(s: State, l: Label)
    requires Reached(s)
    ensures Reached(Step(s, l))
  {
    var run :| Exec(START, run) == s;
    assert (run + [l])[..|run + [l]| - 1] == run;
    assert Exec(START, run + [l]) == Step(s, l);
  }

  /** The slot, the free stack, and the stacks of the accept thread, the worker and the user thread. */
  function World(x: Slot, free: seq<nat>, active: int, accept: Frame, worker: seq<Frame>, user: seq<Frame>): State {
    State([x], free, active, true, false, [[accept], [Stop(TRun, 0)], worker, user])
  }

  const GO := Choice(true, false, 0, SendKind, NoCall)
  const PACKET: Packet := [0]
  const ID := Id(0, 0)
  const IDLE := Wk(WIdle, 0, 0, NO_JOB)
  const JOINING := Acc(AJoin, 0, 0)

  /** The slot while the accept thread is about to announce its session. */
  function Slot0(refs: nat, flag: bool, io: Io, queue: Queue, hist: seq<Event>): Slot {
    Slot(Core(refs, 0, None, true, false, true), Flow(flag, false, Idle, io, false, false), queue, hist)
  }

  const EMPTY := Queue([], 0, [], 0, [], [])

  lemma AcceptSteps(x: Slot, free: seq<nat>, active: int, f: Frame, y: Slot, free': seq<nat>, active': int, g: Frame)
    requires f.Acc? && !f.ap.ACheck? && !f.ap.AExit? && (if f.ap.AWait? then free == [0] else f.i == 0)
    requires StepAcc(f, x, 0, GO).x == y && StepAcc(f, x, 0, GO).ctl == Goto(g)
    requires var s := World(x, free, active, f, [IDLE], [Usr]);
      Affect(s, 0, StepAcc(f, x, 0, GO).fx) == s.(free := free', active := active')
    ensures Step(World(x, free, active, f, [IDLE], [Usr]), Run(0, GO)) == World(y, free', active', g, [IDLE], [Usr])
  {
    var s := World(x, free, active, f, [IDLE], [Usr]);
    assert Target(s, f, GO) == Some(0);
    assert s.slots[0 := y] == [y];
    assert NextStack([f], Goto(g)) == [g];
    assert s.threads[0 := [g]] == [[g], [Stop(TRun, 0)], [IDLE], [Usr]];
  }

  lemma AcceptMoves(x: Slot, free: seq<nat>, active: int, f: Frame, y: Slot, free': seq<nat>, active': int, g: Frame)
    requires Reached(World(x, free, active, f, [IDLE], [Usr]))
    requires f.Acc? && !f.ap.ACheck? && !f.ap.AExit? && (if f.ap.AWait? then free == [0] else f.i == 0)
    requires StepAcc(f, x, 0, GO).x == y && StepAcc(f, x, 0, GO).ctl == Goto(g)
    requires var s := World(x, free, active, f, [IDLE], [Usr]);
      Affect(s, 0, StepAcc(f, x, 0, GO).fx) == s.(free := free', active := active')
    ensures Reached(World(y, free', active', g, [IDLE], [Usr]))
  {
    Next(World(x, free, active, f, [IDLE], [Usr]), Run(0, GO));
    AcceptSteps(x, free, active, f, y, free', active', g);
  }

  lemma StartIs()
    ensures START == World(EMPTY_SLOT, [0], 0, Acc(ACheck, 0, 0), [IDLE], [Usr])
  {
    assert START.slots == [EMPTY_SLOT];
    assert START.free == [0];
    assert START.threads == [[Acc(ACheck, 0, 0)], [Stop(TRun, 0)], [IDLE], [Usr]];
  }

  lemma AcceptChecks(s: State)
    requires s == World(EMPTY_SLOT, [0], 0, Acc(ACheck, 0, 0), [IDLE], [Usr])
    ensures Step(s, Run(0, GO)) == World(EMPTY_SLOT, [0], 0, Acc(AWait, 0, 0), [IDLE], [Usr])
  {
    var f, g := Acc(ACheck, 0, 0), Acc(AWait, 0, 0);
    assert NextStack([f], Goto(g)) == [g];
    assert s.threads[0 := [g]] == [[g], [Stop(TRun, 0)], [IDLE], [Usr]];
  }

  lemma AcceptWaits()
    ensures Reached(World(EMPTY_SLOT, [0], 0, Acc(AWait, 0, 0), [IDLE], [Usr]))
  {
    StartIs();
    AcceptChecks(START);
    assert Exec(START, []) == START;
    Next(START, Run(0, GO));
  }

  lemma AcceptHolds()
    ensures Reached(World(Slot0(1, false, Idle, EMPTY, []), [], 1, JOINING, [IDLE], [Usr]))
  {
    AcceptWaits();
    AcceptMoves(EMPTY_SLOT, [0], 0, Acc(AWait, 0, 0), EMPTY_SLOT, [], 0, Acc(AGot, 0, 0));
    AcceptMoves(EMPTY_SLOT, [], 0, Acc(AGot, 0, 0), Slot0(0, false, Idle, EMPTY, []), [], 1, Acc(ARef, 0, 0));
    AcceptMoves(Slot0(0, false, Idle, EMPTY, []), [], 1, Acc(ARef, 0, 0), Slot0(1, false, Idle, EMPTY, []), [], 1,
                JOINING);
  }

  /** The user thread runs its top frame. */
  lemma UserMoves(x: Slot, below: seq<Frame>, f: Frame, c: Choice, y: Slot, user: seq<Frame>)
    requires Reached(World(x, [], 1, JOINING, [IDLE], below + [f])) && Where(f) == Some(0)
    requires Local(f, x, 0, c).x == y && Local(f, x, 0, c).fx.Nothing?
    requires NextStack(below + [f], Local(f, x, 0, c).ctl) == user
    ensures Reached(World(y, [], 1, JOINING, [IDLE], user))
  {
    var s := World(x, [], 1, JOINING, [IDLE], below + [f]);
    Next(s, Run(3, c));
    assert s.slots[0 := y] == [y];
    assert s.threads[3 := user] == [[JOINING], [Stop(TRun, 0)], [IDLE], user];
    assert Step(s, Run(3, c)) == World(y, [], 1, JOINING, [IDLE], user);
  }

  lemma UserCalls(x: Slot)
    requires Reached(World(x, [], 1, JOINING, [IDLE], [Usr]))
    ensures Reached(World(x, [], 1, JOINING, [IDLE], [Usr] + [Snd(SAcq, ID, PACKET, 0)]))
  {
    var s, c := World(x, [], 1, JOINING, [IDLE], [Usr]), GO.(api := CallSend(ID, PACKET));
    Next(s, Run(3, c));
    var user := [Usr] + [Snd(SAcq, ID, PACKET, 0)];
    assert NextStack([Usr], Call(Usr, Snd(SAcq, ID, PACKET, 0))) == user;
    assert s.threads[3 := user] == [[JOINING], [Stop(TRun, 0)], [IDLE], user];
    assert Step(s, Run(3, c)) == World(x, [], 1, JOINING, [IDLE], user);
  }

  /** acquire_session(ID) from a frame p succeeds: the accept thread holds a reference, and the generation fits. */
  lemma UserAcquires(refs: nat, flag: bool, queue: Queue, hist: seq<Event>, below: seq<Frame>, p: Frame)
    requires Reached(World(Slot0(refs, flag, Idle, queue, hist), [], 1, JOINING, [IDLE],
                           below + [p] + [NewAcq(ID, false)]))
    requires refs > 0 && Join(0) !in hist
    ensures Reached(World(Slot0(refs + 1, flag, Idle, queue, hist + [Guess(0)]), [], 1, JOINING, [IDLE],
                          below + [Resume(p, true)]))
  {
    var x := Slot0(refs, flag, Idle, queue, hist);
    var y := Slot0(refs + 1, flag, Idle, queue, hist);
    var stk := below + [p];
    UserMoves(x, stk, NewAcq(ID, false), GO, x, stk + [Acq(QCas, ID, refs, false)]);
    UserMoves(x, stk, Acq(QCas, ID, refs, false), GO, y, stk + [Acq(QGen, ID, refs, false)]);
    UserMoves(y, stk, Acq(QGen, ID, refs, false), GO, Slot0(refs + 1, flag, Idle, queue, hist + [Guess(0)]),
              below + [Resume(p, true)]);
  }

  const COUNTED := Queue([], 1, [], 0, [], [])
  const QUEUED := Queue([PACKET], 1, [], 0, [PACKET], [])
  const FLYING := Queue([], 1, [PACKET], 0, [PACKET], [])

  function Sending(pc: SndPc): Frame { Snd(pc, ID, PACKET, 0) }
  function Posting(pc: PostPc, drained: nat): Frame { Post(pc, 0, 0, 0, drained) }

  lemma UserTakes()
    ensures Reached(World(Slot0(2, false, Idle, EMPTY, [Guess(0)]), [], 1, JOINING, [IDLE], [Usr] + [Sending(SLoad)]))
  {
    AcceptHolds();
    var x := Slot0(1, false, Idle, EMPTY, []);
    UserCalls(x);
    UserMoves(x, [Usr], Sending(SAcq), GO, x, [Usr] + [Sending(SInAcq)] + [NewAcq(ID, false)]);
    UserAcquires(1, false, EMPTY, [], [Usr], Sending(SInAcq));
    assert [] + [Guess(0)] == [Guess(0)];
  }

  lemma UserEnqueues()
    ensures Reached(World(Slot0(2, false, Idle, QUEUED, [Guess(0)]), [], 1, JOINING, [IDLE], [Usr] + [Sending(SPost)]))
  {
    UserTakes();
    var y, z := Slot0(2, false, Idle, EMPTY, [Guess(0)]), Slot0(2, false, Idle, COUNTED, [Guess(0)]);
    UserMoves(y, [Usr], Sending(SLoad), GO, y, [Usr] + [Sending(SCas)]);
    UserMoves(y, [Usr], Sending(SCas), GO, z, [Usr] + [Sending(SEnq)]);
    assert [] + [PACKET] == [PACKET];
    UserMoves(z, [Usr], Sending(SEnq), GO, Slot0(2, false, Idle, QUEUED, [Guess(0)]), [Usr] + [Sending(SPost)]);
  }

  lemma UserTakesFlag()
    ensures Reached(World(Slot0(2, true, Idle, QUEUED, [Guess(0)]), [], 1, JOINING, [IDLE],
                          [Usr, Sending(SInPost)] + [Posting(PDrain, 0)]))
  {
    UserEnqueues();
    var below := [Usr, Sending(SInPost)];
    var x, y := Slot0(2, false, Idle, QUEUED, [Guess(0)]), Slot0(2, true, Idle, QUEUED, [Guess(0)]);
    UserMoves(x, [Usr], Sending(SPost), GO, x, below + [Posting(PFlagX, 0)]);
    UserMoves(x, below, Posting(PFlagX, 0), GO, y, below + [Posting(PId, 0)]);
    UserMoves(y, below, Posting(PId, 0), GO, y, below + [Posting(PTop, 0)]);
    UserMoves(y, below, Posting(PTop, 0), GO, y, below + [Posting(PDrain, 0)]);
  }

  lemma UserDrains()
    ensures Reached(World(Slot0(2, true, Idle, FLYING, [Guess(0)]), [], 1, JOINING, [IDLE],
                          [Usr, Sending(SInPost)] + [Posting(PInAcq, 1)] + [NewAcq(ID, false)]))
  {
    UserTakesFlag();
    var below := [Usr, Sending(SInPost)];
    var y, z := Slot0(2, true, Idle, QUEUED, [Guess(0)]), Slot0(2, true, Idle, FLYING, [Guess(0)]);
    UserMoves(y, below, Posting(PDrain, 0), GO, z, below + [Posting(PDrain, 1)]);
    UserMoves(z, below, Posting(PDrain, 1), GO, z, below + [Posting(PChk, 1)]);
    UserMoves(z, below, Posting(PChk, 1), GO, z, below + [Posting(PInAcq, 1)] + [NewAcq(ID, false)]);
  }

  const USER: seq<Frame> := [Usr, Sending(SInPost)] + [Posting(PPosted, 1)]
  const HISTORY: seq<Event> := [Guess(0)] + [Guess(0)]

  lemma UserHolds()
    ensures Reached(World(Slot0(3, true, Idle, FLYING, HISTORY), [], 1, JOINING, [IDLE],
                          [Usr, Sending(SInPost)] + [Posting(PIo, 1)]))
  {
    UserDrains();
    UserAcquires(2, true, FLYING, [Guess(0)], [Usr, Sending(SInPost)], Posting(PInAcq, 1));
  }

  lemma UserPosts()
    ensures Reached(World(Slot0(3, true, Posted(false), FLYING, HISTORY), [], 1, JOINING, [IDLE], USER))
  {
    UserHolds();
    UserMoves(Slot0(3, true, Idle, FLYING, HISTORY), [Usr, Sending(SInPost)], Posting(PIo, 1), GO,
              Slot0(3, true, Posted(false), FLYING, HISTORY), USER);
  }

  // ---------------------------------------------------------------- any guessed send

  /** Some continuation of a run leads from one state to the other. */
  ghost predicate Leads(s: State, u: State) {
    exists more :: Exec(s, more) == u
  }

  lemma LeadsOn(s: State, u: State, l: Label)
    requires Leads(s, u)
    ensures Leads(s, Step(u, l))
  {
    var more :| Exec(s, more) == u;
    assert (more + [l])[..|more + [l]| - 1] == more;
    assert Exec(s, more + [l]) == Step(u, l);
  }

  /** The state with another slot i and another stack of thread t. */
  function With(s: State, t: nat, i: nat, x: Slot, stk: seq<Frame>): State
    requires t < |s.threads| && i < |s.slots|
  {
    s.(slots := s.slots[i := x], threads := s.threads[t := stk])
  }

  /** Thread t runs its top frame on slot i. */
  lemma Moves(s: State, t: nat, i: nat, x: Slot, below: seq<Frame>, f: Frame, y: Slot, stk: seq<Frame>)
    requires t < |s.threads| && i < |s.slots| && Leads(s, With(s, t, i, x, below + [f]))
    requires var c := GO.(n := i);
      && (Where(f) == Some(i) || (f.Wk? && f.wp.WIdle?))
      && Local(f, x, i, c).x == y && Local(f, x, i, c).fx.Nothing?
      && NextStack(below + [f], Local(f, x, i, c).ctl) == stk
    ensures Leads(s, With(s, t, i, y, stk))
  {
    var u, c := With(s, t, i, x, below + [f]), GO.(n := i);
    LeadsOn(s, u, Run(t, c));
    assert u.slots[i := y] == s.slots[i := y];
    assert u.threads[t := stk] == s.threads[t := stk];
    assert Step(u, Run(t, c)) == With(s, t, i, y, stk);
  }

  /** A live session whose generation has not been announced. */
  predicate Unannounced(x: Slot, g: nat) {
    x.core.gen == g && x.core.refs > 0 && Join(g) !in x.hist
  }

  ghost predicate Comes(s: State, t: nat, i: nat, g: nat, stk: seq<Frame>)
    requires t < |s.threads| && i < |s.slots|
  {
    exists y :: Unannounced(y, g) && Leads(s, With(s, t, i, y, stk))
  }

  function Sent(pc: WkPc, i: nat, g: nat, bytes: nat): Frame { Wk(pc, i, g, Job(SendKind, true, bytes, 0, false)) }

  /** The nested acquire of send_post. */
  lemma WorkerAcquires(s: State, t: nat, i: nat, g: nat, below: seq<Frame>, p: Frame, x: Slot)
    requires t < |s.threads| && i < |s.slots| && Unannounced(x, g) && p.Post? && p.pp.PInAcq?
    requires Leads(s, With(s, t, i, x, below + [p] + [NewAcq(Id(i, g), false)]))
    ensures exists y :: Unannounced(y, g) && y.flow == x.flow
                        && Leads(s, With(s, t, i, y, below + [p.(pp := PIo)]))
  {
    var id, stk := Id(i, g), below + [p];
    var y := x.(core := x.core.(refs := x.core.refs + 1));
    var z := if Joined(y) then y else Log(y, Guess(g));
    Moves(s, t, i, x, stk, Acq(QLoad, id, 0, false), x, stk + [Acq(QCas, id, x.core.refs, false)]);
    Moves(s, t, i, x, stk, Acq(QCas, id, x.core.refs, false), y, stk + [Acq(QGen, id, x.core.refs, false)]);
    Moves(s, t, i, y, stk, Acq(QGen, id, x.core.refs, false), z, below + [p.(pp := PIo)]);
    assert Unannounced(z, g);
  }

  /** send_post from the flag check on: on a flagged session. */
  lemma WorkerDrops(s: State, t: nat, i: nat, g: nat, below: seq<Frame>, x: Slot, d: nat)
    requires t < |s.threads| && i < |s.slots| && Unannounced(x, g) && x.flow.discFlag
    requires Leads(s, With(s, t, i, x, below + [Sent(WInPost, i, g, 0)] + [Post(PChk, i, g, g, d)]))
    ensures Comes(s, t, i, g, below + [Sent(WSent, i, g, 0)])
  {
    var base, p := below + [Sent(WInPost, i, g, 0)], Post(PChk, i, g, g, d);
    var y := x.(flow := x.flow.(sendFlag := false));
    Moves(s, t, i, x, base, p, x, base + [p.(pp := PDrop)]);
    Moves(s, t, i, x, base, p.(pp := PDrop), y, below + [Sent(WSent, i, g, 0)]);
    assert Unannounced(y, g);
  }

  /** On any other, where WSASend succeeds. */
  lemma WorkerSends(s: State, t: nat, i: nat, g: nat, below: seq<Frame>, x: Slot, d: nat)
    requires t < |s.threads| && i < |s.slots| && Unannounced(x, g) && !x.flow.discFlag
    requires Leads(s, With(s, t, i, x, below + [Sent(WInPost, i, g, 0)] + [Post(PIo, i, g, g, d)]))
    ensures Comes(s, t, i, g, below + [Sent(WSent, i, g, 0)])
  {
    var base, p := below + [Sent(WInPost, i, g, 0)], Post(PIo, i, g, g, d);
    var y := x.(flow := x.flow.(sendIo := Posted(false), failed := false));
    Moves(s, t, i, x, base, p, y, base + [p.(pp := PPosted)]);
    Moves(s, t, i, y, base, p.(pp := PPosted), y, below + [Sent(WSent, i, g, 0)]);
    assert Unannounced(y, g);
  }

  lemma WorkerChecks(s: State, t: nat, i: nat, g: nat, below: seq<Frame>, x: Slot, d: nat)
    requires t < |s.threads| && i < |s.slots| && Unannounced(x, g)
    requires Leads(s, With(s, t, i, x, below + [Sent(WInPost, i, g, 0)] + [Post(PChk, i, g, g, d)]))
    ensures Comes(s, t, i, g, below + [Sent(WSent, i, g, 0)])
  {
    if x.flow.discFlag {
      WorkerDrops(s, t, i, g, below, x, d);
    } else {
      var base, p := below + [Sent(WInPost, i, g, 0)], Post(PChk, i, g, g, d);
      Moves(s, t, i, x, base, p, x, base + [p.(pp := PInAcq)] + [NewAcq(Id(i, g), false)]);
      WorkerAcquires(s, t, i, g, base, p.(pp := PInAcq), x);
      var y :| Unannounced(y, g) && y.flow == x.flow && Leads(s, With(s, t, i, y, base + [Post(PIo, i, g, g, d)]));
      WorkerSends(s, t, i, g, below, y, d);
    }
  }

  /** send_post with an empty batch and nothing pending. */
  lemma WorkerFindsNone(s: State, t: nat, i: nat, g: nat, below: seq<Frame>, x: Slot, d: nat)
    requires t < |s.threads| && i < |s.slots| && Unannounced(x, g) && x.queue.pending == []
    requires Leads(s, With(s, t, i, x, below + [Sent(WInPost, i, g, 0)] + [Post(PClear, i, g, g, d)]))
    ensures Comes(s, t, i, g, below + [Sent(WSent, i, g, 0)])
  {
    var base, p := below + [Sent(WInPost, i, g, 0)], Post(PClear, i, g, g, d);
    var y := x.(flow := x.flow.(sendFlag := false));
    Moves(s, t, i, x, base, p, y, base + [p.(pp := PEmpty)]);
    Moves(s, t, i, y, base, p.(pp := PEmpty), y, below + [Sent(WSent, i, g, 0)]);
    assert Unannounced(y, g);
  }

  /** send_post while it drains the pending packets. */
  lemma {:induction false} WorkerDrains(s: State, t: nat, i: nat, g: nat, below: seq<Frame>, x: Slot, d: nat)
    requires t < |s.threads| && i < |s.slots| && Unannounced(x, g) && (d > 0 ==> x.queue.inFlight != [])
    requires Leads(s, With(s, t, i, x, below + [Sent(WInPost, i, g, 0)] + [Post(PDrain, i, g, g, d)]))
    ensures Comes(s, t, i, g, below + [Sent(WSent, i, g, 0)])
    decreases |x.queue.pending|
  {
    if d < SEND_BATCH_SIZE && x.queue.pending != [] {
      var y := WorkerDrainsOne(s, t, i, g, below, x, d);
      WorkerDrains(s, t, i, g, below, y, d + 1);
    } else {
      var y := WorkerDrained(s, t, i, g, below, x, d);
      if x.queue.inFlight != [] {
        WorkerChecks(s, t, i, g, below, y, d);
      } else {
        WorkerFindsNone(s, t, i, g, below, y, d);
      }
    }
  }

  lemma WorkerDrainsOne(s: State, t: nat, i: nat, g: nat, below: seq<Frame>, x: Slot, d: nat) returns (y: Slot)
    requires t < |s.threads| && i < |s.slots| && Unannounced(x, g) && d < SEND_BATCH_SIZE && x.queue.pending != []
    requires Leads(s, With(s, t, i, x, below + [Sent(WInPost, i, g, 0)] + [Post(PDrain, i, g, g, d)]))
    ensures Unannounced(y, g) && y.queue.inFlight != [] && |y.queue.pending| == |x.queue.pending| - 1
    ensures Leads(s, With(s, t, i, y, below + [Sent(WInPost, i, g, 0)] + [Post(PDrain, i, g, g, d + 1)]))
  {
    var base, p := below + [Sent(WInPost, i, g, 0)], Post(PDrain, i, g, g, d);
    y := StepPost(p, x, GO.(n := i)).x;
    Moves(s, t, i, x, base, p, y, base + [Post(PDrain, i, g, g, d + 1)]);
  }

  lemma WorkerDrained(s: State, t: nat, i: nat, g: nat, below: seq<Frame>, x: Slot, d: nat) returns (y: Slot)
    requires t < |s.threads| && i < |s.slots| && Unannounced(x, g) && (d >= SEND_BATCH_SIZE || x.queue.pending == [])
    requires Leads(s, With(s, t, i, x, below + [Sent(WInPost, i, g, 0)] + [Post(PDrain, i, g, g, d)]))
    ensures Unannounced(y, g) && y.queue.inFlight == x.queue.inFlight && y.queue.pending == x.queue.pending
    ensures Leads(s, With(s, t, i, y, below + [Sent(WInPost, i, g, 0)]
                          + [Post(if x.queue.inFlight == [] then PClear else PChk, i, g, g, d)]))
  {
    var base, p := below + [Sent(WInPost, i, g, 0)], Post(PDrain, i, g, g, d);
    y := x.(queue := x.queue.(offset := 0));
    Moves(s, t, i, x, base, p, y, base + [Post(if x.queue.inFlight == [] then PClear else PChk, i, g, g, d)]);
  }

  /** The send_post of a worker whose completion has been consumed comes back, whatever it finds. */
  lemma WorkerReposts(s: State, t: nat, i: nat, g: nat, below: seq<Frame>, x: Slot)
    requires t < |s.threads| && i < |s.slots| && Unannounced(x, g)
    requires Leads(s, With(s, t, i, x, below + [Sent(WSend, i, g, 0)]))
    ensures Comes(s, t, i, g, below + [Sent(WSent, i, g, 0)])
  {
    var base, p := below + [Sent(WInPost, i, g, 0)], Post(PFlagX, i, 0, g, 0);
    var y := x.(flow := x.flow.(sendFlag := false));
    var z := x.(flow := x.flow.(sendFlag := true));
    Moves(s, t, i, x, below, Sent(WSend, i, g, 0), y, below + [Sent(WPost, i, g, 0)]);
    Moves(s, t, i, y, below, Sent(WPost, i, g, 0), y, base + [p]);
    Moves(s, t, i, y, base, p, z, base + [p.(pp := PId)]);
    Moves(s, t, i, z, base, p.(pp := PId), z, base + [Post(PTop, i, g, g, 0)]);
    if x.queue.inFlight == [] {
      Moves(s, t, i, z, base, Post(PTop, i, g, g, 0), z, base + [Post(PDrain, i, g, g, 0)]);
      WorkerDrains(s, t, i, g, below, z, 0);
    } else {
      Moves(s, t, i, z, base, Post(PTop, i, g, g, 0), z, base + [Post(PChk, i, g, g, 0)]);
      WorkerChecks(s, t, i, g, below, z, 0);
    }
  }

  /** The socket takes one byte. */
  lemma KernelTakesOne(s: State, t: nat, i: nat)
    requires t < |s.threads| && i < |s.slots| && s.slots[i].flow.sendIo.Posted? && Unsent(s.slots[i]) != []
    ensures var x := s.slots[i];
      Leads(s, With(s, t, i, x.(flow := x.flow.(sendIo := Done(true, 1)),
                                queue := x.queue.(wire := x.queue.wire + Unsent(x)[..1])), s.threads[t]))
  {
    assert Exec(s, []) == s;
    LeadsOn(s, s, Kernel(i, SendKind, true, 1));
    assert s.threads[t := s.threads[t]] == s.threads;
  }

  /** A worker picks the completion of one byte up and consumes it. */
  lemma WorkerConsumes(s: State, t: nat, i: nat, g: nat, below: seq<Frame>, idle: Frame, x: Slot)
    requires t < |s.threads| && i < |s.slots| && Unannounced(x, g) && idle.Wk? && idle.wp.WIdle?
    requires x.flow.sendIo == Done(true, 1) && x.queue.inFlight != [] && x.queue.offset < |x.queue.inFlight[0]|
    requires Leads(s, With(s, t, i, x, below + [idle]))
    ensures exists y :: Unannounced(y, g) && Leads(s, With(s, t, i, y, below + [Sent(WSend, i, g, 0)]))
  {
    var y := x.(flow := x.flow.(sendIo := Idle));
    Moves(s, t, i, x, below, idle, y, below + [Sent(WGot, i, 0, 1)]);
    Moves(s, t, i, y, below, Sent(WGot, i, 0, 1), y, below + [Sent(WDisp, i, g, 1)]);
    Moves(s, t, i, y, below, Sent(WDisp, i, g, 1), y, below + [Sent(WSend, i, g, 1)]);
    var z := StepWk(Sent(WSend, i, g, 1), y, i, GO.(n := i)).x;
    Moves(s, t, i, y, below, Sent(WSend, i, g, 1), z, below + [Sent(WSend, i, g, 0)]);
    assert Unannounced(z, g);
  }

  lemma PostedHasBytes(s: State, i: nat)
    requires FullInv(s) && i < |s.slots| && s.slots[i].flow.sendIo.Posted?
    ensures var x := s.slots[i];
      x.core.refs > 0 && x.queue.inFlight != [] && x.queue.offset < |x.queue.inFlight[0]| && Unsent(x) != []
  {
    var x := s.slots[i];
    assert Accounted(x, multiset(s.free)[i], Total(s.threads, At(i, 0)));
    assert Tells(x, Total(s.threads, At(i, 0)), 0);
    assert Concat(x.queue.inFlight) == x.queue.inFlight[0] + Concat(x.queue.inFlight[1..]);
  }

  /** on_send of generation g has begun on slot i, and its on_client_join has not. */
  predicate SendsFirst(s: State, i: nat, g: nat) {
    i < |s.slots| && SendBegin(g) in s.slots[i].hist && Join(g) !in s.slots[i].hist
  }

  lemma ShowsFirst(s: State, t: nat, i: nat, y: Slot, g: nat, stk: seq<Frame>)
    requires t < |s.threads| && i < |s.slots| && Unannounced(y, g)
    ensures SendsFirst(With(s, t, i, Log(y, SendBegin(g)), stk), i, g)
  {
    assert Log(y, SendBegin(g)).hist[|y.hist|] == SendBegin(g);
  }

  lemma WorkerTells(s: State, t: nat, i: nat, g: nat, below: seq<Frame>, y: Slot)
    requires t < |s.threads| && i < |s.slots| && Unannounced(y, g)
    requires Leads(s, With(s, t, i, y, below + [Sent(WSent, i, g, 0)]))
    ensures Leads(s, With(s, t, i, Log(y, SendBegin(g)), below + [Sent(WInSent, i, g, 0)]))
  {
    Moves(s, t, i, y, below, Sent(WSent, i, g, 0), Log(y, SendBegin(g)), below + [Sent(WInSent, i, g, 0)]);
  }

  lemma LedSends(s: State, u: State, i: nat, g: nat)
    requires Leads(s, u) && SendsFirst(u, i, g)
    ensures exists more :: SendsFirst(Exec(s, more), i, g)
  {
    var more :| Exec(s, more) == u;
    assert SendsFirst(Exec(s, more), i, g);
  }

  /** A worker that has taken an idle send's completion tells on_send, whatever its send_post finds. */
  lemma WorkerEnds(s: State, t: nat, i: nat, g: nat, below: seq<Frame>)
    requires t < |s.threads| && i < |s.slots| && Comes(s, t, i, g, below + [Sent(WSent, i, g, 0)])
    ensures exists more :: SendsFirst(Exec(s, more), i, g)
  {
    var z :| Unannounced(z, g) && Leads(s, With(s, t, i, z, below + [Sent(WSent, i, g, 0)]));
    WorkerTells(s, t, i, g, below, z);
    ShowsFirst(s, t, i, z, g, below + [Sent(WInSent, i, g, 0)]);
    LedSends(s, With(s, t, i, Log(z, SendBegin(g)), below + [Sent(WInSent, i, g, 0)]), i, g);
  }

  /** The socket takes a byte of an outstanding send, and an idle worker handles that completion up to send_post. */
  lemma WorkerTakes(s: State, t: nat, i: nat, g: nat, below: seq<Frame>, idle: Frame)
    requires FullInv(s) && t < |s.threads| && i < |s.slots| && s.threads[t] == below + [idle]
    requires idle.Wk? && idle.wp.WIdle? && s.slots[i].flow.sendIo.Posted? && Unannounced(s.slots[i], g)
    ensures Comes(s, t, i, g, below + [Sent(WSend, i, g, 0)])
  {
    var x := s.slots[i];
    PostedHasBytes(s, i);
    KernelTakesOne(s, t, i);
    WorkerConsumes(s, t, i, g, below, idle, x.(flow := x.flow.(sendIo := Done(true, 1)),
                                               queue := x.queue.(wire := x.queue.wire + Unsent(x)[..1])));
  }

  lemma WorkerAnswers(s: State, t: nat, i: nat, g: nat, below: seq<Frame>)
    requires t < |s.threads| && i < |s.slots| && Comes(s, t, i, g, below + [Sent(WSend, i, g, 0)])
    ensures exists more :: SendsFirst(Exec(s, more), i, g)
  {
    var y :| Unannounced(y, g) && Leads(s, With(s, t, i, y, below + [Sent(WSend, i, g, 0)]));
    WorkerReposts(s, t, i, g, below, y);
    WorkerEnds(s, t, i, g, below);
  }

  /** A send is outstanding on slot i, whose session has not been announced, and thread t is an idle worker. */
  ghost predicate GuessedSend(s: State, i: nat, t: nat) {
    && i < |s.slots| && s.slots[i].flow.sendIo.Posted? && !Joined(s.slots[i])
    && t < |s.threads| && s.threads[t] != [] && Top(s.threads[t]).Wk? && Top(s.threads[t]).wp.WIdle?
  }

  /** Some continuation has on_send of this generation begin first. */
  ghost predicate CanSendFirst(s: State, i: nat, g: nat) {
    exists more :: SendsFirst(Exec(s, more), i, g)
  }

  lemma GuessedSendLeads(s: State, i: nat, t: nat)
    requires FullInv(s) && GuessedSend(s, i, t)
    ensures CanSendFirst(s, i, s.slots[i].core.gen)
  {
    var g, below, idle := s.slots[i].core.gen, Below(s.threads[t]), Top(s.threads[t]);
    PostedHasBytes(s, i);
    assert below + [idle] == s.threads[t];
    WorkerTakes(s, t, i, g, below, idle);
    WorkerAnswers(s, t, i, g, below);
  }

  /** From every state of every run in which a send is outstanding on a session that has not been announced, and some
      worker is idle, on_send can begin before on_client_join. */
  lemma GuessedSendCanComeFirst(n: nat, others: seq<bool>, run: seq<Label>, i: nat, t: nat)
    requires GuessedSend(Exec(Init(n, others), run), i, t)
    ensures var s := Exec(Init(n, others), run); CanSendFirst(s, i, s.slots[i].core.gen)
  {
    ReachableAll(n, others, run);
    GuessedSendLeads(Exec(Init(n, others), run), i, t);
  }

  lemma ExecSnoc(s: State, run: seq<Label>, l: Label)
    ensures Exec(s, run + [l]) == Step(Exec(s, run), l)
  {
    assert (run + [l])[..|run|] == run;
  }

  lemma {:induction false} RunOn(s: State, run: seq<Label>, more: seq<Label>)
    ensures Exec(Exec(s, run), more) == Exec(s, run + more)
  {
    if more == [] {
      assert run + more == run;
    } else {
      var front, l := more[..|more| - 1], more[|more| - 1];
      RunOn(s, run, front);
      ExecSnoc(Exec(s, run), front, l);
      ExecSnoc(s, run + front, l);
      assert front + [l] == more && run + front + [l] == run + more;
    }
  }

  /** There are such states: a user thread sends on the session that the accept thread is about to announce. */
  lemma SendBeforeJoin()
    ensures exists run :: SendsFirst(Exec(START, run), 0, 0)
  {
    UserPosts();
    var s := World(Slot0(3, true, Posted(false), FLYING, HISTORY), [], 1, JOINING, [IDLE], USER);
    var run :| Exec(START, run) == s;
    assert GuessedSend(s, 0, 2);
    GuessedSendCanComeFirst(1, [true, false], run, 0, 2);
    var more :| SendsFirst(Exec(s, more), 0, 0);
    RunOn(START, run, more);
  }
}
