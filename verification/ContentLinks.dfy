/**
 The login server's listener for content servers (content_link.cpp): the registration table, and why no registration
 outlives its connection.
 */
module ContentLinks {
  import opened CStrings
  import opened EngineModel
  import opened Options
  import opened EngineSlots
  import opened EngineStory
  import opened EngineTheorems
  import opened EngineTotals

  datatype ServerInfo = ServerInfo(name: string, ip: string, port: nat)

  const FIELD_SIZE: nat := 16

  /** A packet by its type field; short says that the payload ends before the three fields of a registration. */
  datatype Request =
    | NoType
    | SsRegister(short: bool, name: string, ip: string, port: nat)
    | UnknownType

  /** The text of a received field: its last character is overwritten by the terminator. */
  function Terminated(field: string): string
    requires |field| == FIELD_SIZE
  {
    Text(field[FIELD_SIZE - 1 := NUL])
  }

  /** The stored text fits the field with its terminator, and is what the sender's field says up to there. */
  lemma TerminatedFits(field: string)
    requires |field| == FIELD_SIZE
    ensures |Terminated(field)| < FIELD_SIZE && Terminated(field) == field[..|Terminated(field)|]
  {
    TextEndsBefore(field[FIELD_SIZE - 1 := NUL], FIELD_SIZE - 1);
  }

  function Registered(request: Request): ServerInfo
    requires request.SsRegister? && |request.name| == |request.ip| == FIELD_SIZE
  {
    ServerInfo(Terminated(request.name), Terminated(request.ip), request.port)
  }

  // -------------------------------------------------------------- the table

  class ContentLink {
    var servers: map<Id, ServerInfo>
    var kicked: seq<Id>

    constructor ()
      ensures servers == map[] && kicked == []
    {
      servers, kicked := map[], [];
    }

    /** Only a complete registration changes the table; everything else disconnects its sender. */
    method OnRecv(id: Id, request: Request) returns (duplicate: Option<ServerInfo>)
      requires request.SsRegister? && !request.short ==> |request.name| == |request.ip| == FIELD_SIZE
      modifies this
      ensures var ok := request.SsRegister? && !request.short;
        && servers == (if ok then old(servers)[id := Registered(request)] else old(servers))
        && kicked == (if ok then old(kicked) else old(kicked) + [id])
        && (duplicate.Some? ==> ok)
    {
      duplicate := None;
      match request {
        case NoType => kicked := kicked + [id];
        case SsRegister(short, name, ip, port) =>
          if short {
            kicked := kicked + [id];
          } else {
            duplicate := HandleSsRegister(id, name, ip, port);
          }
        case UnknownType => kicked := kicked + [id];
      }
    }

    /** A later registration of the same connection replaces the earlier one; one of another connection under the
        same name is only reported. */
    method HandleSsRegister(id: Id, name: string, ip: string, port: nat) returns (duplicate: Option<ServerInfo>)
      requires |name| == FIELD_SIZE && |ip| == FIELD_SIZE
      modifies this`servers
      ensures servers == old(servers)[id := ServerInfo(Terminated(name), Terminated(ip), port)]
      ensures duplicate.None? <==>
        forall other :: other in old(servers) ==> old(servers)[other].name != Terminated(name)
      ensures duplicate.Some? ==>
        && duplicate.value.name == Terminated(name)
        && exists other :: other in old(servers) && old(servers)[other] == duplicate.value
    {
      var info := ServerInfo(Terminated(name), Terminated(ip), port);
      duplicate := None;
      var ids := servers.Keys;
      while ids != {} && duplicate.None?
        invariant ids <= servers.Keys && servers == old(servers)
        invariant duplicate.None? ==>
          forall other :: other in servers && other !in ids ==> servers[other].name != info.name
        invariant duplicate.Some? ==>
          duplicate.value.name == info.name && exists other :: other in servers && servers[other] == duplicate.value
        decreases ids
      {
        var other :| other in ids;
        if servers[other].name == info.name {
          duplicate := Some(servers[other]);
        }
        ids := ids - {other};
      }
      servers := servers[id := info];
    }

    method OnClientLeave(id: Id)
      modifies this`servers
      ensures servers == old(servers) - {id}
    {
      servers := servers - {id};
    }

    /** Every registration once, in no particular order. */
    method GetServers() returns (result: seq<ServerInfo>, ghost ids: seq<Id>)
      ensures |ids| == |result| && (forall i, j :: 0 <= i < j < |ids| ==> ids[i] != ids[j])
      ensures forall id :: id in ids <==> id in servers
      ensures forall k :: 0 <= k < |ids| ==> ids[k] in servers && result[k] == servers[ids[k]]
      ensures forall id :: id in servers ==> servers[id] in result
      ensures forall info :: info in result ==> info in servers.Values
    {
      result, ids := [], [];
      var todo := servers.Keys;
      while todo != {}
        invariant todo <= servers.Keys && |ids| == |result|
        invariant forall i, j :: 0 <= i < j < |ids| ==> ids[i] != ids[j]
        invariant forall id :: id in ids <==> id in servers && id !in todo
        invariant forall k :: 0 <= k < |ids| ==> ids[k] in servers && result[k] == servers[ids[k]]
        decreases todo
      {
        var id :| id in todo;
        assert id !in ids;
        result, ids := result + [servers[id]], ids + [id];
        todo := todo - {id};
      }
      forall id | id in servers ensures servers[id] in result {
        var k :| 0 <= k < |ids| && ids[k] == id;
        assert result[k] == servers[id];
      }
    }
  }

  /** The first entry of that name. */
  method Find(servers: seq<ServerInfo>, name: string) returns (found: Option<ServerInfo>)
    ensures found.None? <==> forall k :: 0 <= k < |servers| ==> servers[k].name != name
    ensures found.Some? ==> exists k :: 0 <= k < |servers| && servers[k] == found.value && found.value.name == name
                                     && forall j :: 0 <= j < k ==> servers[j].name != name
  {
    for k := 0 to |servers|
      invariant forall j :: 0 <= j < k ==> servers[j].name != name
    {
      if servers[k].name == name {
        return Some(servers[k]);
      }
    }
    return None;
  }

  // -------------------------------------------------------------- the table beside the engine

  /** The engine's steps, and those of on_recv on one of its threads that get through to insert_or_assign. */
  datatype LinkLabel = Engine(l: Label) | Register(t: nat, info: ServerInfo)

  datatype Link = Link(engine: State, servers: map<Id, ServerInfo>)

  predicate OnTop(s: State, t: nat) {
    t < |s.threads| && s.threads[t] != []
  }

  /** The connection whose on_client_leave returns with this step, having erased its registration. */
  function Left(s: State, l: Label): Option<Id> {
    if l.Run? && OnTop(s, l.t) then
      var f := Top(s.threads[l.t]);
      if f.Rel? && f.lp.LInCb? then Some(Id(f.i, f.g)) else None
    else None
  }

  function LinkStep(s: Link, l: LinkLabel): Link {
    match l
    case Engine(e) =>
      var left := Left(s.engine, e);
      Link(Step(s.engine, e), if left.Some? then s.servers - {left.value} else s.servers)
    case Register(t, info) =>
      if OnTop(s.engine, t) then
        var f := Top(s.engine.threads[t]);
        if f.Wk? && f.wp.WInCb? then s.(servers := s.servers[Id(f.i, f.g) := info]) else s
      else s
  }

  function LinkExec(n: nat, others: seq<bool>, run: seq<LinkLabel>): Link {
    if run == [] then Link(Init(n, others), map[]) else LinkStep(LinkExec(n, others, run[..|run| - 1]), run[|run| - 1])
  }

  function EngineRun(run: seq<LinkLabel>): seq<Label> {
    if run == [] then []
    else
      var last := run[|run| - 1];
      EngineRun(run[..|run| - 1]) + (if last.Engine? then [last.l] else [])
  }

  lemma {:induction false} EngineRuns(n: nat, others: seq<bool>, run: seq<LinkLabel>)
    ensures LinkExec(n, others, run).engine == Exec(Init(n, others), EngineRun(run))
  {
    if run != [] {
      var before, last := run[..|run| - 1], run[|run| - 1];
      EngineRuns(n, others, before);
      if last.Engine? {
        var e := EngineRun(before);
        assert (e + [last.l])[..|e + [last.l]| - 1] == e;
      } else {
        assert EngineRun(run) == EngineRun(before);
      }
    }
  }

  // -------------------------------------------------------------- registrations and leaves

  /** on_client_leave is running for this connection. */
  ghost predicate InLeave(s: State, id: Id) {
    exists t, k :: 0 <= t < |s.threads| && 0 <= k < |s.threads[t]| && Leaves(s.threads[t][k], id)
  }

  predicate Leaves(f: Frame, id: Id) {
    f.Rel? && f.lp.LInCb? && f.i == id.index && f.g == id.gen
  }

  /** Its connection has not yet left, or is just leaving. */
  ghost predicate Live(s: State, id: Id) {
    id.index < |s.slots| && (Leave(id.gen) !in s.slots[id.index].hist || InLeave(s, id))
  }

  ghost predicate AllLive(s: Link) {
    forall id :: id in s.servers ==> Live(s.engine, id)
  }

  lemma LeaveLogged(f: Frame, x: Slot, i: nat, c: Choice, g: nat)
    requires Leave(g) in Local(f, x, i, c).x.hist && Leave(g) !in x.hist
    ensures f.Rel? && f.lp.LCb? && f.g == g && Local(f, x, i, c).ctl == Goto(f.(lp := LInCb))
  {
    match f
    case Usr => return;
    case Stop(_, _) => return;
    case Acc(_, _, _) => return;
    case Wk(_, _, _, _) => return;
    case Dis(_, _, _) => return;
    case Snd(_, _, _, _) => return;
    case Grp(_, _, _) => return;
    case Post(_, _, _, _, _) => return;
    case Recv(_, _, _, _, _) => return;
    case Acq(_, _, _, _) => return;
    case Rel(_, _, _, _) => return;
  }

  /** A thread stays in on_client_leave until its own step returns from it. */
  lemma StaysInLeave(stk: seq<Frame>, ctl: Ctl, k: nat, id: Id)
    requires stk != [] && k + 1 < |stk| && Leaves(stk[k], id)
    ensures k < |NextStack(stk, ctl)| && Leaves(NextStack(stk, ctl)[k], id)
  {
  }

  lemma StepKeepsLive(s: State, l: Label, id: Id)
    requires Live(s, id) && Left(s, l) != Some(id)
    ensures Live(Step(s, l), id)
  {
    if l.Run? && OnTop(s, l.t) {
      RunKeepsLive(s, l.t, l.c, id);
    } else if l.Run? {
      assert Step(s, l) == s;
    } else {
      assert Step(s, l).threads == s.threads;
      assert Step(s, l).slots[id.index].hist == s.slots[id.index].hist;
      if InLeave(s, id) {
        var t, k :| 0 <= t < |s.threads| && 0 <= k < |s.threads[t]| && Leaves(s.threads[t][k], id);
        assert Leaves(Step(s, l).threads[t][k], id);
      }
    }
  }

  function ControlOf(s: State, t: nat, c: Choice): Ctl
    requires OnTop(s, t)
  {
    var f := Top(s.threads[t]);
    var target := Target(s, f, c);
    if target.Some? && target.value < |s.slots| then Local(f, s.slots[target.value], target.value, c).ctl
    else Global(s, f, c).ctl
  }

  lemma AffectsNoSlot(s: State, i: nat, fx: Effect)
    ensures Affect(s, i, fx).slots == s.slots && Affect(s, i, fx).threads == s.threads
  {
  }

  lemma RunMovesOneStack(s: State, t: nat, c: Choice)
    requires OnTop(s, t)
    ensures RunStep(s, t, c).threads == s.threads[t := NextStack(s.threads[t], ControlOf(s, t, c))]
    ensures |RunStep(s, t, c).slots| == |s.slots|
  {
    var f := Top(s.threads[t]);
    var target := Target(s, f, c);
    if target.Some? && target.value < |s.slots| {
      var o := Local(f, s.slots[target.value], target.value, c);
      AffectsNoSlot(s.(slots := s.slots[target.value := o.x],
                       threads := s.threads[t := NextStack(s.threads[t], o.ctl)]), target.value, o.fx);
    } else {
      var o := Global(s, f, c);
      AffectsNoSlot(s.(threads := s.threads[t := NextStack(s.threads[t], o.ctl)]), 0, o.fx);
    }
  }

  lemma RunMovesOneSlot(s: State, t: nat, c: Choice, i: nat)
    requires OnTop(s, t) && i < |s.slots|
    ensures |RunStep(s, t, c).slots| == |s.slots|
    ensures var f := Top(s.threads[t]);
      RunStep(s, t, c).slots[i] == if Target(s, f, c) == Some(i) then Local(f, s.slots[i], i, c).x else s.slots[i]
  {
    var f := Top(s.threads[t]);
    var target := Target(s, f, c);
    if target.Some? && target.value < |s.slots| {
      var o := Local(f, s.slots[target.value], target.value, c);
      AffectsNoSlot(s.(slots := s.slots[target.value := o.x],
                       threads := s.threads[t := NextStack(s.threads[t], o.ctl)]), target.value, o.fx);
    } else {
      var o := Global(s, f, c);
      AffectsNoSlot(s.(threads := s.threads[t := NextStack(s.threads[t], o.ctl)]), 0, o.fx);
    }
  }

  lemma RunLogsLeave(s: State, t: nat, c: Choice, i: nat, g: nat)
    requires OnTop(s, t) && i < |s.slots| && |RunStep(s, t, c).slots| == |s.slots|
    requires Leave(g) !in s.slots[i].hist && Leave(g) in RunStep(s, t, c).slots[i].hist
    ensures var f := Top(s.threads[t]);
      f.Rel? && f.i == i && f.g == g && ControlOf(s, t, c) == Goto(f.(lp := LInCb))
  {
    RunMovesOneSlot(s, t, c, i);
    LeaveLogged(Top(s.threads[t]), s.slots[i], i, c, g);
  }

  lemma RunKeepsInLeave(s: State, t: nat, c: Choice, id: Id)
    requires InLeave(s, id) && OnTop(s, t) && !Leaves(Top(s.threads[t]), id)
    ensures InLeave(RunStep(s, t, c), id)
  {
    RunMovesOneStack(s, t, c);
    var u, k :| 0 <= u < |s.threads| && 0 <= k < |s.threads[u]| && Leaves(s.threads[u][k], id);
    if u == t {
      StaysInLeave(s.threads[t], ControlOf(s, t, c), k, id);
    }
    assert Leaves(RunStep(s, t, c).threads[u][k], id);
  }

  lemma RunKeepsLive(s: State, t: nat, c: Choice, id: Id)
    requires Live(s, id) && OnTop(s, t) && Left(s, Run(t, c)) != Some(id)
    ensures Live(RunStep(s, t, c), id)
  {
    RunMovesOneStack(s, t, c);
    if InLeave(s, id) {
      RunKeepsInLeave(s, t, c, id);
    } else if Leave(id.gen) in RunStep(s, t, c).slots[id.index].hist {
      RunLogsLeave(s, t, c, id.index, id.gen);
      assert Leaves(RunStep(s, t, c).threads[t][|s.threads[t]| - 1], id);
    }
  }

  predicate Receiving(f: Frame) {
    f.Wk? && f.wp.WInCb?
  }

  lemma ReceivingKnows(f: Frame)
    requires Receiving(f)
    ensures SessionGen(f) == Some(f.g) && Where(f) == Some(f.i)
  {
  }

  /** A worker inside on_recv holds its session. */
  lemma ReceivesItsSession(n: nat, others: seq<bool>, run: seq<Label>, t: nat, f: Frame)
    requires var s := Exec(Init(n, others), run);
      OnTop(s, t) && s.threads[t][|s.threads[t]| - 1] == f && Receiving(f)
    ensures var s := Exec(Init(n, others), run); f.i < |s.slots| && s.slots[f.i].core.gen == f.g
  {
    ReceivingKnows(f);
    HoldersKnowTheirSession(n, others, run, t, |Exec(Init(n, others), run).threads[t]| - 1);
  }

  /** The current session of a slot has not left. */
  lemma CurrentHasNotLeft(n: nat, others: seq<bool>, run: seq<Label>, i: nat, g: nat)
    ensures var s := Exec(Init(n, others), run);
      i < |s.slots| && s.slots[i].core.gen == g ==> Leave(g) !in s.slots[i].hist
  {
    HistoryLawful(n, others, run, i, g);
  }

  lemma RegisteredLive(n: nat, others: seq<bool>, run: seq<Label>, t: nat)
    ensures var s := Exec(Init(n, others), run);
      OnTop(s, t) && Receiving(Top(s.threads[t])) ==> Live(s, Id(Top(s.threads[t]).i, Top(s.threads[t]).g))
  {
    var s := Exec(Init(n, others), run);
    if OnTop(s, t) && Receiving(Top(s.threads[t])) {
      var f := Top(s.threads[t]);
      ReceivesItsSession(n, others, run, t, f);
      CurrentHasNotLeft(n, others, run, f.i, f.g);
    }
  }

  /** In every run, each registration's connection has not left, or is in its on_client_leave right now; as soon as
      that has returned there is none any more, and there will be none again. */
  lemma {:induction false} NoRegistrationOutlives(n: nat, others: seq<bool>, run: seq<LinkLabel>)
    ensures AllLive(LinkExec(n, others, run))
  {
    if run != [] {
      var before, last := run[..|run| - 1], run[|run| - 1];
      var s := LinkExec(n, others, before);
      NoRegistrationOutlives(n, others, before);
      match last {
        case Engine(e) =>
          forall id | id in LinkStep(s, last).servers ensures Live(Step(s.engine, e), id) {
            StepKeepsLive(s.engine, e, id);
          }
        case Register(t, info) =>
          EngineRuns(n, others, before);
          RegisteredLive(n, others, EngineRun(before), t);
      }
    }
  }

  /** A registration disappears by its own connection's leave only. */
  lemma OnlyLeaveRemoves(s: Link, l: LinkLabel, id: Id)
    requires id in s.servers && id !in LinkStep(s, l).servers
    ensures l.Engine? && l.l.Run? && OnTop(s.engine, l.l.t) && Leaves(Top(s.engine.threads[l.l.t]), id)
  {
  }
}
