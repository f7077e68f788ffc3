/**
 The monitor server's content thread (monitor_server.cpp): sessions and their roles, the tools every data point is
 relayed to, and the aggregator that a flush turns into one row per metric.
 */
module MonitorServers {
  import opened Aggregates
  import opened CStrings
  import opened Sequences

  type SessionId = nat

  datatype Role = Unassigned | Reporter | MonitoringTool
  datatype MonitorSession = MonitorSession(role: Role, serverNo: Int32)

  datatype Sample = Sample(serverNo: Int32, dataType: nat, value: Int32)
  datatype Row = Row(serverNo: Int32, dataType: nat, avg: Int32, min: Int32, max: Int32)

  datatype Packet =
    | ToolLoginOk(to: SessionId)
    | ToolLoginBadKey(to: SessionId)
    | DataUpdate(to: SessionId, serverNo: nat, dataType: nat, value: Int32, timeStamp: Int32)

  /** A packet by its type field; short says that the payload ends before the fields the handler reads. */
  datatype Request =
    | NoType
    | SsLogin(short: bool, serverNo: Int32)
    | ToolLogin(short: bool, key: string)
    | SsDataUpdate(short: bool, dataType: nat, value: Int32, timeStamp: Int32)
    | Other

  const SELF_SERVER_NO: Int32 := 1

  /** What a session may send in its role. */
  predicate Accepts(role: Role, request: Request) {
    match role
    case Unassigned =>
      (request.SsLogin? && !request.short) || (request.ToolLogin? && !request.short && KeyMatches(request.key))
    case Reporter => request.SsDataUpdate? && !request.short
    case MonitoringTool => false
  }

  // -------------------------------------------------------------- the tool key

  const TOOL_LOGIN_KEY: string := "ajy-monitor-tool-key"
  const KEY_FIELD_SIZE: nat := 32

  /** strncmp against the configured key. */
  predicate KeyMatches(key: string) {
    SameFrom(key, TOOL_LOGIN_KEY, 0, KEY_FIELD_SIZE)
  }

  /** The field's text has to be the key; what follows its terminator does not matter. */
  lemma KeyMatchesExactly(key: string)
    requires |key| == KEY_FIELD_SIZE
    ensures KeyMatches(key) <==> Text(key) == TOOL_LOGIN_KEY
  {
    SameIsText(key, TOOL_LOGIN_KEY, KEY_FIELD_SIZE);
  }

  // -------------------------------------------------------------- windows and rows

  /** The samples of one metric in a window, in order. */
  function Values(window: seq<Sample>, serverNo: Int32, dataType: nat): (r: seq<Int32>)
    ensures |r| <= |window|
  {
    if window == [] then []
    else
      var last := window[|window| - 1];
      Values(window[..|window| - 1], serverNo, dataType)
      + (if last.serverNo == serverNo && last.dataType == dataType then [last.value] else [])
  }

  lemma ValuesOneMore(window: seq<Sample>, x: Sample, serverNo: Int32, dataType: nat)
    ensures Values(window + [x], serverNo, dataType) ==
      if x.serverNo == serverNo && x.dataType == dataType then Values(window, serverNo, dataType) + [x.value]
      else Values(window, serverNo, dataType)
  {
    assert (window + [x])[..|window + [x]| - 1] == window;
  }

  /** A row says what there is to say about the samples it stands for. */
  ghost predicate Summarizes(row: Row, values: seq<Int32>) {
    && row.min in values && row.max in values && (forall v :: v in values ==> row.min <= v <= row.max)
    && (|values| < TWO_32 ==> row.avg == Truncated(Sum(values), |values|) && row.min <= row.avg <= row.max)
  }

  /** The rows of a window: one for every metric with samples whose count has not wrapped to zero, and no other. */
  ghost predicate RowsExact(rows: seq<Row>, window: seq<Sample>) {
    && (forall i, j :: 0 <= i < j < |rows| ==>
          rows[i].serverNo != rows[j].serverNo || rows[i].dataType != rows[j].dataType)
    && (forall row :: row in rows ==> Summarizes(row, Values(window, row.serverNo, row.dataType)))
    && (forall s: Int32, d: nat :: |Values(window, s, d)| % TWO_32 != 0 <==> HasRow(rows, s, d))
  }

  ghost predicate HasRow(rows: seq<Row>, serverNo: Int32, dataType: nat) {
    exists i :: 0 <= i < |rows| && rows[i].serverNo == serverNo && rows[i].dataType == dataType
  }

  function RowOf(serverNo: Int32, dataType: nat, a: Accumulator): Row
    requires a.count > 0
  {
    Row(serverNo, dataType, Average(a), a.min, a.max)
  }

  lemma RowOfSummarizes(serverNo: Int32, dataType: nat, values: seq<Int32>)
    requires values != [] && Folded(values).count > 0
    ensures Summarizes(RowOf(serverNo, dataType, Folded(values)), values)
  {
    ExtremesExact(values);
    if |values| < TWO_32 {
      AverageExact(values);
    }
  }

  function NonEmpty(batches: seq<seq<Row>>): seq<seq<Row>> {
    if batches == [] then []
    else
      NonEmpty(batches[..|batches| - 1]) + (if batches[|batches| - 1] == [] then [] else [batches[|batches| - 1]])
  }

  type Table = map<Int32, map<nat, Accumulator>>

  predicate Has(t: Table, serverNo: Int32, dataType: nat) {
    serverNo in t && dataType in t[serverNo]
  }

  /** The aggregator holds, metric by metric, the open window folded up. */
  ghost predicate Folds(t: Table, window: seq<Sample>) {
    forall s: Int32, d: nat ::
      && (Has(t, s, d) <==> Values(window, s, d) != [])
      && (Has(t, s, d) ==> t[s][d] == Folded(Values(window, s, d)))
  }

  /** One sample added to its metric's accumulator, a fresh one if it had none. */
  ghost predicate OneMore(t: Table, x: Sample, t': Table) {
    && (forall s: Int32, d: nat :: s != x.serverNo || d != x.dataType ==>
          (Has(t', s, d) <==> Has(t, s, d)) && (Has(t, s, d) ==> t'[s][d] == t[s][d]))
    && Has(t', x.serverNo, x.dataType)
    && t'[x.serverNo][x.dataType] ==
       Add(if Has(t, x.serverNo, x.dataType) then t[x.serverNo][x.dataType] else FRESH, x.value)
  }

  function TypesOf(t: Table, serverNo: Int32): map<nat, Accumulator> {
    if serverNo in t then t[serverNo] else map[]
  }

  /** The accumulator of a metric put into its tables. */
  lemma PutIsOneMore(t: Table, x: Sample, a: Accumulator)
    requires a == Add(if Has(t, x.serverNo, x.dataType) then t[x.serverNo][x.dataType] else FRESH, x.value)
    ensures OneMore(t, x, t[x.serverNo := TypesOf(t, x.serverNo)[x.dataType := a]])
  {
  }

  lemma IngestFolds(t: Table, window: seq<Sample>, x: Sample, t': Table)
    requires Folds(t, window) && OneMore(t, x, t')
    ensures Folds(t', window + [x])
  {
    forall s: Int32, d: nat
      ensures Has(t', s, d) <==> Values(window + [x], s, d) != []
      ensures Has(t', s, d) ==> t'[s][d] == Folded(Values(window + [x], s, d))
    {
      ValuesOneMore(window, x, s, d);
      var values := Values(window, s, d);
      assert (values + [x.value])[..|values|] == values;
    }
  }

  /** The rows are those of the metrics in done. */
  ghost predicate RowsOf(rows: seq<Row>, t: Table, done: set<(Int32, nat)>) {
    && (forall i, j :: 0 <= i < j < |rows| ==>
          rows[i].serverNo != rows[j].serverNo || rows[i].dataType != rows[j].dataType)
    && (forall row :: row in rows ==> (row.serverNo, row.dataType) in done && IsRowOf(row, t))
    && (forall s: Int32, d: nat :: (s, d) in done && Has(t, s, d) && t[s][d].count > 0 ==> HasRow(rows, s, d))
  }

  predicate IsRowOf(row: Row, t: Table) {
    && Has(t, row.serverNo, row.dataType) && t[row.serverNo][row.dataType].count > 0
    && row == RowOf(row.serverNo, row.dataType, t[row.serverNo][row.dataType])
  }

  lemma OneMetricMore(rows: seq<Row>, t: Table, done: set<(Int32, nat)>, serverNo: Int32, dataType: nat)
    requires RowsOf(rows, t, done) && Has(t, serverNo, dataType) && (serverNo, dataType) !in done
    ensures var a := t[serverNo][dataType];
      RowsOf(if a.count > 0 then rows + [RowOf(serverNo, dataType, a)] else rows, t, done + {(serverNo, dataType)})
  {
    var a := t[serverNo][dataType];
    if a.count > 0 {
      var more := rows + [RowOf(serverNo, dataType, a)];
      forall i, j | 0 <= i < j < |more|
        ensures more[i].serverNo != more[j].serverNo || more[i].dataType != more[j].dataType
      {
        assert more[i] in rows;
      }
      assert more[|rows|].serverNo == serverNo && more[|rows|].dataType == dataType;
      forall s: Int32, d: nat | HasRow(rows, s, d) ensures HasRow(more, s, d) {
        var i :| 0 <= i < |rows| && rows[i].serverNo == s && rows[i].dataType == d;
        assert more[i] == rows[i];
      }
    }
  }

  lemma CollectedAll(rows: seq<Row>, t: Table, done: set<(Int32, nat)>, window: seq<Sample>)
    requires Folds(t, window) && RowsOf(rows, t, done)
    requires forall s: Int32, d: nat :: Has(t, s, d) ==> (s, d) in done
    ensures RowsExact(rows, window)
  {
    forall row | row in rows ensures Summarizes(row, Values(window, row.serverNo, row.dataType)) {
      assert Has(t, row.serverNo, row.dataType);
      RowOfSummarizes(row.serverNo, row.dataType, Values(window, row.serverNo, row.dataType));
    }
    forall s: Int32, d: nat ensures |Values(window, s, d)| % TWO_32 != 0 <==> HasRow(rows, s, d) {
      CountWraps(Values(window, s, d));
      assert Has(t, s, d) <==> Values(window, s, d) != [];
      if HasRow(rows, s, d) {
        var i :| 0 <= i < |rows| && rows[i].serverNo == s && rows[i].dataType == d;
        assert rows[i] in rows && IsRowOf(rows[i], t);
      }
    }
  }

  // -------------------------------------------------------------- relaying

  function Relayed(targets: seq<SessionId>, x: Sample, timeStamp: Int32): (r: seq<Packet>)
    ensures |r| == |targets|
    ensures forall k :: 0 <= k < |targets| ==>
      r[k] == DataUpdate(targets[k], x.serverNo % 256, x.dataType, x.value, timeStamp)
  {
    if targets == [] then []
    else
      Relayed(targets[..|targets| - 1], x, timeStamp)
      + [DataUpdate(targets[|targets| - 1], x.serverNo % 256, x.dataType, x.value, timeStamp)]
  }

  class MonitorServer {
    var sessions: map<SessionId, MonitorSession>
    var relayTargets: seq<SessionId>
    var aggregator: Table
    /** What the database writer has been given. */
    var batches: seq<seq<Row>>
    var outbox: seq<Packet>
    var kicked: seq<SessionId>
    /** The samples since the last flush, the windows closed before, and the rows of each. */
    ghost var window: seq<Sample>
    ghost var closed: seq<seq<Sample>>
    ghost var published: seq<seq<Row>>
    ghost var ingested: seq<Sample>

    /** The relay targets are the sessions of monitoring tools, each once. */
    ghost predicate TargetsOk()
      reads this`sessions, this`relayTargets
    {
      && (forall i, j :: 0 <= i < j < |relayTargets| ==> relayTargets[i] != relayTargets[j])
      && (forall id :: id in relayTargets <==> id in sessions && sessions[id].role.MonitoringTool?)
    }

    /** Every sample ever ingested is in one closed window, each of whose metrics got one row, or in the open one. */
    ghost predicate HistoryOk()
      reads this`batches, this`window, this`closed, this`published, this`ingested
    {
      && ingested == Concat(closed) + window
      && |published| == |closed| && (forall k :: 0 <= k < |closed| ==> RowsExact(published[k], closed[k]))
      && batches == NonEmpty(published)
    }

    ghost predicate Valid()
      reads this
    {
      TargetsOk() && HistoryOk() && Folds(aggregator, window)
    }

    constructor ()
      ensures Valid() && sessions == map[] && ingested == [] && batches == [] && outbox == [] && kicked == []
    {
      sessions, relayTargets, aggregator := map[], [], map[];
      batches, outbox, kicked := [], [], [];
      window, closed, published, ingested := [], [], [], [];
    }

    // -------------------------------------------------------------- the aggregator

    /** Counts a sample in and relays it to every tool once. */
    method Ingest(x: Sample, timeStamp: Int32)
      requires Valid()
      modifies this`aggregator, this`outbox, this`window, this`ingested
      ensures Valid() && window == old(window) + [x] && ingested == old(ingested) + [x]
      ensures outbox == old(outbox) + Relayed(relayTargets, x, timeStamp)
    {
      Accumulate(x);
      CountIn(x);
      RelayToTools(x, timeStamp);
    }

    ghost method CountIn(x: Sample)
      requires HistoryOk() && Folds(aggregator, window + [x])
      modifies this`window, this`ingested
      ensures HistoryOk() && Folds(aggregator, window)
      ensures window == old(window) + [x] && ingested == old(ingested) + [x]
    {
      assert Concat(closed) + (window + [x]) == ingested + [x];
      window, ingested := window + [x], ingested + [x];
    }

    method Accumulate(x: Sample)
      requires Folds(aggregator, window)
      modifies this`aggregator
      ensures Folds(aggregator, window + [x])
    {
      var types := TypesOf(aggregator, x.serverNo);
      var a := if x.dataType in types then types[x.dataType] else FRESH;
      a := a.(count := (a.count + 1) % TWO_32);
      a := a.(sum := Wrap64(a.sum + x.value));
      a := a.(min := if x.value < a.min then x.value else a.min);
      a := a.(max := if a.max < x.value then x.value else a.max);
      PutIsOneMore(aggregator, x, a);
      IngestFolds(aggregator, window, x, aggregator[x.serverNo := types[x.dataType := a]]);
      aggregator := aggregator[x.serverNo := types[x.dataType := a]];
    }

    method RelayToTools(x: Sample, timeStamp: Int32)
      modifies this`outbox
      ensures outbox == old(outbox) + Relayed(relayTargets, x, timeStamp)
    {
      if relayTargets == [] {
        return;
      }
      for k := 0 to |relayTargets|
        invariant outbox == old(outbox) + Relayed(relayTargets[..k], x, timeStamp)
      {
        assert relayTargets[..k + 1][..k] == relayTargets[..k];
        outbox := outbox + [DataUpdate(relayTargets[k], x.serverNo % 256, x.dataType, x.value, timeStamp)];
      }
      assert relayTargets[..|relayTargets|] == relayTargets;
    }

    /** One row per metric to the database writer, and a new window. */
    method FlushAggregator()
      requires Valid()
      modifies this`aggregator, this`batches, this`window, this`closed, this`published
      ensures Valid() && window == [] && closed == old(closed) + [old(window)]
      ensures |published| == |closed| && RowsExact(published[|published| - 1], old(window))
    {
      var batch := CollectRows();
      aggregator := map[];
      if batch != [] {
        batches := batches + [batch];
      }
      CloseWindow(batch);
    }

    ghost method CloseWindow(batch: seq<Row>)
      requires ingested == Concat(closed) + window && RowsExact(batch, window)
      requires |published| == |closed| && (forall k :: 0 <= k < |closed| ==> RowsExact(published[k], closed[k]))
      requires batches == NonEmpty(published) + (if batch == [] then [] else [batch])
      requires aggregator == map[]
      modifies this`window, this`closed, this`published
      ensures HistoryOk() && Folds(aggregator, window)
      ensures window == [] && closed == old(closed) + [old(window)] && published == old(published) + [batch]
    {
      ConcatSnoc(closed, window);
      assert (published + [batch])[..|published|] == published;
      closed, published, window := closed + [window], published + [batch], [];
      assert ingested == Concat(closed) + window;
    }

    /** The rows of the open window, in no particular order. */
    method CollectRows() returns (batch: seq<Row>)
      requires Folds(aggregator, window)
      ensures RowsExact(batch, window)
    {
      batch := [];
      ghost var done: set<(Int32, nat)> := {};
      var servers := aggregator.Keys;
      while servers != {}
        invariant servers <= aggregator.Keys && RowsOf(batch, aggregator, done)
        invariant forall s: Int32, d: nat :: (s, d) in done <==> Has(aggregator, s, d) && s !in servers
        decreases servers
      {
        var serverNo :| serverNo in servers;
        var types := aggregator[serverNo].Keys;
        while types != {}
          invariant types <= aggregator[serverNo].Keys && RowsOf(batch, aggregator, done)
          invariant forall s: Int32, d: nat :: (s, d) in done <==>
            Has(aggregator, s, d) && (s !in servers || (s == serverNo && d !in types))
          decreases types
        {
          var dataType :| dataType in types;
          var a := aggregator[serverNo][dataType];
          OneMetricMore(batch, aggregator, done, serverNo, dataType);
          if a.count != 0 {
            batch := batch + [RowOf(serverNo, dataType, a)];
          }
          types, done := types - {dataType}, done + {(serverNo, dataType)};
        }
        servers := servers - {serverNo};
      }
      CollectedAll(batch, aggregator, done, window);
    }

    // -------------------------------------------------------------- sessions

    method HandleClientJoin(id: SessionId)
      requires Valid()
      modifies this`sessions
      ensures Valid()
      ensures sessions ==
        if id in old(sessions) then old(sessions) else old(sessions)[id := MonitorSession(Unassigned, 0)]
    {
      if id !in sessions {
        assert id !in relayTargets;
        sessions := sessions[id := MonitorSession(Unassigned, 0)];
      }
    }

    method HandleClientLeave(id: SessionId)
      requires Valid()
      modifies this`sessions, this`relayTargets
      ensures Valid() && sessions == old(sessions) - {id}
    {
      if id !in sessions {
        assert sessions == sessions - {id};
        return;
      }
      if sessions[id].role.MonitoringTool? {
        DropTarget(id);
      }
      sessions := sessions - {id};
    }

    method DropTarget(id: SessionId)
      requires forall i, j :: 0 <= i < j < |relayTargets| ==> relayTargets[i] != relayTargets[j]
      modifies this`relayTargets
      ensures forall i, j :: 0 <= i < j < |relayTargets| ==> relayTargets[i] != relayTargets[j]
      ensures forall other :: other in relayTargets <==> other in old(relayTargets) && other != id
    {
      for k := 0 to |relayTargets|
        invariant id !in relayTargets[..k] && relayTargets == old(relayTargets)
      {
        if relayTargets[k] == id {
          var rest := relayTargets[..k] + relayTargets[k + 1..];
          assert relayTargets == relayTargets[..k] + [id] + relayTargets[k + 1..];
          relayTargets := rest;
          return;
        }
        assert relayTargets[..k + 1] == relayTargets[..k] + [relayTargets[k]];
      }
      assert relayTargets[..|relayTargets|] == relayTargets;
    }

    method Disconnect(id: SessionId)
      modifies this`kicked
      ensures kicked == old(kicked) + [id]
    {
      kicked := kicked + [id];
    }

    /** A session that has logged in as a tool is a relay target from then on. */
    method HandleToolLogin(id: SessionId, short: bool, key: string)
      requires Valid() && id in sessions && sessions[id].role.Unassigned?
      modifies this`sessions, this`relayTargets, this`outbox, this`kicked
      ensures Valid()
      ensures var ok := !short && KeyMatches(key);
        && sessions == (if ok then old(sessions)[id := MonitorSession(MonitoringTool, old(sessions)[id].serverNo)]
                        else old(sessions))
        && outbox == old(outbox) + (if short then [] else if ok then [ToolLoginOk(id)] else [ToolLoginBadKey(id)])
        && kicked == old(kicked) + (if ok then [] else [id])
    {
      if short {
        Disconnect(id);
        return;
      }
      if !KeyMatches(key) {
        outbox := outbox + [ToolLoginBadKey(id)];
        Disconnect(id);
        return;
      }
      assert id !in relayTargets;
      sessions := sessions[id := sessions[id].(role := MonitoringTool)];
      relayTargets := relayTargets + [id];
      outbox := outbox + [ToolLoginOk(id)];
    }

    method HandleSsLogin(id: SessionId, short: bool, serverNo: Int32)
      requires Valid() && id in sessions && sessions[id].role.Unassigned?
      modifies this`sessions, this`kicked
      ensures Valid()
      ensures sessions == if short then old(sessions) else old(sessions)[id := MonitorSession(Reporter, serverNo)]
      ensures kicked == old(kicked) + (if short then [id] else [])
    {
      if short {
        Disconnect(id);
        return;
      }
      sessions := sessions[id := sessions[id].(role := Reporter, serverNo := serverNo)];
    }

    /** Only a reporter's complete data point counts, under the number it registered with; everything else a session
        may not send in its role disconnects it, and a role once taken never changes. */
    method HandleRecv(id: SessionId, request: Request)
      requires Valid()
      modifies this
      ensures Valid() && batches == old(batches) && closed == old(closed)
      ensures id !in old(sessions) ==>
        sessions == old(sessions) && outbox == old(outbox) && kicked == old(kicked) && window == old(window)
      ensures id in old(sessions) ==>
        kicked == old(kicked) + (if Accepts(old(sessions)[id].role, request) then [] else [id])
      ensures id in old(sessions) && !old(sessions)[id].role.Unassigned? ==> sessions == old(sessions)
      ensures id in old(sessions) && old(sessions)[id].role.Reporter? && Accepts(Reporter, request) ==>
        && window == old(window) + [Sample(old(sessions)[id].serverNo, request.dataType, request.value)]
        && outbox == old(outbox) + Relayed(relayTargets, window[|window| - 1], request.timeStamp)
      ensures id in old(sessions) && !(old(sessions)[id].role.Reporter? && Accepts(Reporter, request)) ==>
        window == old(window)
    {
      if id !in sessions {
        return;
      }
      match sessions[id].role {
        case Unassigned =>
          match request {
            case SsLogin(short, serverNo) => HandleSsLogin(id, short, serverNo);
            case ToolLogin(short, key) => HandleToolLogin(id, short, key);
            case _ => Disconnect(id);
          }
        case Reporter =>
          if request.SsDataUpdate? && !request.short {
            Ingest(Sample(sessions[id].serverNo, request.dataType, request.value), request.timeStamp);
          } else {
            Disconnect(id);
          }
        case MonitoringTool => Disconnect(id);
      }
    }

    /** A sample of the monitor's own host. */
    method HandleLocalSample(dataType: nat, value: Int32, timeStamp: Int32)
      requires Valid()
      modifies this`aggregator, this`outbox, this`window, this`ingested
      ensures Valid() && window == old(window) + [Sample(SELF_SERVER_NO, dataType, value)]
      ensures outbox == old(outbox) + Relayed(relayTargets, Sample(SELF_SERVER_NO, dataType, value), timeStamp)
    {
      Ingest(Sample(SELF_SERVER_NO, dataType, value), timeStamp);
    }
  }
}
