/**
 What becomes of the frames that completions extract (net_server.cpp:774-792).  A worker decodes and hands on the
 packets of its completion after it has released the session lock, so two workers with two completions of one session
 may interleave, and a corrupt packet ends only the completion it came in.
 */
module Deliveries {
  import opened Bytes
  import opened Sequences
  import opened Frames
  import opened ReceiveSessions

  /** Decoding a frame: its payload, or a checksum failure. */
  datatype Decoded = Payload(bytes: seq<Byte>) | Corrupt

  type Decoder = seq<Byte> -> Decoded

  /** What the loop over the extracted packets hands on: payloads up to the first packet that fails to decode. */
  datatype Delivery = Delivery(payloads: seq<seq<Byte>>, corrupt: bool)

  function Decodings(frames: seq<seq<Byte>>, decode: Decoder): (ds: seq<Decoded>)
    ensures |ds| == |frames|
  {
    seq(|frames|, (k: nat) requires k < |frames| => decode(frames[k]))
  }

  function Deliver(ds: seq<Decoded>): Delivery {
    if ds == [] then Delivery([], false)
    else
      var before := Deliver(ds[..|ds| - 1]);
      if before.corrupt then before
      else
        match ds[|ds| - 1]
        case Payload(bytes) => Delivery(before.payloads + [bytes], false)
        case Corrupt => Delivery(before.payloads, true)
  }

  lemma {:induction false} CorruptEnds(ds: seq<Decoded>, n: nat)
    requires n <= |ds| && Deliver(ds[..n]).corrupt
    ensures Deliver(ds) == Deliver(ds[..n])
  {
    if n < |ds| {
      var m := |ds| - 1;
      assert ds[..m][..n] == ds[..n];
      CorruptEnds(ds[..m], n);
    } else {
      assert ds[..n] == ds;
    }
  }

  /** Packets that all decode are all delivered. */
  lemma {:induction false} AllDelivered(ds: seq<Decoded>, payloads: seq<seq<Byte>>)
    requires |ds| == |payloads| && forall k :: 0 <= k < |ds| ==> ds[k] == Payload(payloads[k])
    ensures Deliver(ds) == Delivery(payloads, false)
  {
    if ds != [] {
      var m := |ds| - 1;
      AllDelivered(ds[..m], payloads[..m]);
      assert payloads == payloads[..m] + [payloads[m]];
    }
  }

  lemma {:induction false} FirstDelivered(ds: seq<Decoded>)
    requires ds != []
    ensures ds[0].Payload? ==> Deliver(ds).payloads == [ds[0].bytes] + Deliver(ds[1..]).payloads
    ensures ds[0].Payload? ==> Deliver(ds).corrupt == Deliver(ds[1..]).corrupt
    ensures ds[0].Corrupt? ==> Deliver(ds) == Delivery([], true)
  {
    var n := |ds| - 1;
    assert ds[..0] == [] && ds[1..][..0] == [];
    if n > 0 {
      FirstDelivered(ds[..n]);
      assert ds[1..][..n - 1] == ds[..n][1..];
      assert ds[1..][n - 1] == ds[n];
    }
  }

  // ---------------------------------------------------------------- every interleaving of the workers

  datatype Receiver = Receiver(cut: Cutter, decode: Decoder, capacity: nat)

  /** A completion arrives and is cut into frames, or the worker that took completion number i goes on with it. */
  datatype Event = Arrive(chunk: seq<Byte>) | HandOn(completion: nat)

  /** chunks: what the completions so far brought; left: what each worker has still to hand on; log: what on_recv, or
      the session's group, got so far, with the completion it came in. */
  datatype State = State(chunks: seq<seq<Byte>>, left: seq<seq<Decoded>>, log: seq<Tagged<nat, seq<Byte>>>)

  function SessionOf(r: Receiver, chunks: seq<seq<Byte>>): Session {
    Run(r.cut, r.capacity, chunks)
  }

  /** A completion needs a posted receive.  A disconnect may end the completions earlier than the full ring does; a run
      in which none comes any more covers that. */
  function Step(r: Receiver, s: State, e: Event): State {
    match e
    case Arrive(chunk) =>
      if 0 < |chunk| <= SessionOf(r, s.chunks).posted then
        var frames := Parse(r.cut, SessionOf(r, s.chunks).rest + chunk).frames;
        State(s.chunks + [chunk], s.left + [Decodings(frames, r.decode)], s.log)
      else s
    case HandOn(i) =>
      if i < |s.left| && s.left[i] != [] then
        match s.left[i][0]
        case Payload(bytes) => s.(left := s.left[i := s.left[i][1..]], log := s.log + [Tagged(i, bytes)])
        case Corrupt => s.(left := s.left[i := []])
      else s
  }

  /** A run is any list of events, of which those that cannot happen have no effect. */
  function Exec(r: Receiver, run: seq<Event>): State {
    if run == [] then State([], [], []) else Step(r, Exec(r, run[..|run| - 1]), run[|run| - 1])
  }

  /** What one worker alone hands on of one completion. */
  function ListOf(frames: seq<seq<Byte>>, decode: Decoder): seq<seq<Byte>> {
    Deliver(Decodings(frames, decode)).payloads
  }

  /** That, completion by completion. */
  function Lists(batches: seq<seq<seq<Byte>>>, decode: Decoder): (ls: seq<seq<seq<Byte>>>)
    ensures |ls| == |batches|
  {
    seq(|batches|, (i: nat) requires i < |batches| => ListOf(batches[i], decode))
  }

  function ListsOf(r: Receiver, s: State): seq<seq<seq<Byte>>> {
    Lists(SessionOf(r, s.chunks).batches, r.decode)
  }

  /** What was handed on of a completion and what is left of it are what one worker alone would hand on. */
  ghost predicate Inv(r: Receiver, s: State) {
    && Feasible(r.cut, r.capacity, s.chunks)
    && |s.left| == |s.chunks| == |ListsOf(r, s)|
    && (forall i: nat :: i < |s.left| ==> For(s.log, i) + Deliver(s.left[i]).payloads == ListsOf(r, s)[i])
    && (forall k :: 0 <= k < |s.log| ==> s.log[k].key < |s.left|)
  }

  lemma ForNone<V>(s: seq<Tagged<nat, V>>, n: nat)
    requires forall k :: 0 <= k < |s| ==> s[k].key < n
    ensures For(s, n) == []
  {
    if s != [] {
      ForNone(s[..|s| - 1], n);
    }
  }

  lemma ListsSnoc(batches: seq<seq<seq<Byte>>>, batch: seq<seq<Byte>>, decode: Decoder)
    ensures Lists(batches + [batch], decode) == Lists(batches, decode) + [ListOf(batch, decode)]
  {
  }

  lemma ListsArrive(r: Receiver, s: State, chunk: seq<Byte>)
    requires 0 < |chunk| <= SessionOf(r, s.chunks).posted
    ensures ListsOf(r, Step(r, s, Arrive(chunk)))
         == ListsOf(r, s) + [ListOf(Parse(r.cut, SessionOf(r, s.chunks).rest + chunk).frames, r.decode)]
  {
    var before := SessionOf(r, s.chunks);
    RunSnoc(r.cut, r.capacity, s.chunks, chunk);
    ListsSnoc(before.batches, Parse(r.cut, before.rest + chunk).frames, r.decode);
  }

  lemma ArriveKeepsInv(r: Receiver, s: State, chunk: seq<Byte>)
    requires Inv(r, s)
    ensures Inv(r, Step(r, s, Arrive(chunk)))
  {
    if 0 < |chunk| <= SessionOf(r, s.chunks).posted {
      var s' := Step(r, s, Arrive(chunk));
      var n := |s.chunks|;
      RunSnoc(r.cut, r.capacity, s.chunks, chunk);
      ListsArrive(r, s, chunk);
      forall i: nat | i < |s'.left| ensures For(s'.log, i) + Deliver(s'.left[i]).payloads == ListsOf(r, s')[i] {
        if i < n {
          assert ListsOf(r, s')[i] == ListsOf(r, s)[i];
        } else {
          ForNone(s.log, n);
        }
      }
    }
  }

  lemma HandOnKeepsInv(r: Receiver, s: State, i: nat)
    requires Inv(r, s)
    ensures Inv(r, Step(r, s, HandOn(i)))
  {
    if i < |s.left| && s.left[i] != [] {
      var s' := Step(r, s, HandOn(i));
      var d := s.left[i][0];
      FirstDelivered(s.left[i]);
      forall j: nat | j < |s'.left| ensures For(s'.log, j) + Deliver(s'.left[j]).payloads == ListsOf(r, s')[j] {
        assert For(s.log, j) + Deliver(s.left[j]).payloads == ListsOf(r, s)[j];
        if d.Payload? {
          ForOneMore(s.log, Tagged(i, d.bytes), j);
          Reassociate(For(s.log, j), [d.bytes], Deliver(s.left[i][1..]).payloads);
        }
      }
    }
  }

  lemma {:induction false} Reachable(r: Receiver, run: seq<Event>)
    ensures Inv(r, Exec(r, run))
  {
    if run != [] {
      Reachable(r, run[..|run| - 1]);
      var s := Exec(r, run[..|run| - 1]);
      match run[|run| - 1] {
        case Arrive(chunk) => ArriveKeepsInv(r, s, chunk);
        case HandOn(i) => HandOnKeepsInv(r, s, i);
      }
    }
  }

  // ---------------------------------------------------------------- theorems

  ghost predicate Quiet(s: State) {
    forall i :: 0 <= i < |s.left| ==> s.left[i] == []
  }

  /** In every interleaving the payloads of one completion are handed on in order, up to its first corrupt packet. */
  lemma CompletionInOrder(r: Receiver, run: seq<Event>, i: nat)
    ensures var s := Exec(r, run);
      i < |s.left| ==>
        && i < |ListsOf(r, s)| && For(s.log, i) <= ListsOf(r, s)[i]
        && (s.left[i] == [] ==> For(s.log, i) == ListsOf(r, s)[i])
  {
    Reachable(r, run);
  }

  lemma {:induction false} LogIsUnion(log: seq<Tagged<nat, seq<Byte>>>, lists: seq<seq<seq<Byte>>>)
    requires forall k :: 0 <= k < |log| ==> log[k].key < |lists|
    requires forall i: nat :: i < |lists| ==> For(log, i) == lists[i]
    ensures multiset(Values(log)) == multiset(Concat(lists))
  {
    if log == [] {
      AllEmpty(lists);
    } else {
      var before, last := log[..|log| - 1], log[|log| - 1];
      var was := lists[last.key := For(before, last.key)];
      forall i: nat | i < |was| ensures For(before, i) == was[i] {
        assert For(log, i) == lists[i];
      }
      LogIsUnion(before, was);
      assert was[last.key := was[last.key] + [last.value]] == lists;
      ConcatGrow(was, last.key, last.value);
    }
  }

  lemma {:induction false} AllEmpty<T>(lists: seq<seq<T>>)
    requires forall i: nat :: i < |lists| ==> lists[i] == []
    ensures Concat(lists) == []
  {
    if lists != [] {
      AllEmpty(lists[1..]);
    }
  }

  /** Once the workers have finished, what was handed on is an interleaving of the completions' lists: each is there
      in order (CompletionInOrder), and nothing is lost or doubled. */
  lemma HandedOnOnce(r: Receiver, run: seq<Event>)
    requires Quiet(Exec(r, run))
    ensures var s := Exec(r, run); multiset(Values(s.log)) == multiset(Concat(ListsOf(r, s)))
  {
    Reachable(r, run);
    var s := Exec(r, run);
    forall i: nat | i < |ListsOf(r, s)| ensures For(s.log, i) == ListsOf(r, s)[i] {
      assert For(s.log, i) + Deliver(s.left[i]).payloads == ListsOf(r, s)[i];
    }
    LogIsUnion(s.log, ListsOf(r, s));
  }

  // ---------------------------------------------------------------- order across completions

  /** What was extracted earlier was handed on earlier. */
  predicate InOrder(log: seq<Tagged<nat, seq<Byte>>>) {
    forall a, b :: 0 <= a < b < |log| ==> log[a].key <= log[b].key
  }

  /** The worker of completion i is about to hand on a payload. */
  predicate HasNext(s: State, i: nat) {
    i < |s.left| && s.left[i] != [] && s.left[i][0].Payload?
  }

  /** The workers of these completions go on, in this order. */
  function Continued(r: Receiver, s: State, workers: seq<nat>): State {
    if workers == [] then s
    else Step(r, Continued(r, s, workers[..|workers| - 1]), HandOn(workers[|workers| - 1]))
  }

  /** At most one worker has something to hand on, and nothing of a later completion has been. */
  ghost predicate Alone(s: State) {
    && (forall i: nat, j: nat :: HasNext(s, i) && HasNext(s, j) ==> i >= j)
    && (forall i: nat, k: nat :: HasNext(s, i) && k < |s.log| ==> s.log[k].key <= i)
  }

  lemma {:induction false} AloneStaysInOrder(r: Receiver, s: State, workers: seq<nat>)
    requires InOrder(s.log) && Alone(s)
    ensures var t := Continued(r, s, workers); InOrder(t.log) && Alone(t)
  {
    if workers != [] {
      AloneStaysInOrder(r, s, workers[..|workers| - 1]);
      var t, i := Continued(r, s, workers[..|workers| - 1]), workers[|workers| - 1];
      var t' := Step(r, t, HandOn(i));
      assert HasNext(t, i) || t'.log == t.log;
      assert forall j: nat :: HasNext(t', j) ==> HasNext(t, j) || (j == i && HasNext(t, i));
    }
  }

  /** Two workers of one session with something to hand on, or one behind a later one, can break the order, and
      nothing else can. */
  lemma OrderedUnlessOverlapping(r: Receiver, s: State)
    ensures (forall workers :: InOrder(Continued(r, s, workers).log)) <==> InOrder(s.log) && Alone(s)
  {
    if InOrder(s.log) && Alone(s) {
      forall workers ensures InOrder(Continued(r, s, workers).log) {
        AloneStaysInOrder(r, s, workers);
      }
    } else if InOrder(s.log) {
      if i: nat, j: nat :| HasNext(s, i) && HasNext(s, j) && i < j {
        Overtake(r, s, i, j);
      } else {
        var i: nat, k: nat :| HasNext(s, i) && k < |s.log| && s.log[k].key > i;
        Goes(r, s, [], i);
        assert [] + [i] == [i];
        var t := Continued(r, s, [i]);
        assert t.log[k].key > t.log[|s.log|].key;
      }
    } else {
      assert Continued(r, s, []) == s;
    }
  }

  lemma Goes(r: Receiver, s: State, workers: seq<nat>, i: nat)
    requires HasNext(Continued(r, s, workers), i)
    ensures var t, u := Continued(r, s, workers), Continued(r, s, workers + [i]);
      u == t.(left := t.left[i := t.left[i][1..]], log := t.log + [Tagged(i, t.left[i][0].bytes)])
  {
    assert (workers + [i])[..|workers|] == workers;
  }

  lemma Overtake(r: Receiver, s: State, i: nat, j: nat)
    requires HasNext(s, i) && HasNext(s, j) && i < j
    ensures var t := Continued(r, s, [j, i]);
      t.log == s.log + [Tagged(j, s.left[j][0].bytes), Tagged(i, s.left[i][0].bytes)] && !InOrder(t.log)
  {
    Goes(r, s, [], j);
    assert [] + [j] == [j] && [j] + [i] == [j, i];
    Goes(r, s, [j], i);
    var t := Continued(r, s, [j, i]);
    assert t.log[|s.log|].key > t.log[|s.log| + 1].key;
  }

  /** One worker thread: it takes the next completion only when it has finished the last. */
  ghost predicate OneWorker(r: Receiver, run: seq<Event>) {
    run == []
    || (var before, last := run[..|run| - 1], run[|run| - 1];
        OneWorker(r, before) && (last.Arrive? ==> Quiet(Exec(r, before))))
  }

  ghost predicate Streaming(r: Receiver, s: State) {
    && (forall i :: 0 <= i < |s.left| - 1 ==> s.left[i] == [])
    && (forall k :: 0 <= k < |s.log| ==> s.log[k].key < |s.left|)
    && InOrder(s.log)
    && Concat(ListsOf(r, s)) == Values(s.log) + (if s.left == [] then [] else Deliver(s.left[|s.left| - 1]).payloads)
  }

  lemma ArriveStreams(r: Receiver, s: State, chunk: seq<Byte>)
    requires Inv(r, s) && Streaming(r, s) && Quiet(s)
    ensures Streaming(r, Step(r, s, Arrive(chunk)))
  {
    if 0 < |chunk| <= SessionOf(r, s.chunks).posted {
      var s' := Step(r, s, Arrive(chunk));
      ListsArrive(r, s, chunk);
      ConcatSnoc(ListsOf(r, s), ListOf(Parse(r.cut, SessionOf(r, s.chunks).rest + chunk).frames, r.decode));
      assert Values(s.log) + [] == Values(s.log);
    }
  }

  lemma HandOnStreams(r: Receiver, s: State, i: nat)
    requires Streaming(r, s)
    ensures Streaming(r, Step(r, s, HandOn(i)))
  {
    if i < |s.left| && s.left[i] != [] {
      FirstDelivered(s.left[i]);
      if s.left[i][0].Payload? {
        var x := Tagged(i, s.left[i][0].bytes);
        assert (s.log + [x])[..|s.log|] == s.log;
        Reassociate(Values(s.log), [x.value], Deliver(s.left[i][1..]).payloads);
      }
    }
  }

  lemma {:induction false} OneWorkerStreams(r: Receiver, run: seq<Event>)
    requires OneWorker(r, run)
    ensures Streaming(r, Exec(r, run))
  {
    if run != [] {
      var before := run[..|run| - 1];
      OneWorkerStreams(r, before);
      Reachable(r, before);
      match run[|run| - 1] {
        case Arrive(chunk) => ArriveStreams(r, Exec(r, before), chunk);
        case HandOn(i) => HandOnStreams(r, Exec(r, before), i);
      }
    }
  }

  /** With one worker thread the payloads are handed on in the order they were extracted. */
  lemma OneWorkerInOrder(r: Receiver, run: seq<Event>)
    requires OneWorker(r, run)
    ensures var s := Exec(r, run);
      && InOrder(s.log) && Values(s.log) <= Concat(ListsOf(r, s))
      && (Quiet(s) ==> Values(s.log) == Concat(ListsOf(r, s)))
  {
    var s := Exec(r, run);
    OneWorkerStreams(r, run);
    assert Values(s.log) + [] == Values(s.log);
  }

  // ---------------------------------------------------------------- a sent stream

  /** A peer that sends these payloads as these frames. */
  ghost predicate Carries(r: Receiver, ws: seq<seq<Byte>>, payloads: seq<seq<Byte>>) {
    && Sent(r.cut, ws) && |ws| == |payloads| && r.capacity > 0
    && forall k :: 0 <= k < |ws| ==> r.decode(ws[k]) == Payload(payloads[k])
  }

  lemma BatchPayloads(r: Receiver, ws: seq<seq<Byte>>, payloads: seq<seq<Byte>>, m: nat, batch: seq<seq<Byte>>)
    requires Carries(r, ws, payloads) && m + |batch| <= |ws| && batch == ws[m..m + |batch|]
    ensures Deliver(Decodings(batch, r.decode)) == Delivery(payloads[m..m + |batch|], false)
  {
    AllDelivered(Decodings(batch, r.decode), payloads[m..m + |batch|]);
  }

  lemma {:induction false} SentLists(r: Receiver, ws: seq<seq<Byte>>, payloads: seq<seq<Byte>>,
                                     batches: seq<seq<seq<Byte>>>)
    requires Carries(r, ws, payloads) && Concat(batches) <= ws
    ensures Concat(Lists(batches, r.decode)) == payloads[..|Concat(batches)|]
    ensures forall i :: 0 <= i < |batches| ==> !Deliver(Decodings(batches[i], r.decode)).corrupt
  {
    if batches != [] {
      var n := |batches| - 1;
      var before, last := batches[..n], batches[n];
      assert batches == before + [last];
      ConcatSnoc(before, last);
      SentLists(r, ws, payloads, before);
      BatchPayloads(r, ws, payloads, |Concat(before)|, last);
      ListsSnoc(before, last, r.decode);
      ConcatSnoc(Lists(before, r.decode), ListOf(last, r.decode));
      forall i | 0 <= i < |batches| ensures !Deliver(Decodings(batches[i], r.decode)).corrupt {
        assert i < n ==> batches[i] == before[i];
      }
    }
  }

  /** What the completions of a session yield of a peer's stream, in order: exactly the payloads whose frames have ended
      by then, none of them corrupt. */
  lemma SessionYields(r: Receiver, ws: seq<seq<Byte>>, payloads: seq<seq<Byte>>, chunks: seq<seq<Byte>>)
    requires Carries(r, ws, payloads) && Concat(chunks) <= Concat(ws)
    ensures var session := SessionOf(r, chunks);
      var m := |Concat(Lists(session.batches, r.decode))|;
      && !session.desync && m <= |ws| && Concat(Lists(session.batches, r.decode)) == payloads[..m]
      && (forall k: nat :: k < |ws| ==> (k < m <==> EndOf(ws, k) <= |Concat(chunks)|))
      && (forall i :: 0 <= i < |session.batches| ==> !Deliver(Decodings(session.batches[i], r.decode)).corrupt)
  {
    ExtractsWhatArrived(r.cut, r.capacity, ws, chunks);
    SentLists(r, ws, payloads, SessionOf(r, chunks).batches);
  }

  /**
   What a run of the receiver makes of a peer's stream.
   - The session stays in step; the frames extracted are those sent whose last byte has arrived, in order.
   - What the workers have to hand on are exactly their payloads, so no packet is found corrupt.
   - Once they have finished, these were handed on, each once; those of one completion in order (CompletionInOrder), all
     of them with one worker.
   - The receive side has disconnected exactly if a completion filled the ring.
  */
  ghost predicate Delivers(r: Receiver, ws: seq<seq<Byte>>, payloads: seq<seq<Byte>>, run: seq<Event>) {
    var s := Exec(r, run);
    var session := SessionOf(r, s.chunks);
    var m := |Concat(session.batches)|;
    && !session.desync && m <= |ws| == |payloads| && Concat(session.batches) == ws[..m]
    && (forall k: nat :: k < |ws| ==> (k < m <==> EndOf(ws, k) <= |Concat(s.chunks)|))
    && Concat(ListsOf(r, s)) == payloads[..m]
    && (Quiet(s) ==> multiset(Values(s.log)) == multiset(payloads[..m]))
    && (OneWorker(r, run) ==> Values(s.log) <= payloads[..m] && (Quiet(s) ==> Values(s.log) == payloads[..m]))
    && (session.posted == 0 <==> exists k: nat :: Fills(r.cut, r.capacity, s.chunks, k))
  }

  /** For every peer, chunking and interleaving of the workers. */
  lemma DeliversWhatArrived(r: Receiver, ws: seq<seq<Byte>>, payloads: seq<seq<Byte>>, run: seq<Event>)
    requires Carries(r, ws, payloads) && Concat(Exec(r, run).chunks) <= Concat(ws)
    ensures Delivers(r, ws, payloads, run)
  {
    Reachable(r, run);
    var s := Exec(r, run);
    ExtractsWhatArrived(r.cut, r.capacity, ws, s.chunks);
    SentLists(r, ws, payloads, SessionOf(r, s.chunks).batches);
    DisconnectIffFilled(r.cut, r.capacity, s.chunks);
    if Quiet(s) {
      HandedOnOnce(r, run);
    }
    if OneWorker(r, run) {
      OneWorkerInOrder(r, run);
    }
  }

  /** A frame longer than the ring, and all behind it, never get through, and end the session. */
  lemma LongFrameNeverHandedOn(r: Receiver, ws: seq<seq<Byte>>, payloads: seq<seq<Byte>>, run: seq<Event>, k: nat)
    requires Carries(r, ws, payloads) && Concat(Exec(r, run).chunks) <= Concat(ws)
    requires k < |ws| && |ws[k]| > r.capacity
    ensures var s := Exec(r, run);
      && |Concat(ListsOf(r, s))| <= k
      && (Ended(r.cut, r.capacity, ws, s.chunks) ==> SessionOf(r, s.chunks).posted == 0)
  {
    Reachable(r, run);
    DeliversWhatArrived(r, ws, payloads, run);
    LongFrameEndsSession(r.cut, r.capacity, ws, Exec(r, run).chunks, k);
  }

  lemma WholeFrame(cut: Cutter, w: seq<Byte>)
    requires Framed(cut, w) && cut([]).More?
    ensures Parse(cut, w) == Parsed([w], [], false)
  {
    assert w + [] == w;
    assert w[..|w|] == w && w[|w|..] == [];
  }

  lemma ExecSnoc(r: Receiver, run: seq<Event>, e: Event)
    ensures Exec(r, run + [e]) == Step(r, Exec(r, run), e)
  {
    assert (run + [e])[..|run|] == run;
  }

  lemma TwoValues(i: nat, p: seq<Byte>, j: nat, q: seq<Byte>)
    ensures Values([Tagged(i, p), Tagged(j, q)]) == [p, q]
  {
    var s: seq<Tagged<nat, seq<Byte>>> := [Tagged(i, p), Tagged(j, q)];
    assert Values(s[..0]) == [];
    assert s[..1][..0] == s[..0];
    assert Values(s[..1]) == [] + [p];
  }

  /** A sent frame that is all that arrives is extracted at once. */
  lemma FrameArrives(r: Receiver, s: State, w: seq<Byte>, p: seq<Byte>)
    requires Framed(r.cut, w) && r.cut([]).More? && r.decode(w) == Payload(p)
    requires SessionOf(r, s.chunks).rest == [] && |w| <= SessionOf(r, s.chunks).posted
    ensures var t := Step(r, s, Arrive(w));
      && t == State(s.chunks + [w], s.left + [[Payload(p)]], s.log)
      && SessionOf(r, t.chunks).rest == [] && SessionOf(r, t.chunks).posted == r.capacity - |w|
  {
    WholeFrame(r.cut, w);
    assert [] + w == w;
    RunSnoc(r.cut, r.capacity, s.chunks, w);
    assert Decodings([w], r.decode) == [Payload(p)];
  }

  lemma BothArrive(r: Receiver, ws: seq<seq<Byte>>, p: seq<Byte>, q: seq<Byte>)
    requires Carries(r, ws, [p, q]) && |ws[0]| + |ws[1]| <= r.capacity
    ensures Exec(r, [Arrive(ws[0]), Arrive(ws[1])]) == State(ws, [[Payload(p)], [Payload(q)]], [])
  {
    var a, b := Arrive(ws[0]), Arrive(ws[1]);
    ExecSnoc(r, [], a);
    ExecSnoc(r, [a], b);
    assert [] + [a] == [a] && [a] + [b] == [a, b];
    FrameArrives(r, Exec(r, []), ws[0], p);
    FrameArrives(r, Exec(r, [a]), ws[1], q);
    assert [] + [ws[0]] + [ws[1]] == ws;
  }

  /** But not in the order sent: two packets that arrive in two completions can be handed on in reverse. */
  lemma OrderFails(r: Receiver, ws: seq<seq<Byte>>, p: seq<Byte>, q: seq<Byte>)
    requires Carries(r, ws, [p, q]) && |ws[0]| + |ws[1]| <= r.capacity
    ensures exists run :: Concat(Exec(r, run).chunks) == Concat(ws) && Quiet(Exec(r, run))
                          && Values(Exec(r, run).log) == [q, p]
  {
    var both := [Arrive(ws[0]), Arrive(ws[1])];
    BothArrive(r, ws, p, q);
    ExecSnoc(r, both, HandOn(1));
    ExecSnoc(r, both + [HandOn(1)], HandOn(0));
    var t := Exec(r, both + [HandOn(1)] + [HandOn(0)]);
    assert t == State(ws, [[], []], [Tagged(1, q), Tagged(0, p)]);
    TwoValues(1, q, 0, p);
  }
}
