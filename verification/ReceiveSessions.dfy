/**
 One session's receive side, completion by completion: the ring of fixed capacity, the receive that is posted before
 the frames are cut out, and the frames each completion yields.  Which bytes a completion brings is the network's
 choice, within the posted size.
 */
module ReceiveSessions {
  import opened Bytes
  import opened Sequences
  import opened Frames

  const RECV_BUFFER_CAPACITY: nat := 8192

  /** rest: what the ring holds; posted: the size of the posted receive, zero once the ring was found full and the
      session disconnected; batches: the frames of each completion; desync: a wrong start was met. */
  datatype Session = Session(rest: seq<Byte>, posted: int, batches: seq<seq<seq<Byte>>>, desync: bool)

  /** One completion: the bytes are committed, the free rest of the ring is posted, then whole frames are taken. */
  function Complete(cut: Cutter, capacity: nat, s: Session, chunk: seq<Byte>): Session {
    var stream := s.rest + chunk;
    var p := Parse(cut, stream);
    Session(p.rest, capacity - |stream|, s.batches + [p.frames], p.desync)
  }

  function Run(cut: Cutter, capacity: nat, chunks: seq<seq<Byte>>): Session {
    if chunks == [] then Session([], capacity, [], false)
    else Complete(cut, capacity, Run(cut, capacity, chunks[..|chunks| - 1]), chunks[|chunks| - 1])
  }

  /** Chunks as completions can bring them: each is at least a byte and fits the receive posted for it. */
  ghost predicate Feasible(cut: Cutter, capacity: nat, chunks: seq<seq<Byte>>) {
    chunks == []
    || (var before, last := chunks[..|chunks| - 1], chunks[|chunks| - 1];
        Feasible(cut, capacity, before) && 0 < |last| <= Run(cut, capacity, before).posted)
  }

  /** Completion k fills the ring to capacity. */
  ghost predicate Fills(cut: Cutter, capacity: nat, chunks: seq<seq<Byte>>, k: nat) {
    k < |chunks| && |Run(cut, capacity, chunks[..k]).rest| + |chunks[k]| == capacity
  }

  lemma RunSnoc(cut: Cutter, capacity: nat, chunks: seq<seq<Byte>>, chunk: seq<Byte>)
    ensures Run(cut, capacity, chunks + [chunk]) == Complete(cut, capacity, Run(cut, capacity, chunks), chunk)
    ensures Feasible(cut, capacity, chunks + [chunk])
            <==> Feasible(cut, capacity, chunks) && 0 < |chunk| <= Run(cut, capacity, chunks).posted
  {
    var all := chunks + [chunk];
    assert all[..|all| - 1] == chunks && all[|all| - 1] == chunk;
  }

  // ---------------------------------------------------------------- the ring

  lemma {:induction false} RestShrinks(cut: Cutter, s: seq<Byte>)
    ensures |Parse(cut, s).rest| <= |s|
    ensures Parse(cut, s).frames == [] ==> Parse(cut, s).rest == s
    decreases |s|
  {
    if Ready(cut, s) {
      RestShrinks(cut, s[cut(s).size..]);
    }
  }

  /** Contents and posted receive never exceed the capacity. */
  lemma {:induction false} RingBound(cut: Cutter, capacity: nat, chunks: seq<seq<Byte>>)
    requires Feasible(cut, capacity, chunks)
    ensures var s := Run(cut, capacity, chunks);
      0 <= s.posted && |s.rest| + s.posted <= capacity && |s.batches| == |chunks|
  {
    if chunks != [] {
      var before, last := chunks[..|chunks| - 1], chunks[|chunks| - 1];
      RingBound(cut, capacity, before);
      RestShrinks(cut, Run(cut, capacity, before).rest + last);
    }
  }

  lemma {:induction false} FeasiblePrefix(cut: Cutter, capacity: nat, chunks: seq<seq<Byte>>, k: nat)
    requires Feasible(cut, capacity, chunks) && k <= |chunks|
    ensures Feasible(cut, capacity, chunks[..k])
  {
    var n := |chunks|;
    if k < n {
      FeasiblePrefix(cut, capacity, chunks[..n - 1], k);
      assert chunks[..n - 1][..k] == chunks[..k];
    } else {
      assert chunks[..k] == chunks;
    }
  }

  /** The receive side disconnects exactly when a completion fills the ring, and that completion is the last. */
  lemma {:induction false} DisconnectIffFilled(cut: Cutter, capacity: nat, chunks: seq<seq<Byte>>)
    requires Feasible(cut, capacity, chunks) && capacity > 0
    ensures Run(cut, capacity, chunks).posted == 0 <==> exists k: nat :: Fills(cut, capacity, chunks, k)
    ensures forall k: nat :: Fills(cut, capacity, chunks, k) ==> k == |chunks| - 1
  {
    var n := |chunks|;
    forall k: nat | Fills(cut, capacity, chunks, k) ensures k == n - 1 {
      FeasiblePrefix(cut, capacity, chunks, k + 1);
      assert chunks[..k + 1] == chunks[..k] + [chunks[k]];
      RunSnoc(cut, capacity, chunks[..k], chunks[k]);
      if k + 1 < n {
        FeasiblePrefix(cut, capacity, chunks, k + 2);
        assert chunks[..k + 2] == chunks[..k + 1] + [chunks[k + 1]];
        RunSnoc(cut, capacity, chunks[..k + 1], chunks[k + 1]);
      }
    }
    if n > 0 {
      assert Run(cut, capacity, chunks).posted == 0 <==> Fills(cut, capacity, chunks, n - 1);
    }
  }

  // ---------------------------------------------------------------- the stream

  /** How the stream was cut into completions does not matter: the batches in order are the frames of the bytes
      received. */
  lemma {:induction false} ChunkingIrrelevant(cut: Cutter, capacity: nat, chunks: seq<seq<Byte>>)
    requires Stable(cut) && cut([]).More?
    ensures var s := Run(cut, capacity, chunks);
      Parse(cut, Concat(chunks)) == Parsed(Concat(s.batches), s.rest, s.desync)
  {
    if chunks != [] {
      var before, last := chunks[..|chunks| - 1], chunks[|chunks| - 1];
      ChunkingIrrelevant(cut, capacity, before);
      assert chunks == before + [last];
      ConcatSnoc(before, last);
      ParseAppend(cut, Concat(before), last);
      var s := Run(cut, capacity, before);
      ConcatSnoc(s.batches, Parse(cut, s.rest + last).frames);
    }
  }

  /** What a session has extracted and kept is what it received. */
  lemma NothingLost(cut: Cutter, capacity: nat, chunks: seq<seq<Byte>>)
    requires Stable(cut) && cut([]).More?
    ensures var s := Run(cut, capacity, chunks);
      Concat(Concat(s.batches)) + s.rest == Concat(chunks) && !Ready(cut, s.rest)
  {
    ChunkingIrrelevant(cut, capacity, chunks);
    ParseExact(cut, Concat(chunks));
  }

  /** A stream some peer sends: whole frames, each recognised exactly when it is complete. */
  ghost predicate Sent(cut: Cutter, ws: seq<seq<Byte>>) {
    Stable(cut) && cut([]).More? && AllFramed(cut, ws)
  }

  /** Whatever front part of a sent stream arrives in whatever completions: the session stays in step, and what it
      extracts, in order, is exactly the frames whose last byte has arrived. */
  lemma ExtractsWhatArrived(cut: Cutter, capacity: nat, ws: seq<seq<Byte>>, chunks: seq<seq<Byte>>)
    requires Sent(cut, ws) && Concat(chunks) <= Concat(ws)
    ensures var s := Run(cut, capacity, chunks);
      && !s.desync && Concat(s.batches) <= ws
      && forall k: nat :: k < |ws| ==> (k < |Concat(s.batches)| <==> EndOf(ws, k) <= |Concat(chunks)|)
  {
    ChunkingIrrelevant(cut, capacity, chunks);
    ParseSent(cut, ws, Concat(chunks));
    forall k: nat | k < |ws|
      ensures k < |Parse(cut, Concat(chunks)).frames| <==> EndOf(ws, k) <= |Concat(chunks)|
    {
      TakenWhenWhole(cut, ws, Concat(chunks), k);
    }
  }

  /** The network goes on while a receive is posted and bytes are left: the run ends with the stream or a full ring. */
  ghost predicate Ended(cut: Cutter, capacity: nat, ws: seq<seq<Byte>>, chunks: seq<seq<Byte>>) {
    && Feasible(cut, capacity, chunks) && Concat(chunks) <= Concat(ws)
    && (Run(cut, capacity, chunks).posted == 0 || Concat(chunks) == Concat(ws))
  }

  lemma AllWhenAllEnds(ws: seq<seq<Byte>>, n: nat)
    requires n <= |Concat(ws)| && forall k :: 0 <= k < |ws| ==> ws[k] != []
    ensures (forall k: nat :: k < |ws| ==> EndOf(ws, k) <= n) <==> n == |Concat(ws)|
  {
    assert ws[..|ws|] == ws;
    assert ws != [] ==> EndOf(ws, |ws| - 1) == |Concat(ws)|;
    if n == |Concat(ws)| {
      forall k: nat | k < |ws| ensures EndOf(ws, k) <= n {
        EndsGrow(ws, k + 1, |ws|);
      }
    }
  }

  lemma AllExtracted(cut: Cutter, capacity: nat, ws: seq<seq<Byte>>, chunks: seq<seq<Byte>>)
    requires Sent(cut, ws) && Concat(chunks) <= Concat(ws)
    ensures Concat(Run(cut, capacity, chunks).batches) == ws <==> Concat(chunks) == Concat(ws)
  {
    var frames, n := Concat(Run(cut, capacity, chunks).batches), |Concat(chunks)|;
    ExtractsWhatArrived(cut, capacity, ws, chunks);
    AllWhenAllEnds(ws, n);
    assert |frames| < |ws| ==> EndOf(ws, |frames|) > n;
    assert n == |Concat(ws)| <==> Concat(chunks) == Concat(ws);
  }

  /** The whole stream is extracted if and only if no completion fills the ring while bytes are still to come. */
  lemma ArrivesUnlessFilled(cut: Cutter, capacity: nat, ws: seq<seq<Byte>>, chunks: seq<seq<Byte>>)
    requires Sent(cut, ws) && Ended(cut, capacity, ws, chunks) && capacity > 0
    ensures Concat(Run(cut, capacity, chunks).batches) == ws
            <==> !exists k: nat :: Fills(cut, capacity, chunks, k) && Concat(chunks) < Concat(ws)
  {
    AllExtracted(cut, capacity, ws, chunks);
    DisconnectIffFilled(cut, capacity, chunks);
  }

  // ---------------------------------------------------------------- frames and the capacity

  /** A frame longer than the ring is never extracted, and one as long as the ring only with a disconnect, whatever
      arrives in whatever completions. */
  lemma {:induction false} NoLongFrame(cut: Cutter, capacity: nat, chunks: seq<seq<Byte>>, f: seq<Byte>)
    requires Feasible(cut, capacity, chunks)
    requires f in Concat(Run(cut, capacity, chunks).batches)
    ensures |f| < capacity || (|f| == capacity && Run(cut, capacity, chunks).posted == 0)
  {
    var before, last := chunks[..|chunks| - 1], chunks[|chunks| - 1];
    var s := Run(cut, capacity, before);
    ConcatSnoc(s.batches, Parse(cut, s.rest + last).frames);
    if f in Concat(s.batches) {
      NoLongFrame(cut, capacity, before, f);
    } else {
      RingBound(cut, capacity, before);
      FrameShorter(cut, s.rest + last, f);
    }
  }

  lemma {:induction false} FrameShorter(cut: Cutter, s: seq<Byte>, f: seq<Byte>)
    requires f in Parse(cut, s).frames
    ensures |f| <= |s|
    decreases |s|
  {
    var n := cut(s).size;
    if f != s[..n] {
      FrameShorter(cut, s[n..], f);
    }
  }

  /** So a peer that sends one is disconnected, and that frame and all behind it never get through. */
  lemma LongFrameEndsSession(cut: Cutter, capacity: nat, ws: seq<seq<Byte>>, chunks: seq<seq<Byte>>, k: nat)
    requires Sent(cut, ws) && Feasible(cut, capacity, chunks) && Concat(chunks) <= Concat(ws)
    requires k < |ws| && |ws[k]| > capacity
    ensures |Concat(Run(cut, capacity, chunks).batches)| <= k
    ensures Ended(cut, capacity, ws, chunks) ==> Run(cut, capacity, chunks).posted == 0
  {
    var frames := Concat(Run(cut, capacity, chunks).batches);
    ExtractsWhatArrived(cut, capacity, ws, chunks);
    AllExtracted(cut, capacity, ws, chunks);
    assert k < |frames| ==> frames[k] == ws[k] && ws[k] in frames;
    if ws[k] in frames {
      NoLongFrame(cut, capacity, chunks, ws[k]);
    }
  }

  /** What has arrived short of the end leaves less than one frame in the ring. */
  lemma RestIsPart(cut: Cutter, capacity: nat, ws: seq<seq<Byte>>, chunks: seq<seq<Byte>>)
    requires Sent(cut, ws) && Concat(chunks) < Concat(ws)
    ensures exists k: nat :: k < |ws| && |Run(cut, capacity, chunks).rest| < |ws[k]|
  {
    ChunkingIrrelevant(cut, capacity, chunks);
    ParseSent(cut, ws, Concat(chunks));
    ParseExact(cut, Concat(chunks));
    var p := Parse(cut, Concat(chunks));
    assert ws[..|ws|] == ws;
    assert p.frames == ws ==> Concat(chunks) == Concat(ws);
  }

  /** The network brings every byte in a completion of its own. */
  function Bytewise(s: seq<Byte>): seq<seq<Byte>> {
    if s == [] then [] else Bytewise(s[..|s| - 1]) + [[s[|s| - 1]]]
  }

  lemma {:induction false} BytewiseArrives(cut: Cutter, capacity: nat, ws: seq<seq<Byte>>, s: seq<Byte>)
    requires Sent(cut, ws) && s <= Concat(ws) && capacity > 0
    requires forall k: nat :: k < |ws| ==> |ws[k]| < capacity
    ensures Concat(Bytewise(s)) == s
    ensures Feasible(cut, capacity, Bytewise(s)) && Run(cut, capacity, Bytewise(s)).posted > 0
  {
    if s != [] {
      var n := |s| - 1;
      var before, last := Bytewise(s[..n]), [s[n]];
      BytewiseArrives(cut, capacity, ws, s[..n]);
      ConcatSnoc(before, last);
      assert s[..n] + last == s;
      RunSnoc(cut, capacity, before, last);
      assert s[..n] < Concat(ws);
      RestIsPart(cut, capacity, ws, before);
    }
  }

  /** Some chunking carries the whole stream through with the session still receiving if and only if every frame is
      shorter than the ring. */
  lemma SomeChunkingDelivers(cut: Cutter, capacity: nat, ws: seq<seq<Byte>>)
    requires Sent(cut, ws) && capacity > 0
    ensures (forall k: nat :: k < |ws| ==> |ws[k]| < capacity)
            <==> exists chunks :: Feasible(cut, capacity, chunks) && Concat(chunks) == Concat(ws)
                                  && Run(cut, capacity, chunks).posted > 0
  {
    if forall k: nat :: k < |ws| ==> |ws[k]| < capacity {
      BytewiseArrives(cut, capacity, ws, Concat(ws));
    } else {
      var k: nat :| k < |ws| && |ws[k]| >= capacity;
      forall chunks | Feasible(cut, capacity, chunks) && Concat(chunks) == Concat(ws)
        ensures Run(cut, capacity, chunks).posted <= 0
      {
        AllExtracted(cut, capacity, ws, chunks);
        NoLongFrame(cut, capacity, chunks, ws[k]);
      }
    }
  }

  lemma NeverMoreThanSent(cut: Cutter, capacity: nat, ws: seq<seq<Byte>>, chunks: seq<seq<Byte>>)
    requires Sent(cut, ws) && Concat(chunks) <= Concat(ws) && chunks != [] && Run(cut, capacity, chunks).posted <= 0
    ensures capacity <= |Concat(ws)|
  {
    var before, last := chunks[..|chunks| - 1], chunks[|chunks| - 1];
    NothingLost(cut, capacity, before);
    assert chunks == before + [last];
    ConcatSnoc(before, last);
  }

  /** And every chunking does if and only if the whole stream is shorter than the ring. */
  lemma EveryChunkingDelivers(cut: Cutter, capacity: nat, ws: seq<seq<Byte>>)
    requires Sent(cut, ws) && capacity > 0
    ensures |Concat(ws)| < capacity
            <==> forall chunks :: Feasible(cut, capacity, chunks) && Concat(chunks) <= Concat(ws) ==>
                                  Run(cut, capacity, chunks).posted > 0
  {
    if |Concat(ws)| < capacity {
      forall chunks | Feasible(cut, capacity, chunks) && Concat(chunks) <= Concat(ws)
        ensures Run(cut, capacity, chunks).posted > 0
      {
        if chunks != [] && Run(cut, capacity, chunks).posted <= 0 {
          NeverMoreThanSent(cut, capacity, ws, chunks);
        }
      }
    } else {
      var burst := Concat(ws)[..capacity];
      RunSnoc(cut, capacity, [], burst);
      ConcatOne(burst);
      assert [] + [burst] == [burst];
      assert Feasible(cut, capacity, [burst]) && Concat([burst]) <= Concat(ws);
    }
  }
}
