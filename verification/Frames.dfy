/**
 Cutting a byte stream into frames.  The receive loops of both servers do this; they differ only in how the front of
 the stream is recognised, which is a parameter here.
 */
module Frames {
  import opened Bytes
  import opened Sequences

  /** What the front of a stream is: a whole frame, not enough bytes yet, or a wrong start. */
  datatype Cut = Frame(size: nat) | More | Wrong

  type Cutter = seq<Byte> -> Cut

  /** The frames at the front of a stream, what is left, and whether a wrong start was met. */
  datatype Parsed = Parsed(frames: seq<seq<Byte>>, rest: seq<Byte>, desync: bool)

  predicate Ready(cut: Cutter, s: seq<Byte>) {
    cut(s).Frame? && 0 < cut(s).size <= |s|
  }

  function Parse(cut: Cutter, s: seq<Byte>): Parsed
    decreases |s|
  {
    if Ready(cut, s) then
      var n := cut(s).size;
      var p := Parse(cut, s[n..]);
      Parsed([s[..n]] + p.frames, p.rest, p.desync)
    else Parsed([], s, cut(s).Wrong?)
  }

  /** Nothing is lost, everything whole is taken, and a wrong start is noticed. */
  lemma {:induction false} ParseExact(cut: Cutter, s: seq<Byte>)
    ensures var p := Parse(cut, s);
      Concat(p.frames) + p.rest == s && !Ready(cut, p.rest) && (p.desync <==> cut(p.rest).Wrong?)
    decreases |s|
  {
    if Ready(cut, s) {
      var head, tail := s[..cut(s).size], s[cut(s).size..];
      var p := Parse(cut, tail);
      ParseExact(cut, tail);
      ConcatCons(head, p.frames);
      Reassociate(head, Concat(p.frames), p.rest);
      assert head + tail == s;
    }
  }

  /** Taking the first frame off leaves the parse of what follows. */
  lemma ParseHead(cut: Cutter, s: seq<Byte>, frames: seq<seq<Byte>>, m: nat)
    requires Ready(cut, s) && m <= |frames| && Parse(cut, s).frames == frames[m..]
    ensures var n, p := cut(s).size, Parse(cut, s);
      && m < |frames| && frames[m] == s[..n]
      && Parse(cut, s[n..]) == Parsed(frames[m + 1..], p.rest, p.desync)
  {
    var n, p := cut(s).size, Parse(cut, s);
    var q := Parse(cut, s[n..]);
    assert p.frames == [s[..n]] + q.frames;
    assert frames[m] == frames[m..][0];
    assert frames[m + 1..] == frames[m..][1..] == q.frames;
  }

  lemma SplitFrame(stream: seq<Byte>, h: nat, n: nat)
    requires h + n <= |stream|
    ensures stream[..h] + stream[h..][..n] == stream[..h + n]
    ensures stream[h..][n..] == stream[h + n..]
  {
  }

  /** What has been recognised stays recognised when more bytes arrive. */
  ghost predicate Stable(cut: Cutter) {
    forall s: seq<Byte>, t: seq<Byte> ::
      && (Ready(cut, s) ==> cut(s + t) == cut(s))
      && (cut(s).Wrong? ==> cut(s + t).Wrong?)
  }

  /** More bytes only add frames: parsing goes on from where it stopped. */
  lemma {:induction false} ParseAppend(cut: Cutter, s: seq<Byte>, t: seq<Byte>)
    requires Stable(cut)
    ensures var p := Parse(cut, s);
      var q := Parse(cut, p.rest + t);
      Parse(cut, s + t) == Parsed(p.frames + q.frames, q.rest, q.desync)
    decreases |s|
  {
    if Ready(cut, s) {
      var n := cut(s).size;
      assert cut(s + t) == cut(s);
      assert (s + t)[..n] == s[..n] && (s + t)[n..] == s[n..] + t;
      ParseAppend(cut, s[n..], t);
      var p := Parse(cut, s[n..]);
      var q := Parse(cut, p.rest + t);
      assert [s[..n]] + (p.frames + q.frames) == ([s[..n]] + p.frames) + q.frames;
    }
  }

  /** Once the stream is out of step it stays so: nothing more is extracted. */
  lemma DesyncStays(cut: Cutter, s: seq<Byte>, t: seq<Byte>)
    requires Stable(cut) && cut(s).Wrong?
    ensures Parse(cut, s + t) == Parsed([], s + t, true)
  {
    assert cut(s + t).Wrong?;
  }

  /** A frame is recognised exactly when its last byte is there. */
  ghost predicate Framed(cut: Cutter, w: seq<Byte>) {
    && w != []
    && (forall t: seq<Byte> :: cut(w + t) == Frame(|w|))
    && (forall s: seq<Byte> :: s < w ==> cut(s).More?)
  }

  ghost predicate AllFramed(cut: Cutter, ws: seq<seq<Byte>>) {
    forall k :: 0 <= k < |ws| ==> Framed(cut, ws[k])
  }

  /** Parsing any front part of a sent stream gives frames that were sent, in order, and leaves less than the next. */
  lemma {:induction false} ParseSent(cut: Cutter, ws: seq<seq<Byte>>, s: seq<Byte>)
    requires AllFramed(cut, ws) && s <= Concat(ws) && cut([]).More?
    ensures var p := Parse(cut, s);
      && !p.desync && p.frames <= ws
      && (if |p.frames| < |ws| then |p.rest| < |ws[|p.frames|]| else p.rest == [])
    decreases |ws|
  {
    if ws == [] {
      assert s == [];
    } else {
      var w, more := ws[0], Concat(ws[1..]);
      assert Framed(cut, w);
      if |s| < |w| {
        assert s < w by {
          assert s == (w + more)[..|s|] == w[..|s|];
        }
      } else {
        var t := s[|w|..];
        assert s == w + t by {
          assert s[..|w|] == (w + more)[..|w|] == w;
        }
        assert t <= more by {
          assert t == (w + more)[|w|..|s|] == more[..|t|];
        }
        ParseSent(cut, ws[1..], t);
        var p := Parse(cut, t);
        assert Parse(cut, s).frames == [w] + p.frames;
        assert [w] + ws[1..] == ws;
      }
    }
  }

  /** Where frame k ends in the stream. */
  function EndOf(ws: seq<seq<Byte>>, k: nat): nat
    requires k < |ws|
  {
    |Concat(ws[..k + 1])|
  }

  lemma EndsGrow(ws: seq<seq<Byte>>, j: nat, k: nat)
    requires j <= k <= |ws|
    ensures |Concat(ws[..j])| <= |Concat(ws[..k])|
  {
    assert ws[..k] == ws[..j] + ws[j..k];
    ConcatAppend(ws[..j], ws[j..k]);
  }

  /** With m frames and less than another one there, the frames that have ended are the first m. */
  lemma EndedAreFirst(ws: seq<seq<Byte>>, m: nat, rest: nat, k: nat)
    requires m <= |ws| && k < |ws| && (m < |ws| ==> rest < |ws[m]|)
    ensures k < m <==> EndOf(ws, k) <= |Concat(ws[..m])| + rest
  {
    if k < m {
      EndsGrow(ws, k + 1, m);
    } else {
      assert ws[..m + 1] == ws[..m] + [ws[m]];
      ConcatSnoc(ws[..m], ws[m]);
      EndsGrow(ws, m + 1, k + 1);
    }
  }

  /** A frame is taken from a sent stream exactly when its last byte has arrived. */
  lemma TakenWhenWhole(cut: Cutter, ws: seq<seq<Byte>>, s: seq<Byte>, k: nat)
    requires AllFramed(cut, ws) && s <= Concat(ws) && cut([]).More? && k < |ws|
    ensures k < |Parse(cut, s).frames| <==> EndOf(ws, k) <= |s|
  {
    var p := Parse(cut, s);
    ParseSent(cut, ws, s);
    ParseExact(cut, s);
    assert p.frames == ws[..|p.frames|];
    EndedAreFirst(ws, |p.frames|, |p.rest|, k);
  }
}
