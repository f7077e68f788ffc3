/**
 Tallies: vectors of counters that are summed over call stacks and threads.
 */
module Tallies {

  /** Holdings of frames on one slot.
      ref: references;  send: ownership of send_flag;  recv: the right to post a receive;  lock: the session lock;
      pre / mid / tear: ownership of the slot's index before it is counted, before its first reference, in teardown;
      early: teardown before the generation moved on;  preJoin: accepted but not announced;
      reserved: pending_send_count reserved, packet not enqueued;  credit: completed bytes not yet consumed;
      retryP / retryI: will still try send_post, seen from pending_sends / from in_flight_packets;
      canR / canS: still ahead of a flag check or cancel that covers a posted receive / send;
      past: past the flag check of recv_post or send_post, not yet posted;
      cbJ / cbR / cbS: inside on_client_join / on_recv / on_send;  pl: still ahead of post_leave;
      leave: about to run on_client_leave for the generation looked at;
      acc / dec: the accept thread is running / active_session_count not yet decremented. */
  datatype Tally = Tally(
    ref: nat, send: nat, recv: nat, lock: nat, pre: nat, mid: nat, tear: nat, early: nat, preJoin: nat,
    reserved: nat, credit: nat, retryP: nat, retryI: nat, canR: nat, canS: nat, past: nat,
    cbJ: nat, cbR: nat, cbS: nat, pl: nat, leave: nat, acc: nat, dec: nat)

  const ZERO := Tally(0, 0, 0, 0, 0, 0, 0, 0, 0, 0, 0, 0, 0, 0, 0, 0, 0, 0, 0, 0, 0, 0, 0)

  function Plus(a: Tally, b: Tally): Tally {
    Tally(a.ref + b.ref, a.send + b.send, a.recv + b.recv, a.lock + b.lock, a.pre + b.pre, a.mid + b.mid,
          a.tear + b.tear, a.early + b.early, a.preJoin + b.preJoin, a.reserved + b.reserved, a.credit + b.credit,
          a.retryP + b.retryP, a.retryI + b.retryI, a.canR + b.canR, a.canS + b.canS,
          a.past + b.past, a.cbJ + b.cbJ, a.cbR + b.cbR, a.cbS + b.cbS, a.pl + b.pl, a.leave + b.leave, a.acc + b.acc,
            a.dec + b.dec)
  }

  predicate Leq(a: Tally, b: Tally) {
    && a.ref <= b.ref && a.send <= b.send && a.recv <= b.recv && a.lock <= b.lock && a.pre <= b.pre
    && a.mid <= b.mid && a.tear <= b.tear && a.early <= b.early && a.preJoin <= b.preJoin
    && a.reserved <= b.reserved && a.credit <= b.credit && a.retryP <= b.retryP && a.retryI <= b.retryI
    && a.canR <= b.canR && a.canS <= b.canS && a.past <= b.past && a.cbJ <= b.cbJ
    && a.cbR <= b.cbR && a.cbS <= b.cbS && a.pl <= b.pl && a.leave <= b.leave
    && a.acc <= b.acc && a.dec <= b.dec
  }

  function Sum(ts: seq<Tally>): Tally {
    if ts == [] then ZERO else Plus(Sum(ts[..|ts| - 1]), ts[|ts| - 1])
  }

  function SumAll(tss: seq<seq<Tally>>): Tally {
    if tss == [] then ZERO else Plus(SumAll(tss[..|tss| - 1]), Sum(tss[|tss| - 1]))
  }

  /** Everything but entry t. */
  function Rest(tss: seq<seq<Tally>>, t: nat): Tally
    requires t < |tss|
  {
    if t == |tss| - 1 then SumAll(tss[..t]) else Plus(Rest(tss[..|tss| - 1], t), Sum(tss[|tss| - 1]))
  }

  lemma PlusSwap(a: Tally, b: Tally, c: Tally)
    ensures Plus(Plus(a, b), c) == Plus(Plus(a, c), b)
    ensures Plus(Plus(a, b), c) == Plus(a, Plus(b, c))
  {
  }

  lemma UpdatedLast<T>(s: seq<T>, x: T)
    requires s != []
    ensures s[|s| - 1 := x][..|s| - 1] == s[..|s| - 1]
  {
  }

  lemma UpdatedFront<T>(s: seq<T>, t: nat, x: T)
    requires t < |s| - 1
    ensures s[t := x][..|s| - 1] == s[..|s| - 1][t := x]
  {
  }

  lemma SumAllLast(tss: seq<seq<Tally>>, front: seq<seq<Tally>>, last: seq<Tally>)
    requires tss != [] && front == tss[..|tss| - 1] && last == tss[|tss| - 1]
    ensures SumAll(tss) == Plus(SumAll(front), Sum(last))
  {
  }

  lemma RestLast(tss: seq<seq<Tally>>, t: nat, front: seq<seq<Tally>>, last: seq<Tally>)
    requires t < |tss| - 1 && front == tss[..|tss| - 1] && last == tss[|tss| - 1]
    ensures Rest(tss, t) == Plus(Rest(front, t), Sum(last))
  {
  }

  lemma SumSplitLast(tss: seq<seq<Tally>>, ts: seq<Tally>)
    requires tss != []
    ensures SumAll(tss[|tss| - 1 := ts]) == Plus(Rest(tss, |tss| - 1), Sum(ts))
  {
    UpdatedLast(tss, ts);
  }

  lemma {:induction false} SumSplit(tss: seq<seq<Tally>>, t: nat, ts: seq<Tally>)
    requires t < |tss|
    ensures SumAll(tss[t := ts]) == Plus(Rest(tss, t), Sum(ts))
    decreases |tss|
  {
    if t == |tss| - 1 {
      SumSplitLast(tss, ts);
    } else {
      var front, last := tss[..|tss| - 1], tss[|tss| - 1];
      SumSplit(front, t, ts);
      UpdatedFront(tss, t, ts);
      SumAllLast(tss[t := ts], front[t := ts], last);
      RestLast(tss, t, front, last);
      PlusSwap(Rest(front, t), Sum(ts), Sum(last));
    }
  }

  lemma {:induction false} InSum(ts: seq<Tally>, k: nat)
    requires k < |ts|
    ensures Leq(ts[k], Sum(ts))
  {
    if k < |ts| - 1 {
      assert ts[..|ts| - 1][k] == ts[k];
      InSum(ts[..|ts| - 1], k);
    }
  }

  lemma {:induction false} InSumAll(tss: seq<seq<Tally>>, u: nat, k: nat)
    requires u < |tss| && k < |tss[u]|
    ensures Leq(tss[u][k], SumAll(tss))
  {
    if u == |tss| - 1 {
      InSum(tss[u], k);
    } else {
      InSumAll(tss[..|tss| - 1], u, k);
    }
  }

  lemma {:induction false} InRest(tss: seq<seq<Tally>>, t: nat, u: nat, k: nat)
    requires t < |tss| && u < |tss| && t != u && k < |tss[u]|
    ensures Leq(tss[u][k], Rest(tss, t))
    decreases |tss|
  {
    var n := |tss| - 1;
    if t == n {
      InSumAll(tss[..n], u, k);
    } else if u == n {
      InSum(tss[n], k);
    } else {
      InRest(tss[..n], t, u, k);
    }
  }

  /** Inequalities that hold for every frame, hence for every sum of frames. */
  predicate Balanced(a: Tally) {
    && a.recv <= a.ref && a.lock <= a.ref && a.reserved <= a.ref && a.cbJ + a.cbR + a.cbS <= a.ref
    && a.preJoin <= a.ref && a.preJoin <= a.recv
    && a.send <= a.retryI <= a.retryP <= a.ref && a.canR <= a.ref && a.canS <= a.ref
    && (a.send == 0 ==> a.credit == 0)
    && a.early <= a.tear && a.pl <= a.tear
  }

  lemma {:induction false} SumBalanced(ts: seq<Tally>)
    requires forall k :: 0 <= k < |ts| ==> Balanced(ts[k])
    ensures Balanced(Sum(ts))
  {
    if ts != [] {
      SumBalanced(ts[..|ts| - 1]);
    }
  }

  lemma {:induction false} SumAllBalanced(tss: seq<seq<Tally>>)
    requires forall u, k :: 0 <= u < |tss| && 0 <= k < |tss[u]| ==> Balanced(tss[u][k])
    ensures Balanced(SumAll(tss))
  {
    if tss != [] {
      SumAllBalanced(tss[..|tss| - 1]);
      SumBalanced(tss[|tss| - 1]);
    }
  }

  lemma {:induction false} RestBalanced(tss: seq<seq<Tally>>, t: nat)
    requires t < |tss|
    requires forall u, k :: 0 <= u < |tss| && 0 <= k < |tss[u]| ==> Balanced(tss[u][k])
    ensures Balanced(Rest(tss, t))
    decreases |tss|
  {
    var n := |tss| - 1;
    if t == n {
      SumAllBalanced(tss[..n]);
    } else {
      RestBalanced(tss[..n], t);
      SumBalanced(tss[n]);
    }
  }

  /** Pointwise: what owns an index before its first reference is an accept loop. */
  predicate Covered(a: seq<seq<Tally>>, b: seq<seq<Tally>>) {
    && |a| == |b|
    && (forall u :: 0 <= u < |a| ==> |a[u]| == |b[u]|)
    && (forall u, k :: 0 <= u < |a| && 0 <= k < |a[u]| ==> a[u][k].pre + a[u][k].mid <= b[u][k].acc)
  }

  lemma {:induction false} SumCovered(a: seq<Tally>, b: seq<Tally>)
    requires |a| == |b| && forall k :: 0 <= k < |a| ==> a[k].pre + a[k].mid <= b[k].acc
    ensures Sum(a).pre + Sum(a).mid <= Sum(b).acc
  {
    if a != [] {
      SumCovered(a[..|a| - 1], b[..|b| - 1]);
    }
  }

  lemma {:induction false} SumAllCovered(a: seq<seq<Tally>>, b: seq<seq<Tally>>)
    requires Covered(a, b)
    ensures SumAll(a).pre + SumAll(a).mid <= SumAll(b).acc
  {
    if a != [] {
      SumAllCovered(a[..|a| - 1], b[..|b| - 1]);
      SumCovered(a[|a| - 1], b[|b| - 1]);
    }
  }

  lemma PlusZero(a: Tally)
    ensures Plus(a, ZERO) == a && Plus(ZERO, a) == a
  {
  }

  lemma SumSingle(ts: seq<Tally>)
    requires |ts| == 1
    ensures Sum(ts) == ts[0]
  {
    assert ts[..0] == [];
  }

  lemma SumAllOne(tss: seq<seq<Tally>>)
    requires |tss| == 1 && |tss[0]| == 1
    ensures SumAll(tss) == tss[0][0]
  {
    SumSingle(tss[0]);
    assert tss[..0] == [];
    PlusZero(tss[0][0]);
  }

  lemma SumAllDropZero(tss: seq<seq<Tally>>, n: nat)
    requires |tss| == n + 1 && |tss[n]| == 1 && tss[n][0] == ZERO
    ensures SumAll(tss) == SumAll(tss[..n])
  {
    SumSingle(tss[n]);
    PlusZero(SumAll(tss[..n]));
  }

  /** One frame on every stack, and only the first holds anything. */
  lemma {:induction false} SumAllSingles(tss: seq<seq<Tally>>)
    requires tss != [] && |tss[0]| == 1
    requires forall u :: 0 < u < |tss| ==> tss[u] == [ZERO]
    ensures SumAll(tss) == tss[0][0]
  {
    var n := |tss| - 1;
    if n == 0 {
      SumAllOne(tss);
    } else {
      SumAllDropZero(tss, n);
      SumAllSingles(tss[..n]);
      assert tss[..n][0] == tss[0];
    }
  }

  datatype Field = RetryP | CanR | CanS | PreJoin

  function Get(t: Tally, w: Field): nat {
    match w
    case RetryP => t.retryP
    case CanR => t.canR
    case CanS => t.canS
    case PreJoin => t.preJoin
  }

  /** A positive count has somebody behind it. */
  lemma {:induction false} SomeHolder(tss: seq<seq<Tally>>, w: Field) returns (u: nat, k: nat)
    requires Get(SumAll(tss), w) > 0
    ensures u < |tss| && k < |tss[u]| && Get(tss[u][k], w) > 0
  {
    var n := |tss| - 1;
    if Get(Sum(tss[n]), w) > 0 {
      u := n;
      k := SomeHolderIn(tss[n], w);
    } else {
      u, k := SomeHolder(tss[..n], w);
    }
  }

  lemma {:induction false} SomeHolderIn(ts: seq<Tally>, w: Field) returns (k: nat)
    requires Get(Sum(ts), w) > 0
    ensures k < |ts| && Get(ts[k], w) > 0
  {
    if Get(ts[|ts| - 1], w) > 0 {
      k := |ts| - 1;
    } else {
      k := SomeHolderIn(ts[..|ts| - 1], w);
    }
  }
}
