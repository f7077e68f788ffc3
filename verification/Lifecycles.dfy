/**
 What a lawful history says about the callbacks of one session, event by event.
 */
module Lifecycles {
  import opened EngineModel
  import opened EngineStory

  function GenOf(e: Event): nat {
    match e
    case Guess(g) => g
    case Join(g) => g
    case JoinEnd(g) => g
    case RecvBegin(g) => g
    case RecvEnd(g) => g
    case SendBegin(g) => g
    case SendEnd(g) => g
    case Tear(g) => g
    case Grouped(g, _) => g
    case PostLeave(g, _) => g
    case Leave(g) => g
  }

  lemma InPrefix(h: seq<Event>, e: Event, a: nat, b: nat)
    requires a <= b <= |h| && e in h[..a]
    ensures e in h[..b]
  {
    var k :| 0 <= k < a && h[..a][k] == e;
    assert h[..b][k] == e;
  }

  lemma Located(h: seq<Event>, e: Event, b: nat) returns (k: nat)
    requires b <= |h| && e in h[..b]
    ensures k < b && h[k] == e
  {
    k :| 0 <= k < b && h[..b][k] == e;
  }

  lemma {:induction false} PrefixLawful(h: seq<Event>, m: nat)
    requires Lifecycle(h) && m <= |h|
    ensures Lifecycle(h[..m])
  {
    if m == |h| {
      assert h[..m] == h;
    } else {
      PrefixLawful(h[..|h| - 1], m);
      assert h[..|h| - 1][..m] == h[..m];
    }
  }

  lemma LawfulAt(h: seq<Event>, k: nat)
    requires Lifecycle(h) && k < |h|
    ensures Lawful(h[..k], h[k])
  {
    PrefixLawful(h, k + 1);
    assert h[..k + 1][..k] == h[..k];
  }

  /** Nothing of a session follows its on_client_leave. */
  lemma LeaveIsLast(h: seq<Event>, a: nat, b: nat)
    requires Lifecycle(h) && a < b < |h| && h[a].Leave?
    ensures GenOf(h[b]) != GenOf(h[a])
  {
    var g := GenOf(h[a]);
    LawfulAt(h, a);
    LawfulAt(h, b);
    InPrefix(h, Tear(g), a, b);
    assert h[..b][a] == Leave(g);
  }

  lemma QuietStep(h: seq<Event>, e: Event, g: nat)
    requires Quiet(h, g) && Lawful(h, e) && (Tear(g) in h || e == Tear(g))
    ensures Quiet(h + [e], g)
  {
  }

  lemma TearQuiet(h: seq<Event>, g: nat)
    requires Lawful(h, Tear(g))
    ensures Quiet(h + [Tear(g)], g)
  {
    QuietStep(h, Tear(g), g);
  }

  /** After the teardown no callback of the session begins or ends. */
  lemma {:induction false} TornStaysQuiet(h: seq<Event>, g: nat)
    requires Lifecycle(h) && Tear(g) in h
    ensures Quiet(h, g)
  {
    var m := |h| - 1;
    var was, e := h[..m], h[m];
    assert h == was + [e];
    if Tear(g) in was {
      TornStaysQuiet(was, g);
      QuietStep(was, e, g);
    } else {
      TearQuiet(was, g);
    }
  }

  /** on_client_leave begins only after on_client_join and every on_recv and on_send of the session have finished. */
  lemma LeaveFindsQuiet(h: seq<Event>, k: nat)
    requires Lifecycle(h) && k < |h| && h[k].Leave?
    ensures var g := GenOf(h[k]); Join(g) in h[..k] && Quiet(h[..k], g)
  {
    var g := GenOf(h[k]);
    LawfulAt(h, k);
    var j := Located(h, Tear(g), k);
    LawfulAt(h, j);
    InPrefix(h, Join(g), j, k);
    PrefixLawful(h, k);
    TornStaysQuiet(h[..k], g);
  }

  predicate Unique(e: Event) {
    e.Join? || e.Tear? || e.PostLeave? || e.Leave?
  }

  /** A session joins, is torn down, leaves its group and leaves at most once. */
  lemma {:induction false} AtMostOnce(h: seq<Event>, e: Event)
    requires Lifecycle(h) && Unique(e)
    ensures Count(h, e) <= 1
  {
    if h != [] {
      var m := |h| - 1;
      assert h == h[..m] + [h[m]];
      AtMostOnce(h[..m], e);
    }
  }

  /** Every event of a session whose id nobody used before it was announced comes after its on_client_join. */
  lemma {:induction false} JoinFirst(h: seq<Event>, k: nat)
    requires Lifecycle(h) && k < |h| && Guess(GenOf(h[k])) !in h[..k + 1]
    ensures Join(GenOf(h[k])) in h[..k + 1]
  {
    var g := GenOf(h[k]);
    LawfulAt(h, k);
    assert h[..k + 1] == h[..k] + [h[k]];
    if h[k].RecvEnd? || h[k].SendEnd? || h[k].Grouped? || h[k].PostLeave? || h[k].Leave? {
      var cause :=
        match h[k]
        case RecvEnd(_) => RecvBegin(g)
        case SendEnd(_) => SendBegin(g)
        case PostLeave(_, q) => Grouped(g, q)
        case _ => Tear(g);
      var m := Located(h, cause, k);
      assert h[..m + 1] <= h[..k + 1];
      JoinFirst(h, m);
      InPrefix(h, Join(g), m + 1, k + 1);
    }
  }

  /** Whoever used its id: apart from on_send, no callback and no step of the teardown precedes the join. */
  lemma {:induction false} OthersFollowJoin(h: seq<Event>, k: nat)
    requires Lifecycle(h) && k < |h|
    ensures h[k].Guess? || h[k].SendBegin? || h[k].SendEnd? || Join(GenOf(h[k])) in h[..k + 1]
  {
    var g := GenOf(h[k]);
    LawfulAt(h, k);
    assert h[..k + 1] == h[..k] + [h[k]];
    if h[k].RecvEnd? || h[k].Grouped? || h[k].PostLeave? || h[k].Leave? {
      var cause :=
        match h[k]
        case RecvEnd(_) => RecvBegin(g)
        case PostLeave(_, q) => Grouped(g, q)
        case _ => Tear(g);
      var m := Located(h, cause, k);
      OthersFollowJoin(h, m);
      InPrefix(h, Join(g), m + 1, k + 1);
    }
  }

  lemma GroupsOnce(h: seq<Event>, a: nat, c: nat)
    requires Lifecycle(h) && a < |h| && c <= |h| && h[a].Grouped? && h[a] in h[..c]
    ensures a < c
  {
    LawfulAt(h, a);
    var d := Located(h, h[a], c);
  }

  /** A group hears of a departed generation before any later one joins on the same slot. */
  lemma LeaveBeforeReuse(h: seq<Event>, a: nat, b: nat)
    requires Lifecycle(h) && a < b < |h| && h[a].Grouped? && h[b].Join?
    ensures exists c :: a < c < b && h[c] == PostLeave(GenOf(h[a]), h[a].group)
  {
    var g, q := GenOf(h[a]), h[a].group;
    assert h[..b][a] == Grouped(g, q);
    LawfulAt(h, b);
    assert Grouped(g, q) in h[..b];
    var c := Located(h, PostLeave(g, q), b);
    LawfulAt(h, c);
    LawfulAt(h, a);
    InPrefix(h, Grouped(g, q), c, c);
    GroupsOnce(h, a, c);
    assert a < c < b && h[c] == PostLeave(g, q);
  }
}
