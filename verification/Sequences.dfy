/**
 Sequences of sequences, and sequences of tagged values.
 */
module Sequences {
  function Concat<T>(parts: seq<seq<T>>): seq<T> {
    if parts == [] then [] else parts[0] + Concat(parts[1..])
  }

  lemma Reassociate<T>(a: seq<T>, b: seq<T>, c: seq<T>)
    ensures (a + b) + c == a + (b + c)
  {
  }

  lemma ConcatCons<T>(part: seq<T>, parts: seq<seq<T>>)
    ensures Concat([part] + parts) == part + Concat(parts)
  {
    assert ([part] + parts)[1..] == parts;
  }

  lemma ConcatOne<T>(part: seq<T>)
    ensures Concat([part]) == part
  {
    assert [part][1..] == [];
    assert Concat([part][1..]) == [];
  }

  lemma {:induction false} ConcatAppend<T>(a: seq<seq<T>>, b: seq<seq<T>>)
    ensures Concat(a + b) == Concat(a) + Concat(b)
  {
    if a == [] {
      assert a + b == b;
    } else {
      assert a + b == [a[0]] + (a[1..] + b);
      ConcatCons(a[0], a[1..] + b);
      ConcatAppend(a[1..], b);
    }
  }

  lemma ConcatSnoc<T>(parts: seq<seq<T>>, part: seq<T>)
    ensures Concat(parts + [part]) == Concat(parts) + part
  {
    ConcatAppend(parts, [part]);
    ConcatOne(part);
  }

  lemma AddLeft<T>(h: multiset<T>, a: multiset<T>, p: multiset<T>, b: multiset<T>, q: multiset<T>)
    requires a + p == b + q
    ensures h + a + p == h + b + q
  {
    assert h + a + p == h + (a + p);
    assert h + b + q == h + (b + q);
  }

  lemma Cancel<T>(a: multiset<T>, b: multiset<T>, c: multiset<T>)
    requires a + c == b + c
    ensures a == b
  {
    assert a == a + c - c && b == b + c - c;
  }

  /** Putting one element behind one part adds just it. */
  lemma ConcatGrow<T>(parts: seq<seq<T>>, i: nat, x: T)
    requires i < |parts|
    ensures multiset(Concat(parts[i := parts[i] + [x]])) == multiset(Concat(parts)) + multiset{x}
  {
    var part := parts[i];
    var after := multiset(Concat(parts[i := part + [x]]));
    ConcatReplace(parts, i, part + [x]);
    assert multiset(part + [x]) == multiset{x} + multiset(part);
    assert multiset(Concat(parts)) + (multiset{x} + multiset(part))
        == (multiset(Concat(parts)) + multiset{x}) + multiset(part);
    Cancel(after, multiset(Concat(parts)) + multiset{x}, multiset(part));
  }

  /** Replacing one part exchanges its elements and no others. */
  lemma {:induction false} ConcatReplace<T>(parts: seq<seq<T>>, i: nat, part: seq<T>)
    requires i < |parts|
    ensures multiset(Concat(parts[i := part])) + multiset(parts[i]) == multiset(Concat(parts)) + multiset(part)
  {
    var after := parts[i := part];
    assert Concat(after) == after[0] + Concat(after[1..]);
    assert Concat(parts) == parts[0] + Concat(parts[1..]);
    if i == 0 {
      assert after[1..] == parts[1..];
    } else {
      var rest := parts[1..];
      assert after[1..] == rest[i - 1 := part] && rest[i - 1] == parts[i];
      ConcatReplace(rest, i - 1, part);
      var head, tail, tail' := multiset(parts[0]), multiset(Concat(rest)), multiset(Concat(after[1..]));
      assert multiset(Concat(after)) == head + tail' && multiset(Concat(parts)) == head + tail;
      AddLeft(head, tail', multiset(parts[i]), tail, multiset(part));
    }
  }

  /** A value and what it belongs to. */
  datatype Tagged<K, V> = Tagged(key: K, value: V)

  /** The values of one key, in order. */
  function For<K(==), V>(s: seq<Tagged<K, V>>, key: K): seq<V> {
    if s == [] then []
    else For(s[..|s| - 1], key) + (if s[|s| - 1].key == key then [s[|s| - 1].value] else [])
  }

  lemma ForOneMore<K, V>(s: seq<Tagged<K, V>>, x: Tagged<K, V>, key: K)
    ensures For(s + [x], key) == For(s, key) + (if x.key == key then [x.value] else [])
  {
    assert (s + [x])[..|s + [x]| - 1] == s;
  }

  lemma {:induction false} ForJoined<K, V>(a: seq<Tagged<K, V>>, b: seq<Tagged<K, V>>, key: K)
    ensures For(a + b, key) == For(a, key) + For(b, key)
  {
    if b == [] {
      assert a + b == a;
      assert For(a, key) + [] == For(a, key);
    } else {
      var front, last := b[..|b| - 1], b[|b| - 1];
      ForJoined(a, front, key);
      assert (a + b)[..|a + b| - 1] == a + front;
      Reassociate(For(a, key), For(front, key), if last.key == key then [last.value] else []);
    }
  }

  function Values<K, V>(s: seq<Tagged<K, V>>): seq<V> {
    if s == [] then [] else Values(s[..|s| - 1]) + [s[|s| - 1].value]
  }
}
