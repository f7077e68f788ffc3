/**
 The packet cipher (obfuscator.cpp): two chained passes over the bytes in place, each byte mixed with the
 previous output (forward) or the previous input (reverse), the key and the position modulo 256.
 */
module Obfuscator {
  import opened Bytes

  /** The position counter of the byte at index i: it starts at 1 and wraps at 256. */
  function Position(i: nat): Byte {
    if i == 0 then 1 else Position(i - 1) + 1
  }

  lemma {:induction false} PositionIsCast(i: nat)
    ensures Position(i) == LowByte(i + 1)
  {
    if i > 0 {
      PositionIsCast(i - 1);
    } else {
      assert LowByte(0) == 0;
    }
  }

  /** One byte mixed with the previous one, the key and the position, all modulo 256. */
  function Mixed(current: Byte, previous: Byte, key: Byte, position: Byte): Byte {
    current ^ (previous + key + position)
  }

  function Mix(current: Byte, previous: Byte, key: Byte, i: nat): Byte {
    Mixed(current, previous, key, Position(i))
  }

  method PositionOf(i: nat) returns (position: Byte)
    ensures position == Position(i)
  {
    position := LowByte(i + 1);
    PositionIsCast(i);
  }

  function LastByte(s: seq<Byte>): Byte {
    if s == [] then 0 else s[|s| - 1]
  }

  function Forward(s: seq<Byte>, key: Byte): (r: seq<Byte>)
    ensures |r| == |s|
  {
    if s == [] then []
    else
      var n := |s| - 1;
      var done := Forward(s[..n], key);
      done + [Mix(s[n], LastByte(done), key, n)]
  }

  function Reverse(s: seq<Byte>, key: Byte): (r: seq<Byte>)
    ensures |r| == |s|
  {
    if s == [] then []
    else
      var n := |s| - 1;
      Reverse(s[..n], key) + [Mix(s[n], LastByte(s[..n]), key, n)]
  }

  function Obfuscate(s: seq<Byte>, fixedKey: Byte, randomKey: Byte): (r: seq<Byte>)
    ensures |r| == |s|
  {
    Forward(Forward(s, randomKey), fixedKey)
  }

  function Deobfuscate(s: seq<Byte>, fixedKey: Byte, randomKey: Byte): (r: seq<Byte>)
    ensures |r| == |s|
  {
    Reverse(Reverse(s, fixedKey), randomKey)
  }

  lemma ForwardGrows(s: seq<Byte>, key: Byte, i: nat)
    requires i < |s|
    ensures var done := Forward(s[..i], key); Forward(s[..i + 1], key) == done + [Mix(s[i], LastByte(done), key, i)]
  {
    assert s[..i + 1][..i] == s[..i];
  }

  lemma ReverseGrows(s: seq<Byte>, key: Byte, i: nat)
    requires i < |s|
    ensures Reverse(s[..i + 1], key) == Reverse(s[..i], key) + [Mix(s[i], LastByte(s[..i]), key, i)]
  {
    assert s[..i + 1][..i] == s[..i];
  }

  // ---------------------------------------------------------------- the loops

  /** Replacing the byte behind what is done. */
  lemma OneDone(head: seq<Byte>, done: seq<Byte>, rest: seq<Byte>, tail: seq<Byte>, b: Byte)
    requires rest != []
    ensures var all := head + done + rest + tail;
      && |head| + |done| < |all| && all[|head| + |done|] == rest[0]
      && all[|head| + |done| := b] == head + (done + [b]) + rest[1..] + tail
  {
  }

  lemma Whole(a: seq<Byte>, lo: nat, length: nat)
    requires lo + length <= |a|
    ensures a == a[..lo] + [] + a[lo..lo + length] + a[lo + length..]
  {
  }

  lemma Pieces(head: seq<Byte>, done: seq<Byte>, tail: seq<Byte>, all: seq<Byte>)
    requires all == head + done + [] + tail
    ensures var n := |head| + |done|;
      n <= |all| && all[..|head|] == head && all[|head|..n] == done && all[n..] == tail
  {
  }

  method ForwardPass(a: array<Byte>, lo: nat, length: nat, key: Byte)
    requires lo + length <= a.Length
    modifies a
    ensures a[lo..lo + length] == Forward(old(a[lo..lo + length]), key)
    ensures a[..lo] == old(a[..lo]) && a[lo + length..] == old(a[lo + length..])
  {
    var previous: Byte := 0;
    ghost var head, input, tail := a[..lo], a[lo..lo + length], a[lo + length..];
    Whole(a[..], lo, length);
    for i := 0 to length
      invariant a[..] == head + Forward(input[..i], key) + input[i..] + tail
      invariant previous == LastByte(Forward(input[..i], key))
    {
      ghost var done := Forward(input[..i], key);
      var position := PositionOf(i);
      OneDone(head, done, input[i..], tail, Mixed(input[i], previous, key, position));
      ForwardGrows(input, key, i);
      assert a[lo + i] == a[..][lo + i];
      ghost var before := a[..];
      var current := a[lo + i];
      var result := Mixed(current, previous, key, position);
      a[lo + i] := result;
      assert a[..] == before[lo + i := result];
      previous := result;
      assert input[i..][1..] == input[i + 1..];
    }
    assert input[..length] == input;
    Pieces(head, Forward(input, key), tail, a[..]);
  }

  method ReversePass(a: array<Byte>, lo: nat, length: nat, key: Byte)
    requires lo + length <= a.Length
    modifies a
    ensures a[lo..lo + length] == Reverse(old(a[lo..lo + length]), key)
    ensures a[..lo] == old(a[..lo]) && a[lo + length..] == old(a[lo + length..])
  {
    var previous: Byte := 0;
    ghost var head, input, tail := a[..lo], a[lo..lo + length], a[lo + length..];
    Whole(a[..], lo, length);
    for i := 0 to length
      invariant a[..] == head + Reverse(input[..i], key) + input[i..] + tail
      invariant previous == LastByte(input[..i])
    {
      ghost var done := Reverse(input[..i], key);
      var position := PositionOf(i);
      OneDone(head, done, input[i..], tail, Mixed(input[i], previous, key, position));
      ReverseGrows(input, key, i);
      assert a[lo + i] == a[..][lo + i];
      ghost var before := a[..];
      var current := a[lo + i];
      var result := Mixed(current, previous, key, position);
      a[lo + i] := result;
      assert a[..] == before[lo + i := result];
      previous := current;
      assert input[i..][1..] == input[i + 1..];
    }
    assert input[..length] == input;
    Pieces(head, Reverse(input, key), tail, a[..]);
  }

  method ObfuscateInPlace(a: array<Byte>, lo: nat, length: nat, fixedKey: Byte, randomKey: Byte)
    requires lo + length <= a.Length
    modifies a
    ensures a[lo..lo + length] == Obfuscate(old(a[lo..lo + length]), fixedKey, randomKey)
    ensures a[..lo] == old(a[..lo]) && a[lo + length..] == old(a[lo + length..])
  {
    ForwardPass(a, lo, length, randomKey);
    ForwardPass(a, lo, length, fixedKey);
  }

  method DeobfuscateInPlace(a: array<Byte>, lo: nat, length: nat, fixedKey: Byte, randomKey: Byte)
    requires lo + length <= a.Length
    modifies a
    ensures a[lo..lo + length] == Deobfuscate(old(a[lo..lo + length]), fixedKey, randomKey)
    ensures a[..lo] == old(a[..lo]) && a[lo + length..] == old(a[lo + length..])
  {
    ReversePass(a, lo, length, fixedKey);
    ReversePass(a, lo, length, randomKey);
  }

  // ---------------------------------------------------------------- a bijection

  lemma XorTwice(a: Byte, b: Byte)
    ensures (a ^ b) ^ b == a
  {
  }

  lemma MixTwice(a: Byte, previous: Byte, key: Byte, i: nat)
    ensures Mix(Mix(a, previous, key, i), previous, key, i) == a
  {
    XorTwice(a, previous + key + Position(i));
  }

  lemma {:induction false} ReverseUndoesForward(s: seq<Byte>, key: Byte)
    ensures Reverse(Forward(s, key), key) == s
  {
    if s != [] {
      var n, sent := |s| - 1, Forward(s, key);
      var done := Forward(s[..n], key);
      ReverseUndoesForward(s[..n], key);
      assert sent[..n] == done && sent[..n + 1] == sent;
      ReverseGrows(sent, key, n);
      MixTwice(s[n], LastByte(done), key, n);
      assert s == s[..n] + [s[n]];
    }
  }

  lemma {:induction false} ForwardUndoesReverse(s: seq<Byte>, key: Byte)
    ensures Forward(Reverse(s, key), key) == s
  {
    if s != [] {
      var n, sent := |s| - 1, Reverse(s, key);
      ForwardUndoesReverse(s[..n], key);
      assert sent[..n] == Reverse(s[..n], key) && sent[..n + 1] == sent;
      ForwardGrows(sent, key, n);
      MixTwice(s[n], LastByte(s[..n]), key, n);
      assert s == s[..n] + [s[n]];
    }
  }

  /** Each direction undoes the other, for every pair of keys and every length. */
  lemma CipherRoundTrip(s: seq<Byte>, fixedKey: Byte, randomKey: Byte)
    ensures Deobfuscate(Obfuscate(s, fixedKey, randomKey), fixedKey, randomKey) == s
    ensures Obfuscate(Deobfuscate(s, fixedKey, randomKey), fixedKey, randomKey) == s
  {
    ReverseUndoesForward(Forward(s, randomKey), fixedKey);
    ReverseUndoesForward(s, randomKey);
    ForwardUndoesReverse(Reverse(s, fixedKey), randomKey);
    ForwardUndoesReverse(s, fixedKey);
  }

  // ---------------------------------------------------------------- how far a byte reaches

  /** A reverse pass looks at one byte back. */
  lemma {:induction false} ReverseIsLocal(s: seq<Byte>, t: seq<Byte>, key: Byte, i: nat)
    requires i < |s| && i < |t| && s[i] == t[i] && (i > 0 ==> s[i - 1] == t[i - 1])
    ensures Reverse(s, key)[i] == Reverse(t, key)[i]
    decreases |s| + |t|
  {
    if i < |s| - 1 {
      ReverseIsLocal(s[..|s| - 1], t, key, i);
    } else if i < |t| - 1 {
      ReverseIsLocal(s, t[..|t| - 1], key, i);
    }
  }

  /** Output byte i of deobfuscate depends on input bytes i-2 to i alone. */
  lemma DeobfuscateIsLocal(s: seq<Byte>, t: seq<Byte>, fixedKey: Byte, randomKey: Byte, i: nat)
    requires i < |s| && i < |t|
    requires forall k :: 0 <= k && i - 2 <= k <= i ==> s[k] == t[k]
    ensures Deobfuscate(s, fixedKey, randomKey)[i] == Deobfuscate(t, fixedKey, randomKey)[i]
  {
    ReverseIsLocal(s, t, fixedKey, i);
    if i > 0 {
      ReverseIsLocal(s, t, fixedKey, i - 1);
    }
    ReverseIsLocal(Reverse(s, fixedKey), Reverse(t, fixedKey), randomKey, i);
  }

  /** A forward pass works from left to right. */
  lemma {:induction false} ForwardPrefix(s: seq<Byte>, key: Byte, i: nat)
    requires i <= |s|
    ensures Forward(s, key)[..i] == Forward(s[..i], key)
  {
    if i == |s| {
      assert s[..i] == s;
    } else {
      var n := |s| - 1;
      ForwardPrefix(s[..n], key, i);
      assert s[..n][..i] == s[..i];
      assert Forward(s, key)[..i] == Forward(s[..n], key)[..i];
    }
  }

  lemma MixDiffers(a: Byte, b: Byte, previous: Byte, key: Byte, i: nat)
    requires a != b
    ensures Mix(a, previous, key, i) != Mix(b, previous, key, i)
  {
    MixTwice(a, previous, key, i);
    MixTwice(b, previous, key, i);
  }

  predicate DifferFirstAt(s: seq<Byte>, t: seq<Byte>, i: nat) {
    i < |s| && i < |t| && s[..i] == t[..i] && s[i] != t[i]
  }

  lemma ForwardAt(s: seq<Byte>, key: Byte, i: nat)
    requires i < |s|
    ensures Forward(s, key)[i] == Mix(s[i], LastByte(Forward(s[..i], key)), key, i)
  {
    ForwardPrefix(s, key, i + 1);
    ForwardGrows(s, key, i);
    assert Forward(s, key)[i] == Forward(s, key)[..i + 1][i];
  }

  lemma ForwardKeepsFirstDifference(s: seq<Byte>, t: seq<Byte>, key: Byte, i: nat)
    requires DifferFirstAt(s, t, i)
    ensures DifferFirstAt(Forward(s, key), Forward(t, key), i)
  {
    ForwardPrefix(s, key, i);
    ForwardPrefix(t, key, i);
    ForwardAt(s, key, i);
    ForwardAt(t, key, i);
    MixDiffers(s[i], t[i], LastByte(Forward(s[..i], key)), key, i);
  }

  /** Two plaintexts that first differ at byte i give ciphertexts that first differ at byte i. */
  lemma ObfuscateKeepsFirstDifference(s: seq<Byte>, t: seq<Byte>, fixedKey: Byte, randomKey: Byte, i: nat)
    requires DifferFirstAt(s, t, i)
    ensures DifferFirstAt(Obfuscate(s, fixedKey, randomKey), Obfuscate(t, fixedKey, randomKey), i)
  {
    ForwardKeepsFirstDifference(s, t, randomKey, i);
    ForwardKeepsFirstDifference(Forward(s, randomKey), Forward(t, randomKey), fixedKey, i);
  }
}
