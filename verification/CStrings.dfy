/**
 C strings in fixed-size character fields.
 */
module CStrings {
  const NUL: char := '\0'

  /** The text of a field: up to its first NUL, or all of it. */
  function Text(field: string): (r: string)
    ensures |r| <= |field| && r == field[..|r|] && NUL !in r
    ensures |r| < |field| ==> field[|r|] == NUL
  {
    if field == [] || field[0] == NUL then "" else [field[0]] + Text(field[1..])
  }

  lemma {:induction false} TextEndsBefore(field: string, k: nat)
    requires k < |field| && field[k] == NUL
    ensures |Text(field)| <= k
  {
    if k > 0 {
      TextEndsBefore(field[1..], k - 1);
    }
  }

  /** A C string's character at k, NUL behind its end. */
  function CharAt(s: string, k: nat): char {
    if k < |s| then s[k] else NUL
  }

  /** strncmp(a, b, n) == 0, from position k on. */
  predicate SameFrom(a: string, b: string, k: nat, n: nat)
    decreases n - k
  {
    k >= n || (CharAt(a, k) == CharAt(b, k) && (CharAt(a, k) == NUL || SameFrom(a, b, k + 1, n)))
  }

  lemma {:induction false} SameFromMeans(a: string, b: string, k: nat, n: nat)
    requires k <= |b| < n && NUL !in b
    ensures SameFrom(a, b, k, n) <==> forall j :: k <= j <= |b| ==> CharAt(a, j) == CharAt(b, j)
    decreases n - k
  {
    if k < |b| {
      assert b[k] in b;
      SameFromMeans(a, b, k + 1, n);
    }
  }

  lemma {:induction false} TextIs(field: string, key: string)
    requires |key| < |field| && NUL !in key
    ensures Text(field) == key <==> forall j :: 0 <= j <= |key| ==> CharAt(field, j) == CharAt(key, j)
  {
    if key == "" {
      assert Text(field) == key <==> CharAt(field, 0) == CharAt(key, 0);
    } else {
      var f, k := field[1..], key[1..];
      TextIs(f, k);
      assert forall j :: 0 <= j <= |k| ==> CharAt(f, j) == CharAt(field, j + 1) && CharAt(k, j) == CharAt(key, j + 1);
      assert key == [key[0]] + k && key[0] in key;
      assert (forall j :: 0 <= j <= |key| ==> CharAt(field, j) == CharAt(key, j)) <==>
        CharAt(field, 0) == CharAt(key, 0) && forall j :: 0 <= j <= |k| ==> CharAt(f, j) == CharAt(k, j) by {
        if forall j :: 0 <= j <= |k| ==> CharAt(f, j) == CharAt(k, j) {
          forall i | 1 <= i <= |key| ensures CharAt(field, i) == CharAt(key, i) {
            assert CharAt(f, i - 1) == CharAt(k, i - 1);
          }
        }
      }
    }
  }

  /** Comparing a field with a shorter constant compares its text. */
  lemma SameIsText(field: string, key: string, n: nat)
    requires |key| < n && NUL !in key && |field| == n
    ensures SameFrom(field, key, 0, n) <==> Text(field) == key
  {
    SameFromMeans(field, key, 0, n);
    TextIs(field, key);
  }
}
