/** Vocabulary shared by the models: options, bytes, duplicate-free sequences and
    the kernel's "remove this element from the queue" operation. */
module Common {

  datatype Option<+T> = None | Some(value: T)

  type Byte = x: int | 0 <= x < 256

  // An error that a request can end with.
  type Errno = x: int | x != 0 witness 5

  function Zeros(k: nat): (z: seq<Byte>)
    ensures |z| == k && forall i | 0 <= i < k :: z[i] == 0
  {
    seq(k, _ => 0)
  }

  function Min(a: int, b: int): int { if a < b then a else b }

  ghost predicate Distinct<T>(s: seq<T>) {
    forall i, j :: 0 <= i < j < |s| ==> s[i] != s[j]
  }

  // TAILQ_REMOVE / STAILQ_REMOVE: unlink the first occurrence, keep the order.
  function Remove<T(==)>(s: seq<T>, x: T): (r: seq<T>) {
    if s == [] then [] else if s[0] == x then s[1..] else [s[0]] + Remove(s[1..], x)
  }

  ghost function Elements<T>(s: seq<T>): set<T> { set x | x in s }

  lemma {:induction false} RemoveElements<T>(s: seq<T>, x: T)
    requires Distinct(s)
    ensures Distinct(Remove(s, x)) && x !in Remove(s, x)
    ensures forall y :: y in Remove(s, x) ==> y in s
    ensures forall y :: y in s && y != x ==> y in Remove(s, x)
    ensures x in s ==> |Remove(s, x)| == |s| - 1
    ensures x !in s ==> Remove(s, x) == s
  {
    if s != [] && s[0] != x {
      RemoveElements(s[1..], x);
      assert s == [s[0]] + s[1..];
      var r := Remove(s[1..], x);
      forall i, j | 0 <= i < j < |r| + 1
        ensures ([s[0]] + r)[i] != ([s[0]] + r)[j]
      {
        var y := r[j - 1];
        assert y in Remove(s[1..], x);
        assert y in s[1..];
      }
    } else if s != [] {
      assert s == [s[0]] + s[1..];
    }
  }

  // Unlinking at a known position is Remove, when the queue has no duplicates.
  lemma {:induction false} RemoveAt<T>(s: seq<T>, k: nat)
    requires k < |s| && Distinct(s)
    ensures Remove(s, s[k]) == s[..k] + s[k+1..]
  {
    if k > 0 {
      RemoveAt(s[1..], k - 1);
      assert s[1..][..k-1] == s[1..k] && s[1..][k..] == s[k+1..];
    }
  }

  lemma DistinctAppend<T>(s: seq<T>, x: T)
    requires Distinct(s) && x !in s
    ensures Distinct(s + [x])
    ensures forall y :: y in s + [x] <==> y in s || y == x
  {}

  lemma {:induction false} DistinctSize<T>(s: seq<T>)
    requires Distinct(s)
    ensures |Elements(s)| == |s|
  {
    if s == [] {
      assert Elements(s) == {};
    } else {
      DistinctSize(s[1..]);
      assert s == [s[0]] + s[1..];
      assert Elements(s) == {s[0]} + Elements(s[1..]);
    }
  }

  lemma {:induction false} Bounded(S: set<nat>) returns (b: nat)
    ensures forall x | x in S :: x < b
    decreases |S|
  {
    b := 0;
    if S != {} {
      var x :| x in S;
      b := Bounded(S - {x});
      assert forall y | y in S :: y == x || y in S - {x};
      if b <= x { b := x + 1; }
    }
  }
}
