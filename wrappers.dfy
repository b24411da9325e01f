/** The optional value used throughout the model (Rust's `Option`). */
module Wrappers {
  datatype Option<+T> = None | Some(value: T)
}

/** The `Vec` operations the game calls, as functions over sequences. */
module Vecs {

  /** `Vec::contains`: a front-to-back scan for `x`. */
  function Contains<T(==)>(s: seq<T>, x: T): (found: bool)
    ensures found <==> x in s
    ensures found <==> exists k :: 0 <= k < |s| && s[k] == x
  {
    if |s| == 0 then false else s[0] == x || Contains(s[1..], x)
  }

  /** `Vec::remove(i)`: the element at `i` is taken out and the rest keep their order. */
  function RemoveAt<T>(s: seq<T>, i: nat): (r: seq<T>)
    requires i < |s|
    ensures |r| == |s| - 1
    ensures forall k :: 0 <= k < i ==> r[k] == s[k]
    ensures forall k :: i <= k < |r| ==> r[k] == s[k + 1]
  {
    s[..i] + s[i + 1..]
  }

  predicate NoDuplicates<T(==)>(s: seq<T>)
  {
    forall i, j :: 0 <= i < j < |s| ==> s[i] != s[j]
  }

  /** The elements of `s` whose flag is set, in their original order (a despawn pass). */
  function Keep<T>(s: seq<T>, keep: seq<bool>): (r: seq<T>)
    requires |keep| == |s|
    ensures |r| == |s| - CountFalse(keep)
    ensures forall x :: x in r ==> x in s
    ensures forall k :: 0 <= k < |s| && keep[k] ==> s[k] in r
  {
    if |s| == 0 then []
    else if keep[|s| - 1] then Keep(s[..|s| - 1], keep[..|keep| - 1]) + [s[|s| - 1]]
    else Keep(s[..|s| - 1], keep[..|keep| - 1])
  }

  /** Keeping preserves order: the kept part of `a + b` is the kept part of `a` followed by the kept part of `b`. */
  lemma {:induction false} KeepConcat<T>(a: seq<T>, ka: seq<bool>, b: seq<T>, kb: seq<bool>)
    requires |ka| == |a| && |kb| == |b|
    ensures Keep(a + b, ka + kb) == Keep(a, ka) + Keep(b, kb)
    decreases |b|
  {
    if |b| == 0 {
      assert a + b == a && ka + kb == ka;
    } else {
      var n := |b| - 1;
      assert (a + b)[..|a + b| - 1] == a + b[..n];
      assert (ka + kb)[..|ka + kb| - 1] == ka + kb[..n];
      KeepConcat(a, ka, b[..n], kb[..n]);
    }
  }

  /** How many flags are clear. */
  function CountFalse(flags: seq<bool>): (n: nat)
    ensures n <= |flags|
  {
    if |flags| == 0 then 0
    else CountFalse(flags[..|flags| - 1]) + (if flags[|flags| - 1] then 0 else 1)
  }
}
