/** Vocabulary shared by every component: optional values, first-match search and counting. */
module Prelude {

  datatype Option<+T> = None | Some(value: T)

  /** Index of the first element satisfying `p`, or `|s|` when there is none. */
  function FindIndex<T>(s: seq<T>, p: T -> bool): (k: nat)
    ensures k <= |s|
    ensures k < |s| ==> p(s[k])
    ensures forall j :: 0 <= j < k ==> !p(s[j])
  {
    if s == [] then 0
    else if p(s[0]) then 0
    else
      var rest := FindIndex(s[1..], p);
      assert forall j :: 0 <= j < |s[1..]| ==> s[1..][j] == s[j + 1];
      1 + rest
  }

  /** `Array.prototype.slice(0, n)`. */
  function Take<T>(s: seq<T>, n: nat): seq<T> {
    if |s| <= n then s else s[..n]
  }

  /** `Array.prototype.filter`. */
  function Filter<T>(s: seq<T>, p: T -> bool): seq<T> {
    if s == [] then [] else (if p(s[0]) then [s[0]] else []) + Filter(s[1..], p)
  }

  /** The sequence with the element at `k` left out. */
  function Without<T>(s: seq<T>, k: nat): (r: seq<T>)
    requires k < |s|
    ensures |r| == |s| - 1
  {
    s[..k] + s[k + 1..]
  }

  function MaxReal(a: real, b: real): real { if a >= b then a else b }
  function MinReal(a: real, b: real): real { if a <= b then a else b }

  // === Text ===

  function Repeat(c: char, n: nat): (s: string)
    ensures |s| == n && forall k :: 0 <= k < n ==> s[k] == c
  {
    seq(n, _ => c)
  }

  function PadStart(s: string, width: nat, c: char): string {
    if |s| >= width then s else Repeat(c, width - |s|) + s
  }

  // === Counting ===

  function Count<T>(s: seq<T>, p: T -> bool): nat {
    if s == [] then 0 else (if p(s[0]) then 1 else 0) + Count(s[1..], p)
  }

  lemma {:induction false} CountAppend<T>(a: seq<T>, b: seq<T>, p: T -> bool)
    ensures Count(a + b, p) == Count(a, p) + Count(b, p)
  {
    if a == [] {
      assert a + b == b;
    } else {
      assert (a + b)[1..] == a[1..] + b;
      CountAppend(a[1..], b, p);
    }
  }

  lemma CountCons<T>(x: T, s: seq<T>, p: T -> bool)
    ensures Count([x] + s, p) == (if p(x) then 1 else 0) + Count(s, p)
  {
    assert ([x] + s)[1..] == s;
  }

  lemma CountTake<T>(s: seq<T>, n: nat, p: T -> bool)
    ensures Count(Take(s, n), p) <= Count(s, p)
  {
    if n < |s| {
      assert s == s[..n] + s[n..];
      CountAppend(s[..n], s[n..], p);
    }
  }

  lemma {:induction false} CountUpdate<T>(s: seq<T>, k: nat, v: T, p: T -> bool)
    requires k < |s|
    ensures Count(s[k := v], p) + (if p(s[k]) then 1 else 0) == Count(s, p) + (if p(v) then 1 else 0)
  {
    assert s == s[..k] + ([s[k]] + s[k + 1..]);
    assert s[k := v] == s[..k] + ([v] + s[k + 1..]);
    CountAppend(s[..k], [s[k]] + s[k + 1..], p);
    CountAppend(s[..k], [v] + s[k + 1..], p);
    CountCons(s[k], s[k + 1..], p);
    CountCons(v, s[k + 1..], p);
  }

  lemma CountRemove<T>(s: seq<T>, k: nat, p: T -> bool)
    requires k < |s|
    ensures Count(s[..k] + s[k + 1..], p) + (if p(s[k]) then 1 else 0) == Count(s, p)
  {
    CountInsert(s[..k], s[k], s[k + 1..], p);
    assert s == s[..k] + ([s[k]] + s[k + 1..]);
  }

  lemma CountInsert<T>(a: seq<T>, x: T, b: seq<T>, p: T -> bool)
    ensures Count(a + ([x] + b), p) == Count(a + b, p) + if p(x) then 1 else 0
  {
    CountAppend(a, [x] + b, p);
    CountAppend(a, b, p);
    CountCons(x, b, p);
  }

  /** Two sequences of one length: what the first counts, position by position, the second counts too. */
  lemma {:induction false} CountPointwise<T>(a: seq<T>, b: seq<T>, p: T -> bool, q: T -> bool)
    requires |a| == |b|
    requires forall k :: 0 <= k < |a| && p(a[k]) ==> q(b[k])
    ensures Count(a, p) <= Count(b, q)
  {
    if a != [] {
      assert forall k :: 0 <= k < |a[1..]| ==> a[1..][k] == a[k + 1] && b[1..][k] == b[k + 1];
      CountPointwise(a[1..], b[1..], p, q);
    }
  }

  lemma {:induction false} CountPositive<T>(s: seq<T>, k: nat, p: T -> bool)
    requires k < |s| && p(s[k])
    ensures Count(s, p) >= 1
  {
    if k > 0 { CountPositive(s[1..], k - 1, p); }
  }

  /** `Array.prototype.flatMap`. */
  function FlatMap<A, B>(s: seq<A>, f: A -> seq<B>): seq<B> {
    if s == [] then [] else FlatMap(s[..|s| - 1], f) + f(s[|s| - 1])
  }

  lemma {:induction false} FlatMapAppend<A, B>(a: seq<A>, b: seq<A>, f: A -> seq<B>)
    ensures FlatMap(a + b, f) == FlatMap(a, f) + FlatMap(b, f)
    decreases |b|
  {
    if b == [] {
      assert a + b == a;
    } else {
      FlatMapAppend(a, b[..|b| - 1], f);
      assert (a + b)[..|a + b| - 1] == a + b[..|b| - 1];
    }
  }

  lemma FlatMapOne<A, B>(x: A, f: A -> seq<B>)
    ensures FlatMap([x], f) == f(x)
  {
    assert [x][..0] == [];
    assert FlatMap([x], f) == FlatMap([x][..0], f) + f(x);
  }
}
