/** Option and Result values, and the Python exceptions the backend can raise. */
module Wrappers {

  datatype Option<+T> = None | Some(value: T) {
    function GetOr(default: T): T {
      match this
      case Some(v) => v
      case None => default
    }
  }

  /** An exception that escapes a handler or helper of the backend. */
  datatype PyError =
    | KeyError(key: string)
    | TypeError
    | AttributeError
    | ZeroDivisionError
    | NotFound(detail: string)
    | OperationFailed(detail: string)

  datatype Result<+T> = Ok(value: T) | Err(error: PyError) {
    predicate IsFailure() { Err? }
    function PropagateFailure<U>(): Result<U>
      requires Err?
    {
      Err(error)
    }
    function Extract(): T
      requires Ok?
    {
      value
    }
  }

  function Min(a: int, b: int): int { if a <= b then a else b }
  function Max(a: int, b: int): int { if a >= b then a else b }
  function MinReal(a: real, b: real): real { if a <= b then a else b }
  function MaxReal(a: real, b: real): real { if a >= b then a else b }

  /** Python's `int(x)` on a float: truncation toward zero. */
  function Trunc(x: real): (r: int)
    ensures x >= 0.0 ==> r as real <= x < r as real + 1.0
    ensures x < 0.0 ==> r as real - 1.0 < x <= r as real
  {
    if x >= 0.0 then x.Floor else -((-x).Floor)
  }

  /** The first `n` elements, as Python's `xs[:n]` for `n >= 0`. */
  function Take<T>(xs: seq<T>, n: nat): (r: seq<T>)
    ensures |r| == Min(n, |xs|)
    ensures r == xs[..|r|]
  {
    if n <= |xs| then xs[..n] else xs
  }

  /** Python's `xs[start:]` for any integer start, negative ones counting from the end. */
  function PySliceFrom<T>(xs: seq<T>, start: int): (r: seq<T>)
    ensures start >= 0 ==> r == xs[Min(start, |xs|)..]
    ensures start < 0 ==> r == xs[Max(0, |xs| + start)..]
  {
    var k := if start < 0 then Max(0, |xs| + start) else Min(start, |xs|);
    xs[k..]
  }

  /** The `Some` results of `f` over `xs`, in order: a list built by a loop that appends selectively. */
  function FilterMap<A, B>(xs: seq<A>, f: A -> Option<B>): (r: seq<B>)
    ensures |r| <= |xs|
  {
    if xs == [] then []
    else FilterMap(xs[..|xs| - 1], f) + (match f(xs[|xs| - 1]) case Some(b) => [b] case None => [])
  }

  lemma {:induction false} FilterMapAppend<A, B>(a: seq<A>, b: seq<A>, f: A -> Option<B>)
    ensures FilterMap(a + b, f) == FilterMap(a, f) + FilterMap(b, f)
    decreases |b|
  {
    if b == [] {
      assert a + b == a;
    } else {
      assert (a + b)[..|a + b| - 1] == a + b[..|b| - 1];
      FilterMapAppend(a, b[..|b| - 1], f);
    }
  }

  /** Every kept value comes from some element of the input. */
  lemma {:induction false} FilterMapFrom<A, B>(xs: seq<A>, f: A -> Option<B>, i: nat)
    requires i < |FilterMap(xs, f)|
    ensures exists j :: 0 <= j < |xs| && f(xs[j]) == Some(FilterMap(xs, f)[i])
  {
    var init := xs[..|xs| - 1];
    if i < |FilterMap(init, f)| {
      FilterMapFrom(init, f, i);
      var j :| 0 <= j < |init| && f(init[j]) == Some(FilterMap(init, f)[i]);
      assert xs[j] == init[j];
    }
  }

  /** The loop `for x in xs: y = f(x); if y is not None: r.append(y)`. */
  method Collect<A, B>(xs: seq<A>, f: A -> Option<B>) returns (r: seq<B>)
    ensures r == FilterMap(xs, f)
  {
    r := [];
    var i := 0;
    while i < |xs|
      invariant 0 <= i <= |xs|
      invariant r == FilterMap(xs[..i], f)
    {
      assert xs[..i + 1][..i] == xs[..i];
      var y := f(xs[i]);
      if y.Some? {
        r := r + [y.value];
      }
      i := i + 1;
    }
    assert xs[..i] == xs;
  }

  /** The loop `for x in xs: r.append(f(x))`. */
  method MapSeq<A, B>(xs: seq<A>, f: A -> B) returns (r: seq<B>)
    ensures |r| == |xs|
    ensures forall i :: 0 <= i < |xs| ==> r[i] == f(xs[i])
  {
    r := [];
    var i := 0;
    while i < |xs|
      invariant 0 <= i <= |xs| && |r| == i
      invariant forall k :: 0 <= k < i ==> r[k] == f(xs[k])
    {
      r := r + [f(xs[i])];
      i := i + 1;
    }
  }

  /** The loop `for i in range(n): r.append(f(i))`. */
  method Tabulate<T>(n: nat, f: nat --> T) returns (r: seq<T>)
    requires forall i :: 0 <= i < n ==> f.requires(i)
    ensures |r| == n
    ensures forall i :: 0 <= i < n ==> r[i] == f(i)
  {
    r := [];
    var i := 0;
    while i < n
      invariant 0 <= i <= n && |r| == i
      invariant forall k :: 0 <= k < i ==> r[k] == f(k)
    {
      r := r + [f(i)];
      i := i + 1;
    }
  }

  /** The loop `for i in range(len(a)): a[i] = f(a[i])`, rewriting every element in place. */
  method MapInPlace<T>(a: array<T>, f: T -> T)
    modifies a
    ensures forall m :: 0 <= m < a.Length ==> a[m] == f(old(a[m]))
  {
    var i := 0;
    while i < a.Length
      invariant 0 <= i <= a.Length
      invariant forall m :: 0 <= m < i ==> a[m] == f(old(a[m]))
      invariant forall m :: i <= m < a.Length ==> a[m] == old(a[m])
    {
      a[i] := f(a[i]);
      i := i + 1;
    }
  }

  /** `sum(1 for x in xs if p(x))`. */
  function CountIf<T>(xs: seq<T>, p: T -> bool): (n: nat)
    ensures n <= |xs|
  {
    if xs == [] then 0 else CountIf(xs[..|xs| - 1], p) + (if p(xs[|xs| - 1]) then 1 else 0)
  }

  lemma CountIfAppend<T>(xs: seq<T>, x: T, p: T -> bool)
    ensures CountIf(xs + [x], p) == CountIf(xs, p) + (if p(x) then 1 else 0)
  {
    assert (xs + [x])[..|xs|] == xs;
  }

  /** No element passes exactly when the count is 0, and every element passes exactly when it is the length. */
  lemma {:induction false} CountIfExtremes<T>(xs: seq<T>, p: T -> bool)
    ensures CountIf(xs, p) == 0 <==> forall i :: 0 <= i < |xs| ==> !p(xs[i])
    ensures CountIf(xs, p) == |xs| <==> forall i :: 0 <= i < |xs| ==> p(xs[i])
  {
    if xs != [] {
      var init := xs[..|xs| - 1];
      assert forall i :: 0 <= i < |init| ==> init[i] == xs[i];
      CountIfExtremes(init, p);
    }
  }

  /** Three tests of which every element passes exactly one split the elements among them. */
  lemma {:induction false} CountPartition<T>(xs: seq<T>, p: T -> bool, q: T -> bool, r: T -> bool)
    requires forall i :: 0 <= i < |xs| ==> (if p(xs[i]) then 1 else 0) + (if q(xs[i]) then 1 else 0) + (if r(xs[i]) then 1 else 0) == 1
    ensures CountIf(xs, p) + CountIf(xs, q) + CountIf(xs, r) == |xs|
  {
    if xs != [] {
      var init := xs[..|xs| - 1];
      assert forall i :: 0 <= i < |init| ==> init[i] == xs[i];
      CountPartition(init, p, q, r);
      assert 0 <= |xs| - 1 < |xs|;
    }
  }

  function Sum(xs: seq<real>): real {
    if xs == [] then 0.0 else xs[0] + Sum(xs[1..])
  }

  lemma {:induction false} SumAppend(xs: seq<real>, x: real)
    ensures Sum(xs + [x]) == Sum(xs) + x
  {
    if xs != [] {
      assert (xs + [x])[1..] == xs[1..] + [x];
      SumAppend(xs[1..], x);
    }
  }

  /** `f(0) + f(1) + ... + f(n - 1)`: the list a loop builds by extending it once per iteration. */
  function Concat<T>(f: nat -> seq<T>, n: nat): seq<T> {
    if n == 0 then [] else Concat(f, n - 1) + f(n - 1)
  }

  method ConcatLoop<T>(f: nat -> seq<T>, n: nat) returns (r: seq<T>)
    ensures r == Concat(f, n)
  {
    r := [];
    var i := 0;
    while i < n
      invariant 0 <= i <= n
      invariant r == Concat(f, i)
    {
      r := r + f(i);
      i := i + 1;
    }
  }

  lemma {:induction false} ConcatLength<T>(f: nat -> seq<T>, n: nat, k: nat)
    requires forall i :: 0 <= i < n ==> |f(i)| == k
    ensures |Concat(f, n)| == k * n
  {
    if n > 0 {
      ConcatLength(f, n - 1, k);
      assert |f(n - 1)| == k;
    }
  }

  lemma {:induction false} ConcatEvery<T>(f: nat -> seq<T>, n: nat, p: T -> bool)
    requires forall i, x :: 0 <= i < n && x in f(i) ==> p(x)
    ensures forall x :: x in Concat(f, n) ==> p(x)
  {
    if n > 0 {
      ConcatEvery(f, n - 1, p);
      assert forall x :: x in f(n - 1) ==> p(x);
    }
  }
}
