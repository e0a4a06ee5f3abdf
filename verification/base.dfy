/**
  Shared wrappers for the conversion of a prefecture weather forecast
  bulletin: an optional value, an opaque timestamp, and the three ways a
  conversion can end (a value, a returned error, or a panic).
*/
module Base {

  datatype Option<+T> = None | Some(value: T)

  /** A chrono `DateTime<Local>`: parsed by the deserialiser, carried, never inspected. */
  datatype DateTime = DateTime(text: string)

  /** The `anyhow` errors the conversion returns. */
  datatype ErrorKind =
    | InvalidPropertyCount                // "invalid count of property"
    | MissingSubPart                      // "Property has no some property"
    | UnknownTimeSeriesType(tag: string)  // "unknown TimeSeriesInfo::_type {tag}"

  /** The panics the conversion can raise: a failed `assert_eq!(left, right)`,
      and indexing into an empty vector. */
  datatype PanicKind =
    | AssertEqFailed(left: string, right: string)
    | IndexOutOfBounds

  /** An error is returned to the caller; a panic unwinds the whole call. */
  datatype Failure = Error(kind: ErrorKind) | Panic(panic: PanicKind)

  datatype Outcome<+T> = Ok(value: T) | Fail(failure: Failure) {
    predicate IsFailure() { Fail? }

    function PropagateFailure<U>(): Outcome<U>
      requires Fail?
    {
      Fail(failure)
    }

    function Extract(): T
      requires Ok?
    {
      value
    }
  }

  /** `prefix` followed by whatever `o` produced, or `o`'s failure. */
  function Prefixed<T>(prefix: seq<T>, o: Outcome<seq<T>>): (r: Outcome<seq<T>>)
    ensures r.Ok? <==> o.Ok?
    ensures r.Ok? ==> |r.value| == |prefix| + |o.value| && r.value[..|prefix|] == prefix && r.value[|prefix|..] == o.value
    ensures r.Fail? ==> r.failure == o.failure
  {
    match o
    case Ok(v) => Ok(prefix + v)
    case Fail(f) => Fail(f)
  }

  lemma {:induction false} PrefixedPrefixed<T>(a: seq<T>, b: seq<T>, o: Outcome<seq<T>>)
    ensures Prefixed(a, Prefixed(b, o)) == Prefixed(a + b, o)
  {
    if o.Ok? { assert a + (b + o.value) == (a + b) + o.value; }
  }

  /** `f` applied to every element, position by position. */
  function Image<T, U>(s: seq<T>, f: T -> U): (r: seq<U>)
    ensures |r| == |s|
  {
    seq(|s|, i requires 0 <= i < |s| => f(s[i]))
  }

  lemma {:induction false} ImageCons<T, U>(x: T, s: seq<T>, f: T -> U)
    ensures Image([x] + s, f) == [f(x)] + Image(s, f)
  {
  }

  lemma {:induction false} MultisetRemoveAt<T>(b: seq<T>, m: nat)
    requires m < |b|
    ensures multiset(b[..m] + b[m + 1..]) == multiset(b) - multiset{b[m]}
  {
    assert b == b[..m] + [b[m]] + b[m + 1..];
  }

  lemma {:induction false} ImageRemoveAt<T, U>(b: seq<T>, m: nat, f: T -> U)
    requires m < |b|
    ensures multiset(Image(b, f)) == multiset(Image(b[..m] + b[m + 1..], f)) + multiset{f(b[m])}
  {
    assert Image(b, f) == Image(b[..m], f) + [f(b[m])] + Image(b[m + 1..], f);
    assert Image(b[..m] + b[m + 1..], f) == Image(b[..m], f) + Image(b[m + 1..], f);
  }

  /** Permuting a sequence permutes its image. */
  lemma {:induction false} ImagePermutation<T, U>(a: seq<T>, b: seq<T>, f: T -> U)
    requires multiset(a) == multiset(b)
    ensures multiset(Image(a, f)) == multiset(Image(b, f))
  {
    if a == [] {
      assert |multiset(b)| == 0;
    } else {
      assert a[0] in multiset(b);
      var m :| 0 <= m < |b| && b[m] == a[0];
      RemoveFirstMatching(a, b, m);
      ImagePermutation(a[1..], b[..m] + b[m + 1..], f);
      ImagePermutationStep(a, b, m, f);
    }
  }

  lemma {:induction false} RemoveFirstMatching<T>(a: seq<T>, b: seq<T>, m: nat)
    requires multiset(a) == multiset(b) && a != [] && m < |b| && b[m] == a[0]
    ensures multiset(a[1..]) == multiset(b[..m] + b[m + 1..])
  {
    MultisetRemoveAt(b, m);
    assert a == [a[0]] + a[1..];
    assert multiset(a) == multiset{a[0]} + multiset(a[1..]);
  }

  lemma {:induction false} ImagePermutationStep<T, U>(a: seq<T>, b: seq<T>, m: nat, f: T -> U)
    requires a != [] && m < |b| && b[m] == a[0]
    requires multiset(Image(a[1..], f)) == multiset(Image(b[..m] + b[m + 1..], f))
    ensures multiset(Image(a, f)) == multiset(Image(b, f))
  {
    ImageRemoveAt(b, m, f);
    ImageCons(a[0], a[1..], f);
    assert [a[0]] + a[1..] == a;
  }

  /** The values of the calls of `f` that succeed, concatenated in order. */
  ghost function Gathered<A, B>(xs: seq<A>, f: A -> Outcome<seq<B>>): seq<B>
  {
    if xs == [] then []
    else (match f(xs[0]) case Ok(v) => v case Fail(_) => []) + Gathered(xs[1..], f)
  }

  /** Runs `f` on each element in order and collects the results; the first
      failure stops the run (a `for` loop with `push` and `?`). */
  function Traverse<C, A, B>(ctx: C, xs: seq<A>, f: (C, A) -> Outcome<B>): Outcome<seq<B>>
  {
    if xs == [] then Ok([])
    else
      var y :- f(ctx, xs[0]);
      var ys :- Traverse(ctx, xs[1..], f);
      Ok([y] + ys)
  }

  /** Runs `f` on each element in order and concatenates the results; the
      first failure stops the run (a `for` loop with `extend` and `?`). */
  function Gather<A, B>(xs: seq<A>, f: A -> Outcome<seq<B>>): Outcome<seq<B>>
  {
    if xs == [] then Ok([])
    else
      var y :- f(xs[0]);
      var ys :- Gather(xs[1..], f);
      Ok(y + ys)
  }

  /** Traverse succeeds exactly when every call does, keeps one result per
      element in order, and otherwise fails with the first failure. */
  lemma {:induction false} TraverseSpec<C, A, B>(ctx: C, xs: seq<A>, f: (C, A) -> Outcome<B>)
    ensures Traverse(ctx, xs, f).Ok? <==> forall i :: 0 <= i < |xs| ==> f(ctx, xs[i]).Ok?
    ensures Traverse(ctx, xs, f).Ok? ==>
              |Traverse(ctx, xs, f).value| == |xs| &&
              forall i :: 0 <= i < |xs| ==> f(ctx, xs[i]) == Ok(Traverse(ctx, xs, f).value[i])
    ensures Traverse(ctx, xs, f).Fail? ==>
              exists j :: 0 <= j < |xs| && f(ctx, xs[j]) == Fail(Traverse(ctx, xs, f).failure) &&
                          forall i :: 0 <= i < j ==> f(ctx, xs[i]).Ok?
  {
    if xs != [] {
      TraverseSpec(ctx, xs[1..], f);
      var r := Traverse(ctx, xs, f);
      if f(ctx, xs[0]).Fail? {
        assert f(ctx, xs[0]) == Fail(r.failure);
      } else if r.Fail? {
        var j :| 0 <= j < |xs[1..]| && f(ctx, xs[1..][j]) == Fail(r.failure) &&
                 forall i :: 0 <= i < j ==> f(ctx, xs[1..][i]).Ok?;
        assert f(ctx, xs[j + 1]) == Fail(r.failure);
        forall i | 0 <= i < j + 1 ensures f(ctx, xs[i]).Ok? {
          if i > 0 { assert xs[i] == xs[1..][i - 1]; }
        }
      } else {
        forall i | 0 <= i < |xs| ensures f(ctx, xs[i]) == Ok(r.value[i]) {
          if i > 0 { assert xs[i] == xs[1..][i - 1]; }
        }
      }
      if forall i :: 0 <= i < |xs| ==> f(ctx, xs[i]).Ok? {
        assert forall i :: 0 <= i < |xs[1..]| ==> f(ctx, xs[1..][i]).Ok? by {
          forall i | 0 <= i < |xs[1..]| ensures f(ctx, xs[1..][i]).Ok? {
            assert xs[1..][i] == xs[i + 1];
          }
        }
      }
    }
  }

  /** Gather succeeds exactly when every call does, its value is the
      concatenation of the calls' values in order, and otherwise it fails with
      the first failure. */
  lemma {:induction false} GatherSpec<A, B>(xs: seq<A>, f: A -> Outcome<seq<B>>)
    ensures Gather(xs, f).Ok? <==> forall i :: 0 <= i < |xs| ==> f(xs[i]).Ok?
    ensures Gather(xs, f).Ok? ==>
              Gather(xs, f).value == Gathered(xs, f)
    ensures Gather(xs, f).Fail? ==>
              exists j :: 0 <= j < |xs| && f(xs[j]) == Fail(Gather(xs, f).failure) &&
                          forall i :: 0 <= i < j ==> f(xs[i]).Ok?
  {
    if xs != [] {
      GatherSpec(xs[1..], f);
      var r := Gather(xs, f);
      if f(xs[0]).Fail? {
        assert f(xs[0]) == Fail(r.failure);
      } else if r.Fail? {
        var j :| 0 <= j < |xs[1..]| && f(xs[1..][j]) == Fail(r.failure) &&
                 forall i :: 0 <= i < j ==> f(xs[1..][i]).Ok?;
        assert f(xs[j + 1]) == Fail(r.failure);
        forall i | 0 <= i < j + 1 ensures f(xs[i]).Ok? {
          if i > 0 { assert xs[i] == xs[1..][i - 1]; }
        }
      }
      if forall i :: 0 <= i < |xs| ==> f(xs[i]).Ok? {
        assert forall i :: 0 <= i < |xs[1..]| ==> f(xs[1..][i]).Ok? by {
          forall i | 0 <= i < |xs[1..]| ensures f(xs[1..][i]).Ok? {
            assert xs[1..][i] == xs[i + 1];
          }
        }
      }
    }
  }
}
