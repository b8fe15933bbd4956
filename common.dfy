/** Shared vocabulary of the model: optional values, success-or-error outcomes,
    the absolute value, and the "keep only what is present" filter with which
    both designs collect their violations. */
module Common {

  /** Python's `Optional[T]`: `None` or a value. */
  datatype Option<+T> = None | Some(value: T)

  /** The outcome of an operation that can raise: a value, or the error it raised. */
  datatype Outcome<+T, +E> = Ok(value: T) | Err(error: E) {
    predicate IsFailure() { Err? }

    function PropagateFailure<U>(): Outcome<U, E>
      requires Err?
    {
      Err(error)
    }

    function Extract(): T
      requires Ok?
    {
      value
    }
  }

  /** Python's `abs` on a real number. */
  function Abs(x: real): (r: real)
    ensures 0.0 <= r
    ensures r == x || r == -x
  {
    if x < 0.0 then -x else x
  }

  /** The present values of `s`, in their order: `[v for v in s if v is not None]`. */
  function Present<T>(s: seq<Option<T>>): (r: seq<T>)
    ensures |r| <= |s|
  {
    if s == [] then []
    else (if s[0].Some? then [s[0].value] else []) + Present(s[1..])
  }

  /** Filtering distributes over concatenation, so it keeps the order of `s`. */
  lemma {:induction false} PresentAppend<T>(a: seq<Option<T>>, b: seq<Option<T>>)
    ensures Present(a + b) == Present(a) + Present(b)
  {
    if a == [] {
      assert a + b == b;
    } else {
      var head := if a[0].Some? then [a[0].value] else [];
      assert (a + b)[0] == a[0];
      assert (a + b)[1..] == a[1..] + b;
      calc {
        Present(a + b);
        head + Present(a[1..] + b);
        { PresentAppend(a[1..], b); }
        head + (Present(a[1..]) + Present(b));
        (head + Present(a[1..])) + Present(b);
        Present(a) + Present(b);
      }
    }
  }

  /** A value survives the filter exactly when it was present in `s`. */
  lemma {:induction false} PresentMembership<T>(s: seq<Option<T>>, x: T)
    ensures x in Present(s) <==> Some(x) in s
  {
    if s != [] {
      PresentMembership(s[1..], x);
      assert s == [s[0]] + s[1..];
    }
  }

  /** Nothing survives the filter exactly when every entry is `None`. */
  lemma {:induction false} PresentEmpty<T>(s: seq<Option<T>>)
    ensures Present(s) == [] <==> forall n :: 0 <= n < |s| ==> s[n].None?
  {
    if s != [] {
      PresentEmpty(s[1..]);
      assert forall n :: 1 <= n < |s| ==> s[n] == s[1..][n - 1];
    }
  }

  /** If the present entries of `s` are ranked in strictly increasing order by
      their position, the filtered sequence is strictly increasing by rank too:
      filtering never reorders and never repeats an entry. */
  lemma {:induction false} PresentRanked<T>(s: seq<Option<T>>, rank: T -> int)
    requires forall n, m :: 0 <= n < m < |s| && s[n].Some? && s[m].Some? ==> rank(s[n].value) < rank(s[m].value)
    ensures forall a, b :: 0 <= a < b < |Present(s)| ==> rank(Present(s)[a]) < rank(Present(s)[b])
  {
    if s != [] {
      var tail := s[1..];
      assert forall n, m :: 0 <= n < m < |tail| && tail[n].Some? && tail[m].Some? ==> rank(tail[n].value) < rank(tail[m].value) by {
        forall n, m | 0 <= n < m < |tail| && tail[n].Some? && tail[m].Some?
          ensures rank(tail[n].value) < rank(tail[m].value)
        {
          assert tail[n] == s[n + 1] && tail[m] == s[m + 1];
        }
      }
      PresentRanked(tail, rank);
      if s[0].Some? {
        var p := Present(s);
        var rest := Present(tail);
        assert p == [s[0].value] + rest;
        forall b | 0 < b < |p| ensures rank(p[0]) < rank(p[b]) {
          assert p[b] == rest[b - 1];
          PresentMembership(tail, rest[b - 1]);
          var m :| 0 <= m < |tail| && tail[m] == Some(rest[b - 1]);
          assert s[m + 1] == tail[m];
        }
      }
    }
  }
}
