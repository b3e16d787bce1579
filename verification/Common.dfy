/** Small shared vocabulary: an optional value, the larger of two numbers, and a stable insertion sort. */
module Common {

  datatype Option<+T> = None | Some(value: T)

  function Max(a: int, b: int): int {
    if a < b then b else a
  }

  lemma ConcatAssociates<T>(a: seq<T>, b: seq<T>, c: seq<T>)
    ensures (a + b) + c == a + (b + c)
  {
  }

  lemma SliceOfPrefix<T>(a: seq<T>, b: seq<T>, i: nat, j: nat)
    requires a <= b && i <= j <= |a|
    ensures b[i..j] == a[i..j]
  {
  }

  lemma PrefixOn<T>(a: seq<T>, b: seq<T>, c: seq<T>)
    requires a <= b && b <= c
    ensures a <= c
  {
  }

  /** A sequence has no repeats where its multiset has none. */
  lemma NoRepeats<T>(s: seq<T>, i: nat, j: nat)
    requires i < j < |s|
    ensures multiset(s)[s[i]] <= 1 ==> s[i] != s[j]
  {
    var front, back := s[..i + 1], s[i + 1..];
    assert s == front + back && front[i] in multiset(front) && back[j - i - 1] in multiset(back);
    assert multiset(s)[s[i]] == multiset(front)[s[i]] + multiset(back)[s[i]];
  }
}

/** The ordering step the service delegates to its standard library's slice sort. */
module Sorting {

  /** `le` can be used to order the elements of `xs`. */
  ghost predicate Orders<T(!new)>(le: (T, T) -> bool) {
    && (forall a, b :: le(a, b) || le(b, a))
    && (forall a, b, c :: le(a, b) && le(b, c) ==> le(a, c))
  }

  ghost predicate SortedBy<T>(xs: seq<T>, le: (T, T) -> bool) {
    forall i, j :: 0 <= i < j < |xs| ==> le(xs[i], xs[j])
  }

  function Insert<T>(x: T, xs: seq<T>, le: (T, T) -> bool): seq<T> {
    if xs == [] then [x]
    else if le(x, xs[0]) then [x] + xs
    else [xs[0]] + Insert(x, xs[1..], le)
  }

  function Sort<T>(xs: seq<T>, le: (T, T) -> bool): seq<T> {
    if xs == [] then [] else Insert(xs[0], Sort(xs[1..], le), le)
  }

  lemma {:induction false} InsertKeeps<T(!new)>(x: T, xs: seq<T>, le: (T, T) -> bool)
    requires Orders(le) && SortedBy(xs, le)
    ensures SortedBy(Insert(x, xs, le), le)
    ensures multiset(Insert(x, xs, le)) == multiset{x} + multiset(xs)
  {
    if xs != [] {
      assert xs == [xs[0]] + xs[1..];
      if !le(x, xs[0]) {
        var tail := Insert(x, xs[1..], le);
        InsertKeeps(x, xs[1..], le);
        Prepend(xs[0], tail, x, xs[1..], le);
      }
    }
  }

  lemma Prepend<T>(first: T, tail: seq<T>, x: T, rest: seq<T>, le: (T, T) -> bool)
    requires SortedBy(tail, le) && multiset(tail) == multiset{x} + multiset(rest)
    requires le(first, x) && forall y <- rest :: le(first, y)
    ensures SortedBy([first] + tail, le)
  {
    forall j | 0 <= j < |tail|
      ensures le(first, tail[j])
    {
      assert tail[j] in multiset(tail);
    }
  }

  /** Sorting rearranges: nothing is lost, nothing is added, and the result is in order. */
  lemma {:induction false} SortIsSorted<T(!new)>(xs: seq<T>, le: (T, T) -> bool)
    requires Orders(le)
    ensures SortedBy(Sort(xs, le), le)
    ensures multiset(Sort(xs, le)) == multiset(xs)
  {
    if xs != [] {
      assert xs == [xs[0]] + xs[1..];
      SortIsSorted(xs[1..], le);
      InsertKeeps(xs[0], Sort(xs[1..], le), le);
    }
  }
}
