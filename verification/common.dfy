/**
 * Values shared by every part of the model: optional values (Java `null`),
 * results of calls that may end in an exception, and the exceptions the
 * backend raises, by kind.
 */
module Common {

  datatype Option<T> = None | Some(value: T)

  /** How a call that may throw ends: with a value, or with an exception. */
  datatype Result<T> = Ok(value: T) | Err(error: Failure)

  /** The exceptions of the backend, by class, with the message the code gives them. */
  datatype Failure =
    | BadRequest(message: string)            // BadRequestException
    | ResourceAlreadyInUse(resource: string, field: string, value: string)  // ResourceAlreadyInUseException
    | ResourceNotFound(resource: string, field: string, value: string)      // ResourceNotFoundException
    | ExpiredToken(message: string)          // ExpiredTokenException
    | BadCredentials(message: string)        // BadCredentialsException
    | IllegalArgument(message: string)       // IllegalArgumentException
    | IllegalState(message: string)          // IllegalStateException
    | RuntimeFailure(message: string)        // RuntimeException and other unchecked failures
    | DataIntegrityViolation                 // a unique constraint refused a save
    | RateLimited(message: string)           // TwelveDataRateLimitException
    | EmailRequired(provider: string, providerId: string)  // EmailRequiredException
    | Unavailable                            // a failure of an external system (network, store, parser)
    | RolledBack                             // UnexpectedRollbackException: a rollback-only transaction asked to commit

  /** Java `Math.min` / `Math.max` on integers. */
  function Min(a: int, b: int): int { if a <= b then a else b }
  function Max(a: int, b: int): int { if a >= b then a else b }

  /** The sequence holds no element twice. */
  predicate NoDuplicates<T(==)>(xs: seq<T>) {
    forall i, j :: 0 <= i < j < |xs| ==> xs[i] != xs[j]
  }

  /** The sequence without its later repetitions (Java `Stream.distinct`, which keeps first occurrences). */
  function Distinct<T(==)>(xs: seq<T>): (r: seq<T>)
    ensures NoDuplicates(r)
    ensures forall i :: 0 <= i < |xs| ==> xs[i] in r
    ensures forall i :: 0 <= i < |r| ==> r[i] in xs
    ensures |r| <= |xs|
    decreases |xs|
  {
    if |xs| == 0 then []
    else
      var rest := Distinct(xs[..|xs| - 1]);
      var last := xs[|xs| - 1];
      assert xs == xs[..|xs| - 1] + [last];
      if last in rest then rest else rest + [last]
  }

  /** The elements of `xs` that satisfy `keep`, in order (`Stream.filter`). */
  function Filter<T>(xs: seq<T>, keep: T -> bool): (r: seq<T>)
    ensures |r| <= |xs|
    ensures forall i :: 0 <= i < |r| ==> keep(r[i]) && r[i] in xs
    ensures multiset(r) <= multiset(xs)
    decreases |xs|
  {
    if |xs| == 0 then []
    else
      assert xs == xs[..|xs| - 1] + [xs[|xs| - 1]];
      var init := Filter(xs[..|xs| - 1], keep);
      if keep(xs[|xs| - 1]) then init + [xs[|xs| - 1]] else init
  }

  /** Nothing that satisfies `keep` is dropped. */
  lemma {:induction false} FilterKeepsAll<T>(xs: seq<T>, keep: T -> bool)
    ensures forall x :: x in xs && keep(x) ==> x in Filter(xs, keep)
    decreases |xs|
  {
    if |xs| > 0 {
      FilterKeepsAll(xs[..|xs| - 1], keep);
      assert forall x :: x in xs ==> x in xs[..|xs| - 1] || x == xs[|xs| - 1];
    }
  }

  /** A prefix holds no element more often than the whole sequence. */
  lemma PrefixMultiset<T>(xs: seq<T>, n: nat)
    requires n <= |xs|
    ensures multiset(xs[..n]) <= multiset(xs)
  {
    assert xs == xs[..n] + xs[n..];
  }
  // ---------------------------------------------------------------------
  // Sorting by a comparator (`List.sort` / `Stream.sorted`, a stable sort)

  /** `leq` orders every pair of values and is transitive: a comparator's "not after" relation. */
  ghost predicate TotalPreorder<T(!new)>(leq: (T, T) -> bool) {
    (forall a, b :: leq(a, b) || leq(b, a))
    && (forall a, b, c :: leq(a, b) && leq(b, c) ==> leq(a, c))
  }

  predicate SortedBy<T>(xs: seq<T>, leq: (T, T) -> bool) {
    forall i, j :: 0 <= i < j < |xs| ==> leq(xs[i], xs[j])
  }

  /** Places `x` after every element of the sorted list that is not after it. */
  function InsertBy<T>(sorted: seq<T>, x: T, leq: (T, T) -> bool): (r: seq<T>)
    ensures multiset(r) == multiset(sorted) + multiset{x}
    decreases |sorted|
  {
    if |sorted| == 0 || leq(sorted[|sorted| - 1], x) then sorted + [x]
    else
      var init, last := sorted[..|sorted| - 1], sorted[|sorted| - 1];
      assert sorted == init + [last];
      InsertBy(init, x, leq) + [last]
  }

  /** Insertion sort: each element goes after the earlier ones that are not after it, so equal elements keep their order. */
  function SortBy<T>(xs: seq<T>, leq: (T, T) -> bool): (r: seq<T>)
    ensures multiset(r) == multiset(xs)
    decreases |xs|
  {
    if |xs| == 0 then []
    else
      assert xs == xs[..|xs| - 1] + [xs[|xs| - 1]];
      InsertBy(SortBy(xs[..|xs| - 1], leq), xs[|xs| - 1], leq)
  }

  lemma {:induction false} InsertKeepsSorted<T(!new)>(sorted: seq<T>, x: T, leq: (T, T) -> bool)
    requires TotalPreorder(leq) && SortedBy(sorted, leq)
    ensures SortedBy(InsertBy(sorted, x, leq), leq)
    decreases |sorted|
  {
    var r := InsertBy(sorted, x, leq);
    if |sorted| == 0 || leq(sorted[|sorted| - 1], x) {
      forall i, j | 0 <= i < j < |r|
        ensures leq(r[i], r[j])
      {
        if j == |sorted| && i < |sorted| - 1 {
          assert leq(r[i], sorted[|sorted| - 1]);
        }
      }
    } else {
      var init, last := sorted[..|sorted| - 1], sorted[|sorted| - 1];
      InsertKeepsSorted(init, x, leq);
      var front := InsertBy(init, x, leq);
      forall i | 0 <= i < |front|
        ensures leq(front[i], last)
      {
        assert front[i] in multiset(front);
        if front[i] != x {
          assert front[i] in multiset(init);
          var k :| 0 <= k < |init| && init[k] == front[i];
        }
      }
    }
  }

  /** Sorting gives the same elements, in order. */
  lemma {:induction false} SortBySorts<T(!new)>(xs: seq<T>, leq: (T, T) -> bool)
    requires TotalPreorder(leq)
    ensures SortedBy(SortBy(xs, leq), leq) && multiset(SortBy(xs, leq)) == multiset(xs)
    decreases |xs|
  {
    if |xs| > 0 {
      SortBySorts(xs[..|xs| - 1], leq);
      InsertKeepsSorted(SortBy(xs[..|xs| - 1], leq), xs[|xs| - 1], leq);
    }
  }

  /** `x` as a one-element list when the comparator ties it with `y` (neither is after the other), else nothing. */
  function TieOf<T>(x: T, y: T, leq: (T, T) -> bool): seq<T> {
    if leq(x, y) && leq(y, x) then [x] else []
  }

  /** The elements of `xs` that tie with `y`, in their order in `xs`. */
  function Ties<T>(xs: seq<T>, y: T, leq: (T, T) -> bool): seq<T>
    decreases |xs|
  {
    if |xs| == 0 then [] else Ties(xs[..|xs| - 1], y, leq) + TieOf(xs[|xs| - 1], y, leq)
  }

  lemma TiesAppend<T>(xs: seq<T>, x: T, y: T, leq: (T, T) -> bool)
    ensures Ties(xs + [x], y, leq) == Ties(xs, y, leq) + TieOf(x, y, leq)
  {
    assert (xs + [x])[..|xs|] == xs;
  }

  /** Inserting `x` puts it after every element it ties with. */
  lemma {:induction false} InsertTies<T(!new)>(sorted: seq<T>, x: T, y: T, leq: (T, T) -> bool)
    requires TotalPreorder(leq)
    ensures Ties(InsertBy(sorted, x, leq), y, leq) == Ties(sorted, y, leq) + TieOf(x, y, leq)
    decreases |sorted|
  {
    if |sorted| == 0 || leq(sorted[|sorted| - 1], x) {
      TiesAppend(sorted, x, y, leq);
    } else {
      var init, last := sorted[..|sorted| - 1], sorted[|sorted| - 1];
      InsertTies(init, x, y, leq);
      TiesAppend(InsertBy(init, x, leq), last, y, leq);
      // `last` is after `x`, so they cannot both tie with `y`.
      assert TieOf(x, y, leq) == [] || TieOf(last, y, leq) == [];
    }
  }

  /** The sort is stable: elements that tie keep their input order. */
  lemma {:induction false} SortByStable<T(!new)>(xs: seq<T>, y: T, leq: (T, T) -> bool)
    requires TotalPreorder(leq)
    ensures Ties(SortBy(xs, leq), y, leq) == Ties(xs, y, leq)
    decreases |xs|
  {
    if |xs| > 0 {
      SortByStable(xs[..|xs| - 1], y, leq);
      InsertTies(SortBy(xs[..|xs| - 1], leq), xs[|xs| - 1], y, leq);
    }
  }
}
