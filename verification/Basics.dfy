/** Shared vocabulary: optional values and the order-preserving filter that the
    source's append-if-kept loops compute. */
module Basics {

  datatype Option<+T> = None | Some(value: T)

  function Last<T>(xs: seq<T>): T
    requires xs != []
  {
    xs[|xs| - 1]
  }

  function Front<T>(xs: seq<T>): seq<T>
    requires xs != []
  {
    xs[..|xs| - 1]
  }

  function Min(a: int, b: int): int {
    if a <= b then a else b
  }

  /** The kept elements, in order. It recurses from the end, as a left-to-right loop builds its result. */
  function Filter<T>(keep: T -> bool, xs: seq<T>): seq<T> {
    if xs == [] then []
    else if keep(Last(xs)) then Filter(keep, Front(xs)) + [Last(xs)]
    else Filter(keep, Front(xs))
  }

  /** Where each kept element came from. */
  function Positions<T>(keep: T -> bool, xs: seq<T>): (at: seq<int>)
    ensures |at| == |Filter(keep, xs)| <= |xs|
    ensures forall i :: 0 <= i < |at| ==> 0 <= at[i] < |xs|
  {
    if xs == [] then []
    else if keep(Last(xs)) then Positions(keep, Front(xs)) + [|xs| - 1]
    else Positions(keep, Front(xs))
  }

  lemma {:induction false} PositionsIncrease<T>(keep: T -> bool, xs: seq<T>, i: nat, j: nat)
    requires i < j < |Positions(keep, xs)|
    ensures Positions(keep, xs)[i] < Positions(keep, xs)[j]
  {
    if j < |Positions(keep, Front(xs))| {
      PositionsIncrease(keep, Front(xs), i, j);
    }
  }

  lemma {:induction false} PositionsHold<T>(keep: T -> bool, xs: seq<T>, i: nat)
    requires i < |Positions(keep, xs)|
    ensures xs[Positions(keep, xs)[i]] == Filter(keep, xs)[i] && keep(Filter(keep, xs)[i])
  {
    if i < |Positions(keep, Front(xs))| {
      PositionsHold(keep, Front(xs), i);
    }
  }

  /** The filter is a subsequence: its elements sit at increasing positions of the input. */
  lemma FilterPositions<T>(keep: T -> bool, xs: seq<T>) returns (at: seq<int>)
    ensures |at| == |Filter(keep, xs)| <= |xs|
    ensures forall i :: 0 <= i < |at| ==>
      0 <= at[i] < |xs| && xs[at[i]] == Filter(keep, xs)[i] && keep(Filter(keep, xs)[i])
    ensures forall i, j :: 0 <= i < j < |at| ==> at[i] < at[j]
  {
    at := Positions(keep, xs);
    forall i | 0 <= i < |at| ensures xs[at[i]] == Filter(keep, xs)[i] && keep(Filter(keep, xs)[i]) {
      PositionsHold(keep, xs, i);
    }
    forall i, j | 0 <= i < j < |at| ensures at[i] < at[j] {
      PositionsIncrease(keep, xs, i, j);
    }
  }

  lemma {:induction false} FilterMember<T>(keep: T -> bool, xs: seq<T>, x: T)
    ensures x in Filter(keep, xs) <==> x in xs && keep(x)
  {
    if xs != [] {
      FilterMember(keep, Front(xs), x);
      assert xs == Front(xs) + [Last(xs)];
    }
  }

  lemma {:induction false} FilterShort<T>(keep: T -> bool, xs: seq<T>)
    ensures |Filter(keep, xs)| <= |xs|
    ensures |Filter(keep, xs)| == |xs| ==> Filter(keep, xs) == xs
  {
    if xs != [] {
      FilterShort(keep, Front(xs));
    }
  }

  lemma {:induction false} FilterAll<T>(keep: T -> bool, xs: seq<T>)
    requires forall i :: 0 <= i < |xs| ==> keep(xs[i])
    ensures |Filter(keep, xs)| == |xs|
  {
    if xs != [] {
      FilterAll(keep, Front(xs));
    }
  }

  lemma {:induction false} FilterNone<T>(keep: T -> bool, xs: seq<T>)
    requires forall i :: 0 <= i < |xs| ==> !keep(xs[i])
    ensures Filter(keep, xs) == []
  {
    if xs != [] {
      FilterNone(keep, Front(xs));
    }
  }

  /** Nothing was dropped exactly when everything is kept, and then the sequence is unchanged. */
  lemma FilterLength<T>(keep: T -> bool, xs: seq<T>)
    ensures |Filter(keep, xs)| <= |xs|
    ensures |Filter(keep, xs)| == |xs| <==> forall x :: x in xs ==> keep(x)
    ensures |Filter(keep, xs)| == |xs| ==> Filter(keep, xs) == xs
  {
    hide Filter;
    FilterShort(keep, xs);
    if |Filter(keep, xs)| == |xs| {
      forall x | x in xs ensures keep(x) {
        FilterMember(keep, xs, x);
      }
    }
    if forall x :: x in xs ==> keep(x) {
      FilterAll(keep, xs);
    }
  }

  lemma {:induction false} FilterSame<T>(p: T -> bool, q: T -> bool, xs: seq<T>)
    requires forall x :: x in xs ==> p(x) == q(x)
    ensures Filter(p, xs) == Filter(q, xs)
  {
    if xs != [] {
      FilterSame(p, q, Front(xs));
    }
  }

  lemma {:induction false} FilterConcat<T>(keep: T -> bool, xs: seq<T>, ys: seq<T>)
    ensures Filter(keep, xs + ys) == Filter(keep, xs) + Filter(keep, ys)
  {
    if ys == [] {
      assert xs + ys == xs;
    } else {
      FilterConcat(keep, xs, Front(ys));
      assert Front(xs + ys) == xs + Front(ys);
    }
  }

  /** The first position whose element passes the test. */
  function FindFirst<T>(test: T -> bool, xs: seq<T>): (r: Option<nat>)
    ensures r.None? ==> forall i :: 0 <= i < |xs| ==> !test(xs[i])
    ensures r.Some? ==> r.value < |xs| && test(xs[r.value]) && forall i :: 0 <= i < r.value ==> !test(xs[i])
  {
    if xs == [] then None
    else match FindFirst(test, Front(xs))
      case Some(i) => Some(i)
      case None => if test(Last(xs)) then Some(|xs| - 1) else None
  }

  function Both<T>(p: T -> bool, q: T -> bool): T -> bool {
    (x: T) => p(x) && q(x)
  }

  /** The first kept element that passes a test is the first element that is kept and passes it. */
  lemma {:induction false} FilterFindFirst<T>(keep: T -> bool, test: T -> bool, xs: seq<T>)
    ensures
      var f, g := FindFirst(test, Filter(keep, xs)), FindFirst(Both(keep, test), xs);
      f.Some? == g.Some? && (f.Some? ==> Filter(keep, xs)[f.value] == xs[g.value])
  {
    if xs != [] {
      FilterFindFirst(keep, test, Front(xs));
      if keep(Last(xs)) {
        assert Front(Filter(keep, xs)) == Filter(keep, Front(xs));
      }
    }
  }

  lemma {:induction false} FilterHead<T>(keep: T -> bool, xs: seq<T>)
    ensures Filter(keep, xs) != [] <==> FindFirst(keep, xs).Some?
    ensures Filter(keep, xs) != [] ==> Filter(keep, xs)[0] == xs[FindFirst(keep, xs).value]
  {
    if xs != [] {
      FilterHead(keep, Front(xs));
    }
  }
}
