/**
 * The array operations every page of the panel builds its new lists with:
 * `filter`, `find` on an identifier, and removal of every record with a
 * given identifier. The pages never mutate a list; they build a new one and
 * replace the old one wholesale.
 */
module Lists {

  datatype Option<+T> = None | Some(value: T)

  /** `xs.filter(keep)`: the elements of `xs` that satisfy `keep`, in order. */
  function Filter<T(==,!new)>(xs: seq<T>, keep: T -> bool): (r: seq<T>)
    ensures |r| <= |xs|
    ensures forall x :: x in r <==> x in xs && keep(x)
  {
    if xs == [] then []
    else if keep(xs[0]) then [xs[0]] + Filter(xs[1..], keep)
    else Filter(xs[1..], keep)
  }

  /** `a` is `b` with some elements deleted, the rest kept in their order. */
  predicate IsSubsequence<T(==,!new)>(a: seq<T>, b: seq<T>)
    decreases |b|
  {
    if b == [] then a == []
    else (a != [] && a[0] == b[0] && IsSubsequence(a[1..], b[1..])) || IsSubsequence(a, b[1..])
  }

  /** Deleting one element from the middle gives a subsequence. */
  lemma {:induction false} DroppingOneIsSubsequence<T(!new)>(a: seq<T>, x: T, b: seq<T>)
    ensures IsSubsequence(a + b, a + [x] + b)
  {
    if a == [] {
      assert a + [x] + b == [x] + b && ([x] + b)[1..] == b && a + b == b;
      SubsequenceOfItself(b);
    } else {
      assert (a + [x] + b)[1..] == a[1..] + [x] + b;
      assert (a + b)[1..] == a[1..] + b;
      DroppingOneIsSubsequence(a[1..], x, b);
    }
  }

  /** Every sequence is a subsequence of itself. */
  lemma {:induction false} SubsequenceOfItself<T(!new)>(a: seq<T>)
    ensures IsSubsequence(a, a)
  {
    if a != [] {
      SubsequenceOfItself(a[1..]);
    }
  }

  /** Filtering only deletes: the survivors keep their relative order. */
  lemma {:induction false} FilterIsSubsequence<T(!new)>(xs: seq<T>, keep: T -> bool)
    ensures IsSubsequence(Filter(xs, keep), xs)
  {
    if xs != [] {
      FilterIsSubsequence(xs[1..], keep);
    }
  }

  /** Filtering keeps every occurrence of a kept value and none of a dropped one. */
  lemma {:induction false} FilterCount<T(!new)>(xs: seq<T>, keep: T -> bool, x: T)
    ensures multiset(Filter(xs, keep))[x] == if keep(x) then multiset(xs)[x] else 0
  {
    if xs != [] {
      FilterCount(xs[1..], keep, x);
      assert xs == [xs[0]] + xs[1..];
    }
  }

  /** Filtering a concatenation filters each part. */
  lemma {:induction false} FilterAppend<T(!new)>(xs: seq<T>, ys: seq<T>, keep: T -> bool)
    ensures Filter(xs + ys, keep) == Filter(xs, keep) + Filter(ys, keep)
  {
    if xs == [] {
      assert xs + ys == ys;
    } else {
      assert (xs + ys)[1..] == xs[1..] + ys;
      FilterAppend(xs[1..], ys, keep);
    }
  }

  /** A filter that keeps everything returns its input. */
  lemma {:induction false} FilterKeepsAll<T(!new)>(xs: seq<T>, keep: T -> bool)
    requires forall x :: x in xs ==> keep(x)
    ensures Filter(xs, keep) == xs
  {
    if xs != [] {
      assert forall x :: x in xs[1..] ==> x in xs;
      FilterKeepsAll(xs[1..], keep);
    }
  }

  /** A filter that keeps nothing returns the empty list. */
  lemma {:induction false} FilterKeepsNone<T(!new)>(xs: seq<T>, keep: T -> bool)
    requires forall x :: x in xs ==> !keep(x)
    ensures Filter(xs, keep) == []
  {
    if xs != [] {
      assert forall x :: x in xs[1..] ==> x in xs;
      FilterKeepsNone(xs[1..], keep);
    }
  }

  /** The predicate "identifier differs from `id`", the callback of every page's remove handler. */
  function IdIsNot<T>(idOf: T -> string, id: string): T -> bool
  {
    x => idOf(x) != id
  }

  /** `xs.filter(x => x.id !== id)`: removal of every record carrying `id`. */
  function RemoveById<T(==,!new)>(xs: seq<T>, idOf: T -> string, id: string): (r: seq<T>)
    ensures |r| <= |xs|
    ensures forall x :: x in r <==> x in xs && idOf(x) != id
  {
    Filter(xs, IdIsNot(idOf, id))
  }

  /** `xs.find(x => x.id === id)`: the first record carrying `id`, if any. */
  function FindById<T>(xs: seq<T>, idOf: T -> string, id: string): (r: Option<T>)
    ensures r.None? <==> forall i :: 0 <= i < |xs| ==> idOf(xs[i]) != id
    ensures r.Some? ==> exists i :: 0 <= i < |xs| && xs[i] == r.value && idOf(xs[i]) == id &&
                                    forall j :: 0 <= j < i ==> idOf(xs[j]) != id
  {
    if xs == [] then None
    else if idOf(xs[0]) == id then Some(xs[0])
    else
      var r := FindById(xs[1..], idOf, id);
      assert r.Some? ==> exists i :: 0 <= i < |xs[1..]| && xs[1..][i] == r.value && idOf(xs[1..][i]) == id &&
                                     forall j :: 0 <= j < i ==> idOf(xs[1..][j]) != id;
      r
  }

  /** No two records of the list share an identifier. */
  predicate UniqueIds<T>(xs: seq<T>, idOf: T -> string)
  {
    forall i, j :: 0 <= i < j < |xs| ==> idOf(xs[i]) != idOf(xs[j])
  }

  /** `id` is carried by no record of `xs`. */
  predicate FreshId<T>(xs: seq<T>, idOf: T -> string, id: string)
  {
    forall i :: 0 <= i < |xs| ==> idOf(xs[i]) != id
  }

  /** Removing an identifier no record carries changes nothing. */
  lemma RemoveAbsentId<T(!new)>(xs: seq<T>, idOf: T -> string, id: string)
    requires FreshId(xs, idOf, id)
    ensures RemoveById(xs, idOf, id) == xs
  {
    FilterKeepsAll(xs, IdIsNot(idOf, id));
  }

  /** Removal keeps the surviving records in their original order. */
  lemma RemoveKeepsOrder<T(!new)>(xs: seq<T>, idOf: T -> string, id: string)
    ensures IsSubsequence(RemoveById(xs, idOf, id), xs)
  {
    FilterIsSubsequence(xs, IdIsNot(idOf, id));
  }

  /** Removal keeps every copy of a record with another identifier and no copy of one with `id`. */
  lemma RemoveCount<T(!new)>(xs: seq<T>, idOf: T -> string, id: string, x: T)
    ensures multiset(RemoveById(xs, idOf, id))[x] == if idOf(x) == id then 0 else multiset(xs)[x]
  {
    FilterCount(xs, IdIsNot(idOf, id), x);
  }

  /** Removing twice is removing once. */
  lemma RemoveIdempotent<T(!new)>(xs: seq<T>, idOf: T -> string, id: string)
    ensures RemoveById(RemoveById(xs, idOf, id), idOf, id) == RemoveById(xs, idOf, id)
  {
    var r := RemoveById(xs, idOf, id);
    assert forall i :: 0 <= i < |r| ==> r[i] in r;
    RemoveAbsentId(r, idOf, id);
  }

  /** Appending records and then removing an identifier the old records did not carry
      leaves the old records in place and removes only among the appended ones. */
  lemma AppendThenRemove<T(!new)>(xs: seq<T>, ys: seq<T>, idOf: T -> string, id: string)
    requires FreshId(xs, idOf, id)
    ensures RemoveById(xs + ys, idOf, id) == xs + RemoveById(ys, idOf, id)
  {
    FilterAppend(xs, ys, IdIsNot(idOf, id));
    RemoveAbsentId(xs, idOf, id);
  }

  /** Adding one record under a fresh identifier and removing that identifier restores the list. */
  lemma AddThenRemove<T(!new)>(xs: seq<T>, x: T, idOf: T -> string)
    requires FreshId(xs, idOf, idOf(x))
    ensures RemoveById(xs + [x], idOf, idOf(x)) == xs
  {
    AppendThenRemove(xs, [x], idOf, idOf(x));
    assert RemoveById([x], idOf, idOf(x)) == [];
  }

  /** Appending records whose identifiers are distinct and fresh keeps identifiers unique. */
  lemma AppendKeepsUnique<T>(xs: seq<T>, ys: seq<T>, idOf: T -> string)
    requires UniqueIds(xs, idOf) && UniqueIds(ys, idOf)
    requires forall j :: 0 <= j < |ys| ==> FreshId(xs, idOf, idOf(ys[j]))
    ensures UniqueIds(xs + ys, idOf)
  {
    var zs := xs + ys;
    forall i, j | 0 <= i < j < |zs| ensures idOf(zs[i]) != idOf(zs[j]) {
      if j < |xs| {
        assert zs[i] == xs[i] && zs[j] == xs[j];
      } else if i < |xs| {
        assert zs[i] == xs[i] && zs[j] == ys[j - |xs|];
        assert FreshId(xs, idOf, idOf(ys[j - |xs|]));
      } else {
        assert zs[i] == ys[i - |xs|] && zs[j] == ys[j - |xs|];
      }
    }
  }

  /** With unique identifiers, removing an identifier that is present removes exactly one record. */
  lemma {:induction false} RemoveUniqueDropsOne<T(!new)>(xs: seq<T>, idOf: T -> string, id: string)
    requires UniqueIds(xs, idOf)
    requires !FreshId(xs, idOf, id)
    ensures |RemoveById(xs, idOf, id)| == |xs| - 1
  {
    var keep := IdIsNot(idOf, id);
    assert xs == [xs[0]] + xs[1..];
    assert UniqueIds(xs[1..], idOf) by {
      forall i, j | 0 <= i < j < |xs[1..]| ensures idOf(xs[1..][i]) != idOf(xs[1..][j]) {
        assert xs[1..][i] == xs[i + 1] && xs[1..][j] == xs[j + 1];
      }
    }
    if idOf(xs[0]) == id {
      assert FreshId(xs[1..], idOf, id) by {
        forall i | 0 <= i < |xs[1..]| ensures idOf(xs[1..][i]) != id {
          assert xs[1..][i] == xs[i + 1];
        }
      }
      RemoveAbsentId(xs[1..], idOf, id);
      assert Filter(xs, keep) == Filter(xs[1..], keep);
    } else {
      assert !FreshId(xs[1..], idOf, id) by {
        var k :| 0 <= k < |xs| && idOf(xs[k]) == id;
        assert k > 0 && xs[1..][k - 1] == xs[k];
      }
      RemoveUniqueDropsOne(xs[1..], idOf, id);
      assert Filter(xs, keep) == [xs[0]] + Filter(xs[1..], keep);
    }
  }
}
