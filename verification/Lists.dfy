/** Vectors of ids: removal of every occurrence, last element with a key, iteration orders. */
module Lists {

  /** The erase/remove idiom: `xs` without any occurrence of `x`. */
  function Without(xs: seq<string>, x: string): seq<string> {
    if xs == [] then []
    else if xs[0] == x then Without(xs[1..], x)
    else [xs[0]] + Without(xs[1..], x)
  }

  predicate NoDuplicates(xs: seq<string>) {
    forall i, j :: 0 <= i < j < |xs| ==> xs[i] != xs[j]
  }

  /** `order` lists the elements of `keys`, each once: one way an unordered map may be iterated. */
  predicate IsOrderOf(order: seq<string>, keys: set<string>) {
    && NoDuplicates(order)
    && (forall i :: 0 <= i < |order| ==> order[i] in keys)
    && (forall k :: k in keys ==> k in order)
  }

  function SetOf(ids: seq<string>): set<string> {
    set i | i in ids
  }

  lemma OneMoreElement(ids: seq<string>, i: nat)
    requires i < |ids|
    ensures SetOf(ids[..i + 1]) == SetOf(ids[..i]) + {ids[i]}
  {
    assert ids[..i + 1] == ids[..i] + [ids[i]];
  }

  lemma {:induction false} WithoutMembers(xs: seq<string>, x: string)
    ensures forall y :: y in Without(xs, x) <==> y in xs && y != x
  {
    if xs == [] {
    } else {
      WithoutMembers(xs[1..], x);
      assert xs == [xs[0]] + xs[1..];
    }
  }

  lemma {:induction false} WithoutKeepsDistinct(xs: seq<string>, x: string)
    requires NoDuplicates(xs)
    ensures NoDuplicates(Without(xs, x))
  {
    if xs == [] {
    } else {
      WithoutKeepsDistinct(xs[1..], x);
      var rest := Without(xs[1..], x);
      forall j | 0 <= j < |rest| ensures rest[j] != xs[0] {
        WithoutMembers(xs[1..], x);
        assert rest[j] in rest && rest[j] in xs[1..];
      }
    }
  }

  lemma {:induction false} WithoutAbsent(xs: seq<string>, x: string)
    requires x !in xs
    ensures Without(xs, x) == xs
  {
    if xs == [] {
    } else {
      WithoutAbsent(xs[1..], x);
    }
  }

  lemma AppendKeepsDistinct(xs: seq<string>, x: string)
    requires NoDuplicates(xs) && x !in xs
    ensures NoDuplicates(xs + [x])
  {
    assert forall i :: 0 <= i < |xs| ==> (xs + [x])[i] == xs[i];
  }

  lemma {:induction false} WithoutAppend(xs: seq<string>, y: string, x: string)
    ensures Without(xs + [y], x) == Without(xs, x) + (if y == x then [] else [y])
  {
    if xs == [] {
    } else {
      assert (xs + [y])[1..] == xs[1..] + [y];
      WithoutAppend(xs[1..], y, x);
    }
  }
}
