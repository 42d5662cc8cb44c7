/** The pending invites as the server keeps them: a multimap from invited player to group, ordered by player. */
module Invites {
  import opened Sections

  type Invite = (string, string)

  /** Keys never decrease along the list. */
  ghost predicate Sorted(list: seq<Invite>) {
    forall i, j :: 0 <= i < j < |list| ==> !Before(list[j].0, list[i].0)
  }

  /** The first place where they differ is `k`, and `a` is smaller there. */
  predicate SmallerAt(a: string, b: string, k: nat) {
    k < |a| && k < |b| && a[k] < b[k] && forall j :: 0 <= j < k ==> a[j] == b[j]
  }

  predicate ProperPrefix(a: string, b: string) {
    |a| < |b| && a == b[..|a|]
  }

  /** One name is before another if it is a proper prefix of it, or smaller at the first place where they differ. */
  lemma {:induction false} BeforeMeans(a: string, b: string)
    ensures Before(a, b) <==> ProperPrefix(a, b) || exists k :: SmallerAt(a, b, k)
    decreases |a|
  {
    hide SmallerAt, ProperPrefix;
    if a == "" || b == "" || a[0] != b[0] {
      FirstDecides(a, b);
    } else {
      BeforeMeans(a[1..], b[1..]);
      PrefixOfTail(a, b);
      forall k: nat ensures SmallerAt(a, b, k) <==> k > 0 && SmallerAt(a[1..], b[1..], k - 1) { SmallerInTail(a, b, k); }
      assert forall k: nat :: SmallerAt(a[1..], b[1..], k) ==> SmallerAt(a, b, k + 1) by {
        forall k: nat ensures SmallerAt(a[1..], b[1..], k) ==> SmallerAt(a, b, k + 1) { SmallerInTail(a, b, k + 1); }
      }
    }
  }

  lemma FirstDecides(a: string, b: string)
    requires a == "" || b == "" || a[0] != b[0]
    ensures Before(a, b) <==> ProperPrefix(a, b) || exists k :: SmallerAt(a, b, k)
  {
    if a != "" && b != "" {
      assert SmallerAt(a, b, 0) <==> a[0] < b[0];
    }
  }

  lemma PrefixOfTail(a: string, b: string)
    requires a != "" && b != "" && a[0] == b[0]
    ensures ProperPrefix(a, b) <==> ProperPrefix(a[1..], b[1..])
  {
    assert a == [a[0]] + a[1..];
    if |a| < |b| {
      assert b[..|a|] == [b[0]] + b[1..][..|a| - 1];
      assert b[..|a|][1..] == b[1..][..|a| - 1];
    }
  }

  lemma SmallerInTail(a: string, b: string, k: nat)
    requires a != "" && b != "" && a[0] == b[0]
    ensures SmallerAt(a, b, k) <==> k > 0 && SmallerAt(a[1..], b[1..], k - 1)
  {
    if k > 0 && SmallerAt(a[1..], b[1..], k - 1) {
      assert forall j :: 0 < j < k ==> a[j] == a[1..][j - 1] && b[j] == b[1..][j - 1];
    }
  }

  lemma {:induction false} BeforeIsStrict(a: string, b: string)
    ensures !(Before(a, b) && Before(b, a))
    ensures a != b ==> Before(a, b) || Before(b, a)
    ensures a == b ==> !Before(a, b)
    decreases |a|
  {
    if a != [] && b != [] {
      BeforeIsStrict(a[1..], b[1..]);
      assert a == [a[0]] + a[1..] && b == [b[0]] + b[1..];
    }
  }

  lemma {:induction false} BeforeIsTransitive(a: string, b: string, c: string)
    requires Before(a, b) && !Before(c, b)
    ensures Before(a, c)
    decreases |a|
  {
    if a != [] && b != [] && c != [] && a[0] == b[0] && b[0] == c[0] {
      BeforeIsTransitive(a[1..], b[1..], c[1..]);
    }
  }

  /** The first position whose key is not before `key`. */
  method LowerBound(list: seq<Invite>, key: string) returns (k: nat)
    requires Sorted(list)
    ensures k <= |list|
    ensures forall i :: 0 <= i < k ==> Before(list[i].0, key)
    ensures forall i :: k <= i < |list| ==> !Before(list[i].0, key)
  {
    k := 0;
    while k < |list| && Before(list[k].0, key)
      invariant k <= |list|
      invariant forall i :: 0 <= i < k ==> Before(list[i].0, key)
    {
      k := k + 1;
    }
    forall i | k < i < |list| ensures !Before(list[i].0, key) {
      if Before(list[i].0, key) { BeforeIsTransitive(list[i].0, key, list[k].0); }
    }
  }

  /** The first position whose key is after `key`. */
  method UpperBound(list: seq<Invite>, key: string) returns (k: nat)
    requires Sorted(list)
    ensures k <= |list|
    ensures forall i :: 0 <= i < k ==> !Before(key, list[i].0)
    ensures forall i :: k <= i < |list| ==> Before(key, list[i].0)
  {
    k := 0;
    while k < |list| && !Before(key, list[k].0)
      invariant k <= |list|
      invariant forall i :: 0 <= i < k ==> !Before(key, list[i].0)
    {
      k := k + 1;
    }
    forall i | k < i < |list| ensures Before(key, list[i].0) {
      BeforeIsTransitive(key, list[k].0, list[i].0);
    }
  }

  /** `emplace`: the new entry goes behind the entries with the same key. */
  method Emplace(list: seq<Invite>, e: Invite) returns (longer: seq<Invite>)
    requires Sorted(list)
    ensures Sorted(longer) && multiset(longer) == multiset(list) + multiset{e}
  {
    var k := UpperBound(list, e.0);
    longer := list[..k] + [e] + list[k..];
    assert list == list[..k] + list[k..];
    forall i, j | 0 <= i < j < |longer| ensures !Before(longer[j].0, longer[i].0) {
      if i == k {
        BeforeIsStrict(e.0, longer[j].0);
      }
    }
  }

  /** `erase` of one entry. */
  method EraseAt(list: seq<Invite>, k: nat) returns (shorter: seq<Invite>)
    requires Sorted(list) && k < |list|
    ensures Sorted(shorter) && multiset(shorter) == multiset(list) - multiset{list[k]}
  {
    shorter := list[..k] + list[k + 1..];
    assert list == list[..k] + [list[k]] + list[k + 1..];
  }

  /** The search of GROUP ACCEPT through the entries of one player; `found` is meaningless if there is none. */
  method FindInvite(list: seq<Invite>, player: string, group: string) returns (atEnd: bool, found: bool, k: nat)
    requires Sorted(list)
    ensures atEnd <==> !HasKeyFrom(multiset(list), player)
    ensures found <==> (player, group) in multiset(list)
    ensures found ==> k < |list| && list[k] == (player, group)
  {
    var first := LowerBound(list, player);
    var last := UpperBound(list, player);
    atEnd, found, k := first == |list|, false, first;
    assert atEnd <==> !HasKeyFrom(multiset(list), player) by {
      if !atEnd { assert list[first] in multiset(list) && !Before(list[first].0, player); }
    }
    while k < last
      invariant first <= k && (k <= last || k == first)
      invariant forall i :: first <= i < k ==> list[i] != (player, group)
    {
      BeforeIsStrict(list[k].0, player);
      if list[k].1 == group {
        found := true;
        assert list[k] in list;
        return;
      }
      k := k + 1;
    }
    forall i | 0 <= i < |list| ensures list[i] != (player, group) {
      BeforeIsStrict(list[i].0, player);
    }
  }
}
