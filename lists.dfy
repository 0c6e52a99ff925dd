/**
 * The three operations of .NET's `List<T>` that the engine relies on:
 * `Contains` (sequence membership), `IndexOf` (first position, or -1) and
 * `Remove` (drop the first occurrence, if any). `Add` is `s + [x]`.
 */
module Lists {

  /** True when no element occurs twice. */
  predicate NoDuplicates<T(==)>(s: seq<T>) {
    forall i, j :: 0 <= i < j < |s| ==> s[i] != s[j]
  }

  /** `List.IndexOf`: the position of the first occurrence of `x`, or -1. */
  function IndexOf<T(==)>(s: seq<T>, x: T): (r: int)
    ensures -1 <= r < |s|
    ensures r == -1 <==> x !in s
    ensures 0 <= r ==> s[r] == x && x !in s[..r]
  {
    if s == [] then -1
    else if s[0] == x then 0
    else
      var k := IndexOf(s[1..], x);
      if k == -1 then -1 else k + 1
  }

  /** Cutting position `k` out of a tail is cutting position `k + 1` out of the whole list. */
  lemma ConsSplice<T>(s: seq<T>, k: nat)
    requires k + 1 < |s|
    ensures [s[0]] + (s[1..][..k] + s[1..][k + 1..]) == s[..k + 1] + s[k + 2..]
  {
    assert s[1..][..k] == s[1..k + 1];
    assert s[1..][k + 1..] == s[k + 2..];
    assert [s[0]] + s[1..k + 1] == s[..k + 1];
  }

  /** `List.Remove`: drop the first occurrence of `x`; a list without `x` is unchanged. */
  function Remove<T(==)>(s: seq<T>, x: T): (r: seq<T>)
    ensures x !in s ==> r == s
    ensures x in s ==> r == s[..IndexOf(s, x)] + s[IndexOf(s, x) + 1..]
    ensures |r| == if x in s then |s| - 1 else |s|
  {
    if s == [] then []
    else if s[0] == x then s[1..]
    else
      var t := Remove(s[1..], x);
      assert x in s ==> [s[0]] + t == s[..IndexOf(s, x)] + s[IndexOf(s, x) + 1..] by {
        if x in s {
          assert x in s[1..];
          ConsSplice(s, IndexOf(s[1..], x));
        }
      }
      [s[0]] + t
  }

  /** Removing `x` leaves every other element's membership as it was. */
  lemma {:induction false} RemoveMembership<T>(s: seq<T>, x: T, y: T)
    requires y != x
    ensures y in Remove(s, x) <==> y in s
  {
    if s != [] && s[0] != x {
      RemoveMembership(s[1..], x, y);
    }
  }

  /** Removing from a duplicate-free list keeps it duplicate-free and drops `x` entirely. */
  lemma {:induction false} RemoveNoDuplicates<T>(s: seq<T>, x: T)
    requires NoDuplicates(s)
    ensures NoDuplicates(Remove(s, x))
    ensures x !in Remove(s, x)
  {
    if s != [] {
      assert NoDuplicates(s[1..]) by {
        forall i, j | 0 <= i < j < |s[1..]| ensures s[1..][i] != s[1..][j] {
          assert s[i + 1] != s[j + 1];
        }
      }
      if s[0] != x {
        RemoveNoDuplicates(s[1..], x);
        var t := Remove(s[1..], x);
        RemoveMembership(s[1..], x, s[0]);
        assert s[0] !in s[1..] by {
          forall k | 0 <= k < |s[1..]| ensures s[1..][k] != s[0] { assert s[0] != s[k + 1]; }
        }
        forall i, j | 0 <= i < j < |[s[0]] + t| ensures ([s[0]] + t)[i] != ([s[0]] + t)[j] {
          if i == 0 { assert ([s[0]] + t)[j] == t[j - 1] && t[j - 1] in t; }
        }
      } else {
        assert x !in s[1..] by {
          forall k | 0 <= k < |s[1..]| ensures s[1..][k] != x { assert s[0] != s[k + 1]; }
        }
      }
    }
  }

  /** Appending an absent element and then removing it gives back the original list. */
  lemma {:induction false} RemoveAfterAppend<T>(s: seq<T>, x: T)
    requires x !in s
    ensures Remove(s + [x], x) == s
  {
    if s != [] {
      assert (s + [x])[1..] == s[1..] + [x];
      RemoveAfterAppend(s[1..], x);
    }
  }
}
