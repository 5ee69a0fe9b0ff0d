/**
 * Order-preserving filters over sequences, the shape of the `Array.prototype.filter`
 * calls the components use on invitee lists.
 */
module Sequences {

  /** `a` is `b` with some elements left out and the rest in their order. */
  ghost predicate IsSubsequence<T>(a: seq<T>, b: seq<T>)
    decreases |b|
  {
    a == [] || (b != [] && ((a[0] == b[0] && IsSubsequence(a[1..], b[1..])) || IsSubsequence(a, b[1..])))
  }

  predicate NoDuplicates<T(==)>(s: seq<T>) {
    forall i, j :: 0 <= i < j < |s| ==> s[i] != s[j]
  }

  /** `s.filter(y => y !== x)`: every occurrence of `x` removed, the rest kept in order. */
  function Without(s: seq<string>, x: string): (r: seq<string>)
    ensures IsSubsequence(r, s)
    ensures forall y :: y in r <==> y in s && y != x
    ensures forall y :: y != x ==> multiset(r)[y] == multiset(s)[y]
    ensures x !in s ==> r == s
  {
    if s == [] then []
    else
      assert s == [s[0]] + s[1..];
      if s[0] == x then Without(s[1..], x) else [s[0]] + Without(s[1..], x)
  }

  /** `a.filter(y => !b.includes(y))`: the elements of `a` that are not in `b`, in order. */
  function Minus(a: seq<string>, b: seq<string>): (r: seq<string>)
    ensures IsSubsequence(r, a)
    ensures forall y :: y in r <==> y in a && y !in b
    ensures forall y :: multiset(r)[y] == if y in b then 0 else multiset(a)[y]
  {
    if a == [] then []
    else
      assert a == [a[0]] + a[1..];
      if a[0] in b then Minus(a[1..], b) else [a[0]] + Minus(a[1..], b)
  }

  /** `a.filter(y => !a.includes(y))` keeps nothing. */
  lemma MinusSelf(a: seq<string>)
    ensures Minus(a, a) == []
  {
    var r := Minus(a, a);
    assert forall i :: 0 <= i < |r| ==> r[i] in r;
  }

  /** A subsequence of a duplicate-free sequence is duplicate-free. */
  lemma {:induction false} SubsequenceNoDuplicates<T>(a: seq<T>, b: seq<T>)
    requires IsSubsequence(a, b) && NoDuplicates(b)
    ensures NoDuplicates(a)
  {
    if a != [] {
      assert b != [];
      assert NoDuplicates(b[1..]) by {
        forall i, j | 0 <= i < j < |b| - 1 ensures b[1..][i] != b[1..][j] {
          assert b[1..][i] == b[i + 1] && b[1..][j] == b[j + 1];
        }
      }
      if a[0] == b[0] && IsSubsequence(a[1..], b[1..]) {
        SubsequenceNoDuplicates(a[1..], b[1..]);
        SubsequenceMembers(a[1..], b[1..]);
        forall i, j | 0 <= i < j < |a| ensures a[i] != a[j] {
          if i == 0 {
            assert a[j] == a[1..][j - 1];
            assert a[j] in b[1..];
            var k :| 0 <= k < |b| - 1 && b[1..][k] == a[j];
            assert b[k + 1] == a[j];
          } else {
            assert a[i] == a[1..][i - 1] && a[j] == a[1..][j - 1];
          }
        }
      } else {
        SubsequenceNoDuplicates(a, b[1..]);
      }
    }
  }

  /** Every element of a subsequence is an element of the whole. */
  lemma {:induction false} SubsequenceMembers<T>(a: seq<T>, b: seq<T>)
    requires IsSubsequence(a, b)
    ensures forall y :: y in a ==> y in b
  {
    if a != [] {
      if a[0] == b[0] && IsSubsequence(a[1..], b[1..]) {
        SubsequenceMembers(a[1..], b[1..]);
        forall y | y in a ensures y in b {
          if y != a[0] {
            var i :| 0 <= i < |a| && a[i] == y;
            assert a[1..][i - 1] == y;
            assert y in b[1..];
          }
        }
      } else {
        SubsequenceMembers(a, b[1..]);
        forall y | y in a ensures y in b {
          assert y in b[1..];
        }
      }
    }
  }
}
