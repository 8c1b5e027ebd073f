/** Kernel lists of request numbers as sequences, and how removal changes them. */
module ListOps {

  /** list_del: take one entry off a list. */
  function Without(s: seq<nat>, x: nat): seq<nat> {
    if s == [] then [] else if s[0] == x then s[1..] else [s[0]] + Without(s[1..], x)
  }

  lemma InCount(s: seq<nat>, y: nat)
    ensures y in s <==> multiset(s)[y] > 0
  {
    assert y in s <==> y in multiset(s);
  }

  lemma {:induction false} WithoutCount(s: seq<nat>, x: nat, y: nat)
    ensures multiset(Without(s, x))[y] == if y == x && x in s then multiset(s)[y] - 1 else multiset(s)[y]
  {
    if s != [] {
      assert s == [s[0]] + s[1..];
      if s[0] != x { WithoutCount(s[1..], x, y); }
    }
  }

  lemma {:induction false} WithoutAbsent(s: seq<nat>, x: nat)
    requires x !in s
    ensures Without(s, x) == s
  {
    if s != [] { WithoutAbsent(s[1..], x); }
  }

  /** Removing an entry that occurs once removes it and nothing else. */
  lemma WithoutMember(s: seq<nat>, x: nat, y: nat)
    requires multiset(s)[x] <= 1
    ensures y in Without(s, x) <==> y in s && y != x
    ensures multiset(Without(s, x))[y] == if y == x then 0 else multiset(s)[y]
  {
    WithoutCount(s, x, y);
    InCount(s, y);
    InCount(s, x);
    InCount(Without(s, x), y);
  }

  lemma {:induction false} WithoutAt(s: seq<nat>, x: nat, k: nat)
    requires k < |s| && s[k] == x && forall i :: 0 <= i < k ==> s[i] != x
    ensures Without(s, x) == s[..k] + s[k + 1..]
  {
    if k > 0 { WithoutAt(s[1..], x, k - 1); }
  }

  /** A list built by adding each entry at the head. */
  function Reversed(l: seq<nat>): (r: seq<nat>)
    ensures forall x :: x in r <==> x in l
  {
    if l == [] then [] else Reversed(l[1..]) + [l[0]]
  }
}
