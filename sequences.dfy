/** Array helpers the source takes from JavaScript: `indexOf`, and the
    first-occurrence de-duplication the collected word needs. */
module Sequences {

  /** `Array.prototype.indexOf`: the first index holding `x`, or -1. */
  function IndexOf<T(==)>(s: seq<T>, x: T): (i: int)
    ensures -1 <= i < |s|
    ensures i == -1 <==> x !in s
    ensures 0 <= i ==> s[i] == x && x !in s[..i]
  {
    if s == [] then -1
    else if s[0] == x then 0
    else
      var j := IndexOf(s[1..], x);
      assert s[1..][..j + 1] == s[..j + 2][1..] by { if j >= 0 {} }
      if j == -1 then -1 else j + 1
  }

  /** The elements of `s[i..]` that occur there for the first time in `s`, in order. */
  function Firsts<T(==)>(s: seq<T>, i: nat): seq<T>
    requires i <= |s|
    decreases |s| - i
  {
    if i == |s| then []
    else (if s[i] in s[..i] then [] else [s[i]]) + Firsts(s, i + 1)
  }

  /** Each element once, at its first occurrence, in first-occurrence order. */
  function Dedup<T(==)>(s: seq<T>): seq<T> {
    Firsts(s, 0)
  }

  /** `Firsts(s, i)` holds, once each, exactly the elements of `s[i..]` absent from `s[..i]`. */
  lemma {:induction false} FirstsMembers<T>(s: seq<T>, i: nat)
    requires i <= |s|
    ensures forall a :: 0 <= a < |Firsts(s, i)| ==> Firsts(s, i)[a] in s[i..] && Firsts(s, i)[a] !in s[..i]
    ensures forall k :: i <= k < |s| && s[k] !in s[..i] ==> s[k] in Firsts(s, i)
    ensures forall a, b :: 0 <= a < b < |Firsts(s, i)| ==> Firsts(s, i)[a] != Firsts(s, i)[b]
    decreases |s| - i
  {
    if i < |s| {
      FirstsMembers(s, i + 1);
      assert s[..i + 1] == s[..i] + [s[i]];
      assert s[i..] == [s[i]] + s[i + 1..];
    }
  }

  /** The de-duplicated sequence holds every element of `s` and nothing else, each once. */
  lemma DedupMembers<T>(s: seq<T>)
    ensures forall a :: 0 <= a < |Dedup(s)| ==> Dedup(s)[a] in s
    ensures forall k :: 0 <= k < |s| ==> s[k] in Dedup(s)
    ensures forall a, b :: 0 <= a < b < |Dedup(s)| ==> Dedup(s)[a] != Dedup(s)[b]
  {
    FirstsMembers(s, 0);
    assert s[0..] == s && s[..0] == [];
  }

  /** `Firsts(s, i)` is ordered by first occurrence, all of them at `i` or later. */
  lemma {:induction false} FirstsOrder<T>(s: seq<T>, i: nat)
    requires i <= |s|
    ensures forall a, b :: 0 <= a < b < |Firsts(s, i)| ==> IndexOf(s, Firsts(s, i)[a]) < IndexOf(s, Firsts(s, i)[b])
    ensures forall a :: 0 <= a < |Firsts(s, i)| ==> i <= IndexOf(s, Firsts(s, i)[a])
    decreases |s| - i
  {
    if i < |s| {
      FirstsOrder(s, i + 1);
      FirstsMembers(s, i);
    }
  }

  /** The kept elements appear in the order of their first occurrence in `s`. */
  lemma DedupKeepsFirstOccurrenceOrder<T>(s: seq<T>)
    ensures forall i, j :: 0 <= i < j < |Dedup(s)| ==> IndexOf(s, Dedup(s)[i]) < IndexOf(s, Dedup(s)[j])
  {
    FirstsOrder(s, 0);
  }
}
