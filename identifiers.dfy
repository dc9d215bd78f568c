/**
 * The set of react-query identifiers in use. A JavaScript `Set` iterates in
 * insertion order and ignores a second `add` of the same value; here it is a
 * duplicate-free sequence, and its meaning is given by `FirstOccurrences` of
 * everything ever added.
 */
module Identifiers {

  predicate NoDuplicates(s: seq<string>) {
    forall i, j :: 0 <= i < j < |s| ==> s[i] != s[j]
  }

  /** The position of the first occurrence of `x` in `s`. */
  function IndexOf(s: seq<string>, x: string): (k: nat)
    requires x in s
    ensures k < |s| && s[k] == x && x !in s[..k]
  {
    if s[0] == x then 0
    else
      var k' := IndexOf(s[1..], x);
      assert s[..k' + 1] == [s[0]] + s[1..][..k'];
      1 + k'
  }

  /** Reference definition of an insertion-ordered set: keep an element of `s`
      exactly when it does not occur earlier in `s`. */
  function FirstOccurrences(s: seq<string>): (r: seq<string>)
    ensures forall x :: x in r <==> x in s
    ensures NoDuplicates(r)
  {
    if s == [] then []
    else
      var init := s[..|s| - 1];
      assert s == init + [s[|s| - 1]];
      FirstOccurrences(init) + (if s[|s| - 1] in init then [] else [s[|s| - 1]])
  }

  /** Adding `x` to the set: unchanged when `x` is already there, otherwise `x`
      goes last. This is what `Set.prototype.add` does to the iteration order. */
  lemma {:induction false} FirstOccurrencesSnoc(s: seq<string>, x: string)
    ensures FirstOccurrences(s + [x]) ==
              if x in FirstOccurrences(s) then FirstOccurrences(s)
              else FirstOccurrences(s) + [x]
  {
  }

  /** The first occurrence of an element of `p` is unaffected by what follows `p`. */
  lemma IndexOfAppend(p: seq<string>, q: seq<string>, x: string)
    requires x in p
    ensures IndexOf(p + q, x) == IndexOf(p, x)
  {
    var k, k' := IndexOf(p + q, x), IndexOf(p, x);
    assert (p + q)[k'] == x;
    assert (p + q)[..k] == p[..k];
  }

  /** The set lists its elements in the order of their first insertion. */
  lemma {:induction false} FirstOccurrencesInInsertionOrder(s: seq<string>, i: nat, j: nat)
    requires i < j < |FirstOccurrences(s)|
    ensures IndexOf(s, FirstOccurrences(s)[i]) < IndexOf(s, FirstOccurrences(s)[j])
  {
    var init, y := s[..|s| - 1], s[|s| - 1];
    assert s == init + [y];
    var r, r0 := FirstOccurrences(s), FirstOccurrences(init);
    assert r[i] in r0 by { assert r[i] == r0[i]; }
    IndexOfAppend(init, [y], r[i]);
    if j < |r0| {
      assert r[j] == r0[j];
      IndexOfAppend(init, [y], r[j]);
      FirstOccurrencesInInsertionOrder(init, i, j);
    } else {
      assert r[j] == y && y !in init;
    }
  }

  /** The set only grows: what it lists after adding `s` it still lists, in
      the same order and first, after adding more. */
  lemma {:induction false} FirstOccurrencesGrows(s: seq<string>, t: seq<string>)
    ensures FirstOccurrences(s) <= FirstOccurrences(s + t)
  {
    if t != [] {
      var init := t[..|t| - 1];
      assert s + t == (s + init) + [t[|t| - 1]];
      FirstOccurrencesGrows(s, init);
      FirstOccurrencesSnoc(s + init, t[|t| - 1]);
    } else {
      assert s + t == s;
    }
  }

  /** Adding the values of `t` after those of `s`: the set listed for `s` is
      kept first, and the new set holds exactly its old members and `t`'s. */
  lemma FirstOccurrencesExtend(s: seq<string>, t: seq<string>)
    ensures FirstOccurrences(s) <= FirstOccurrences(s + t)
    ensures forall x :: x in FirstOccurrences(s + t) <==> x in FirstOccurrences(s) || x in t
  {
    FirstOccurrencesGrows(s, t);
  }

  /** Adding distinct values one after another keeps every one of them, in order. */
  lemma {:induction false} FirstOccurrencesOfDistinct(s: seq<string>)
    requires NoDuplicates(s)
    ensures FirstOccurrences(s) == s
  {
    if s != [] {
      var init := s[..|s| - 1];
      assert s == init + [s[|s| - 1]];
      assert s[|s| - 1] !in init;
      FirstOccurrencesOfDistinct(init);
    }
  }
}
