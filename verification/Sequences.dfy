/** An optional value and facts about sequences that several of the models share. */
module Sequences {

  datatype Option<+T> = None | Some(value: T)

  ghost predicate Distinct<T>(s: seq<T>) {
    forall i, j :: 0 <= i < j < |s| ==> s[i] != s[j]
  }

  lemma DistinctConcat<T>(s: seq<T>, t: seq<T>)
    requires Distinct(s) && Distinct(t) && forall x :: x in t ==> x !in s
    ensures Distinct(s + t)
  {
    forall i, j | 0 <= i < |s| && 0 <= j < |t|
      ensures s[i] != t[j]
    {
      assert t[j] in t;
    }
  }

  lemma DistinctInsert<T>(s: seq<T>, t: seq<T>, i: nat)
    requires Distinct(s) && Distinct(t) && i <= |s| && forall x :: x in t ==> x !in s
    ensures Distinct(s[..i] + t + s[i..])
  {
    DistinctConcat(s[..i], t);
    forall x | x in s[i..]
      ensures x !in s[..i] + t
    {
    }
    DistinctConcat(s[..i] + t, s[i..]);
  }

  lemma DistinctHalves<T>(s: seq<T>, i: nat)
    requires Distinct(s) && i <= |s|
    ensures forall x :: x in s[..i] ==> x !in s[i..]
  {
  }

  lemma DistinctDelete<T>(s: seq<T>, i: nat, j: nat)
    requires Distinct(s) && i <= j <= |s|
    ensures Distinct(s[..i] + s[j..])
  {
    forall x | x in s[j..]
      ensures x !in s[..i]
    {
    }
    DistinctConcat(s[..i], s[j..]);
  }

  /** The position of an element of a duplicate-free sequence. */
  ghost function IndexOf<T>(s: seq<T>, x: T): (i: nat)
    requires x in s
    ensures i < |s| && s[i] == x
  {
    var i :| 0 <= i < |s| && s[i] == x;
    i
  }

  lemma Assoc<T>(s: seq<T>, t: seq<T>, u: seq<T>)
    ensures s + t + u == s + (t + u)
  {
  }

  /** Concatenation of a sequence of sequences, in order. */
  function Flatten<T>(ss: seq<seq<T>>): (r: seq<T>) {
    if ss == [] then [] else Flatten(ss[..|ss| - 1]) + ss[|ss| - 1]
  }

  lemma FlattenSnoc<T>(ss: seq<seq<T>>, s: seq<T>)
    ensures Flatten(ss + [s]) == Flatten(ss) + s
  {
    assert (ss + [s])[..|ss|] == ss;
  }
}
