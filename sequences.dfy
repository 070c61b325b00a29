/** Sequence operations behind the repositories' sorted queries. */
module Sequences {

  /** The elements in the opposite order: creation order becomes newest first. */
  function Reverse<T(!new)>(s: seq<T>): (r: seq<T>)
    ensures |r| == |s|
    ensures forall x :: x in r <==> x in s
    ensures forall i :: 0 <= i < |s| ==> r[i] == s[|s| - 1 - i]
  {
    if s == [] then [] else Reverse(s[1..]) + [s[0]]
  }

  /** The positions of the elements `keep` accepts, every one of them, in increasing order. */
  function Positions<T>(s: seq<T>, keep: T -> bool): (ps: seq<nat>)
    ensures forall k :: 0 <= k < |ps| ==> ps[k] < |s| && keep(s[ps[k]])
    ensures forall k, l :: 0 <= k < l < |ps| ==> ps[k] < ps[l]
    ensures forall i :: 0 <= i < |s| && keep(s[i]) ==> i in ps
  {
    if s == [] then []
    else Positions(s[..|s| - 1], keep) + (if keep(s[|s| - 1]) then [|s| - 1] else [])
  }

  /**
   * The elements `keep` accepts, in their original order (a query filter): the
   * k-th result is the element at the k-th accepted position.
   */
  function Where<T(!new)>(s: seq<T>, keep: T -> bool): (r: seq<T>)
    ensures forall x :: x in r <==> x in s && keep(x)
    ensures var ps := Positions(s, keep);
            |r| == |ps| && forall k :: 0 <= k < |r| ==> r[k] == s[ps[k]]
  {
    if s == [] then []
    else Where(s[..|s| - 1], keep) + (if keep(s[|s| - 1]) then [s[|s| - 1]] else [])
  }

  /**
   * A query sorted newest first: `r` lists the accepted elements of `s` from the
   * last accepted position down to the first.
   */
  predicate NewestFirstOf<T(==)>(r: seq<T>, s: seq<T>, keep: T -> bool) {
    var ps := Positions(s, keep);
    |r| == |ps| && forall i :: 0 <= i < |r| ==> r[i] == s[ps[|ps| - 1 - i]]
  }

  /** Reversing a selection of `s` lists the selected positions from the last down. */
  lemma ReverseSelection<T(!new)>(w: seq<T>, s: seq<T>, ps: seq<nat>)
    requires |w| == |ps|
    requires forall k :: 0 <= k < |w| ==> ps[k] < |s| && w[k] == s[ps[k]]
    ensures forall i :: 0 <= i < |w| ==> Reverse(w)[i] == s[ps[|ps| - 1 - i]]
  {
    forall i | 0 <= i < |w| ensures Reverse(w)[i] == s[ps[|ps| - 1 - i]] {
      assert Reverse(w)[i] == w[|w| - 1 - i];
    }
  }

  /** Filtering and then reversing sorts newest first. */
  lemma ReverseWhere<T(!new)>(s: seq<T>, keep: T -> bool)
    ensures NewestFirstOf(Reverse(Where(s, keep)), s, keep)
  {
    ReverseSelection(Where(s, keep), s, Positions(s, keep));
  }

  /** `skip(n).limit(m)` of a query: the elements from `skip` on, at most `limit` of them (all when `limit` is 0). */
  function Window<T>(s: seq<T>, skip: nat, limit: nat): (r: seq<T>)
    ensures |r| == (var rest := |s| - skip; if rest <= 0 then 0 else if limit == 0 || rest <= limit then rest else limit)
    ensures forall k :: 0 <= k < |r| ==> r[k] == s[skip + k]
  {
    var rest := if skip <= |s| then s[skip..] else [];
    if limit == 0 || |rest| <= limit then rest else rest[..limit]
  }

  /** A window of the newest-first order, indexed from the end of the original sequence. */
  lemma NewestWindow<T(!new)>(s: seq<T>, skip: nat, limit: nat)
    ensures var r := Window(Reverse(s), skip, limit);
            forall k :: 0 <= k < |r| ==> r[k] == s[|s| - 1 - (skip + k)]
  {
  }

  lemma WhereAppend<T(!new)>(s: seq<T>, x: T, keep: T -> bool)
    ensures Where(s + [x], keep) == Where(s, keep) + (if keep(x) then [x] else [])
  {
    assert (s + [x])[..|s|] == s;
  }

  /** An element just added that the filter accepts comes first in the newest-first result. */
  lemma NewestFirst<T(!new)>(s: seq<T>, x: T, keep: T -> bool)
    requires keep(x)
    ensures |Reverse(Where(s + [x], keep))| > 0 && Reverse(Where(s + [x], keep))[0] == x
  {
    WhereAppend(s, x, keep);
  }
}
