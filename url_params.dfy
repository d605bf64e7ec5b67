/** The ordered key/value list a `URLSearchParams` object holds. Percent
    encoding is not modelled: a list is the sequence of its `append` calls. */
module UrlParams {
  import opened Wrappers

  type Param = (string, string)

  /** An optional filter as a page holds it: the empty string means "any". */
  function NonEmpty(s: string): (r: Option<string>)
    ensures r.None? <==> s == ""
    ensures r.Some? ==> r.value == s
  {
    if s == "" then None else Some(s)
  }

  /** The one-entry list `append(key, value)` adds when `value` is truthy,
      and the empty list otherwise. */
  function EntryIf(key: string, value: string): (ps: seq<Param>)
    ensures value == "" <==> ps == []
    ensures value != "" ==> ps == [(key, value)]
  {
    if value == "" then [] else [(key, value)]
  }

  /** `params.get(key)`: the value of the first entry with that key. */
  function Get(ps: seq<Param>, key: string): (r: Option<string>)
    ensures r.None? <==> forall i :: 0 <= i < |ps| ==> ps[i].0 != key
    ensures r.Some? ==> exists i :: 0 <= i < |ps| && ps[i] == (key, r.value)
  {
    if |ps| == 0 then None
    else if ps[0].0 == key then Some(ps[0].1)
    else
      var rest := Get(ps[1..], key);
      if rest.Some? then
        ghost var i :| 0 <= i < |ps[1..]| && ps[1..][i] == (key, rest.value);
        assert ps[i + 1] == (key, rest.value);
        rest
      else
        assert forall i :: 1 <= i < |ps| ==> ps[i] == ps[1..][i - 1];
        rest
  }

  /** A lookup in a concatenation finds the key in the first part if it is
      there, and in the second part otherwise. */
  lemma {:induction false} GetAppend(ps: seq<Param>, qs: seq<Param>, key: string)
    ensures Get(ps + qs, key) == if Get(ps, key).Some? then Get(ps, key) else Get(qs, key)
    decreases |ps|
  {
    if |ps| > 0 {
      assert (ps + qs)[1..] == ps[1..] + qs;
      GetAppend(ps[1..], qs, key);
    } else {
      assert ps + qs == qs;
    }
  }

  /** A lookup in four concatenated lists finds the first part holding the key. */
  lemma LookupFour(a: seq<Param>, b: seq<Param>, c: seq<Param>, d: seq<Param>, k: string)
    ensures Get(a + b + c + d, k) ==
      if Get(a, k).Some? then Get(a, k)
      else if Get(b, k).Some? then Get(b, k)
      else if Get(c, k).Some? then Get(c, k)
      else Get(d, k)
  {
    GetAppend(a + b + c, d, k);
    GetAppend(a + b, c, k);
    GetAppend(a, b, k);
  }

  /** A lookup in a list of at most one entry. */
  lemma GetEntryIf(key: string, value: string, k: string)
    ensures Get(EntryIf(key, value), k) == if k == key then NonEmpty(value) else None
  {
  }

  /** The position of `k` in the list of known keys (its length when absent). */
  function Position(order: seq<string>, k: string): (n: nat)
    ensures n <= |order|
    ensures n < |order| ==> order[n] == k
    ensures forall i :: 0 <= i < n ==> order[i] != k
  {
    if |order| == 0 then 0
    else if order[0] == k then 0
    else 1 + Position(order[1..], k)
  }

  /** Every key of `ps` is a known key, and the keys come in the order of
      `order`, each at most once. */
  predicate Ordered(ps: seq<Param>, order: seq<string>)
  {
    && (forall i :: 0 <= i < |ps| ==> Position(order, ps[i].0) < |order|)
    && (forall i, j :: 0 <= i < j < |ps| ==> Position(order, ps[i].0) < Position(order, ps[j].0))
  }
}
