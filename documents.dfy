/** MongoDB collections as the backend uses them: a collection is a sequence of
    documents, a document maps field names to values, and a query is a map of
    equality constraints. `Find` is `find(query).sort(key, dir).to_list(1000)`. */
module Documents {
  import opened Wrappers

  /** Field values. Times are integers; lists hold strings. */
  datatype Value = Null | Int(i: int) | Str(s: string) | Bool(b: bool) | Strs(items: seq<string>)

  type Doc = map<string, Value>
  type Query = map<string, Value>

  datatype Direction = Ascending | Descending

  /** The length cap of `to_list(1000)`. */
  const MaxResults: nat := 1000

  /** A field's value; a missing field reads as null, as in query matching and sorting. */
  function Get(d: Doc, key: string): Value
  {
    if key in d then d[key] else Null
  }

  predicate Matches(d: Doc, q: Query)
  {
    forall k :: k in q ==> Get(d, k) == q[k]
  }

  /** A matching document holds each constrained field's value. */
  lemma MatchedField(d: Doc, q: Query, k: string)
    requires Matches(d, q) && k in q
    ensures Get(d, k) == q[k]
  {
  }

  /** Every document of a matching list carries the queried value of `k`. */
  lemma {:induction false} AllMatchField(docs: seq<Doc>, q: Query, k: string)
    requires forall i :: 0 <= i < |docs| ==> Matches(docs[i], q)
    requires k in q
    ensures forall i :: 0 <= i < |docs| ==> Get(docs[i], k) == q[k]
  {
    forall i | 0 <= i < |docs| ensures Get(docs[i], k) == q[k] {
      MatchedField(docs[i], q, k);
    }
  }

  /** The documents of `coll` that match `q`, in collection order. */
  function Filter(coll: seq<Doc>, q: Query): (r: seq<Doc>)
    ensures forall i :: 0 <= i < |r| ==> Matches(r[i], q)
    ensures forall d :: multiset(r)[d] == if Matches(d, q) then multiset(coll)[d] else 0
    ensures |r| <= |coll|
  {
    if |coll| == 0 then []
    else
      var rest := Filter(coll[1..], q);
      assert coll == [coll[0]] + coll[1..];
      if Matches(coll[0], q) then [coll[0]] + rest else rest
  }

  /** The index of the first document that matches `q` (what `find_one` and
      `update_one` select). */
  function FirstMatch(coll: seq<Doc>, q: Query): (r: Option<nat>)
    ensures r.None? <==> forall i :: 0 <= i < |coll| ==> !Matches(coll[i], q)
    ensures r.Some? ==> r.value < |coll| && Matches(coll[r.value], q)
    ensures r.Some? ==> forall i :: 0 <= i < r.value ==> !Matches(coll[i], q)
  {
    if |coll| == 0 then None
    else if Matches(coll[0], q) then Some(0)
    else
      match FirstMatch(coll[1..], q)
      case None => None
      case Some(i) => Some(i + 1)
  }

  /** `FirstMatch` is `i` when `coll[i]` is the first document matching `q`. */
  lemma {:induction false} FirstMatchAt(coll: seq<Doc>, q: Query, i: nat)
    requires i < |coll| && Matches(coll[i], q)
    requires forall j :: 0 <= j < i ==> !Matches(coll[j], q)
    ensures FirstMatch(coll, q) == Some(i)
  {
    if i > 0 {
      FirstMatchAt(coll[1..], q, i - 1);
    }
  }

  /** `find_one(query)`. */
  function FindOne(coll: seq<Doc>, q: Query): (r: Option<Doc>)
    ensures r.None? <==> forall i :: 0 <= i < |coll| ==> !Matches(coll[i], q)
    ensures r.Some? ==> r.value in coll && Matches(r.value, q)
    ensures r.Some? ==> exists i :: 0 <= i < |coll| && r.value == coll[i] && Matches(coll[i], q) &&
                                    forall j :: 0 <= j < i ==> !Matches(coll[j], q)
  {
    match FirstMatch(coll, q)
    case None => None
    case Some(i) => Some(coll[i])
  }

  // ---------------------------------------------------------------- ordering

  /** Lexicographic order on strings (code-unit order, as MongoDB's binary
      comparison orders ASCII). */
  predicate StrLe(a: string, b: string)
  {
    |a| == 0 || (|b| > 0 && (a[0] < b[0] || (a[0] == b[0] && StrLe(a[1..], b[1..]))))
  }

  lemma {:induction false} StrLeTotal(a: string, b: string)
    ensures StrLe(a, b) || StrLe(b, a)
  {
    if |a| > 0 && |b| > 0 && a[0] == b[0] {
      StrLeTotal(a[1..], b[1..]);
    }
  }

  lemma {:induction false} StrLeTransitive(a: string, b: string, c: string)
    requires StrLe(a, b) && StrLe(b, c)
    ensures StrLe(a, c)
  {
    if |a| > 0 && |b| > 0 && |c| > 0 && a[0] == b[0] == c[0] {
      StrLeTransitive(a[1..], b[1..], c[1..]);
    }
  }

  /** The position of a value's kind in the sort order: null first, then
      numbers, strings, arrays and booleans, as in BSON order. */
  function Rank(v: Value): nat
  {
    match v
    case Null => 0
    case Int(_) => 1
    case Str(_) => 2
    case Strs(_) => 3
    case Bool(_) => 4
  }

  /** The ascending sort order on values; two arrays are not told apart. */
  predicate ValueLe(a: Value, b: Value)
  {
    Rank(a) < Rank(b) ||
    (Rank(a) == Rank(b) &&
      match a
      case Int(x) => x <= b.i
      case Str(x) => StrLe(x, b.s)
      case Bool(x) => !x || b.b
      case _ => true)
  }

  lemma ValueLeTotal(a: Value, b: Value)
    ensures ValueLe(a, b) || ValueLe(b, a)
  {
    if a.Str? && b.Str? {
      StrLeTotal(a.s, b.s);
    }
  }

  lemma ValueLeTransitive(a: Value, b: Value, c: Value)
    requires ValueLe(a, b) && ValueLe(b, c)
    ensures ValueLe(a, c)
  {
    if a.Str? && b.Str? && c.Str? {
      StrLeTransitive(a.s, b.s, c.s);
    }
  }

  /** `x` may come before `y` when sorting on `key` in direction `dir`. */
  predicate Before(x: Doc, y: Doc, key: string, dir: Direction)
  {
    match dir
    case Ascending => ValueLe(Get(x, key), Get(y, key))
    case Descending => ValueLe(Get(y, key), Get(x, key))
  }

  lemma BeforeTotal(x: Doc, y: Doc, key: string, dir: Direction)
    ensures Before(x, y, key, dir) || Before(y, x, key, dir)
  {
    ValueLeTotal(Get(x, key), Get(y, key));
  }

  lemma BeforeTransitive(x: Doc, y: Doc, z: Doc, key: string, dir: Direction)
    requires Before(x, y, key, dir) && Before(y, z, key, dir)
    ensures Before(x, z, key, dir)
  {
    match dir
    case Ascending => ValueLeTransitive(Get(x, key), Get(y, key), Get(z, key));
    case Descending => ValueLeTransitive(Get(z, key), Get(y, key), Get(x, key));
  }

  predicate Sorted(s: seq<Doc>, key: string, dir: Direction)
  {
    forall i, j :: 0 <= i < j < |s| ==> Before(s[i], s[j], key, dir)
  }

  /** Inserts `d` into sorted `s` ahead of the first document it may precede. */
  function Insert(d: Doc, s: seq<Doc>, key: string, dir: Direction): (r: seq<Doc>)
    requires Sorted(s, key, dir)
    ensures multiset(r) == multiset(s) + multiset{d}
    ensures Sorted(r, key, dir)
  {
    if |s| == 0 then [d]
    else if Before(d, s[0], key, dir) then
      SortedFront(d, s, key, dir);
      [d] + s
    else
      var rest := Insert(d, s[1..], key, dir);
      assert s == [s[0]] + s[1..];
      SortedAfterHead(d, s, rest, key, dir);
      [s[0]] + rest
  }

  lemma SortedFront(d: Doc, s: seq<Doc>, key: string, dir: Direction)
    requires Sorted(s, key, dir) && |s| > 0 && Before(d, s[0], key, dir)
    ensures Sorted([d] + s, key, dir)
  {
    var r := [d] + s;
    forall i, j | 0 <= i < j < |r| ensures Before(r[i], r[j], key, dir) {
      if i == 0 && j > 1 {
        BeforeTransitive(d, s[0], s[j - 1], key, dir);
      }
    }
  }

  lemma SortedAfterHead(d: Doc, s: seq<Doc>, rest: seq<Doc>, key: string, dir: Direction)
    requires Sorted(s, key, dir) && |s| > 0 && !Before(d, s[0], key, dir)
    requires Sorted(rest, key, dir) && multiset(rest) == multiset(s[1..]) + multiset{d}
    ensures Sorted([s[0]] + rest, key, dir)
  {
    var r := [s[0]] + rest;
    BeforeTotal(d, s[0], key, dir);
    forall i, j | 0 <= i < j < |r| ensures Before(r[i], r[j], key, dir) {
      if i == 0 {
        var x := rest[j - 1];
        assert x in multiset(rest);
        if x != d {
          assert x in multiset(s[1..]);
          var k :| 0 <= k < |s| - 1 && s[1..][k] == x;
          assert s[k + 1] == x;
        }
      } else {
        assert r[i] == rest[i - 1] && r[j] == rest[j - 1];
      }
    }
  }

  /** The documents of `s` in sort order (MongoDB leaves the order of equal
      keys open; this one keeps them in collection order). */
  function Sort(s: seq<Doc>, key: string, dir: Direction): (r: seq<Doc>)
    ensures Sorted(r, key, dir)
    ensures multiset(r) == multiset(s)
  {
    if |s| == 0 then []
    else
      assert s == [s[0]] + s[1..];
      Insert(s[0], Sort(s[1..], key, dir), key, dir)
  }

  function Take(s: seq<Doc>, n: nat): (r: seq<Doc>)
    ensures |r| == if |s| <= n then |s| else n
    ensures r == s[..|r|]
  {
    if |s| <= n then s else s[..n]
  }

  /** `find(q).sort(key, dir).to_list(1000)`. */
  function Find(coll: seq<Doc>, q: Query, key: string, dir: Direction): (r: seq<Doc>)
    ensures forall i :: 0 <= i < |r| ==> Matches(r[i], q)
    ensures Sorted(r, key, dir)
    ensures |r| <= MaxResults
    ensures |r| == if |Filter(coll, q)| <= MaxResults then |Filter(coll, q)| else MaxResults
    ensures multiset(r) <= multiset(coll)
    ensures |Filter(coll, q)| <= MaxResults ==> multiset(r) == multiset(Filter(coll, q))
    ensures KeptFirst(r, Filter(coll, q), key, dir)
  {
    var matches := Filter(coll, q);
    var sorted := Sort(matches, key, dir);
    FindFacts(coll, q, matches, sorted, key, dir);
    TakeKeepsFirst(sorted, matches, MaxResults, key, dir);
    Take(sorted, MaxResults)
  }

  /** `r` is drawn from `all`, and every document of `all` left out of `r`
      may come after each one kept. */
  ghost predicate KeptFirst(r: seq<Doc>, all: seq<Doc>, key: string, dir: Direction)
  {
    exists rest: seq<Doc> ::
      multiset(r) + multiset(rest) == multiset(all) &&
      forall i, j :: 0 <= i < |r| && 0 <= j < |rest| ==> Before(r[i], rest[j], key, dir)
  }

  /** Cutting a sorted list keeps documents that come before every one dropped. */
  lemma TakeKeepsFirst(sorted: seq<Doc>, all: seq<Doc>, n: nat, key: string, dir: Direction)
    requires Sorted(sorted, key, dir) && multiset(sorted) == multiset(all)
    ensures KeptFirst(Take(sorted, n), all, key, dir)
  {
    var r := Take(sorted, n);
    var rest := sorted[|r|..];
    assert sorted == r + rest;
    forall i, j | 0 <= i < |r| && 0 <= j < |rest| ensures Before(r[i], rest[j], key, dir) {
      assert r[i] == sorted[i] && rest[j] == sorted[|r| + j];
    }
  }

  lemma FindFacts(coll: seq<Doc>, q: Query, matches: seq<Doc>, sorted: seq<Doc>, key: string, dir: Direction)
    requires matches == Filter(coll, q)
    requires Sorted(sorted, key, dir) && multiset(sorted) == multiset(matches)
    ensures var r := Take(sorted, MaxResults);
      && (forall i :: 0 <= i < |r| ==> Matches(r[i], q))
      && Sorted(r, key, dir)
      && |r| == (if |matches| <= MaxResults then |matches| else MaxResults)
      && multiset(r) <= multiset(coll)
      && (|matches| <= MaxResults ==> multiset(r) == multiset(matches))
  {
    var r := Take(sorted, MaxResults);
    assert |sorted| == |matches| by {
      assert |multiset(sorted)| == |multiset(matches)|;
    }
    PrefixMultiset(sorted, |r|);
    FilterSubMultiset(coll, q);
    MatchesInPermutation(matches, sorted, q);
  }

  lemma PrefixMultiset(s: seq<Doc>, n: nat)
    requires n <= |s|
    ensures multiset(s[..n]) <= multiset(s)
  {
    assert s == s[..n] + s[n..];
  }

  lemma FilterSubMultiset(coll: seq<Doc>, q: Query)
    ensures multiset(Filter(coll, q)) <= multiset(coll)
  {
  }

  lemma MatchesInPermutation(s: seq<Doc>, t: seq<Doc>, q: Query)
    requires forall i :: 0 <= i < |s| ==> Matches(s[i], q)
    requires multiset(t) == multiset(s)
    ensures forall i :: 0 <= i < |t| ==> Matches(t[i], q)
  {
    forall i | 0 <= i < |t| ensures Matches(t[i], q) {
      assert t[i] in multiset(s);
      var k :| 0 <= k < |s| && s[k] == t[i];
    }
  }

  /** `find(q).to_list(1000)` without a sort: collection order. */
  function FindUnsorted(coll: seq<Doc>, q: Query): (r: seq<Doc>)
    ensures forall i :: 0 <= i < |r| ==> Matches(r[i], q)
    ensures |r| <= MaxResults && |r| <= |Filter(coll, q)|
    ensures r == Filter(coll, q)[..|r|]
  {
    Take(Filter(coll, q), MaxResults)
  }

  /** A projection that drops the given fields (`{"password": 0}`). */
  function Project(docs: seq<Doc>, hidden: set<string>): (r: seq<Doc>)
    ensures |r| == |docs|
    ensures forall i :: 0 <= i < |r| ==> r[i].Keys == docs[i].Keys - hidden
    ensures forall i, k :: 0 <= i < |r| && k in r[i] ==> r[i][k] == docs[i][k]
  {
    seq(|docs|, i requires 0 <= i < |docs| => docs[i] - hidden)
  }

  /** Projecting away other fields keeps every matched value of `k`. */
  lemma {:induction false} ProjectMatchField(docs: seq<Doc>, q: Query, hidden: set<string>, k: string)
    requires forall i :: 0 <= i < |docs| ==> Matches(docs[i], q)
    requires k in q && k !in hidden
    ensures forall i :: 0 <= i < |Project(docs, hidden)| ==> Get(Project(docs, hidden)[i], k) == q[k]
  {
    var r := Project(docs, hidden);
    forall i | 0 <= i < |r| ensures Get(r[i], k) == q[k] {
      MatchedField(docs[i], q, k);
      assert k in r[i] <==> k in docs[i];
    }
  }
}
