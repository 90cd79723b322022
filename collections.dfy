/**
 * The collection operations the controllers perform on a document collection,
 * held as a sequence in the database's natural (insertion) order: `findOne`
 * returns the first match, `find` and `deleteMany` select by a filter, and a
 * unique index keeps a field's values distinct.
 */
module Collections {
  import opened Wrappers

  /** `findOne`: the position of the first document the filter accepts. */
  function FirstIndex<T>(s: seq<T>, p: T -> bool): (r: Option<nat>)
    ensures r.Some? ==> r.value < |s| && p(s[r.value])
    ensures r.Some? ==> forall j :: 0 <= j < r.value ==> !p(s[j])
    ensures r.None? <==> forall j :: 0 <= j < |s| ==> !p(s[j])
  {
    if s == [] then None
    else if p(s[0]) then Some(0)
    else match FirstIndex(s[1..], p)
      case None => None
      case Some(i) => Some(i + 1)
  }

  /** `find`: the documents the filter accepts, in order. Each accepted
      document is kept as often as it occurs and every other is dropped. */
  function Filter<T(!new)>(s: seq<T>, p: T -> bool): (r: seq<T>)
    ensures |r| <= |s|
    ensures forall x :: x in r <==> x in s && p(x)
    ensures forall x :: multiset(r)[x] == if p(x) then multiset(s)[x] else 0
  {
    if s == [] then []
    else
      var rest := Filter(s[1..], p);
      assert s == [s[0]] + s[1..];
      if p(s[0]) then [s[0]] + rest else rest
  }

  /** Filtering with a filter that accepts everything changes nothing. */
  lemma {:induction false} FilterAll<T(!new)>(s: seq<T>, p: T -> bool)
    requires forall i :: 0 <= i < |s| ==> p(s[i])
    ensures Filter(s, p) == s
  {
    if s != [] {
      FilterAll(s[1..], p);
    }
  }

  /** `find(...)[0]` is `findOne(...)`: the first document a filter keeps is
      the first one it accepts. */
  lemma {:induction false} FilterHead<T(!new)>(s: seq<T>, p: T -> bool)
    ensures Filter(s, p) == [] <==> FirstIndex(s, p).None?
    ensures Filter(s, p) != [] ==> Filter(s, p)[0] == s[FirstIndex(s, p).value]
  {
    if s != [] && !p(s[0]) {
      FilterHead(s[1..], p);
    }
  }

  /** What a unique index guarantees: no two documents share a key. */
  ghost predicate Distinct<T, K>(s: seq<T>, key: T -> K) {
    forall i, j :: 0 <= i < j < |s| ==> key(s[i]) != key(s[j])
  }

  /** Appending a document whose key no document holds keeps the keys distinct. */
  lemma DistinctAppendFresh<T, K>(s: seq<T>, x: T, key: T -> K)
    requires Distinct(s, key) && forall i :: 0 <= i < |s| ==> key(s[i]) != key(x)
    ensures Distinct(s + [x], key)
  {
    var t := s + [x];
    assert forall i :: 0 <= i < |s| ==> t[i] == s[i];
  }

  /** Replacing one document keeps the keys distinct when the new key is not
      held by any other document. */
  lemma DistinctUpdate<T, K>(s: seq<T>, k: nat, x: T, key: T -> K)
    requires k < |s| && Distinct(s, key)
    requires forall j :: 0 <= j < |s| && j != k ==> key(s[j]) != key(x)
    ensures Distinct(s[k := x], key)
  {
  }

  /** `deleteOne` at a known position. */
  function RemoveAt<T>(s: seq<T>, k: nat): (r: seq<T>)
    requires k < |s|
    ensures |r| == |s| - 1
    ensures forall j :: 0 <= j < k ==> r[j] == s[j]
    ensures forall j :: k <= j < |r| ==> r[j] == s[j + 1]
  {
    s[..k] + s[k + 1..]
  }

  lemma DistinctRemoveAt<T, K>(s: seq<T>, k: nat, key: T -> K)
    requires k < |s| && Distinct(s, key)
    ensures Distinct(RemoveAt(s, k), key)
  {
    var r := RemoveAt(s, k);
    forall i, j | 0 <= i < j < |r| ensures key(r[i]) != key(r[j]) {
      var i' := if i < k then i else i + 1;
      var j' := if j < k then j else j + 1;
      assert r[i] == s[i'] && r[j] == s[j'];
    }
  }

  /** Removing every document a filter rejects keeps the keys distinct. */
  lemma {:induction false} DistinctFilter<T(!new), K>(s: seq<T>, p: T -> bool, key: T -> K)
    requires Distinct(s, key)
    ensures Distinct(Filter(s, p), key)
  {
    if s != [] {
      var rest := Filter(s[1..], p);
      assert Distinct(s[1..], key) by {
        forall i, j | 0 <= i < j < |s| - 1 ensures key(s[1..][i]) != key(s[1..][j]) {
          assert s[1..][i] == s[i + 1] && s[1..][j] == s[j + 1];
        }
      }
      DistinctFilter(s[1..], p, key);
      if p(s[0]) {
        var r := [s[0]] + rest;
        forall i, j | 0 <= i < j < |r| ensures key(r[i]) != key(r[j]) {
          if i == 0 {
            assert r[j] == rest[j - 1];
            assert rest[j - 1] in s[1..];
            var m :| 0 <= m < |s| - 1 && s[1..][m] == rest[j - 1];
            assert s[m + 1] == r[j];
          } else {
            assert r[i] == rest[i - 1] && r[j] == rest[j - 1];
          }
        }
      }
    }
  }
}
