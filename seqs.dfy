/** Lists of records keyed by a string id: the `filter` and `map` shapes the
    store and the dashboard use on widgets (keyed by `id`) and layouts
    (keyed by `i`). */
module Seqs {

  /** The keys that occur in a list. */
  function KeySet<T>(s: seq<T>, key: T -> string): (r: set<string>)
    ensures forall k :: k in r <==> exists i :: 0 <= i < |s| && key(s[i]) == k
  {
    if s == [] then {}
    else
      var rest := KeySet(s[1..], key);
      assert forall i | 0 <= i < |s| - 1 :: s[1..][i] == s[i + 1];
      {key(s[0])} + rest
  }

  /** No key occurs twice. */
  predicate UniqueKeys<T>(s: seq<T>, key: T -> string)
  {
    s == [] || (key(s[0]) !in KeySet(s[1..], key) && UniqueKeys(s[1..], key))
  }

  /** The number of entries carrying key `id`. */
  function Count<T>(s: seq<T>, key: T -> string, id: string): nat
  {
    if s == [] then 0
    else (if key(s[0]) == id then 1 else 0) + Count(s[1..], key, id)
  }

  /** `s.filter(x => key(x) !== id)`. */
  function Without<T(==,!new)>(s: seq<T>, key: T -> string, id: string): (r: seq<T>)
    ensures |r| <= |s|
    ensures forall x :: x in r <==> x in s && key(x) != id
    ensures id !in KeySet(s, key) ==> r == s
  {
    if s == [] then []
    else if key(s[0]) == id then Without(s[1..], key, id)
    else [s[0]] + Without(s[1..], key, id)
  }

  /** `s.map(x => key(x) === id ? f(x) : x)`. */
  function UpdateWhere<T>(s: seq<T>, key: T -> string, id: string, f: T -> T): (r: seq<T>)
    ensures |r| == |s|
    ensures forall k | 0 <= k < |s| :: r[k] == if key(s[k]) == id then f(s[k]) else s[k]
  {
    if s == [] then []
    else [if key(s[0]) == id then f(s[0]) else s[0]] + UpdateWhere(s[1..], key, id, f)
  }

  /** `r` is `s` with some entries dropped and the rest in their original order. */
  predicate IsSubsequence<T(==)>(r: seq<T>, s: seq<T>)
    decreases |s|
  {
    r == [] || (s != [] && ((r[0] == s[0] && IsSubsequence(r[1..], s[1..])) || IsSubsequence(r, s[1..])))
  }

  /** Distinct keys, stated by position. */
  lemma {:induction false} UniqueKeysAt<T>(s: seq<T>, key: T -> string, i: int, j: int)
    requires UniqueKeys(s, key)
    requires 0 <= i < |s| && 0 <= j < |s| && i != j
    ensures key(s[i]) != key(s[j])
  {
    if i == 0 {
      assert s[1..][j - 1] == s[j];
    } else if j == 0 {
      assert s[1..][i - 1] == s[i];
    } else {
      UniqueKeysAt(s[1..], key, i - 1, j - 1);
      assert s[1..][i - 1] == s[i] && s[1..][j - 1] == s[j];
    }
  }

  /** With unique keys a present key occurs exactly once and an absent one never. */
  lemma {:induction false} CountUnique<T>(s: seq<T>, key: T -> string, id: string)
    requires UniqueKeys(s, key)
    ensures Count(s, key, id) == if id in KeySet(s, key) then 1 else 0
  {
    if s != [] {
      CountUnique(s[1..], key, id);
    }
  }

  /** Filtering keeps order, drops every entry with key `id` and keeps every other one as often as it was there. */
  lemma {:induction false} WithoutExact<T(!new)>(s: seq<T>, key: T -> string, id: string)
    ensures IsSubsequence(Without(s, key, id), s)
    ensures forall x :: multiset(Without(s, key, id))[x] == if key(x) == id then 0 else multiset(s)[x]
  {
    if s != [] {
      WithoutExact(s[1..], key, id);
      assert s == [s[0]] + s[1..];
      var rest := Without(s[1..], key, id);
      if key(s[0]) != id {
        assert Without(s, key, id) == [s[0]] + rest;
        assert Without(s, key, id)[1..] == rest;
      }
    }
  }

  /** Filtering removes exactly key `id` from the key set and keeps keys unique. */
  lemma {:induction false} WithoutKeys<T(!new)>(s: seq<T>, key: T -> string, id: string)
    ensures KeySet(Without(s, key, id), key) == KeySet(s, key) - {id}
    ensures UniqueKeys(s, key) ==> UniqueKeys(Without(s, key, id), key)
  {
    if s != [] {
      WithoutKeys(s[1..], key, id);
      var rest := Without(s[1..], key, id);
      if key(s[0]) != id {
        assert Without(s, key, id) == [s[0]] + rest;
        assert Without(s, key, id)[1..] == rest;
      }
    }
  }

  /** A key-preserving update leaves keys, and so their uniqueness, as they were. */
  lemma {:induction false} UpdateWhereKeys<T>(s: seq<T>, key: T -> string, id: string, f: T -> T)
    requires forall x :: key(x) == id ==> key(f(x)) == key(x)
    ensures KeySet(UpdateWhere(s, key, id, f), key) == KeySet(s, key)
    ensures UniqueKeys(UpdateWhere(s, key, id, f), key) == UniqueKeys(s, key)
  {
    if s != [] {
      UpdateWhereKeys(s[1..], key, id, f);
      assert UpdateWhere(s, key, id, f)[1..] == UpdateWhere(s[1..], key, id, f);
    }
  }

  /** With unique keys, replacing by the key of position `k` touches position `k` only. */
  lemma UpdateWhereUnique<T>(s: seq<T>, key: T -> string, k: int, f: T -> T)
    requires UniqueKeys(s, key)
    requires 0 <= k < |s|
    ensures UpdateWhere(s, key, key(s[k]), f) == s[k := f(s[k])]
  {
    var r := UpdateWhere(s, key, key(s[k]), f);
    forall j | 0 <= j < |s| && j != k
      ensures r[j] == s[j]
    {
      UniqueKeysAt(s, key, j, k);
    }
  }

  /** Appending one entry adds its key; uniqueness is kept exactly when that key was new. */
  lemma {:induction false} AppendKeys<T>(s: seq<T>, key: T -> string, x: T)
    ensures KeySet(s + [x], key) == KeySet(s, key) + {key(x)}
    ensures UniqueKeys(s + [x], key) <==> UniqueKeys(s, key) && key(x) !in KeySet(s, key)
  {
    if s != [] {
      AppendKeys(s[1..], key, x);
      assert (s + [x])[1..] == s[1..] + [x];
    }
  }

  /** Keys distinct by position make the list's keys unique. */
  lemma {:induction false} UniqueKeysFromDistinct<T>(s: seq<T>, key: T -> string)
    requires forall i, j | 0 <= i < j < |s| :: key(s[i]) != key(s[j])
    ensures UniqueKeys(s, key)
  {
    if s != [] {
      assert forall i | 0 <= i < |s| - 1 :: s[1..][i] == s[i + 1];
      UniqueKeysFromDistinct(s[1..], key);
    }
  }

  /** Two lists whose entries carry the same keys position by position have the same keys. */
  lemma {:induction false} SameKeys<T, U>(s: seq<T>, key: T -> string, t: seq<U>, key': U -> string)
    requires |s| == |t|
    requires forall k | 0 <= k < |s| :: key(s[k]) == key'(t[k])
    ensures KeySet(s, key) == KeySet(t, key')
    ensures UniqueKeys(s, key) == UniqueKeys(t, key')
  {
    if s != [] {
      assert forall k | 0 <= k < |s| - 1 :: s[1..][k] == s[k + 1] && t[1..][k] == t[k + 1];
      SameKeys(s[1..], key, t[1..], key');
    }
  }
}
