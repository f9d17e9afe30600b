/**
 * The specification of the record store shared by both services: an ordered
 * sequence of records, each with a string identifier given by `idOf`.
 * Identifiers need not be unique; every search is a left-to-right scan that
 * stops at the first record whose identifier equals the key.
 */
module Slices {
  import opened Wrappers

  /** `k` is the position of the first record whose identifier is `key`. */
  ghost predicate IsFirstMatch<T>(s: seq<T>, k: int, key: string, idOf: T -> string) {
    && 0 <= k < |s|
    && idOf(s[k]) == key
    && forall j :: 0 <= j < k ==> idOf(s[j]) != key
  }

  /** No record of `s` has identifier `key`. */
  ghost predicate NoMatch<T>(s: seq<T>, key: string, idOf: T -> string) {
    forall j :: 0 <= j < |s| ==> idOf(s[j]) != key
  }

  /** The identifiers of `s`, in store order. */
  function Ids<T>(s: seq<T>, idOf: T -> string): (ids: seq<string>)
    ensures |ids| == |s|
    ensures forall j :: 0 <= j < |s| ==> ids[j] == idOf(s[j])
  {
    seq(|s|, j requires 0 <= j < |s| => idOf(s[j]))
  }

  /** The position of the first record with identifier `key`, if any. */
  function FirstIndex<T>(s: seq<T>, key: string, idOf: T -> string): (r: Option<nat>)
    ensures r.Some? ==> IsFirstMatch(s, r.value, key, idOf)
    ensures r.None? <==> NoMatch(s, key, idOf)
  {
    if s == [] then None
    else if idOf(s[0]) == key then Some(0)
    else
      match FirstIndex(s[1..], key, idOf)
      case Some(k) => Some(k + 1)
      case None => None
  }

  /** A first match is unique, so it is the one `FirstIndex` finds. */
  lemma FirstIndexIs<T>(s: seq<T>, k: int, key: string, idOf: T -> string)
    requires IsFirstMatch(s, k, key, idOf)
    ensures FirstIndex(s, key, idOf) == Some(k)
  {
  }

  /** The record a lookup by `key` returns: the first one with that identifier. */
  function Find<T>(s: seq<T>, key: string, idOf: T -> string): (r: Option<T>)
    ensures r.Some? ==> exists k :: IsFirstMatch(s, k, key, idOf) && r.value == s[k]
    ensures r.Some? ==> idOf(r.value) == key && r.value in s
    ensures r.None? <==> NoMatch(s, key, idOf)
  {
    match FirstIndex(s, key, idOf)
    case Some(k) => Some(s[k])
    case None => None
  }

  /**
   * Reference definition of delete-first-match, by recursion on the store:
   * drop the first record whose identifier is `key` and keep everything else
   * in order.
   */
  function RemoveFirst<T>(s: seq<T>, key: string, idOf: T -> string): (r: seq<T>)
    ensures NoMatch(s, key, idOf) ==> r == s
    ensures !NoMatch(s, key, idOf) ==> |r| == |s| - 1
  {
    if s == [] then []
    else if idOf(s[0]) == key then s[1..]
    else [s[0]] + RemoveFirst(s[1..], key, idOf)
  }

  /** Removing the first match is splicing out its position `k`. */
  lemma {:induction false} RemoveFirstIsSplice<T>(s: seq<T>, k: int, key: string, idOf: T -> string)
    requires IsFirstMatch(s, k, key, idOf)
    ensures RemoveFirst(s, key, idOf) == s[..k] + s[k + 1..]
    decreases k
  {
    if k > 0 {
      assert idOf(s[0]) != key;
      RemoveFirstIsSplice(s[1..], k - 1, key, idOf);
      assert s[1..][..k - 1] + s[1..][k..] == s[1..k] + s[k + 1..];
      assert [s[0]] + s[1..k] == s[..k];
    }
  }

  /**
   * Delete keeps the order of what remains: positions before the first match
   * are untouched, later ones move down by one, including later records that
   * share the deleted identifier.
   */
  lemma RemoveFirstKeepsOrder<T>(s: seq<T>, k: int, key: string, idOf: T -> string)
    requires IsFirstMatch(s, k, key, idOf)
    ensures |RemoveFirst(s, key, idOf)| == |s| - 1
    ensures forall j :: 0 <= j < k ==> RemoveFirst(s, key, idOf)[j] == s[j]
    ensures forall j :: k < j < |s| ==> RemoveFirst(s, key, idOf)[j - 1] == s[j]
  {
    RemoveFirstIsSplice(s, k, key, idOf);
  }

  /** How many records of `s` have identifier `key`. */
  function Count<T>(s: seq<T>, key: string, idOf: T -> string): (n: nat)
    ensures n <= |s|
    ensures n == 0 <==> NoMatch(s, key, idOf)
  {
    if s == [] then 0
    else (if idOf(s[0]) == key then 1 else 0) + Count(s[1..], key, idOf)
  }

  /**
   * Delete removes exactly one record carrying `key` when there is one, and no
   * record carrying any other identifier.
   */
  lemma {:induction false} RemoveFirstCount<T>(s: seq<T>, key: string, other: string, idOf: T -> string)
    ensures Count(s, other, idOf)
         == Count(RemoveFirst(s, key, idOf), other, idOf)
            + (if other == key && !NoMatch(s, key, idOf) then 1 else 0)
  {
    if s != [] && idOf(s[0]) != key {
      RemoveFirstCount(s[1..], key, other, idOf);
      var t := RemoveFirst(s[1..], key, idOf);
      assert ([s[0]] + t)[1..] == t;
      assert NoMatch(s, key, idOf) <==> NoMatch(s[1..], key, idOf) by {
        if NoMatch(s[1..], key, idOf) {
          forall j | 0 <= j < |s| ensures idOf(s[j]) != key {
            if j > 0 { assert s[j] == s[1..][j - 1]; }
          }
        }
      }
    }
  }

  /** Looking up any other identifier finds the same record after a delete. */
  lemma {:induction false} FindAfterRemoveOther<T>(s: seq<T>, key: string, other: string, idOf: T -> string)
    requires other != key
    ensures Find(RemoveFirst(s, key, idOf), other, idOf) == Find(s, other, idOf)
  {
    if s != [] && idOf(s[0]) != key {
      var t := RemoveFirst(s[1..], key, idOf);
      FindAfterRemoveOther(s[1..], key, other, idOf);
      FindCons(s[0], t, other, idOf);
      FindCons(s[0], s[1..], other, idOf);
      assert [s[0]] + s[1..] == s;
    } else if s != [] {
      FindCons(s[0], s[1..], other, idOf);
      assert [s[0]] + s[1..] == s;
    }
  }

  /** After a delete, a lookup of the same identifier finds its next duplicate, if any. */
  lemma FindAfterRemoveSame<T>(s: seq<T>, k: int, key: string, idOf: T -> string)
    requires IsFirstMatch(s, k, key, idOf)
    ensures Find(RemoveFirst(s, key, idOf), key, idOf) == Find(s[k + 1..], key, idOf)
  {
    RemoveFirstIsSplice(s, k, key, idOf);
    FindAppendSkip(s[..k], s[k + 1..], key, idOf);
  }

  /** One step of the scan. */
  lemma FindCons<T>(x: T, s: seq<T>, key: string, idOf: T -> string)
    ensures Find([x] + s, key, idOf) == if idOf(x) == key then Some(x) else Find(s, key, idOf)
  {
    assert ([x] + s)[1..] == s;
  }

  /** A prefix without the key does not change what a lookup finds. */
  lemma {:induction false} FindAppendSkip<T>(a: seq<T>, b: seq<T>, key: string, idOf: T -> string)
    requires NoMatch(a, key, idOf)
    ensures Find(a + b, key, idOf) == Find(b, key, idOf)
  {
    if a != [] {
      assert idOf(a[0]) != key;
      assert NoMatch(a[1..], key, idOf) by {
        forall j | 0 <= j < |a[1..]| ensures idOf(a[1..][j]) != key {
          assert a[1..][j] == a[j + 1];
        }
      }
      FindAppendSkip(a[1..], b, key, idOf);
      FindCons(a[0], a[1..] + b, key, idOf);
      assert [a[0]] + (a[1..] + b) == a + b;
    } else {
      assert a + b == b;
    }
  }

  /**
   * Appending never shadows an existing record: a lookup finds the new record
   * only when no earlier record has its identifier.
   */
  lemma {:induction false} FindAfterAppend<T>(s: seq<T>, x: T, key: string, idOf: T -> string)
    ensures Find(s + [x], key, idOf)
         == if Find(s, key, idOf).Some? then Find(s, key, idOf)
            else if idOf(x) == key then Some(x) else None
  {
    if s != [] {
      FindAfterAppend(s[1..], x, key, idOf);
      FindCons(s[0], s[1..] + [x], key, idOf);
      FindCons(s[0], s[1..], key, idOf);
      assert [s[0]] + (s[1..] + [x]) == s + [x];
      assert [s[0]] + s[1..] == s;
    } else {
      FindCons(x, [], key, idOf);
      assert [x] + [] == [x];
    }
  }

  /** Deleting a freshly appended record whose identifier was new undoes the append. */
  lemma {:induction false} RemoveFirstUndoesAppend<T>(s: seq<T>, x: T, idOf: T -> string)
    requires NoMatch(s, idOf(x), idOf)
    ensures RemoveFirst(s + [x], idOf(x), idOf) == s
  {
    RemoveFirstIsSplice(s + [x], |s|, idOf(x), idOf);
    assert (s + [x])[..|s|] == s;
  }
}
