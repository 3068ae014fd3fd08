/**
 * PHP values and PHP arrays as the request layer of the Campaign Monitor
 * client uses them.
 *
 * A PHP array is an ORDERED map: its entries keep insertion order, a key
 * occurs at most once, `$a[k] = v` replaces the value of an existing key in
 * place and appends a new key at the end, and `$a += $b` (array union) adds
 * the entries of `$b` whose keys `$a` lacks, never overwriting. Keys are
 * strings here; PHP stores a decimal-integer string key as that integer, so
 * an integer key is represented by its decimal string.
 */
module PhpArrays {

  datatype Option<T> = None | Some(value: T)

  /** The PHP values that endpoint arguments carry. */
  datatype Value =
    | Null
    | Bool(b: bool)
    | Int(i: int)
    | Str(s: string)
    | Arr(entries: seq<(string, Value)>)

  /** A PHP array: entries in insertion order. */
  type Entries = seq<(string, Value)>

  /** The keys of an array, in order. */
  function Keys(a: Entries): (ks: seq<string>)
    ensures |ks| == |a|
    ensures forall i :: 0 <= i < |a| ==> ks[i] == a[i].0
  {
    if a == [] then [] else [a[0].0] + Keys(a[1..])
  }

  /** Every key occurs once: what PHP guarantees of every array. */
  predicate DistinctKeys(a: Entries)
  {
    forall i, j :: 0 <= i < j < |a| ==> a[i].0 != a[j].0
  }

  predicate HasKey(a: Entries, k: string)
  {
    exists i :: 0 <= i < |a| && a[i].0 == k
  }

  /** `$a[k]` for a key that may be missing: the value of its first entry. */
  function Lookup(a: Entries, k: string): (r: Option<Value>)
    ensures r.Some? <==> HasKey(a, k)
    ensures r.Some? ==> exists i :: 0 <= i < |a| && a[i] == (k, r.value)
  {
    if a == [] then None
    else if a[0].0 == k then Some(a[0].1)
    else
      var r := Lookup(a[1..], k);
      assert forall i :: 0 < i < |a| ==> a[i] == a[1..][i - 1];
      assert HasKey(a[1..], k) ==> HasKey(a, k) by {
        if HasKey(a[1..], k) {
          var i :| 0 <= i < |a[1..]| && a[1..][i].0 == k;
          assert a[i + 1].0 == k;
        }
      }
      r
  }

  /** In a well-formed array, each entry is what its key looks up. */
  lemma LookupAt(a: Entries, i: int)
    requires DistinctKeys(a) && 0 <= i < |a|
    ensures Lookup(a, a[i].0) == Some(a[i].1)
  {
  }

  /** `$a[k] = v`: replaces the value of `k` where it stands, or appends. */
  function Put(a: Entries, k: string, v: Value): (r: Entries)
    ensures HasKey(a, k) ==> |r| == |a|
    ensures !HasKey(a, k) ==> r == a + [(k, v)]
  {
    if a == [] then [(k, v)]
    else if a[0].0 == k then [(k, v)] + a[1..]
    else
      assert HasKey(a, k) <==> HasKey(a[1..], k) by {
        if HasKey(a, k) {
          var i :| 0 <= i < |a| && a[i].0 == k;
          assert a[1..][i - 1].0 == k;
        }
        if HasKey(a[1..], k) {
          var i :| 0 <= i < |a[1..]| && a[1..][i].0 == k;
          assert a[i + 1].0 == k;
        }
      }
      [a[0]] + Put(a[1..], k, v)
  }

  /**
   * `if (c) { $a[k] = v; }`: when the condition holds, `k` holds `v`;
   * otherwise the array is untouched; either way no other key changes.
   */
  function PutIf(a: Entries, k: string, v: Value, c: bool): (r: Entries)
    ensures c ==> Lookup(r, k) == Some(v)
    ensures !c ==> r == a
    ensures forall j :: j != k ==> Lookup(r, j) == Lookup(a, j)
  {
    PutLookup(a, k, v, k);
    PutOthers(a, k, v);
    if c then Put(a, k, v) else a
  }

  /** `$a + $b`: the entries of `a`, then those of `b` whose key `a` lacks. */
  function Union(a: Entries, b: Entries): (r: Entries)
    ensures |r| >= |a| && r[..|a|] == a
    decreases b
  {
    if b == [] then a
    else if HasKey(a, b[0].0) then Union(a, b[1..])
    else Union(a + [b[0]], b[1..])
  }

  /** After `$a[k] = v`, `k` holds `v` and every other key holds what it held. */
  lemma {:induction false} PutLookup(a: Entries, k: string, v: Value, j: string)
    ensures Lookup(Put(a, k, v), j) == if j == k then Some(v) else Lookup(a, j)
  {
    if a != [] && a[0].0 != k {
      PutLookup(a[1..], k, v, j);
      assert Put(a, k, v)[1..] == Put(a[1..], k, v);
    }
  }

  /** `$a[k] = v` changes the value of no other key. */
  lemma PutOthers(a: Entries, k: string, v: Value)
    ensures forall j :: j != k ==> Lookup(Put(a, k, v), j) == Lookup(a, j)
  {
    forall j | j != k {
      PutLookup(a, k, v, j);
    }
  }

  /** `$a[k] = v` keeps the order of the keys already present. */
  lemma {:induction false} PutKeys(a: Entries, k: string, v: Value)
    ensures HasKey(a, k) ==> Keys(Put(a, k, v)) == Keys(a)
    ensures !HasKey(a, k) ==> Keys(Put(a, k, v)) == Keys(a) + [k]
  {
    if a != [] && a[0].0 != k {
      PutKeys(a[1..], k, v);
    }
  }

  /** `k in Keys(a)` and `HasKey(a, k)` say the same. */
  lemma KeysHasKey(a: Entries, k: string)
    ensures HasKey(a, k) <==> k in Keys(a)
  {
    if HasKey(a, k) {
      var i :| 0 <= i < |a| && a[i].0 == k;
      assert Keys(a)[i] == k;
    }
  }

  /**
   * Setting a key the array lacks only under a condition: the key is
   * appended, with its value, exactly when the condition holds, and no other
   * key changes.
   */
  lemma PutIfFresh(a: Entries, k: string, v: Value, c: bool)
    requires k !in Keys(a)
    ensures Keys(PutIf(a, k, v, c)) == Keys(a) + (if c then [k] else [])
    ensures HasKey(PutIf(a, k, v, c), k) <==> c
    ensures c ==> Lookup(PutIf(a, k, v, c), k) == Some(v)
    ensures forall j :: j != k ==> Lookup(PutIf(a, k, v, c), j) == Lookup(a, j)
  {
    KeysHasKey(a, k);
    PutKeys(a, k, v);
    PutLookup(a, k, v, k);
    PutOthers(a, k, v);
  }

  /** `$a[k] = v` leaves a well-formed array well-formed. */
  lemma {:induction false} PutDistinct(a: Entries, k: string, v: Value)
    requires DistinctKeys(a)
    ensures DistinctKeys(Put(a, k, v))
  {
    var r := Put(a, k, v);
    PutKeys(a, k, v);
    if !HasKey(a, k) {
      assert forall i :: 0 <= i < |a| ==> a[i].0 != k;
    }
    assert forall i :: 0 <= i < |r| ==> Keys(r)[i] == r[i].0;
    assert forall i :: 0 <= i < |a| ==> Keys(a)[i] == a[i].0;
  }

  /** A conditional `$a[k] = v` leaves a well-formed array well-formed. */
  lemma PutIfDistinct(a: Entries, k: string, v: Value, c: bool)
    requires DistinctKeys(a)
    ensures DistinctKeys(PutIf(a, k, v, c))
  {
    PutDistinct(a, k, v);
  }

  /**
   * Array union never overwrites: a key of `a` keeps its value, a key only
   * `b` has takes `b`'s value.
   */
  lemma {:induction false} UnionLookup(a: Entries, b: Entries, k: string)
    ensures Lookup(Union(a, b), k) == if HasKey(a, k) then Lookup(a, k) else Lookup(b, k)
    decreases b
  {
    if b != [] {
      if HasKey(a, b[0].0) {
        UnionLookup(a, b[1..], k);
        LookupTail(b, k);
      } else {
        UnionLookup(a + [b[0]], b[1..], k);
        LookupAppend(a, b[0], k);
        LookupTail(b, k);
      }
    }
  }

  /** Array union keeps a well-formed left operand well-formed. */
  lemma {:induction false} UnionDistinct(a: Entries, b: Entries)
    requires DistinctKeys(a)
    ensures DistinctKeys(Union(a, b))
    decreases b
  {
    if b != [] && !HasKey(a, b[0].0) {
      var a' := a + [b[0]];
      assert forall i :: 0 <= i < |a| ==> a'[i] == a[i];
      UnionDistinct(a', b[1..]);
    } else if b != [] {
      UnionDistinct(a, b[1..]);
    }
  }

  /** Looking up in `a + [e]` finds `a`'s entry first. */
  lemma {:induction false} LookupAppend(a: Entries, e: (string, Value), k: string)
    ensures Lookup(a + [e], k) == if HasKey(a, k) then Lookup(a, k) else if e.0 == k then Some(e.1) else None
  {
    if a != [] {
      assert (a + [e])[1..] == a[1..] + [e];
      LookupAppend(a[1..], e, k);
    }
  }

  /** Looking up past a head entry whose key differs. */
  lemma LookupTail(b: Entries, k: string)
    requires b != []
    ensures b[0].0 != k ==> Lookup(b, k) == Lookup(b[1..], k)
    ensures b[0].0 == k ==> Lookup(b, k) == Some(b[0].1)
  {
  }
}
