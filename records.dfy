/**
 * String-keyed records (`Record<string, V>` and plain JavaScript objects) as association
 * lists in insertion order. Reading a key takes the first entry with that key. JavaScript
 * enumerates an object's keys in a different order when some keys are array indices ("0",
 * "1", ...): those come first, in ascending numeric order, then the other keys in insertion
 * order (`EnumerationOrder`). For records keyed by names only the two orders coincide.
 */
module Records {
  import opened Wrappers
  import Text

  type Record<V> = seq<(string, V)>

  /** `r[k]`: the value of the first entry with key `k`, or `None` when there is none. */
  function Lookup<V>(r: Record<V>, k: string): (o: Option<V>)
    ensures o.None? <==> forall i :: 0 <= i < |r| ==> r[i].0 != k
    ensures o.Some? ==> exists i :: 0 <= i < |r| && r[i] == (k, o.value)
  {
    if r == [] then None else if r[0].0 == k then Some(r[0].1) else Lookup(r[1..], k)
  }

  /** `Object.keys(r)` for a record whose keys are not array indices (see `EnumerationOrder`). */
  function Keys<V>(r: Record<V>): (ks: seq<string>)
    ensures |ks| == |r|
    ensures forall i :: 0 <= i < |r| ==> ks[i] == r[i].0
  {
    seq(|r|, i requires 0 <= i < |r| => r[i].0)
  }

  /** `Object.values(r)` for a record whose keys are not array indices (see `EnumerationOrder`). */
  function Values<V>(r: Record<V>): (vs: seq<V>)
    ensures |vs| == |r|
    ensures forall i :: 0 <= i < |r| ==> vs[i] == r[i].1
  {
    seq(|r|, i requires 0 <= i < |r| => r[i].1)
  }

  /** `k in r`. */
  predicate HasKey<V>(r: Record<V>, k: string) {
    Lookup(r, k).Some?
  }

  predicate DistinctKeys<V>(r: Record<V>) {
    forall i, j :: 0 <= i < j < |r| ==> r[i].0 != r[j].0
  }

  /**
   * `r[k] = v`: an existing key keeps its position and takes the new value; a new key is
   * appended at the end of the insertion order.
   */
  function Put<V>(r: Record<V>, k: string, v: V): (r': Record<V>)
    ensures Lookup(r', k) == Some(v)
    ensures forall k' :: k' != k ==> Lookup(r', k') == Lookup(r, k')
  {
    if r == [] then [(k, v)]
    else if r[0].0 == k then [(k, v)] + r[1..]
    else [r[0]] + Put(r[1..], k, v)
  }

  /** Reading a key whose first occurrence is at position `i`. */
  lemma {:induction false} LookupAt<V>(r: Record<V>, k: string, i: nat)
    requires i < |r| && r[i].0 == k
    requires forall j :: 0 <= j < i ==> r[j].0 != k
    ensures Lookup(r, k) == Some(r[i].1)
  {
    if i > 0 { LookupAt(r[1..], k, i - 1); }
  }

  /** In a record with distinct keys, every entry is what reading its key returns. */
  lemma LookupDistinct<V>(r: Record<V>, i: nat)
    requires DistinctKeys(r) && i < |r|
    ensures Lookup(r, r[i].0) == Some(r[i].1)
  {
    LookupAt(r, r[i].0, i);
  }

  /** A key is present exactly when it is one of `Object.keys`. */
  lemma HasKeyIffKeys<V>(r: Record<V>, k: string)
    ensures HasKey(r, k) <==> k in Keys(r)
  {
    if k in Keys(r) {
      var i :| 0 <= i < |Keys(r)| && Keys(r)[i] == k;
      assert r[i].0 == k;
    }
  }

  // ─── Enumeration order ─────────────────────────────────────────────────────

  /** Value of a digit, 0 for any other character. */
  function DigitValue(c: char): nat {
    if Text.IsDigit(c) then c as int - '0' as int else 0
  }

  /** Numeric value of a string of decimal digits. */
  function DigitsValue(s: string): nat {
    if s == [] then 0 else 10 * DigitsValue(s[..|s| - 1]) + DigitValue(s[|s| - 1])
  }

  /**
   * An array index: a decimal numeral without leading zeros below 2^32 - 1, the keys an
   * ordinary object enumerates before all others.
   */
  predicate IsArrayIndex(k: string) {
    k != [] && Text.AllDigits(k) && (k[0] != '0' || |k| == 1) && DigitsValue(k) < 0xFFFF_FFFF
  }

  /** The entries whose keys are array indices, in insertion order. */
  function IndexEntries<V>(r: Record<V>): (es: Record<V>)
    ensures forall i :: 0 <= i < |es| ==> IsArrayIndex(es[i].0)
  {
    if r == [] then []
    else (if IsArrayIndex(r[0].0) then [r[0]] else []) + IndexEntries(r[1..])
  }

  /** The entries whose keys are not array indices, in insertion order. */
  function NamedEntries<V>(r: Record<V>): (es: Record<V>)
    ensures forall i :: 0 <= i < |es| ==> !IsArrayIndex(es[i].0)
  {
    if r == [] then []
    else (if IsArrayIndex(r[0].0) then [] else [r[0]]) + NamedEntries(r[1..])
  }

  /** Every entry is in exactly one of the two parts. */
  lemma {:induction false} EntriesSplit<V>(r: Record<V>)
    ensures multiset(IndexEntries(r)) + multiset(NamedEntries(r)) == multiset(r)
  {
    if r != [] {
      EntriesSplit(r[1..]);
      assert r == [r[0]] + r[1..];
    }
  }

  /** Entries in ascending order of their keys' numeric values. */
  predicate SortedByIndex<V>(r: Record<V>) {
    forall i, j :: 0 <= i < j < |r| ==> DigitsValue(r[i].0) <= DigitsValue(r[j].0)
  }

  /** Places `e` after the leading entries whose numeric keys are not above its own. */
  function InsertByIndex<V>(e: (string, V), sorted: Record<V>): (r: Record<V>)
    ensures multiset(r) == multiset(sorted) + multiset{e}
  {
    if sorted == [] || DigitsValue(e.0) < DigitsValue(sorted[0].0) then [e] + sorted
    else
      assert sorted == [sorted[0]] + sorted[1..];
      [sorted[0]] + InsertByIndex(e, sorted[1..])
  }

  /** Inserting into a sorted list keeps it sorted. */
  lemma {:induction false} InsertByIndexSorted<V>(e: (string, V), sorted: Record<V>)
    requires SortedByIndex(sorted)
    ensures SortedByIndex(InsertByIndex(e, sorted))
  {
    if sorted != [] && DigitsValue(e.0) >= DigitsValue(sorted[0].0) {
      var rest := InsertByIndex(e, sorted[1..]);
      InsertByIndexSorted(e, sorted[1..]);
      forall i | 0 <= i < |rest| ensures DigitsValue(sorted[0].0) <= DigitsValue(rest[i].0) {
        assert rest[i] in multiset(rest);
        if rest[i] != e {
          assert rest[i] in multiset(sorted[1..]);
          var k :| 0 <= k < |sorted[1..]| && sorted[1..][k] == rest[i];
          assert sorted[k + 1] == rest[i];
        }
      }
    }
  }

  /** The entries sorted by the numeric value of their keys, equal values in insertion order. */
  function SortByIndex<V>(r: Record<V>): (s: Record<V>)
    ensures multiset(s) == multiset(r)
    ensures SortedByIndex(s)
  {
    if r == [] then []
    else
      var n := |r| - 1;
      assert r == r[..n] + [r[n]];
      InsertByIndexSorted(r[n], SortByIndex(r[..n]));
      InsertByIndex(r[n], SortByIndex(r[..n]))
  }

  /**
   * The order in which `Object.keys`, `Object.values` and `Object.entries` visit an ordinary
   * object: the array-index keys in ascending numeric order, then the other keys in insertion
   * order.
   */
  function EnumerationOrder<V>(r: Record<V>): Record<V> {
    SortByIndex(IndexEntries(r)) + NamedEntries(r)
  }

  /**
   * The enumeration visits every entry once: first the array-index entries, sorted by
   * numeric value, then exactly the named entries in insertion order.
   */
  lemma EnumerationOrderShape<V>(r: Record<V>)
    ensures var e, n := EnumerationOrder(r), |IndexEntries(r)|;
      multiset(e) == multiset(r) && n <= |e| &&
      (forall i :: 0 <= i < n ==> IsArrayIndex(e[i].0)) &&
      SortedByIndex(e[..n]) &&
      e[n..] == NamedEntries(r)
  {
    var sorted := SortByIndex(IndexEntries(r));
    var e := EnumerationOrder(r);
    EntriesSplit(r);
    assert e[..|sorted|] == sorted;
    forall i | 0 <= i < |sorted| ensures IsArrayIndex(e[i].0) {
      assert sorted[i] in multiset(IndexEntries(r));
      var k :| 0 <= k < |IndexEntries(r)| && IndexEntries(r)[k] == sorted[i];
    }
  }

  /** Without array-index keys, the enumeration order is the insertion order. */
  lemma {:induction false} EnumerationOrderOfNames<V>(r: Record<V>)
    requires forall i :: 0 <= i < |r| ==> !IsArrayIndex(r[i].0)
    ensures IndexEntries(r) == [] && NamedEntries(r) == r && EnumerationOrder(r) == r
  {
    if r != [] {
      EnumerationOrderOfNames(r[1..]);
      assert r == [r[0]] + r[1..];
    }
  }
}
