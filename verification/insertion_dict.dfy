/**
 * A string-to-string dictionary that remembers insertion order, as a Python
 * `dict` does: assigning to a new key appends it at the end, assigning to an
 * existing key replaces its value where it stands, and iteration visits the
 * keys in the order they were first inserted.
 */
module InsertionDict {
  import opened Survey

  datatype Entry = Entry(key: string, value: string)

  /** The entries in iteration order. */
  type Entries = seq<Entry>

  /** The keys in iteration order. */
  function Keys(d: Entries): (r: seq<string>)
    ensures |r| == |d|
    ensures forall i :: 0 <= i < |d| ==> r[i] == d[i].key
  {
    seq(|d|, i requires 0 <= i < |d| => d[i].key)
  }

  /** Every key appears once. */
  predicate UniqueKeys(d: Entries)
  {
    forall i, j :: 0 <= i < j < |d| ==> d[i].key != d[j].key
  }

  /** `d.get(k)`: the value stored under k, if any. */
  function Lookup(d: Entries, k: string): (r: Option<string>)
    ensures r.None? <==> k !in Keys(d)
  {
    if |d| == 0 then None
    else if d[0].key == k then Some(d[0].value)
    else Lookup(d[1..], k)
  }

  /**
   * `d[k] = v`: an existing key keeps its place and takes the new value;
   * a new key is appended at the end.
   */
  function Put(d: Entries, k: string, v: string): (r: Entries)
    ensures k !in Keys(d) ==> r == d + [Entry(k, v)]
    ensures k in Keys(d) ==> Keys(r) == Keys(d)
  {
    if |d| == 0 then [Entry(k, v)]
    else if d[0].key == k then [Entry(k, v)] + d[1..]
    else [d[0]] + Put(d[1..], k, v)
  }

  /** After `d[k] = v`, k maps to v and every other key keeps its value. */
  lemma {:induction false} PutLookup(d: Entries, k: string, v: string)
    ensures Lookup(Put(d, k, v), k) == Some(v)
    ensures forall k' :: k' != k ==> Lookup(Put(d, k, v), k') == Lookup(d, k')
  {
    if |d| > 0 && d[0].key != k {
      PutLookup(d[1..], k, v);
      assert Put(d, k, v)[1..] == Put(d[1..], k, v);
    } else if |d| > 0 {
      assert Put(d, k, v)[1..] == d[1..];
    }
  }

  /** Assignment never introduces a second entry for a key. */
  lemma {:induction false} PutKeepsKeysUnique(d: Entries, k: string, v: string)
    requires UniqueKeys(d)
    ensures UniqueKeys(Put(d, k, v))
  {
    var r := Put(d, k, v);
    if k in Keys(d) {
      forall i, j | 0 <= i < j < |r| ensures r[i].key != r[j].key {
        assert Keys(r)[i] == Keys(d)[i] && Keys(r)[j] == Keys(d)[j];
      }
    } else {
      forall i, j | 0 <= i < j < |r| ensures r[i].key != r[j].key {
        if j == |d| {
          assert Keys(d)[i] == d[i].key;
        }
      }
    }
  }
}
