/** Web vocabulary shared by the handlers: string dictionaries with JavaScript
    object / `URLSearchParams.set` semantics, and request URLs. */
module Http {
  import opened Text

  /** A string-to-string dictionary in insertion order: a plain JavaScript
      object filled by `out[k] = v`, or a `URLSearchParams` filled by `set`. */
  type Dict = seq<(string, string)>

  predicate DistinctKeys(d: Dict) {
    forall i, j :: 0 <= i < j < |d| ==> d[i].0 != d[j].0
  }

  predicate HasKey(d: Dict, k: string) {
    exists i :: 0 <= i < |d| && d[i].0 == k
  }

  /** `d[k]`, absent as `None`. */
  function Get(d: Dict, k: string): (r: Option<string>)
    ensures r.Some? <==> HasKey(d, k)
    ensures r.Some? ==> (k, r.value) in d
  {
    if d == [] then None
    else if d[0].0 == k then Some(d[0].1)
    else Get(d[1..], k)
  }

  /** `d[k] = v`: an existing key keeps its place and takes the new value, a new
      key is appended. */
  function Put(d: Dict, k: string, v: string): (r: Dict)
    ensures HasKey(d, k) ==> |r| == |d|
    ensures !HasKey(d, k) ==> r == d + [(k, v)]
    ensures forall i :: 0 <= i < |d| ==> r[i].0 == d[i].0
  {
    if d == [] then [(k, v)]
    else if d[0].0 == k then [(k, v)] + d[1..]
    else [d[0]] + Put(d[1..], k, v)
  }

  /** After `d[k] = v`, `k` reads `v` and every other key reads what it read before. */
  lemma {:induction false} PutGet(d: Dict, k: string, v: string)
    ensures Get(Put(d, k, v), k) == Some(v)
    ensures forall j :: j != k ==> Get(Put(d, k, v), j) == Get(d, j)
  {
    if d != [] && d[0].0 != k {
      PutGet(d[1..], k, v);
      assert Put(d, k, v)[1..] == Put(d[1..], k, v);
    }
  }

  /** `d[k] = v` keeps the keys distinct. */
  lemma PutDistinct(d: Dict, k: string, v: string)
    requires DistinctKeys(d)
    ensures DistinctKeys(Put(d, k, v))
  {
  }

  /** The value of the last entry with key `k`: the meaning of "the last
      duplicate wins", stated without reference to `Put`. */
  function LastValue(entries: seq<(string, string)>, k: string): Option<string>
  {
    if entries == [] then None
    else if entries[|entries| - 1].0 == k then Some(entries[|entries| - 1].1)
    else LastValue(entries[..|entries| - 1], k)
  }

  /** `LastValue` finds nothing exactly when no entry has key `k`. */
  lemma {:induction false} LastValueAbsent(entries: seq<(string, string)>, k: string)
    ensures LastValue(entries, k).None? <==> !HasKey(entries, k)
  {
    if entries != [] {
      var n := |entries| - 1;
      LastValueAbsent(entries[..n], k);
      if entries[n].0 != k {
        if HasKey(entries, k) {
          var i :| 0 <= i < |entries| && entries[i].0 == k;
          assert entries[..n][i].0 == k;
        }
        if HasKey(entries[..n], k) {
          var i :| 0 <= i < n && entries[..n][i].0 == k;
          assert entries[i].0 == k;
        }
      } else {
        assert entries[n].0 == k;
      }
    }
  }

  /** The entry `LastValue` finds: it has key `k` and no later entry does. */
  lemma {:induction false} LastValueWitness(entries: seq<(string, string)>, k: string) returns (i: nat)
    requires LastValue(entries, k).Some?
    ensures i < |entries| && entries[i] == (k, LastValue(entries, k).value)
    ensures forall j :: i < j < |entries| ==> entries[j].0 != k
  {
    var n := |entries| - 1;
    if entries[n].0 == k {
      i := n;
    } else {
      i := LastValueWitness(entries[..n], k);
      assert entries[i] == entries[..n][i];
      forall j | i < j < |entries| ensures entries[j].0 != k {
        if j < n { assert entries[j] == entries[..n][j]; }
      }
    }
  }

  /** `LastValue` finds the entry with key `k` that no later entry overrides,
      and finds nothing exactly when no entry has key `k`. */
  lemma LastValueIsLast(entries: seq<(string, string)>, k: string)
    ensures LastValue(entries, k).None? <==> !HasKey(entries, k)
    ensures LastValue(entries, k).Some? ==>
              exists i :: 0 <= i < |entries| && entries[i] == (k, LastValue(entries, k).value)
                          && forall j :: i < j < |entries| ==> entries[j].0 != k
  {
    LastValueAbsent(entries, k);
    if LastValue(entries, k).Some? {
      var i := LastValueWitness(entries, k);
    }
  }

  /** The object `out` holds after `for (const [k, v] of entries) out[k] = v`
      starting from `{}`. */
  function FormObject(entries: seq<(string, string)>): Dict
  {
    if entries == [] then []
    else
      var n := |entries| - 1;
      Put(FormObject(entries[..n]), entries[n].0, entries[n].1)
  }

  /** Filling one more entry is one more assignment. */
  lemma FormObjectSnoc(entries: seq<(string, string)>, x: (string, string))
    ensures FormObject(entries + [x]) == Put(FormObject(entries), x.0, x.1)
  {
    assert (entries + [x])[..|entries|] == entries;
  }

  /** Filling the next entry of a prefix. */
  lemma FormObjectPrefixStep(entries: seq<(string, string)>, i: nat)
    requires i < |entries|
    ensures FormObject(entries[..i + 1]) == Put(FormObject(entries[..i]), entries[i].0, entries[i].1)
  {
    assert entries[..i + 1][..i] == entries[..i];
  }

  /** The filled object has distinct keys, and every key reads the value of its
      last occurrence among the entries. */
  lemma {:induction false} FormObjectLastWins(entries: seq<(string, string)>)
    ensures DistinctKeys(FormObject(entries))
    ensures forall k :: Get(FormObject(entries), k) == LastValue(entries, k)
  {
    if entries != [] {
      var n := |entries| - 1;
      FormObjectLastWins(entries[..n]);
      PutGet(FormObject(entries[..n]), entries[n].0, entries[n].1);
      PutDistinct(FormObject(entries[..n]), entries[n].0, entries[n].1);
    }
  }

  /** The last occurrence in a concatenation is in its second part when that
      part has the key at all. */
  lemma {:induction false} LastValueAppend(a: seq<(string, string)>, b: seq<(string, string)>, k: string)
    ensures LastValue(a + b, k) == if LastValue(b, k).Some? then LastValue(b, k) else LastValue(a, k)
  {
    if b != [] {
      var n := |b| - 1;
      assert (a + b)[..|a + b| - 1] == a + b[..n];
      LastValueAppend(a, b[..n], k);
    } else {
      assert a + b == a;
    }
  }

  /** Entries that already have distinct keys are copied unchanged. */
  lemma {:induction false} FormObjectOfDistinct(d: Dict)
    requires DistinctKeys(d)
    ensures FormObject(d) == d
  {
    if d != [] {
      var n := |d| - 1;
      FormObjectOfDistinct(d[..n]);
      assert !HasKey(d[..n], d[n].0);
    }
  }

  /** A request URL, `href` = scheme `://` host path query (the query with its
      leading `?`, or empty). */
  datatype Url = Url(scheme: string, host: string, path: string, query: string)

  function Href(u: Url): string {
    u.scheme + "://" + u.host + u.path + u.query
  }

  /** JavaScript truthiness of an optional string: present and non-empty. */
  predicate Truthy(s: Option<string>) {
    s.Some? && s.value != ""
  }
}
