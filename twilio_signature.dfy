/** The visible part of Twilio's request signature: the string that is signed,
    made of the webhook URL followed by every parameter name and value, names
    in ascending order, with no separators. The keyed digest itself (HMAC-SHA1
    of RFC 2104, then Base64 of section 4 of RFC 4648) is a parameter. */
module TwilioSignature {
  import opened Text
  import opened Http

  /** Strictly ascending names: the order of `Object.keys(params).sort()`. */
  predicate SortedByKey(s: Dict) {
    forall i, j :: 0 <= i < j < |s| ==> Below(s[i].0, s[j].0)
  }

  /** Insertion of one entry into a name-sorted sequence. */
  function Insert(x: (string, string), s: Dict): (r: Dict)
    ensures multiset(r) == multiset(s) + multiset{x}
  {
    if s == [] then [x]
    else if Below(s[0].0, x.0) then
      assert s == [s[0]] + s[1..];
      [s[0]] + Insert(x, s[1..])
    else [x] + s
  }

  /** A head below every name of a sorted tail gives a sorted sequence. */
  lemma ConsSorted(h: (string, string), t: Dict)
    requires SortedByKey(t)
    requires forall i :: 0 <= i < |t| ==> Below(h.0, t[i].0)
    ensures SortedByKey([h] + t)
  {
    var r := [h] + t;
    forall i, j | 0 <= i < j < |r| ensures Below(r[i].0, r[j].0) {
      assert r[j] == t[j - 1];
      if i > 0 { assert r[i] == t[i - 1]; }
    }
  }

  lemma {:induction false} InsertSorted(x: (string, string), s: Dict)
    requires SortedByKey(s) && !HasKey(s, x.0)
    ensures SortedByKey(Insert(x, s))
  {
    if s == [] {
      assert Insert(x, s) == [x];
    } else if Below(s[0].0, x.0) {
      var t := s[1..];
      assert !HasKey(t, x.0) by {
        forall i | 0 <= i < |t| ensures t[i].0 != x.0 { assert t[i] == s[i + 1]; }
      }
      SortedTail(s);
      InsertSorted(x, t);
      var r := Insert(x, t);
      forall i | 0 <= i < |r| ensures Below(s[0].0, r[i].0) {
        assert r[i] in multiset(t) + multiset{x};
        if r[i] != x {
          var j :| 0 <= j < |t| && t[j] == r[i];
          assert s[j + 1] == r[i];
        }
      }
      ConsSorted(s[0], r);
    } else {
      assert s[0].0 != x.0;
      BelowTotal(s[0].0, x.0);
      forall j | 0 <= j < |s| ensures Below(x.0, s[j].0) {
        if j > 0 { BelowTransitive(x.0, s[0].0, s[j].0); }
      }
      ConsSorted(x, s);
    }
  }

  /** `Object.keys(params).sort()` paired with the values: a permutation of the
      parameters in ascending name order. */
  function SortByKey(d: Dict): (r: Dict)
    ensures multiset(r) == multiset(d)
    ensures DistinctKeys(d) ==> SortedByKey(r)
  {
    if d == [] then []
    else
      var rest := SortByKey(d[1..]);
      assert d == [d[0]] + d[1..];
      assert DistinctKeys(d) ==> !HasKey(rest, d[0].0) by {
        if DistinctKeys(d) {
          forall i | 0 <= i < |rest| ensures rest[i].0 != d[0].0 {
            assert rest[i] in multiset(d[1..]);
            var j :| 0 <= j < |d[1..]| && d[1..][j] == rest[i];
            assert d[j + 1] == rest[i];
          }
        }
      }
      if DistinctKeys(d) then InsertSorted(d[0], rest); Insert(d[0], rest)
      else Insert(d[0], rest)
  }

  /** Two name-sorted arrangements of the same parameters start alike. */
  lemma SortedHeadsEqual(a: Dict, b: Dict)
    requires SortedByKey(a) && SortedByKey(b) && multiset(a) == multiset(b) && a != []
    ensures b != [] && a[0] == b[0]
  {
    assert a[0] in multiset(b);
    var j :| 0 <= j < |b| && b[j] == a[0];
    assert b[0] in multiset(a);
    var i :| 0 <= i < |a| && a[i] == b[0];
    if i != 0 && j != 0 {
      assert Below(a[0].0, b[0].0);
      assert Below(b[0].0, a[0].0);
      BelowAsymmetric(a[0].0, b[0].0);
    }
  }

  lemma SortedTail(a: Dict)
    requires SortedByKey(a) && a != []
    ensures SortedByKey(a[1..])
  {
    forall i, j | 0 <= i < j < |a[1..]| ensures Below(a[1..][i].0, a[1..][j].0) {
      assert a[1..][i] == a[i + 1] && a[1..][j] == a[j + 1];
    }
  }

  /** Equal multisets with equal heads have equal tails. */
  lemma SameTails(a: Dict, b: Dict)
    requires a != [] && b != [] && a[0] == b[0] && multiset(a) == multiset(b)
    ensures multiset(a[1..]) == multiset(b[1..])
  {
    assert a == [a[0]] + a[1..] && b == [b[0]] + b[1..];
    assert multiset(a) == multiset{a[0]} + multiset(a[1..]);
    assert multiset(b) == multiset{b[0]} + multiset(b[1..]);
    assert multiset(a[1..]) == multiset(a) - multiset{a[0]} == multiset(b) - multiset{b[0]} == multiset(b[1..]);
  }

  /** Two name-sorted arrangements of the same parameters are the same sequence. */
  lemma {:induction false} SortedUnique(a: Dict, b: Dict)
    requires SortedByKey(a) && SortedByKey(b) && multiset(a) == multiset(b)
    ensures a == b
  {
    if a == [] {
      assert |b| == |multiset(b)| == 0;
    } else {
      SortedHeadsEqual(a, b);
      SameTails(a, b);
      SortedTail(a);
      SortedTail(b);
      SortedUnique(a[1..], b[1..]);
    }
  }

  /** Every name directly followed by its value, with no separators. */
  function Concat(s: Dict): string {
    if s == [] then "" else s[0].0 + s[0].1 + Concat(s[1..])
  }

  /** The data `computeTwilioSignature` signs and `validateRequest` recomputes. */
  function SigningString(url: string, params: Dict): (r: string)
    ensures StartsWith(r, url)
    ensures params == [] ==> r == url
  {
    url + Concat(SortByKey(params))
  }

  /** The signing string is the URL followed by the parameters in ascending name
      order, whatever order they were inserted in. */
  lemma SigningStringOrderIndependent(url: string, d1: Dict, d2: Dict)
    requires DistinctKeys(d1) && DistinctKeys(d2) && multiset(d1) == multiset(d2)
    ensures SigningString(url, d1) == SigningString(url, d2)
  {
    SortedUnique(SortByKey(d1), SortByKey(d2));
  }

  /** With distinct names, the signing string is the URL followed by the
      name and value of every parameter, taken in ascending name order. */
  lemma SigningStringOfSorted(url: string, d: Dict, s: Dict)
    requires DistinctKeys(d) && SortedByKey(s) && multiset(s) == multiset(d)
    ensures SigningString(url, d) == url + Concat(s)
  {
    SortedUnique(SortByKey(d), s);
  }

  /** `computeTwilioSignature(authToken, url, params)`, the keyed digest given. */
  function Signature(digest: (string, string) -> string, authToken: string, url: string, params: Dict): string {
    digest(authToken, SigningString(url, params))
  }

  /** `twilio.validateRequest`: the header equals the signature recomputed over
      the public URL and the parsed parameters. */
  predicate ValidRequest(digest: (string, string) -> string, authToken: string, header: string, url: string, params: Dict) {
    Signature(digest, authToken, url, params) == header
  }
}
