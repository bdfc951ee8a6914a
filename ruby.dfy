/** The few pieces of Ruby's core semantics the game leans on: indexing an
    Array with a negative index, assigning past the end of an Array, the
    insertion order of a Hash, and interpolating an Integer into a String. */
module Ruby {

  datatype Option<T> = None | Some(value: T)

  datatype Result<T, E> = Success(value: T) | Failure(error: E)

  /** `a[i]` on a Ruby Array: an index in [-|a|, 0) counts from the end,
      anything outside [-|a|, |a|) answers nil. */
  function RubyIndex<T>(a: seq<T>, i: int): (r: Option<T>)
    ensures r.Some? <==> -|a| <= i < |a|
    ensures r.Some? ==> r.value == a[i % |a|]
  {
    if 0 <= i < |a| then Some(a[i])
    else if -|a| <= i < 0 then Some(a[|a| + i])
    else None
  }

  /** `cs = s.chars; cs[i] = c; cs.join("")`. Past the end Ruby pads the
      array with nil, which `join` renders as nothing; below -|s| it raises
      IndexError (None here). */
  function SetChar(s: string, i: int, c: char): (r: Option<string>)
    ensures r.None? <==> i < -|s|
    ensures -|s| <= i < |s| ==> r == Some(s[i % |s| := c])
    ensures i >= |s| ==> r == Some(s + [c])
  {
    if 0 <= i < |s| then Some(s[i := c])
    else if -|s| <= i < 0 then Some(s[|s| + i := c])
    else if i >= |s| then Some(s + [c])
    else None
  }

  // ---------------------------------------------------------------------
  // Hash with String keys

  ghost predicate Distinct<T>(s: seq<T>) {
    forall i, j :: 0 <= i < j < |s| ==> s[i] != s[j]
  }

  /** The raw parts of a Ruby Hash: its keys in iteration order and the
      value stored under each. */
  datatype HashRec<V> = HashRec(keys: seq<string>, values: map<string, V>)

  /** A Ruby Hash: every key is listed once, and exactly the stored keys are listed. */
  type Hash<V> = h: HashRec<V> | Distinct(h.keys) && (forall k :: k in h.keys <==> k in h.values)
    witness HashRec([], map[])

  function EmptyHash<V>(): (h: Hash<V>)
    ensures h.keys == [] && h.values == map[]
  {
    HashRec([], map[])
  }

  /** `h[k] = v`: a new key goes to the end of the iteration order, an
      existing key keeps its place and takes the new value. */
  function Store<V>(h: Hash<V>, k: string, v: V): (r: Hash<V>)
    ensures r.values == h.values[k := v]
    ensures k in h.values ==> r.keys == h.keys
    ensures k !in h.values ==> r.keys == h.keys + [k]
  {
    if k in h.values then HashRec(h.keys, h.values[k := v])
    else HashRec(h.keys + [k], h.values[k := v])
  }

  /** The Hash built by storing every pair of `ps`, left to right, into `{}`. */
  function FromPairs<V>(ps: seq<(string, V)>): Hash<V>
  {
    if ps == [] then EmptyHash()
    else Store(FromPairs(ps[..|ps| - 1]), ps[|ps| - 1].0, ps[|ps| - 1].1)
  }

  /** Building from a longer prefix stores one more pair. */
  lemma FromPairsPrefix<V>(ps: seq<(string, V)>, n: int)
    requires 0 <= n < |ps|
    ensures FromPairs(ps[..n + 1]) == Store(FromPairs(ps[..n]), ps[n].0, ps[n].1)
  {
    assert ps[..n + 1][..n] == ps[..n];
  }

  /** The keys carried by the pairs of `ps`. */
  ghost function KeySet<V>(ps: seq<(string, V)>): set<string> {
    set i | 0 <= i < |ps| :: ps[i].0
  }

  /** An index of `ps` whose key is not stored again later in `ps`. */
  ghost predicate LastWithKey<V>(ps: seq<(string, V)>, i: int) {
    0 <= i < |ps| && forall j :: i < j < |ps| ==> ps[j].0 != ps[i].0
  }

  /** A key is stored iff some pair carries it. */
  lemma {:induction false} FromPairsKeys<V>(ps: seq<(string, V)>)
    ensures FromPairs(ps).values.Keys == KeySet(ps)
  {
    if ps != [] {
      var n := |ps| - 1;
      FromPairsKeys(ps[..n]);
      assert KeySet(ps) == KeySet(ps[..n]) + {ps[n].0} by {
        forall k | k in KeySet(ps) ensures k in KeySet(ps[..n]) + {ps[n].0} {
          var i :| 0 <= i < |ps| && ps[i].0 == k;
          if i < n { assert ps[..n][i].0 == k; }
        }
      }
    }
  }

  /** The same, for pairs whose keys are listed apart in `ks`. */
  lemma FromPairsHasKey<V>(ps: seq<(string, V)>, ks: seq<string>, k: string)
    requires |ks| == |ps| && forall i :: 0 <= i < |ps| ==> ps[i].0 == ks[i]
    ensures k in FromPairs(ps).values <==> k in ks
  {
    FromPairsKeys(ps);
    if k in KeySet(ps) {
      var i :| 0 <= i < |ps| && ps[i].0 == k;
      assert ks[i] == k;
    }
    if k in ks {
      var i :| 0 <= i < |ks| && ks[i] == k;
      assert ps[i].0 == k;
    }
  }

  /** A stored key holds the value of the last pair that carries it. */
  lemma {:induction false} FromPairsLast<V>(ps: seq<(string, V)>, i: int)
    requires LastWithKey(ps, i)
    ensures ps[i].0 in FromPairs(ps).values && FromPairs(ps).values[ps[i].0] == ps[i].1
  {
    var n := |ps| - 1;
    var h := FromPairs(ps[..n]);
    assert FromPairs(ps) == Store(h, ps[n].0, ps[n].1);
    if i < n {
      assert ps[..n][i] == ps[i];
      assert LastWithKey(ps[..n], i);
      FromPairsLast(ps[..n], i);
      assert ps[n].0 != ps[i].0;
    }
  }

  /** Storing can only merge pairs, never add keys: the Hash has at most as
      many entries as there were pairs. */
  lemma {:induction false} FromPairsSize<V>(ps: seq<(string, V)>)
    ensures |FromPairs(ps).keys| <= |ps|
  {
    if ps != [] {
      FromPairsSize(ps[..|ps| - 1]);
    }
  }

  /** The keys of `ps`, pair by pair. */
  function KeySeq<V>(ps: seq<(string, V)>): (ks: seq<string>)
    ensures |ks| == |ps| && forall i :: 0 <= i < |ps| ==> ks[i] == ps[i].0
  {
    seq(|ps|, i requires 0 <= i < |ps| => ps[i].0)
  }

  /** When no key repeats, nothing is merged: the keys come out in the order
      of the pairs. */
  lemma {:induction false} FromPairsDistinctKeys<V>(ps: seq<(string, V)>)
    requires Distinct(KeySeq(ps))
    ensures FromPairs(ps).keys == KeySeq(ps)
  {
    if ps != [] {
      var n := |ps| - 1;
      var init := ps[..n];
      var ks := KeySeq(init);
      assert ks == KeySeq(ps)[..n];
      FromPairsDistinctKeys(init);
      var h := FromPairs(init);
      assert h.keys == ks;
      assert ps[n].0 !in ks by {
        forall i | 0 <= i < n ensures ks[i] != ps[n].0 {
          assert KeySeq(ps)[i] != KeySeq(ps)[n];
        }
      }
      assert FromPairs(ps) == Store(h, ps[n].0, ps[n].1);
      assert KeySeq(ps) == ks + [ps[n].0];
    }
  }

  /** When no key repeats, every pair's value is kept. */
  lemma {:induction false} FromPairsDistinctValues<V>(ps: seq<(string, V)>)
    requires Distinct(KeySeq(ps))
    ensures forall i :: 0 <= i < |ps| ==> ps[i].0 in FromPairs(ps).values && FromPairs(ps).values[ps[i].0] == ps[i].1
  {
    forall i | 0 <= i < |ps|
      ensures ps[i].0 in FromPairs(ps).values && FromPairs(ps).values[ps[i].0] == ps[i].1
    {
      assert LastWithKey(ps, i) by {
        forall j | i < j < |ps| ensures ps[j].0 != ps[i].0 {
          assert KeySeq(ps)[i] != KeySeq(ps)[j];
        }
      }
      FromPairsLast(ps, i);
    }
  }

  // ---------------------------------------------------------------------
  // Integer#to_s

  function DigitChar(d: int): (c: char)
    requires 0 <= d < 10
    ensures '0' <= c <= '9' && c as int - '0' as int == d
  {
    ('0' as int + d) as char
  }

  predicate IsDigits(s: string) {
    forall i :: 0 <= i < |s| ==> '0' <= s[i] <= '9'
  }

  /** Decimal digits of `n`, most significant first, without leading zeros. */
  function NatToString(n: nat): (s: string)
    ensures |s| >= 1 && IsDigits(s)
  {
    if n < 10 then [DigitChar(n)] else NatToString(n / 10) + [DigitChar(n % 10)]
  }

  /** `"#{i}"` for an Integer: a minus sign, then the decimal digits. */
  function IntToString(i: int): (s: string)
    ensures '_' !in s
  {
    if i < 0 then "-" + NatToString(-i) else NatToString(i)
  }

  /** The value of a string of decimal digits. */
  function DigitsValue(s: string): nat
    requires IsDigits(s)
  {
    if s == [] then 0
    else DigitsValue(s[..|s| - 1]) * 10 + (s[|s| - 1] as int - '0' as int)
  }

  /** Reads back what IntToString writes. */
  function ParseInt(s: string): int
  {
    if s != [] && s[0] == '-' && IsDigits(s[1..]) then 0 - DigitsValue(s[1..])
    else if IsDigits(s) then DigitsValue(s)
    else 0
  }

  lemma {:induction false} NatToStringRoundTrip(n: nat)
    ensures DigitsValue(NatToString(n)) == n
  {
    if n >= 10 {
      NatToStringRoundTrip(n / 10);
      var s := NatToString(n);
      assert s[..|s| - 1] == NatToString(n / 10);
    }
  }

  lemma IntToStringRoundTrip(i: int)
    ensures ParseInt(IntToString(i)) == i
  {
    if i < 0 {
      NatToStringRoundTrip(-i);
      assert IntToString(i)[1..] == NatToString(-i);
    } else {
      NatToStringRoundTrip(i);
    }
  }

  /** Different integers print differently. */
  lemma IntToStringInjective(i: int, j: int)
    requires IntToString(i) == IntToString(j)
    ensures i == j
  {
    IntToStringRoundTrip(i);
    IntToStringRoundTrip(j);
  }
}
