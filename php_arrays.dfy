/** The pieces of PHP array semantics the dispatcher relies on: `isset`/`empty` on a
    string-valued array, and `ksort` on string keys. */
module PhpArrays {

  /** PHP's `empty()` on a string: the empty string and "0" are empty. */
  predicate IsEmpty(v: string) {
    v == "" || v == "0"
  }

  /** `isset($a[$k]) && !empty($a[$k])`; an absent key reads as null, which is neither set
      nor non-empty. */
  predicate Filled(a: map<string, string>, k: string) {
    k in a && !IsEmpty(a[k])
  }

  /** The order `ksort` puts non-numeric string keys in: lexicographic by character, a
      proper prefix first. On Unicode scalar values this is the byte order of UTF-8. */
  predicate KeyLess(a: string, b: string)
    decreases |a|
  {
    if |a| == 0 then |b| > 0
    else if |b| == 0 then false
    else if a[0] != b[0] then a[0] < b[0]
    else KeyLess(a[1..], b[1..])
  }

  lemma {:induction false} KeyLessIrreflexive(a: string)
    ensures !KeyLess(a, a)
    decreases |a|
  {
    if |a| > 0 {
      KeyLessIrreflexive(a[1..]);
    }
  }

  lemma {:induction false} KeyLessAsymmetric(a: string, b: string)
    requires KeyLess(a, b)
    ensures !KeyLess(b, a)
    decreases |a|
  {
    if |a| > 0 && |b| > 0 && a[0] == b[0] {
      KeyLessAsymmetric(a[1..], b[1..]);
    }
  }

  lemma {:induction false} KeyLessTransitive(a: string, b: string, c: string)
    requires KeyLess(a, b) && KeyLess(b, c)
    ensures KeyLess(a, c)
    decreases |a|
  {
    if |a| > 0 && a[0] == b[0] && b[0] == c[0] {
      KeyLessTransitive(a[1..], b[1..], c[1..]);
    }
  }

  lemma {:induction false} KeyLessTotal(a: string, b: string)
    requires a != b
    ensures KeyLess(a, b) || KeyLess(b, a)
    decreases |a|
  {
    if |a| > 0 && |b| > 0 && a[0] == b[0] {
      assert a == [a[0]] + a[1..] && b == [b[0]] + b[1..];
      KeyLessTotal(a[1..], b[1..]);
    }
  }

  /** The least key of a non-empty key set. */
  ghost function MinKey(s: set<string>): (m: string)
    requires s != {}
    ensures m in s
    ensures forall k :: k in s && k != m ==> KeyLess(m, k)
    decreases s
  {
    var x :| x in s;
    if s == {x} then x
    else
      var m := MinKey(s - {x});
      KeyLessTotal(x, m);
      if KeyLess(x, m) then
        assert forall k :: k in s - {x} && k != m ==> KeyLess(m, k);
        assert forall k :: k in s && k != x ==> KeyLess(x, k) by {
          forall k | k in s && k != x ensures KeyLess(x, k) {
            if k != m { KeyLessTransitive(x, m, k); }
          }
        }
        x
      else
        m
  }

  /** A key is the least of a set exactly when it is `MinKey` of that set. */
  lemma LeastIsMinKey(s: set<string>, m: string)
    requires m in s
    requires forall k :: k in s && k != m ==> KeyLess(m, k)
    ensures m == MinKey(s)
  {
    var n := MinKey(s);
    if m != n {
      KeyLessAsymmetric(m, n);
    }
  }

  /** Keys listed in strictly ascending order, so also without repetition. */
  ghost predicate StrictlyAscending(ks: seq<string>) {
    forall i, j :: 0 <= i < j < |ks| ==> KeyLess(ks[i], ks[j])
  }

  /** The keys of a set in the order `ksort` leaves them: least first. */
  ghost function SortedKeys(s: set<string>): seq<string>
    decreases s
  {
    if s == {} then [] else [MinKey(s)] + SortedKeys(s - {MinKey(s)})
  }

  /** `SortedKeys` lists every key of the set once, in strictly ascending order. */
  lemma {:induction false} SortedKeysSpec(s: set<string>)
    ensures |SortedKeys(s)| == |s|
    ensures forall k :: k in SortedKeys(s) <==> k in s
    ensures StrictlyAscending(SortedKeys(s))
    decreases s
  {
    if s != {} {
      var m := MinKey(s);
      var rest := SortedKeys(s - {m});
      SortedKeysSpec(s - {m});
      assert SortedKeys(s) == [m] + rest;
      assert forall j :: 0 <= j < |rest| ==> KeyLess(m, rest[j]);
    }
  }

  /** `SortedKeys` lists each key of the set, and no key twice. */
  lemma SortedKeysDistinct(s: set<string>)
    ensures forall i :: 0 <= i < |SortedKeys(s)| ==> SortedKeys(s)[i] in s
    ensures forall k :: k in s ==> k in SortedKeys(s)
    ensures forall i, j :: 0 <= i < j < |SortedKeys(s)| ==> SortedKeys(s)[i] != SortedKeys(s)[j]
  {
    SortedKeysSpec(s);
    var ks := SortedKeys(s);
    forall i, j | 0 <= i < j < |ks| ensures ks[i] != ks[j] {
      KeyLessIrreflexive(ks[i]);
    }
  }

  /** The sorted order is determined by the key set alone: any strictly ascending listing
      of the same keys is `SortedKeys`, whatever order the keys arrived in. */
  lemma {:induction false} SortedKeysUnique(s: set<string>, ks: seq<string>)
    requires StrictlyAscending(ks)
    requires forall k :: k in ks <==> k in s
    ensures ks == SortedKeys(s)
    decreases |ks|
  {
    if ks == [] {
      assert s == {};
    } else {
      var m := ks[0];
      assert m in s;
      forall k | k in s && k != m ensures KeyLess(m, k) {
        var j :| 0 <= j < |ks| && ks[j] == k;
      }
      LeastIsMinKey(s, m);
      forall k ensures k in ks[1..] <==> k in s - {m} {
        if k in ks[1..] {
          var j :| 1 <= j < |ks| && ks[j] == k;
          KeyLessIrreflexive(m);
        }
        if k in s - {m} {
          assert k in ks;
          var j :| 0 <= j < |ks| && ks[j] == k;
          assert j != 0;
          assert ks[1..][j - 1] == k;
        }
      }
      SortedKeysUnique(s - {m}, ks[1..]);
    }
  }

  /** The least key of a non-empty set, found by one pass over it. */
  method LeastKey(s: set<string>) returns (m: string)
    requires s != {}
    ensures m == MinKey(s)
  {
    m :| m in s;
    var todo := s - {m};
    while todo != {}
      invariant todo <= s && m in s && m !in todo
      invariant forall k :: k in s - todo && k != m ==> KeyLess(m, k)
      decreases todo
    {
      var k :| k in todo;
      if KeyLess(k, m) {
        forall x | x in s - (todo - {k}) && x != k ensures KeyLess(k, x) {
          if x != m { KeyLessTransitive(k, m, x); }
        }
        m := k;
      } else {
        KeyLessTotal(k, m);
      }
      todo := todo - {k};
    }
    LeastIsMinKey(s, m);
  }

  /** `ksort`: the keys of an array in ascending order, taken least first. */
  method Ksort(a: map<string, string>) returns (keys: seq<string>)
    ensures keys == SortedKeys(a.Keys)
  {
    var remaining := a.Keys;
    keys := [];
    while remaining != {}
      invariant remaining <= a.Keys
      invariant keys + SortedKeys(remaining) == SortedKeys(a.Keys)
      decreases remaining
    {
      var least := LeastKey(remaining);
      assert keys + SortedKeys(remaining) == (keys + [least]) + SortedKeys(remaining - {least});
      keys := keys + [least];
      remaining := remaining - {least};
    }
  }
}
