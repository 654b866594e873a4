/** The webhook signature check of `Dispatcher::verifyPayload`: every parameter except
    `hash`, in ascending key order, joined as `k=v` pairs with `&`, is signed with
    HMAC-SHA512 under the application's secret and compared with `hash`. */
module Signature {
  import opened PhpArrays

  /** `hash_hmac('sha512', message, secret)` as lower-case hex, taken as (secret, message).
      The digest itself is outside the model; callers pass it in. */
  type Mac = (string, string) -> string

  /** One `k=v` pair of the canonical string. */
  function Pair(k: string, v: string): string {
    k + "=" + v
  }

  /** The pairs for `ks`, in that order, separated by `&`. */
  function Joined(ks: seq<string>, p: map<string, string>): string
    requires forall i :: 0 <= i < |ks| ==> ks[i] in p
    decreases |ks|
  {
    if |ks| == 0 then ""
    else if |ks| == 1 then Pair(ks[0], p[ks[0]])
    else Joined(ks[..|ks| - 1], p) + "&" + Pair(ks[|ks| - 1], p[ks[|ks| - 1]])
  }

  /** What the loop of `verifyPayload` builds: each pair preceded by `&`. */
  function Prefixed(ks: seq<string>, p: map<string, string>): string
    requires forall i :: 0 <= i < |ks| ==> ks[i] in p
    decreases |ks|
  {
    if |ks| == 0 then ""
    else Prefixed(ks[..|ks| - 1], p) + "&" + Pair(ks[|ks| - 1], p[ks[|ks| - 1]])
  }

  /** Dropping the first character of the loop's string, as `substr(..., 1)` does, leaves
      the `&`-join of the pairs with no leading separator. */
  lemma {:induction false} PrefixedIsSeparatedJoin(ks: seq<string>, p: map<string, string>)
    requires forall i :: 0 <= i < |ks| ==> ks[i] in p
    ensures ks == [] ==> Prefixed(ks, p) == ""
    ensures ks != [] ==> Prefixed(ks, p) == "&" + Joined(ks, p)
    decreases |ks|
  {
    if |ks| > 0 {
      var init := ks[..|ks| - 1];
      var last := Pair(ks[|ks| - 1], p[ks[|ks| - 1]]);
      PrefixedIsSeparatedJoin(init, p);
      if |ks| == 1 {
        assert Prefixed(ks, p) == "" + "&" + last;
      } else {
        assert Prefixed(ks, p) == ("&" + Joined(init, p)) + "&" + last;
        assert Joined(ks, p) == Joined(init, p) + "&" + last;
      }
    }
  }

  /** PHP's `substr($s, 1)`: everything after the first character. The empty case cannot
      arise in a dispatch, since the requirements check leaves at least one signed
      parameter; it is given "" here. */
  function DropFirst(s: string): (r: string)
    ensures |s| > 0 ==> s == [s[0]] + r
    ensures |s| == 0 ==> r == ""
  {
    if |s| == 0 then "" else s[1..]
  }

  /** The parameters that are signed: all of them except `hash`. */
  function Unsigned(p: map<string, string>): (q: map<string, string>)
    ensures q.Keys == p.Keys - {"hash"}
    ensures forall k :: k in q ==> q[k] == p[k]
  {
    p - {"hash"}
  }

  /** The pairs of `q` in ascending key order, separated by `&`. */
  ghost function SortedJoin(q: map<string, string>): string {
    SortedKeysDistinct(q.Keys);
    Joined(SortedKeys(q.Keys), q)
  }

  /** The string the application's secret signs. */
  ghost function Canonical(p: map<string, string>): string {
    SortedJoin(Unsigned(p))
  }

  /** `(string)$params['hash']`: an absent hash reads as null, which casts to "". */
  function ProvidedHash(p: map<string, string>): (h: string)
    ensures "hash" in p ==> h == p["hash"]
    ensures "hash" !in p ==> h == ""
  {
    if "hash" in p then p["hash"] else ""
  }

  /** The signature holds when the computed digest equals the provided hash exactly. */
  ghost predicate SignatureValid(p: map<string, string>, secret: string, mac: Mac) {
    mac(secret, Canonical(p)) == ProvidedHash(p)
  }

  /** The loop of `verifyPayload` and the `substr` after it: the pairs of `keys`, in that
      order, with `&` between them. */
  method JoinPairs(keys: seq<string>, p: map<string, string>) returns (processed: string)
    requires forall i :: 0 <= i < |keys| ==> keys[i] in p
    ensures processed == Joined(keys, p)
  {
    processed := "";
    for i := 0 to |keys|
      invariant processed == Prefixed(keys[..i], p)
    {
      assert keys[..i + 1][..i] == keys[..i];
      processed := processed + "&" + keys[i] + "=" + p[keys[i]];
    }
    assert keys[..|keys|] == keys;
    PrefixedIsSeparatedJoin(keys, p);
    processed := DropFirst(processed);
  }

  /** `verifyPayload`, returning whether it would not throw. */
  method VerifyPayload(params: map<string, string>, secret: string, mac: Mac) returns (ok: bool)
    ensures ok <==> SignatureValid(params, secret, mac)
  {
    var providedHash := ProvidedHash(params);
    var rest := Unsigned(params);
    var keys := Ksort(rest);
    SortedKeysSpec(rest.Keys);
    var processed := JoinPairs(keys, rest);
    assert processed == Canonical(params);
    var computedHash := mac(secret, processed);
    ok := computedHash == providedHash;
  }

  /** The canonical string does not depend on the value of `hash`, nor on whether it is there. */
  lemma CanonicalIgnoresHash(p: map<string, string>, h: string)
    ensures Canonical(p["hash" := h]) == Canonical(p)
    ensures Canonical(p - {"hash"}) == Canonical(p)
  {
    assert Unsigned(p["hash" := h]) == Unsigned(p);
    assert Unsigned(p - {"hash"}) == Unsigned(p);
  }

  /** Setting `hash` to the digest of the canonical string always passes the check, and any
      other value of `hash` fails it. */
  lemma SignedParamsVerify(p: map<string, string>, secret: string, mac: Mac, h: string)
    ensures SignatureValid(p["hash" := mac(secret, Canonical(p))], secret, mac)
    ensures h != mac(secret, Canonical(p)) ==> !SignatureValid(p["hash" := h], secret, mac)
  {
    CanonicalIgnoresHash(p, mac(secret, Canonical(p)));
    CanonicalIgnoresHash(p, h);
  }

  /** A shared prefix keeps two different strings different. */
  lemma PrefixDistinct(a: string, x: string, y: string)
    requires x != y
    ensures a + x != a + y
  {
    assert (a + x)[|a|..] == x;
    assert (a + y)[|a|..] == y;
  }

  /** A shared suffix keeps two different strings different. */
  lemma SuffixDistinct(x: string, y: string, s: string)
    requires x != y
    ensures x + s != y + s
  {
    if |x| == |y| {
      assert (x + s)[..|x|] == x;
      assert (y + s)[..|y|] == y;
    }
  }

  /** Two maps that agree on every key of `ks` join to the same string. */
  lemma {:induction false} JoinedAgree(ks: seq<string>, p: map<string, string>, q: map<string, string>)
    requires forall i :: 0 <= i < |ks| ==> ks[i] in p && ks[i] in q && p[ks[i]] == q[ks[i]]
    ensures Joined(ks, p) == Joined(ks, q)
    decreases |ks|
  {
    if |ks| > 1 {
      JoinedAgree(ks[..|ks| - 1], p, q);
    }
  }

  /** Over distinct keys, changing the value of exactly one of them changes the join. */
  lemma {:induction false} JoinedDiffers(ks: seq<string>, p: map<string, string>, q: map<string, string>, k: string)
    requires forall i, j :: 0 <= i < j < |ks| ==> ks[i] != ks[j]
    requires forall i :: 0 <= i < |ks| ==> ks[i] in p && ks[i] in q
    requires forall i :: 0 <= i < |ks| && ks[i] != k ==> p[ks[i]] == q[ks[i]]
    requires k in ks && p[k] != q[k]
    ensures Joined(ks, p) != Joined(ks, q)
    decreases |ks|
  {
    var n := |ks| - 1;
    var init := ks[..n];
    var last := ks[n];
    if last == k {
      assert forall i :: 0 <= i < |init| ==> init[i] != k;
      PrefixDistinct(k + "=", p[k], q[k]);
      if n > 0 {
        JoinedAgree(init, p, q);
        assert Joined(ks, p) == (Joined(init, p) + "&") + Pair(k, p[k]);
        assert Joined(ks, q) == (Joined(init, p) + "&") + Pair(k, q[k]);
        PrefixDistinct(Joined(init, p) + "&", Pair(k, p[k]), Pair(k, q[k]));
      }
    } else {
      assert k in init by {
        var j :| 0 <= j < |ks| && ks[j] == k;
        assert j < n && init[j] == k;
      }
      JoinedDiffers(init, p, q, k);
      var tail := "&" + Pair(last, p[last]);
      assert Joined(ks, p) == Joined(init, p) + tail;
      assert Joined(ks, q) == Joined(init, q) + tail;
      SuffixDistinct(Joined(init, p), Joined(init, q), tail);
    }
  }

  /** Overwriting one value with a different one changes the sorted join. */
  lemma SortedJoinChangesAt(q: map<string, string>, k: string, v: string)
    requires k in q && v != q[k]
    ensures SortedJoin(q[k := v]) != SortedJoin(q)
  {
    assert q[k := v].Keys == q.Keys;
    SortedKeysDistinct(q.Keys);
    JoinedDiffers(SortedKeys(q.Keys), q[k := v], q, k);
  }

  /** Changing the value of any signed parameter changes the string that is signed, so the
      old hash stays valid only if the digest happens to coincide. */
  lemma ChangedValueChangesCanonical(p: map<string, string>, k: string, v: string)
    requires k in p && k != "hash" && v != p[k]
    ensures Canonical(p[k := v]) != Canonical(p)
  {
    assert Unsigned(p[k := v]) == Unsigned(p)[k := v];
    SortedJoinChangesAt(Unsigned(p), k, v);
  }

  /** A single signed pair is signed as itself. */
  lemma CanonicalOfOnePair(a: string, v: string)
    requires a != "hash"
    ensures Canonical(map[a := v]) == Pair(a, v)
  {
    var one := map[a := v];
    assert Unsigned(one) == one && one.Keys == {a};
    SortedKeysUnique({a}, [a]);
  }

  /** Two signed pairs are signed in key order, joined by `&`. */
  lemma CanonicalOfTwoPairs(a: string, v: string, b: string, w: string)
    requires KeyLess(a, b) && a != "hash" && b != "hash"
    ensures Canonical(map[a := v, b := w]) == Pair(a, v) + "&" + Pair(b, w)
  {
    KeyLessIrreflexive(a);
    var two := map[a := v, b := w];
    assert Unsigned(two) == two && two.Keys == {a, b};
    SortedKeysUnique({a, b}, [a, b]);
    assert [a, b][..1] == [a];
    assert two[a] == v && two[b] == w;
    assert Joined([a], two) == Pair(a, v);
    assert Canonical(two) == Joined([a, b], two);
  }

  /** Values are not encoded, so two different parameter sets can share a canonical string
      (and hence a valid hash): a value that contains `&` and `=` can stand for a second pair
      under any key that sorts after the first. */
  lemma CanonicalIsNotInjective(a: string, v: string, b: string, w: string)
    requires KeyLess(a, b) && a != "hash" && b != "hash"
    ensures map[a := v + "&" + Pair(b, w)] != map[a := v, b := w]
    ensures Canonical(map[a := v + "&" + Pair(b, w)]) == Canonical(map[a := v, b := w])
  {
    KeyLessIrreflexive(a);
    assert b in map[a := v, b := w];
    CanonicalOfOnePair(a, v + "&" + Pair(b, w));
    CanonicalOfTwoPairs(a, v, b, w);
  }
}
