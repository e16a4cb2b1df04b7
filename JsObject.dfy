/**
 * The part of JavaScript's ordinary-object semantics that the bundle
 * dictionary of the build tool depends on: assigning `o[k] = v` and
 * enumerating the own keys afterwards, as OrdinaryOwnPropertyKeys orders
 * them in current editions of ECMAScript and in V8 (ECMAScript 2015, section
 * 9.1.12, still put every integer index, up to 2^53 - 1, first). Keys that
 * are array indices come first, in
 * ascending numeric order; every other string key follows in the order in
 * which it was first created. Re-assigning an existing key keeps its
 * position. Assigning to `__proto__` on an object that inherits from
 * Object.prototype replaces the prototype and creates no own key.
 */
module JsObject {

  predicate IsDigit(c: char) {
    '0' <= c <= '9'
  }

  predicate AllDigits(s: string) {
    forall i :: 0 <= i < |s| ==> IsDigit(s[i])
  }

  function DigitValue(c: char): (d: nat) {
    if IsDigit(c) then (c as int - '0' as int) as nat else 0
  }

  /** The value of a string of decimal digits, read left to right. */
  function DecimalValue(s: string): (v: nat) {
    if s == [] then 0 else 10 * DecimalValue(s[..|s| - 1]) + DigitValue(s[|s| - 1])
  }

  function Pow10(n: nat): (p: nat) {
    if n == 0 then 1 else 10 * Pow10(n - 1)
  }

  /** 2^32 - 1: array indices are the integers below it. */
  const ArrayIndexLimit: nat := 4294967295

  /**
   * A canonical decimal string (no sign, no leading zero except "0" itself)
   * whose value is an array index (ECMAScript 2015, section 9.4.2).
   */
  predicate IsArrayIndex(s: string) {
    && |s| > 0
    && AllDigits(s)
    && (s[0] == '0' ==> |s| == 1)
    && DecimalValue(s) < ArrayIndexLimit
  }

  const ProtoKey: string := "__proto__"

  lemma {:induction false} Pow10Monotonic(m: nat, n: nat)
    requires m <= n
    ensures Pow10(m) <= Pow10(n)
  {
    if m < n {
      Pow10Monotonic(m, n - 1);
    }
  }

  lemma {:induction false} DecimalValueBelow(s: string)
    requires AllDigits(s)
    ensures DecimalValue(s) < Pow10(|s|)
  {
    if s != [] {
      var p := s[..|s| - 1];
      assert AllDigits(p) by {
        forall i | 0 <= i < |p| ensures IsDigit(p[i]) { assert p[i] == s[i]; }
      }
      DecimalValueBelow(p);
    }
  }

  lemma {:induction false} DecimalValueAtLeast(s: string)
    requires AllDigits(s) && |s| > 0 && s[0] != '0'
    ensures DecimalValue(s) >= Pow10(|s| - 1)
  {
    if |s| > 1 {
      var p := s[..|s| - 1];
      assert p[0] == s[0];
      assert AllDigits(p) by {
        forall i | 0 <= i < |p| ensures IsDigit(p[i]) { assert p[i] == s[i]; }
      }
      DecimalValueAtLeast(p);
    }
  }

  lemma AllDigitsPrefix(s: string, n: nat)
    requires AllDigits(s) && n <= |s|
    ensures AllDigits(s[..n])
  {
    forall i | 0 <= i < n ensures IsDigit(s[..n][i]) {
      assert s[..n][i] == s[i];
    }
  }

  lemma DigitValueInjective(c: char, d: char)
    requires IsDigit(c) && IsDigit(d) && DigitValue(c) == DigitValue(d)
    ensures c == d
  {
  }

  /** A decimal number ending in digit `d` determines both its last digit and the rest. */
  lemma LastDigitSplit(x: nat, d: nat, y: nat, e: nat)
    requires d < 10 && e < 10 && 10 * x + d == 10 * y + e
    ensures x == y && d == e
  {
  }

  lemma {:induction false} SameLengthSameValue(a: string, b: string)
    requires AllDigits(a) && AllDigits(b) && |a| == |b|
    requires DecimalValue(a) == DecimalValue(b)
    ensures a == b
  {
    if a != [] {
      var n := |a| - 1;
      var pa, pb := a[..n], b[..n];
      AllDigitsPrefix(a, n);
      AllDigitsPrefix(b, n);
      assert IsDigit(a[n]) && IsDigit(b[n]);
      LastDigitSplit(DecimalValue(pa), DigitValue(a[n]), DecimalValue(pb), DigitValue(b[n]));
      SameLengthSameValue(pa, pb);
      DigitValueInjective(a[n], b[n]);
      assert a == pa + [a[n]];
      assert b == pb + [b[n]];
    }
  }

  /** Distinct array-index strings have distinct numeric values. */
  lemma ArrayIndexInjective(a: string, b: string)
    requires IsArrayIndex(a) && IsArrayIndex(b)
    requires DecimalValue(a) == DecimalValue(b)
    ensures a == b
  {
    if |a| < |b| {
      DecimalValueBelow(a);
      DecimalValueAtLeast(b);
      Pow10Monotonic(|a|, |b| - 1);
    } else if |b| < |a| {
      DecimalValueBelow(b);
      DecimalValueAtLeast(a);
      Pow10Monotonic(|b|, |a| - 1);
    } else {
      SameLengthSameValue(a, b);
    }
  }

  /**
   * The order OrdinaryOwnPropertyKeys produces: no key twice, and every
   * array-index key comes before any later key, with a smaller value.
   */
  predicate Ordered(keys: seq<string>) {
    && (forall i, j :: 0 <= i < j < |keys| ==> keys[i] != keys[j])
    && (forall i, j :: 0 <= i < j < |keys| && IsArrayIndex(keys[j]) ==>
          IsArrayIndex(keys[i]) && DecimalValue(keys[i]) < DecimalValue(keys[j]))
  }

  /** The keys that are not array indices, in their enumeration order. */
  function StringKeys(keys: seq<string>): (r: seq<string>)
    ensures forall x :: x in r <==> x in keys && !IsArrayIndex(x)
  {
    if keys == [] then []
    else (if IsArrayIndex(keys[0]) then [] else [keys[0]]) + StringKeys(keys[1..])
  }

  lemma {:induction false} StringKeysAppend(a: seq<string>, b: seq<string>)
    ensures StringKeys(a + b) == StringKeys(a) + StringKeys(b)
  {
    if a != [] {
      assert (a + b)[0] == a[0];
      assert (a + b)[1..] == a[1..] + b;
      StringKeysAppend(a[1..], b);
    } else {
      assert a + b == b;
    }
  }

  /** Places a new array-index key among the leading array-index keys by value. */
  function InsertIndex(keys: seq<string>, k: string): (r: seq<string>)
    ensures |r| == |keys| + 1
    ensures forall x :: x in r <==> x in keys || x == k
  {
    if keys == [] || !IsArrayIndex(keys[0]) || DecimalValue(k) < DecimalValue(keys[0]) then [k] + keys
    else [keys[0]] + InsertIndex(keys[1..], k)
  }

  /** A new array-index key below every leading index key goes in front. */
  lemma InsertIndexFront(keys: seq<string>, k: string)
    requires Ordered(keys) && IsArrayIndex(k) && k !in keys
    requires keys == [] || !IsArrayIndex(keys[0]) || DecimalValue(k) < DecimalValue(keys[0])
    ensures Ordered([k] + keys)
  {
    var r := [k] + keys;
    forall j | 0 < j < |r| && IsArrayIndex(r[j])
      ensures DecimalValue(k) < DecimalValue(r[j])
    {
      assert r[j] == keys[j - 1];
      if j > 1 {
        assert IsArrayIndex(keys[0]) && DecimalValue(keys[0]) < DecimalValue(keys[j - 1]);
      }
    }
  }

  /** Keeping the first key in front of an ordered rest that holds only its later keys and `k`. */
  lemma InsertIndexBehind(keys: seq<string>, k: string, rest: seq<string>)
    requires Ordered(keys) && |keys| > 0 && IsArrayIndex(keys[0]) && IsArrayIndex(k)
    requires keys[0] != k && DecimalValue(keys[0]) < DecimalValue(k)
    requires Ordered(rest) && forall x :: x in rest <==> x in keys[1..] || x == k
    ensures Ordered([keys[0]] + rest)
  {
    var r := [keys[0]] + rest;
    forall j | 0 < j < |r|
      ensures r[j] != keys[0]
      ensures IsArrayIndex(r[j]) ==> DecimalValue(keys[0]) < DecimalValue(r[j])
    {
      assert r[j] == rest[j - 1];
      assert r[j] in rest;
      if r[j] != k {
        var m :| 0 <= m < |keys[1..]| && keys[1..][m] == r[j];
        assert keys[m + 1] == r[j];
      }
    }
  }

  lemma {:induction false} InsertIndexOrdered(keys: seq<string>, k: string)
    requires Ordered(keys) && IsArrayIndex(k) && k !in keys
    ensures Ordered(InsertIndex(keys, k))
  {
    if keys == [] || !IsArrayIndex(keys[0]) || DecimalValue(k) < DecimalValue(keys[0]) {
      InsertIndexFront(keys, k);
    } else {
      var rest := InsertIndex(keys[1..], k);
      assert Ordered(keys[1..]);
      InsertIndexOrdered(keys[1..], k);
      if DecimalValue(keys[0]) == DecimalValue(k) {
        ArrayIndexInjective(keys[0], k);
      }
      InsertIndexBehind(keys, k, rest);
    }
  }

  lemma {:induction false} InsertIndexStringKeys(keys: seq<string>, k: string)
    requires IsArrayIndex(k)
    ensures StringKeys(InsertIndex(keys, k)) == StringKeys(keys)
  {
    if keys == [] || !IsArrayIndex(keys[0]) || DecimalValue(k) < DecimalValue(keys[0]) {
      assert ([k] + keys)[1..] == keys;
    } else {
      var rest := InsertIndex(keys[1..], k);
      assert ([keys[0]] + rest)[1..] == rest;
      InsertIndexStringKeys(keys[1..], k);
    }
  }

  /** The own-key list after creating or overwriting the property `k`. */
  function AddKey(keys: seq<string>, k: string): (r: seq<string>)
    ensures forall x :: x in r <==> x in keys || x == k
    ensures k in keys ==> r == keys
    ensures k !in keys && !IsArrayIndex(k) ==> r == keys + [k]
    ensures Ordered(keys) ==> Ordered(r)
    ensures StringKeys(r) == StringKeys(keys) + (if k in keys || IsArrayIndex(k) then [] else [k])
  {
    if k in keys then keys
    else if IsArrayIndex(k) then
      InsertIndexStringKeys(keys, k);
      if Ordered(keys) then InsertIndexOrdered(keys, k); InsertIndex(keys, k)
      else InsertIndex(keys, k)
    else
      StringKeysAppend(keys, [k]);
      keys + [k]
  }

  /** An ordinary object as far as its own enumerable data properties go. */
  datatype Object<V> = Object(keys: seq<string>, props: map<string, V>)

  function Empty<V>(): (o: Object<V>)
    ensures Valid(o) && o.keys == [] && o.props == map[]
  {
    Object([], map[])
  }

  /** The keys list is exactly the property names, in enumeration order. */
  ghost predicate Valid<V>(o: Object<V>) {
    Ordered(o.keys) && forall k :: k in o.props <==> k in o.keys
  }

  /** `o[k] = v` */
  function Put<V>(o: Object<V>, k: string, v: V): (r: Object<V>)
    ensures Valid(o) ==> Valid(r)
    ensures k == ProtoKey ==> r == o
    ensures k != ProtoKey ==> r.props == o.props[k := v]
    ensures k != ProtoKey && k in o.keys ==> r.keys == o.keys
    ensures k != ProtoKey && k !in o.keys && !IsArrayIndex(k) ==> r.keys == o.keys + [k]
    ensures StringKeys(r.keys) == StringKeys(o.keys) + (if k == ProtoKey || k in o.keys || IsArrayIndex(k) then [] else [k])
  {
    if k == ProtoKey then o else Object(AddKey(o.keys, k), o.props[k := v])
  }

  /** Assigning a key twice: the second value wins, at the position the first assignment gave it. */
  lemma PutTwice<V>(o: Object<V>, k: string, v: V, w: V)
    ensures Put(Put(o, k, v), k, w) == Put(o, k, w)
  {
    if k != ProtoKey {
      var once := Put(o, k, v);
      assert k in once.keys;
      assert AddKey(once.keys, k) == once.keys;
      assert once.props[k := w] == o.props[k := w];
    }
  }
}
