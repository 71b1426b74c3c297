/**
 * Key listings shared by both stores: the `startsWith` prefix filter behind
 * `list(prefix?)`, removal of one key from a listing, and the order in which
 * IndexedDB hands out string keys (UTF-16 code units, lexicographically).
 */
module Keys {
  import opened Wrappers

  /** `k.startsWith(prefix)` */
  predicate StartsWith(k: string, prefix: string) {
    prefix <= k
  }

  /** No key occurs twice. */
  predicate Distinct(ks: seq<string>) {
    forall i, j :: 0 <= i < j < |ks| ==> ks[i] != ks[j]
  }

  /** `xs` is `ys` with some elements dropped, the rest in their original order. */
  predicate Subsequence(xs: seq<string>, ys: seq<string>)
    decreases |ys|
  {
    xs == [] ||
    (ys != [] && if xs[0] == ys[0] then Subsequence(xs[1..], ys[1..]) else Subsequence(xs, ys[1..]))
  }

  /** `ks.filter((k) => k.startsWith(prefix))`: the matching keys, in their original order. */
  function Filter(ks: seq<string>, prefix: string): (r: seq<string>)
    ensures forall k :: k in r <==> k in ks && StartsWith(k, prefix)
    ensures |r| <= |ks|
    ensures Distinct(ks) ==> Distinct(r)
    ensures Sorted(ks) ==> Sorted(r)
    ensures Subsequence(r, ks)
  {
    if ks == [] then []
    else if StartsWith(ks[0], prefix) then
      var rest := Filter(ks[1..], prefix);
      Cons(ks, rest);
      [ks[0]] + rest
    else Filter(ks[1..], prefix)
  }

  /** Every key starts with the empty string, so filtering by it keeps the whole listing. */
  lemma {:induction false} FilterEmptyPrefix(ks: seq<string>)
    ensures Filter(ks, "") == ks
  {
    if ks != [] {
      FilterEmptyPrefix(ks[1..]);
      assert ks == [ks[0]] + ks[1..];
    }
  }

  /**
   * `list(prefix?)`: `if (prefix) return keys.filter(...); return keys;`.
   * An absent or empty prefix is falsy and lists every key.
   */
  function ListKeys(ks: seq<string>, prefix: Option<string>): (r: seq<string>)
    ensures forall k :: k in r <==> k in ks && (prefix.Some? ==> StartsWith(k, prefix.value))
    ensures prefix.None? || prefix.value == "" ==> r == ks
  {
    if prefix.Some? && prefix.value != "" then Filter(ks, prefix.value) else ks
  }

  /** The guard `if (prefix)` does not change the result: filtering by the empty prefix is the identity. */
  lemma ListKeysIsFilter(ks: seq<string>, prefix: string)
    ensures ListKeys(ks, Some(prefix)) == Filter(ks, prefix)
  {
    if prefix == "" {
      FilterEmptyPrefix(ks);
    }
  }

  /** The listing with every occurrence of `k` removed, order kept. */
  function Without(ks: seq<string>, k: string): (r: seq<string>)
    ensures forall x :: x in r <==> x in ks && x != k
    ensures Distinct(ks) ==> Distinct(r)
    ensures Sorted(ks) ==> Sorted(r)
    ensures Subsequence(r, ks)
  {
    if ks == [] then []
    else if ks[0] == k then
      var rest := Without(ks[1..], k);
      assert rest != [] ==> rest[0] in rest;
      rest
    else
      var rest := Without(ks[1..], k);
      Cons(ks, rest);
      [ks[0]] + rest
  }

  /** Keeping the head of a listing in front of some of its tail keeps the listing distinct and sorted. */
  lemma Cons(ks: seq<string>, rest: seq<string>)
    requires ks != [] && forall x :: x in rest ==> x in ks[1..]
    ensures Distinct(ks) && Distinct(rest) ==> Distinct([ks[0]] + rest)
    ensures Sorted(ks) && Sorted(rest) ==> Sorted([ks[0]] + rest)
  {
    if Distinct(ks) && Distinct(rest) {
      forall j | 0 <= j < |rest|
        ensures rest[j] != ks[0]
      {
        assert rest[j] in ks[1..];
        var i :| 0 <= i < |ks[1..]| && ks[1..][i] == rest[j];
        assert ks[i + 1] == rest[j];
      }
    }
    if Sorted(ks) && Sorted(rest) {
      forall j | 0 <= j < |rest|
        ensures Below(ks[0], rest[j])
      {
        assert rest[j] in ks[1..];
        var i :| 0 <= i < |ks[1..]| && ks[1..][i] == rest[j];
        assert ks[i + 1] == rest[j];
      }
    }
  }

  /** The UTF-16 code units of one character: the character itself below U+10000, a surrogate pair above. */
  function CodeUnits(c: char): (u: seq<int>)
    ensures |u| == 1 <==> c as int < 0x10000
    ensures |u| == 1 || |u| == 2
    ensures |u| == 1 ==> u[0] < 0xD800 || 0xE000 <= u[0]
    ensures |u| == 2 ==> 0xD800 <= u[0] < 0xDC00 && 0xDC00 <= u[1] < 0xE000
    ensures |u| == 1 ==> u[0] == c as int
    ensures |u| == 2 ==> 0x10000 + (u[0] - 0xD800) * 0x400 + (u[1] - 0xDC00) == c as int
  {
    var n := c as int;
    if n < 0x10000 then [n]
    else [0xD800 + (n - 0x10000) / 0x400, 0xDC00 + (n - 0x10000) % 0x400]
  }

  /** A string as the UTF-16 code units JavaScript and IndexedDB see. */
  function Utf16(s: string): seq<int> {
    if s == [] then [] else CodeUnits(s[0]) + Utf16(s[1..])
  }

  /** Different characters have different encodings. */
  lemma CodeUnitsInjective(c: char, d: char)
    requires CodeUnits(c) == CodeUnits(d)
    ensures c == d
  {
    var n, m := c as int, d as int;
    if n >= 0x10000 {
      assert n - 0x10000 == 0x400 * ((n - 0x10000) / 0x400) + (n - 0x10000) % 0x400;
      assert m - 0x10000 == 0x400 * ((m - 0x10000) / 0x400) + (m - 0x10000) % 0x400;
    }
  }

  /** Different strings have different UTF-16 encodings: no character's units start another's. */
  lemma {:induction false} Utf16Injective(a: string, b: string)
    requires Utf16(a) == Utf16(b)
    ensures a == b
    decreases |a|
  {
    if a == [] || b == [] {
      return;
    }
    var ua, ub := CodeUnits(a[0]), CodeUnits(b[0]);
    assert Utf16(a) == ua + Utf16(a[1..]) && Utf16(b) == ub + Utf16(b[1..]);
    assert Utf16(a)[0] == ua[0] && Utf16(b)[0] == ub[0];
    if |ua| == 2 {
      assert |ub| == 2;
      assert Utf16(a)[1] == ua[1] && Utf16(b)[1] == ub[1];
    } else {
      assert |ub| == 1;
    }
    assert ua == ub;
    CodeUnitsInjective(a[0], b[0]);
    assert Utf16(a[1..]) == Utf16(a)[|ua|..] == Utf16(b)[|ub|..] == Utf16(b[1..]);
    Utf16Injective(a[1..], b[1..]);
    assert a == [a[0]] + a[1..] && b == [b[0]] + b[1..];
  }

  /** Code-unit sequences compared one unit at a time, a proper prefix first. */
  predicate UnitsBelow(x: seq<int>, y: seq<int>)
    decreases |x|
  {
    if x == [] then y != []
    else if y == [] then false
    else x[0] < y[0] || (x[0] == y[0] && UnitsBelow(x[1..], y[1..]))
  }

  lemma {:induction false} UnitsBelowIrreflexive(x: seq<int>)
    ensures !UnitsBelow(x, x)
    decreases |x|
  {
    if x != [] {
      UnitsBelowIrreflexive(x[1..]);
    }
  }

  lemma {:induction false} UnitsBelowTransitive(x: seq<int>, y: seq<int>, z: seq<int>)
    requires UnitsBelow(x, y) && UnitsBelow(y, z)
    ensures UnitsBelow(x, z)
    decreases |x|
  {
    if x != [] && y != [] && z != [] && x[0] == y[0] && y[0] == z[0] {
      UnitsBelowTransitive(x[1..], y[1..], z[1..]);
    }
  }

  lemma {:induction false} UnitsBelowTotal(x: seq<int>, y: seq<int>)
    requires x != y
    ensures UnitsBelow(x, y) || UnitsBelow(y, x)
    decreases |x|
  {
    if x != [] && y != [] && x[0] == y[0] {
      assert x == [x[0]] + x[1..] && y == [y[0]] + y[1..];
      UnitsBelowTotal(x[1..], y[1..]);
    }
  }

  /**
   * IndexedDB's order on string keys: their UTF-16 code units compared one
   * by one, a proper prefix first.
   */
  predicate Below(a: string, b: string) {
    UnitsBelow(Utf16(a), Utf16(b))
  }

  lemma BelowIrreflexive(a: string)
    ensures !Below(a, a)
  {
    UnitsBelowIrreflexive(Utf16(a));
  }

  lemma BelowTransitive(a: string, b: string, c: string)
    requires Below(a, b) && Below(b, c)
    ensures Below(a, c)
  {
    UnitsBelowTransitive(Utf16(a), Utf16(b), Utf16(c));
  }

  lemma BelowTotal(a: string, b: string)
    requires a != b
    ensures Below(a, b) || Below(b, a)
  {
    if Utf16(a) == Utf16(b) {
      Utf16Injective(a, b);
    }
    UnitsBelowTotal(Utf16(a), Utf16(b));
  }

  /**
   * Code units, not code points: U+10000 is stored as the pair D800 DC00,
   * so it sorts before U+FFFF although its code point is larger.
   */
  lemma SurrogatePairSortsBeforeHighBmp()
    ensures Below("\U{10000}", "\U{FFFF}") && !Below("\U{FFFF}", "\U{10000}")
  {
    assert Utf16("\U{10000}") == [0xD800, 0xDC00] + Utf16([]);
    assert Utf16("\U{FFFF}") == [0xFFFF] + Utf16([]);
  }

  /** Strictly ascending in IndexedDB key order (hence also free of duplicates). */
  predicate Sorted(ks: seq<string>) {
    forall i, j :: 0 <= i < j < |ks| ==> Below(ks[i], ks[j])
  }

  lemma SortedIsDistinct(ks: seq<string>)
    requires Sorted(ks)
    ensures Distinct(ks)
  {
    forall i, j | 0 <= i < j < |ks|
      ensures ks[i] != ks[j]
    {
      BelowIrreflexive(ks[i]);
    }
  }

  /** Adds `k` to a sorted listing at its place in key order; a key already present is not added twice. */
  function Insert(ks: seq<string>, k: string): (r: seq<string>)
    requires Sorted(ks)
    ensures Sorted(r)
    ensures forall x :: x in r <==> x in ks || x == k
    ensures k in ks ==> r == ks
  {
    if ks == [] then [k]
    else if ks[0] == k then ks
    else if Below(k, ks[0]) then
      InsertFront(ks, k);
      [k] + ks
    else
      BelowTotal(k, ks[0]);
      var rest := Insert(ks[1..], k);
      assert forall x :: x in rest ==> Below(ks[0], x);
      [ks[0]] + rest
  }

  /** A key below the head of a sorted listing is below all of it, so it is not in it. */
  lemma InsertFront(ks: seq<string>, k: string)
    requires Sorted(ks) && ks != [] && Below(k, ks[0])
    ensures Sorted([k] + ks) && k !in ks
  {
    forall j | 0 <= j < |ks|
      ensures Below(k, ks[j])
    {
      if j > 0 {
        BelowTransitive(k, ks[0], ks[j]);
      }
    }
    if k in ks {
      var j :| 0 <= j < |ks| && ks[j] == k;
      BelowIrreflexive(k);
    }
  }
}
