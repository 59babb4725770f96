/** The case-insensitive ordering behind every `sorted(..., key=str.lower)`
    and `list.sort(key=lambda x: x[0].lower())` of the application: Python
    compares the lowered strings code point by code point, a proper prefix
    coming first. Lowering is restricted to ASCII letters. */
module Ordering {

  /** `str.lower` on one character, ASCII letters only. */
  function LowerChar(c: char): (r: char)
    ensures 'A' <= c <= 'Z' ==> 'a' <= r <= 'z' && r as int == c as int + 32
    ensures !('A' <= c <= 'Z') ==> r == c
  {
    if 'A' <= c <= 'Z' then (c as int + 32) as char else c
  }

  /** `s.lower()` */
  function Lower(s: string): (r: string)
    ensures |r| == |s|
    ensures forall i :: 0 <= i < |s| ==> r[i] == LowerChar(s[i])
  {
    seq(|s|, i requires 0 <= i < |s| => LowerChar(s[i]))
  }

  /** Python's `a <= b` on strings. */
  predicate LexLe(a: string, b: string)
    decreases |a|
  {
    a == [] || (b != [] && (a[0] < b[0] || (a[0] == b[0] && LexLe(a[1..], b[1..]))))
  }

  lemma {:induction false} LexLeRefl(a: string)
    ensures LexLe(a, a)
    decreases |a|
  {
    if a != [] { LexLeRefl(a[1..]); }
  }

  /** Any two strings are ordered one way or the other. */
  lemma {:induction false} LexLeTotal(a: string, b: string)
    ensures LexLe(a, b) || LexLe(b, a)
    decreases |a|
  {
    if a != [] && b != [] && a[0] == b[0] { LexLeTotal(a[1..], b[1..]); }
  }

  lemma {:induction false} LexLeTrans(a: string, b: string, c: string)
    requires LexLe(a, b) && LexLe(b, c)
    ensures LexLe(a, c)
    decreases |a|
  {
    if a != [] && a[0] == b[0] && b[0] == c[0] { LexLeTrans(a[1..], b[1..], c[1..]); }
  }

  /** `t` is in non-decreasing order of `key`. */
  predicate SortedBy<T>(t: seq<T>, key: T -> string) {
    forall i, j :: 0 <= i < j < |t| ==> LexLe(key(t[i]), key(t[j]))
  }

  /** Puts `x` in front of the first element whose key is not smaller, so
      that `x` stays ahead of the elements with an equal key. */
  function Insert<T>(x: T, t: seq<T>, key: T -> string): (r: seq<T>)
    requires SortedBy(t, key)
    ensures multiset(r) == multiset([x] + t)
    ensures SortedBy(r, key)
    decreases |t|
  {
    if t == [] then [x]
    else if LexLe(key(x), key(t[0])) then
      InsertFront(x, t, key);
      [x] + t
    else
      var rest := Insert(x, t[1..], key);
      LexLeTotal(key(x), key(t[0]));
      InsertBehind(t[0], x, t[1..], rest, key);
      assert t == [t[0]] + t[1..];
      [t[0]] + rest
  }

  lemma InsertFront<T>(x: T, t: seq<T>, key: T -> string)
    requires SortedBy(t, key) && t != [] && LexLe(key(x), key(t[0]))
    ensures SortedBy([x] + t, key)
  {
    var r := [x] + t;
    forall i, j | 0 <= i < j < |r| ensures LexLe(key(r[i]), key(r[j])) {
      if i == 0 && j > 1 {
        LexLeTrans(key(x), key(t[0]), key(t[j - 1]));
      }
    }
  }

  lemma InsertBehind<T>(y: T, x: T, t: seq<T>, rest: seq<T>, key: T -> string)
    requires SortedBy([y] + t, key) && SortedBy(rest, key)
    requires multiset(rest) == multiset([x] + t)
    requires LexLe(key(y), key(x))
    ensures SortedBy([y] + rest, key)
  {
    var r := [y] + rest;
    forall i, j | 0 <= i < j < |r| ensures LexLe(key(r[i]), key(r[j])) {
      if i == 0 {
        var e := rest[j - 1];
        assert r[j] == e;
        assert e in multiset(rest);
        assert e in multiset([x] + t);
        if e != x {
          assert e in multiset(t);
          var k :| 0 <= k < |t| && t[k] == e;
          assert ([y] + t)[0] == y && ([y] + t)[k + 1] == e;
          assert LexLe(key(y), key(e));
        }
      } else {
        assert r[i] == rest[i - 1] && r[j] == rest[j - 1];
      }
    }
  }

  /** `sorted(s, key=key)`: a stable insertion sort; the result is ordered
      by the key, holds exactly the elements of `s`, and keeps the elements
      that share a key in the order they went in. */
  function SortBy<T>(s: seq<T>, key: T -> string): (r: seq<T>)
    ensures |r| == |s|
    ensures multiset(r) == multiset(s)
    ensures SortedBy(r, key)
    ensures forall k :: WithKey(r, key, k) == WithKey(s, key, k)
    decreases |s|
  {
    if s == [] then []
    else
      var t := SortBy(s[1..], key);
      var r := Insert(s[0], t, key);
      forall k ensures WithKey(r, key, k) == WithKey(s, key, k) {
        InsertStable(s[0], t, key, k);
        assert ([s[0]] + t)[0] == s[0] && ([s[0]] + t)[1..] == t;
      }
      assert s == [s[0]] + s[1..];
      assert |r| == |multiset(r)| == |multiset(s)| == |s|;
      r
  }

  /** The elements of `t` whose key is `k`, in their order in `t`. */
  function WithKey<T>(t: seq<T>, key: T -> string, k: string): seq<T>
    decreases |t|
  {
    if t == [] then [] else (if key(t[0]) == k then [t[0]] else []) + WithKey(t[1..], key, k)
  }

  /** Inserting `x` puts it ahead of every element with its key. */
  lemma {:induction false} InsertStable<T>(x: T, t: seq<T>, key: T -> string, k: string)
    requires SortedBy(t, key)
    ensures WithKey(Insert(x, t, key), key, k) == WithKey([x] + t, key, k)
    decreases |t|
  {
    assert ([x] + t)[0] == x && ([x] + t)[1..] == t;
    if t != [] && !LexLe(key(x), key(t[0])) {
      var rest := Insert(x, t[1..], key);
      InsertStable(x, t[1..], key, k);
      LexLeRefl(key(x));
      assert key(x) != key(t[0]);
      assert ([t[0]] + rest)[0] == t[0] && ([t[0]] + rest)[1..] == rest;
      assert ([x] + t[1..])[0] == x && ([x] + t[1..])[1..] == t[1..];
    }
  }

  /** `sorted(names, key=str.lower)` */
  function SortedCaseless(names: seq<string>): (r: seq<string>)
    ensures |r| == |names| && multiset(r) == multiset(names)
    ensures forall i, j :: 0 <= i < j < |r| ==> LexLe(Lower(r[i]), Lower(r[j]))
    ensures forall k :: WithKey(r, Lower, k) == WithKey(names, Lower, k)
  {
    SortBy(names, Lower)
  }
}
