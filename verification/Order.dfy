/** The order of strings, sorting by a key, and decimal numerals. */
module Order {
  /** Byte order: the first difference decides, and a proper prefix is less. */
  predicate Less(a: string, b: string) {
    if b == "" then false
    else if a == "" then true
    else a[0] < b[0] || (a[0] == b[0] && Less(a[1..], b[1..]))
  }

  lemma {:induction false} LessIsTotal(a: string, b: string)
    ensures a == b || Less(a, b) || Less(b, a)
    ensures !(Less(a, b) && Less(b, a)) && !Less(a, a)
  {
    if a != "" && b != "" {
      LessIsTotal(a[1..], b[1..]);
      if a[0] == b[0] && a[1..] == b[1..] {
        assert a == [a[0]] + a[1..] && b == [b[0]] + b[1..];
      }
    }
    if a != "" { LessIsTotal(a[1..], a[1..]); }
  }

  lemma {:induction false} LessIsTransitive(a: string, b: string, c: string)
    requires Less(a, b) && Less(b, c)
    ensures Less(a, c)
  {
    if a != "" && a[0] == b[0] && b[0] == c[0] {
      LessIsTransitive(a[1..], b[1..], c[1..]);
    }
  }

  lemma {:induction false} PrefixIsLess(a: string, b: string)
    requires a < b
    ensures Less(a, b)
  {
    if a != "" {
      PrefixIsLess(a[1..], b[1..]);
    }
  }

  // ----- Sorting -----

  predicate SortedBy<T(!new)>(s: seq<T>, key: T -> string) {
    forall i, j :: 0 <= i < j < |s| ==> Less(key(s[i]), key(s[j]))
  }

  predicate KeysDiffer<T(!new)>(s: seq<T>, key: T -> string) {
    forall i, j :: 0 <= i < j < |s| ==> key(s[i]) != key(s[j])
  }

  function Insert<T>(x: T, s: seq<T>, key: T -> string): (r: seq<T>)
    ensures multiset(r) == multiset(s) + multiset{x}
  {
    if s == [] then [x]
    else if Less(key(x), key(s[0])) then
      assert [x] + s == [x] + s;
      [x] + s
    else
      assert s == [s[0]] + s[1..];
      [s[0]] + Insert(x, s[1..], key)
  }

  function Sort<T>(s: seq<T>, key: T -> string): (r: seq<T>)
    ensures multiset(r) == multiset(s)
  {
    if s == [] then []
    else
      assert s == [s[0]] + s[1..];
      Insert(s[0], Sort(s[1..], key), key)
  }

  lemma {:induction false} InsertSorts<T(!new)>(x: T, s: seq<T>, key: T -> string)
    requires SortedBy(s, key) && forall i :: 0 <= i < |s| ==> key(s[i]) != key(x)
    ensures SortedBy(Insert(x, s, key), key)
  {
    if s != [] {
      LessIsTotal(key(x), key(s[0]));
      if Less(key(x), key(s[0])) {
        forall i | 0 <= i < |s| ensures Less(key(x), key(s[i])) {
          if i > 0 { LessIsTransitive(key(x), key(s[0]), key(s[i])); }
        }
      } else {
        InsertSorts(x, s[1..], key);
        var r := Insert(x, s[1..], key);
        forall i | 0 <= i < |r| ensures Less(key(s[0]), key(r[i])) {
          assert r[i] in multiset(r);
          assert r[i] == x || r[i] in multiset(s[1..]);
          if r[i] != x {
            var j :| 0 <= j < |s[1..]| && s[1..][j] == r[i];
            assert s[1..][j] == s[j + 1];
          }
        }
      }
    }
  }

  lemma {:induction false} SortSorts<T(!new)>(s: seq<T>, key: T -> string)
    requires KeysDiffer(s, key)
    ensures SortedBy(Sort(s, key), key)
  {
    if s != [] {
      SortSorts(s[1..], key);
      var r := Sort(s[1..], key);
      forall i | 0 <= i < |r| ensures key(r[i]) != key(s[0]) {
        assert r[i] in multiset(s[1..]);
        var j :| 0 <= j < |s[1..]| && s[1..][j] == r[i];
        assert s[1..][j] == s[j + 1];
      }
      InsertSorts(s[0], r, key);
    }
  }

  lemma SortKeepsMembers<T>(s: seq<T>, key: T -> string, x: T)
    ensures x in Sort(s, key) <==> x in s
  {
    assert x in Sort(s, key) <==> x in multiset(Sort(s, key));
    assert x in s <==> x in multiset(s);
  }

  /** A sorted sequence is its own sort. */
  lemma {:induction false} SortedIsSort<T(!new)>(s: seq<T>, key: T -> string)
    requires SortedBy(s, key)
    ensures Sort(s, key) == s
  {
    if s != [] {
      SortedIsSort(s[1..], key);
      if |s| > 1 {
        assert s[1..][0] == s[1];
        LessIsTotal(key(s[0]), key(s[1]));
      }
      assert s == [s[0]] + s[1..];
    }
  }

  // ----- Numerals -----

  function Digit(d: nat): (c: char)
    requires d < 10
    ensures '0' <= c <= '9'
  {
    '0' + d as char
  }

  function Itoa(n: nat): (s: string)
    ensures s != "" && forall i :: 0 <= i < |s| ==> '0' <= s[i] <= '9'
  {
    if n < 10 then [Digit(n)] else Itoa(n / 10) + [Digit(n % 10)]
  }

  lemma {:induction false} ItoaIsInjective(a: nat, b: nat)
    requires Itoa(a) == Itoa(b)
    ensures a == b
  {
    assert Itoa(a)[|Itoa(a)| - 1] == Digit(a % 10);
    assert Itoa(b)[|Itoa(b)| - 1] == Digit(b % 10);
    if a >= 10 && b >= 10 {
      assert Itoa(a / 10) == Itoa(a)[..|Itoa(a)| - 1] && Itoa(b / 10) == Itoa(b)[..|Itoa(b)| - 1];
      ItoaIsInjective(a / 10, b / 10);
    }
  }

  lemma MarkPosition(s: string, p: string, x: string, m: char)
    requires s == p + [m] + x && m !in x
    ensures s[|p|] == m && s[..|p|] == p && s[|p| + 1..] == x
    ensures forall i :: |p| < i < |s| ==> s[i] != m
  {
    forall i | |p| < i < |s| ensures s[i] != m { assert s[i] == x[i - |p| - 1]; }
  }

  /** A string is cut at its last mark in one way. */
  lemma OneLastMark(p: string, x: string, q: string, y: string, m: char)
    requires p + [m] + x == q + [m] + y && m !in x && m !in y
    ensures p == q && x == y
  {
    var s := p + [m] + x;
    MarkPosition(s, p, x, m);
    MarkPosition(s, q, y, m);
  }

  /** Or at its first. */
  lemma OneFirstMark(p: string, x: string, q: string, y: string, m: char)
    requires p + [m] + x == q + [m] + y && m !in p && m !in q
    ensures p == q && x == y
  {
    var s := p + [m] + x;
    assert s[|p|] == m && s[|q|] == m;
    assert |p| == |q|;
    assert s[..|p|] == p && s[..|q|] == q && s[|p| + 1..] == x && s[|q| + 1..] == y;
  }
}
