/**
 * The string formatting psymple relies on when it invents symbol names:
 * decimal rendering of a counter (`f"x_{i}"`) and `str.replace`; and the
 * order of names in which sympy substitutes the keys of a dictionary.
 */
module Text {

  function Digit(d: nat): (r: char)
    requires d < 10
    ensures '0' <= r <= '9'
  {
    "0123456789"[d]
  }

  /** `str(n)` for a natural number: decimal, no leading zeros */
  function NatToString(n: nat): (r: string)
    ensures |r| >= 1 && forall i :: 0 <= i < |r| ==> '0' <= r[i] <= '9'
    ensures n < 10 <==> |r| == 1
    decreases n
  {
    if n < 10 then [Digit(n)] else NatToString(n / 10) + [Digit(n % 10)]
  }

  lemma DigitInjective(a: nat, b: nat)
    requires a < 10 && b < 10 && Digit(a) == Digit(b)
    ensures a == b
  {
  }

  /** Distinct counters render as distinct strings. */
  lemma {:induction false} NatToStringInjective(a: nat, b: nat)
    requires NatToString(a) == NatToString(b)
    ensures a == b
    decreases a
  {
    if a >= 10 && b >= 10 {
      var sa := NatToString(a);
      assert sa[..|sa| - 1] == NatToString(a / 10);
      assert NatToString(b)[..|sa| - 1] == NatToString(b / 10);
      NatToStringInjective(a / 10, b / 10);
      DigitInjective(a % 10, b % 10);
    } else if a < 10 && b < 10 {
      DigitInjective(a, b);
    }
  }

  /** `prefix + "_" + str(n)` as in `f"{prefix}_{n}"` */
  function Numbered(prefix: string, n: nat): string
  {
    prefix + "_" + NatToString(n)
  }

  /** Numbered names with one prefix are distinct for distinct counters. */
  lemma NumberedInjective(prefix: string, a: nat, b: nat)
    requires Numbered(prefix, a) == Numbered(prefix, b)
    ensures a == b
  {
    var p := |prefix| + 1;
    assert NatToString(a) == Numbered(prefix, a)[p..];
    assert NatToString(b) == Numbered(prefix, b)[p..];
    NatToStringInjective(a, b);
  }

  /** `s.replace(old, new)` for single characters */
  function ReplaceChar(s: string, from: char, to: char): (r: string)
    ensures |r| == |s|
    ensures forall i :: 0 <= i < |s| ==> r[i] == if s[i] == from then to else s[i]
  {
    seq(|s|, i requires 0 <= i < |s| => if s[i] == from then to else s[i])
  }

  /**
   * Python's `a <= b` on `str`: code points compared left to right, a
   * prefix before every longer string.
   */
  predicate NameLe(a: string, b: string)
    decreases |a|
  {
    a == [] || (b != [] && (a[0] < b[0] || (a[0] == b[0] && NameLe(a[1..], b[1..]))))
  }

  lemma {:induction false} NameLeReflexive(a: string)
    ensures NameLe(a, a)
    decreases |a|
  {
    if a != [] {
      NameLeReflexive(a[1..]);
    }
  }

  lemma {:induction false} NameLeTotal(a: string, b: string)
    ensures NameLe(a, b) || NameLe(b, a)
    decreases |a|
  {
    if a != [] && b != [] && a[0] == b[0] {
      NameLeTotal(a[1..], b[1..]);
    }
  }

  lemma {:induction false} NameLeAntisymmetric(a: string, b: string)
    requires NameLe(a, b) && NameLe(b, a)
    ensures a == b
    decreases |a|
  {
    if a != [] {
      NameLeAntisymmetric(a[1..], b[1..]);
      assert a == [a[0]] + a[1..] && b == [b[0]] + b[1..];
    }
  }

  lemma {:induction false} NameLeTransitive(a: string, b: string, c: string)
    requires NameLe(a, b) && NameLe(b, c)
    ensures NameLe(a, c)
    decreases |a|
  {
    if a != [] && a[0] == b[0] && b[0] == c[0] {
      NameLeTransitive(a[1..], b[1..], c[1..]);
    }
  }

  /** Every non-empty finite set of names has a first one. */
  lemma {:induction false} LeastExists(s: set<string>)
    requires s != {}
    ensures exists r :: r in s && forall x :: x in s ==> NameLe(r, x)
    decreases |s|
  {
    var y :| y in s;
    if s == {y} {
      NameLeReflexive(y);
      assert forall x :: x in s ==> x == y;
    } else {
      LeastExists(s - {y});
      var r :| r in s - {y} && forall x :: x in s - {y} ==> NameLe(r, x);
      NameLeTotal(r, y);
      if !NameLe(r, y) {
        forall x | x in s ensures NameLe(y, x) {
          if x == y {
            NameLeReflexive(y);
          } else {
            NameLeTransitive(y, r, x);
          }
        }
      }
    }
  }

  /** `min(s)` for a set of names. */
  function Least(s: set<string>): (r: string)
    requires s != {}
    ensures r in s && forall x :: x in s ==> NameLe(r, x)
  {
    LeastExists(s);
    assert forall a, b :: NameLe(a, b) && NameLe(b, a) ==> a == b by {
      forall a, b | NameLe(a, b) && NameLe(b, a) ensures a == b {
        NameLeAntisymmetric(a, b);
      }
    }
    var r :| r in s && forall x :: x in s ==> NameLe(r, x);
    r
  }

  /** Each name of the list comes before every later one. */
  predicate Increasing(r: seq<string>)
  {
    forall i, j :: 0 <= i < j < |r| ==> NameLe(r[i], r[j]) && r[i] != r[j]
  }

  /**
   * `sorted(s)` for a set of names: each name once, in increasing order.
   * sympy substitutes the keys of a dictionary of symbols in this order.
   */
  function SortedNames(s: set<string>): (r: seq<string>)
    ensures forall n :: n in r <==> n in s
    ensures |r| == |s|
    ensures Increasing(r)
    decreases |s|
  {
    if s == {} then []
    else
      var k := Least(s);
      var rest := SortedNames(s - {k});
      LeastFirst(k, s, rest);
      [k] + rest
  }

  lemma LeastFirst(k: string, s: set<string>, rest: seq<string>)
    requires k in s && forall x :: x in s ==> NameLe(k, x)
    requires forall n :: n in rest <==> n in s - {k}
    requires Increasing(rest)
    ensures Increasing([k] + rest)
  {
    var r := [k] + rest;
    forall i, j | 0 <= i < j < |r| ensures NameLe(r[i], r[j]) && r[i] != r[j] {
      if i == 0 {
        assert r[j] == rest[j - 1] && rest[j - 1] in rest;
      } else {
        assert r[i] == rest[i - 1] && r[j] == rest[j - 1];
      }
    }
  }

  /** Two names are sorted by comparing them. */
  lemma SortedPair(x: string, y: string)
    requires !NameLe(y, x)
    ensures SortedNames({x, y}) == [x, y]
  {
    NameLeTotal(x, y);
    var r := SortedNames({x, y});
    assert x != y;
    assert |r| == 2;
    assert r[0] in {x, y} && r[1] in {x, y} && r[0] != r[1];
    assert r[0] == x;
  }
}
