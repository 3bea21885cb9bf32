/**
 * Hierarchical names. Ports of a child ported object are addressed from its
 * parent as `child.port`; psymple splits such an identifier at the first
 * separator (`str.split(".", 1)`) and joins parts with the separator.
 */
module Names {
  import opened Wrappers

  /** `HIERARCHY_SEPARATOR` */
  const Separator: char := '.'

  predicate HasSeparator(s: string)
  {
    Separator in s
  }

  /** `HIERARCHY_SEPARATOR.join([a, b])` */
  function Join(a: string, b: string): string
  {
    a + [Separator] + b
  }

  /**
   * `s.split(".", 1)`: `None` stands for the one-element result (no separator),
   * `Some((head, rest))` for the two-element result.
   */
  function SplitFirst(s: string): (r: Option<(string, string)>)
    ensures r.None? <==> !HasSeparator(s)
    ensures r.Some? ==> s == Join(r.value.0, r.value.1) && !HasSeparator(r.value.0)
  {
    if |s| == 0 then None
    else if s[0] == Separator then Some(([], s[1..]))
    else
      match SplitFirst(s[1..])
      case None => None
      case Some((head, rest)) =>
        assert s == [s[0]] + s[1..];
        Some(([s[0]] + head, rest))
  }

  /** Splitting a joined name whose first part has no separator gives the parts back. */
  lemma {:induction false} SplitJoin(a: string, b: string)
    requires !HasSeparator(a)
    ensures SplitFirst(Join(a, b)) == Some((a, b))
  {
    if a != [] {
      assert Join(a, b)[1..] == Join(a[1..], b);
      SplitJoin(a[1..], b);
      assert [a[0]] + a[1..] == a;
    } else {
      assert Join(a, b)[1..] == b;
    }
  }

  /** The names of `s` that satisfy `keep`, in order (a list comprehension with a condition). */
  function Filter(s: seq<string>, keep: string -> bool): (r: seq<string>)
    ensures forall x :: x in r <==> x in s && keep(x)
    ensures |r| <= |s|
  {
    if s == [] then []
    else if keep(s[0]) then [s[0]] + Filter(s[1..], keep)
    else Filter(s[1..], keep)
  }
}
