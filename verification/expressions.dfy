/**
 * Symbolic expressions, standing in for the sympy objects psymple stores in
 * its assignments. Only what the compiler relies on is modelled: the free
 * symbols of an expression and the substitution of a symbol by an
 * expression (sympy's `free_symbols` and `subs`). Symbols are identified by
 * their name, as sympy symbols without assumptions are.
 */
module Expressions {
  import opened Text

  datatype Expr =
    | Sym(name: string)
    | Num(value: real)
    | Add(left: Expr, right: Expr)
    | Mul(left: Expr, right: Expr)
    | Pow(base: Expr, exponent: Expr)
    /** an applied function such as `exp(x)` */
    | Call(fn: string, arg: Expr)

  /** The time symbol `T` that assignments treat as global. */
  const TimeSymbol: string := "T"

  function FreeSymbols(e: Expr): set<string>
  {
    match e
    case Sym(n) => {n}
    case Num(_) => {}
    case Add(a, b) => FreeSymbols(a) + FreeSymbols(b)
    case Mul(a, b) => FreeSymbols(a) + FreeSymbols(b)
    case Pow(a, b) => FreeSymbols(a) + FreeSymbols(b)
    case Call(_, a) => FreeSymbols(a)
  }

  /** The symbols of an expression as they occur, left to right, with repetitions. */
  function Occurrences(e: Expr): (r: seq<string>)
    ensures forall n :: n in r <==> n in FreeSymbols(e)
  {
    match e
    case Sym(n) => [n]
    case Num(_) => []
    case Add(a, b) => Occurrences(a) + Occurrences(b)
    case Mul(a, b) => Occurrences(a) + Occurrences(b)
    case Pow(a, b) => Occurrences(a) + Occurrences(b)
    case Call(_, a) => Occurrences(a)
  }

  /** No element of the list occurs twice. */
  predicate NoRepeats(s: seq<string>)
  {
    forall i, j :: 0 <= i < j < |s| ==> s[i] != s[j]
  }

  /** The elements of `s` not in `seen`, each at its first occurrence. */
  function FirstOccurrences(s: seq<string>, seen: set<string>): (r: seq<string>)
    ensures forall n :: n in r <==> n in s && n !in seen
    ensures NoRepeats(r)
    decreases |s|
  {
    if s == [] then []
    else if s[0] in seen then FirstOccurrences(s[1..], seen)
    else [s[0]] + FirstOccurrences(s[1..], seen + {s[0]})
  }

  /** A list without repetitions has as many elements as the set of its elements. */
  lemma {:induction false} NoRepeatsCard(s: seq<string>)
    requires NoRepeats(s)
    ensures |set n | n in s| == |s|
  {
    if s != [] {
      NoRepeatsCard(s[1..]);
      assert (set n | n in s) == (set n | n in s[1..]) + {s[0]};
      assert s[0] !in s[1..];
    }
  }

  /**
   * The free symbols each once, in order of first occurrence from the left;
   * used where psymple iterates over the set of free symbols, whose order
   * Python leaves unspecified.
   */
  function FreeList(e: Expr): (r: seq<string>)
    ensures forall n :: n in r <==> n in FreeSymbols(e)
    ensures NoRepeats(r)
    ensures |r| == |FreeSymbols(e)|
  {
    var r := FirstOccurrences(Occurrences(e), {});
    NoRepeatsCard(r);
    assert (set n | n in r) == FreeSymbols(e);
    r
  }

  /** `e.subs(Symbol(x), v)`: every occurrence of the symbol `x` becomes `v`. */
  function Subst(e: Expr, x: string, v: Expr): Expr
  {
    match e
    case Sym(n) => if n == x then v else e
    case Num(_) => e
    case Add(a, b) => Add(Subst(a, x, v), Subst(b, x, v))
    case Mul(a, b) => Mul(Subst(a, x, v), Subst(b, x, v))
    case Pow(a, b) => Pow(Subst(a, x, v), Subst(b, x, v))
    case Call(f, a) => Call(f, Subst(a, x, v))
  }

  /** Substitution of one symbol by another, `e.subs(Symbol(x), Symbol(y))`. */
  function Rename(e: Expr, x: string, y: string): Expr
  {
    Subst(e, x, Sym(y))
  }

  /** Substituting a symbol that does not occur changes nothing. */
  lemma {:induction false} SubstAbsent(e: Expr, x: string, v: Expr)
    requires x !in FreeSymbols(e)
    ensures Subst(e, x, v) == e
  {
    match e
    case Sym(_) =>
    case Num(_) =>
    case Add(a, b) => SubstAbsent(a, x, v); SubstAbsent(b, x, v);
    case Mul(a, b) => SubstAbsent(a, x, v); SubstAbsent(b, x, v);
    case Pow(a, b) => SubstAbsent(a, x, v); SubstAbsent(b, x, v);
    case Call(_, a) => SubstAbsent(a, x, v);
  }

  /** The free symbols after a substitution: `x` is replaced by the symbols of `v`. */
  lemma {:induction false} SubstFreeSymbols(e: Expr, x: string, v: Expr)
    ensures FreeSymbols(Subst(e, x, v))
         == if x in FreeSymbols(e) then FreeSymbols(e) - {x} + FreeSymbols(v) else FreeSymbols(e)
  {
    match e
    case Sym(_) =>
    case Num(_) =>
    case Add(a, b) => SubstFreeSymbols(a, x, v); SubstFreeSymbols(b, x, v);
    case Mul(a, b) => SubstFreeSymbols(a, x, v); SubstFreeSymbols(b, x, v);
    case Pow(a, b) => SubstFreeSymbols(a, x, v); SubstFreeSymbols(b, x, v);
    case Call(_, a) => SubstFreeSymbols(a, x, v);
  }

  /** Renaming a symbol to itself is the identity. */
  lemma {:induction false} RenameSelf(e: Expr, x: string)
    ensures Rename(e, x, x) == e
  {
    match e
    case Sym(_) =>
    case Num(_) =>
    case Add(a, b) => RenameSelf(a, x); RenameSelf(b, x);
    case Mul(a, b) => RenameSelf(a, x); RenameSelf(b, x);
    case Pow(a, b) => RenameSelf(a, x); RenameSelf(b, x);
    case Call(_, a) => RenameSelf(a, x);
  }

  /** Renaming to a fresh symbol can be undone. */
  lemma {:induction false} RenameRoundTrip(e: Expr, x: string, y: string)
    requires y !in FreeSymbols(e)
    ensures Rename(Rename(e, x, y), y, x) == e
  {
    match e
    case Sym(_) =>
    case Num(_) =>
    case Add(a, b) => RenameRoundTrip(a, x, y); RenameRoundTrip(b, x, y);
    case Mul(a, b) => RenameRoundTrip(a, x, y); RenameRoundTrip(b, x, y);
    case Pow(a, b) => RenameRoundTrip(a, x, y); RenameRoundTrip(b, x, y);
    case Call(_, a) => RenameRoundTrip(a, x, y);
  }

  /** Two renamings through a fresh intermediate symbol compose into one. */
  lemma {:induction false} RenameCompose(e: Expr, x: string, y: string, z: string)
    requires y !in FreeSymbols(e)
    ensures Rename(Rename(e, x, y), y, z) == Rename(e, x, z)
  {
    match e
    case Sym(_) =>
    case Num(_) =>
    case Add(a, b) => RenameCompose(a, x, y, z); RenameCompose(b, x, y, z);
    case Mul(a, b) => RenameCompose(a, x, y, z); RenameCompose(b, x, y, z);
    case Pow(a, b) => RenameCompose(a, x, y, z); RenameCompose(b, x, y, z);
    case Call(_, a) => RenameCompose(a, x, y, z);
  }

  /**
   * Simultaneous substitution: every symbol that is a key of `m` is
   * replaced, all at once. sympy does this only when asked with
   * `simultaneous=True`, which psymple never does; it is the reference that
   * `SubsDict` is compared with.
   */
  function SubstAll(e: Expr, m: map<string, Expr>): Expr
  {
    match e
    case Sym(n) => if n in m then m[n] else e
    case Num(_) => e
    case Add(a, b) => Add(SubstAll(a, m), SubstAll(b, m))
    case Mul(a, b) => Mul(SubstAll(a, m), SubstAll(b, m))
    case Pow(a, b) => Pow(SubstAll(a, m), SubstAll(b, m))
    case Call(f, a) => Call(f, SubstAll(a, m))
  }

  /** A symbol is free after the substitution iff it survives it or some replaced symbol brings it in. */
  lemma {:induction false} SubstAllFreeSymbols(e: Expr, m: map<string, Expr>, n: string)
    ensures n in FreeSymbols(SubstAll(e, m))
        <==> (n in FreeSymbols(e) && n !in m)
             || (exists x :: x in FreeSymbols(e) && x in m && n in FreeSymbols(m[x]))
  {
    match e
    case Sym(_) =>
    case Num(_) =>
    case Add(a, b) => SubstAllFreeSymbols(a, m, n); SubstAllFreeSymbols(b, m, n);
    case Mul(a, b) => SubstAllFreeSymbols(a, m, n); SubstAllFreeSymbols(b, m, n);
    case Pow(a, b) => SubstAllFreeSymbols(a, m, n); SubstAllFreeSymbols(b, m, n);
    case Call(_, a) => SubstAllFreeSymbols(a, m, n);
  }

  /**
   * `e.subs(m)` for a dictionary `m` from symbols. sympy treats a dictionary
   * as unordered: it sorts the keys by name and substitutes them one after
   * the other, so a key brought in by the value of an earlier key is
   * replaced as well.
   */
  function SubsDict(e: Expr, m: map<string, Expr>): Expr
  {
    SubstEach(e, SortedNames(m.Keys), m)
  }

  /** The substitutions of `m` for `keys`, one after the other. */
  function SubstEach(e: Expr, keys: seq<string>, m: map<string, Expr>): Expr
    decreases |keys|
  {
    if keys == [] then e
    else if keys[0] in m then SubstEach(Subst(e, keys[0], m[keys[0]]), keys[1..], m)
    else SubstEach(e, keys[1..], m)
  }

  lemma {:induction false} SubstEachKeeps(e: Expr, keys: seq<string>, m: map<string, Expr>, n: string)
    requires n in FreeSymbols(e) && n !in keys
    ensures n in FreeSymbols(SubstEach(e, keys, m))
    decreases |keys|
  {
    if keys != [] {
      if keys[0] in m {
        SubstFreeSymbols(e, keys[0], m[keys[0]]);
        SubstEachKeeps(Subst(e, keys[0], m[keys[0]]), keys[1..], m, n);
      } else {
        SubstEachKeeps(e, keys[1..], m, n);
      }
    }
  }

  /** A symbol that is not a key survives the substitution. */
  lemma SubsDictKeeps(e: Expr, m: map<string, Expr>, n: string)
    requires n in FreeSymbols(e) && n !in m
    ensures n in FreeSymbols(SubsDict(e, m))
  {
    SubstEachKeeps(e, SortedNames(m.Keys), m, n);
  }

  lemma {:induction false} SubstEachWithin(e: Expr, keys: seq<string>, m: map<string, Expr>, S: set<string>)
    requires FreeSymbols(e) <= S
    requires forall k :: k in m && k in S ==> FreeSymbols(m[k]) <= S
    ensures FreeSymbols(SubstEach(e, keys, m)) <= S
    decreases |keys|
  {
    if keys != [] {
      if keys[0] in m {
        SubstFreeSymbols(e, keys[0], m[keys[0]]);
        SubstEachWithin(Subst(e, keys[0], m[keys[0]]), keys[1..], m, S);
      } else {
        SubstEachWithin(e, keys[1..], m, S);
      }
    }
  }

  /**
   * The substitution never leaves a set of symbols that holds those of the
   * expression and, for each of its keys in the set, those of the key's value.
   */
  lemma SubsDictWithin(e: Expr, m: map<string, Expr>, S: set<string>)
    requires FreeSymbols(e) <= S
    requires forall k :: k in m && k in S ==> FreeSymbols(m[k]) <= S
    ensures FreeSymbols(SubsDict(e, m)) <= S
  {
    SubstEachWithin(e, SortedNames(m.Keys), m, S);
  }

  lemma {:induction false} SubstEachAvoids(e: Expr, keys: seq<string>, m: map<string, Expr>, n: string)
    requires n !in FreeSymbols(e)
    requires forall k :: k in m ==> n !in FreeSymbols(m[k])
    ensures n !in FreeSymbols(SubstEach(e, keys, m))
    decreases |keys|
  {
    if keys != [] {
      if keys[0] in m {
        SubstFreeSymbols(e, keys[0], m[keys[0]]);
        SubstEachAvoids(Subst(e, keys[0], m[keys[0]]), keys[1..], m, n);
      } else {
        SubstEachAvoids(e, keys[1..], m, n);
      }
    }
  }

  lemma {:induction false} SubstEachRemoves(e: Expr, keys: seq<string>, m: map<string, Expr>, n: string)
    requires n in keys && n in m
    requires forall k :: k in m ==> n !in FreeSymbols(m[k])
    ensures n !in FreeSymbols(SubstEach(e, keys, m))
    decreases |keys|
  {
    if keys[0] == n {
      SubstFreeSymbols(e, n, m[n]);
      SubstEachAvoids(Subst(e, n, m[n]), keys[1..], m, n);
    } else if keys[0] in m {
      SubstEachRemoves(Subst(e, keys[0], m[keys[0]]), keys[1..], m, n);
    } else {
      SubstEachRemoves(e, keys[1..], m, n);
    }
  }

  /** A key that no value brings back is gone after the substitution. */
  lemma SubsDictRemoves(e: Expr, m: map<string, Expr>, n: string)
    requires n in m
    requires forall k :: k in m ==> n !in FreeSymbols(m[k])
    ensures n !in FreeSymbols(SubsDict(e, m))
  {
    SubstEachRemoves(e, SortedNames(m.Keys), m, n);
  }

  /** Each key that occurs in a value of `m` is mapped to itself. */
  ghost predicate Unchained(m: map<string, Expr>)
  {
    forall k, j :: k in m && j in m && j in FreeSymbols(m[k]) ==> m[j] == Sym(j)
  }

  /** The part of `m` whose keys are in `keys`. */
  function Restrict(m: map<string, Expr>, keys: seq<string>): map<string, Expr>
  {
    map k | k in m && k in keys :: m[k]
  }

  lemma {:induction false} SubstAllIdle(e: Expr, m: map<string, Expr>)
    requires forall j :: j in FreeSymbols(e) && j in m ==> m[j] == Sym(j)
    ensures SubstAll(e, m) == e
  {
    match e
    case Sym(_) =>
    case Num(_) =>
    case Add(a, b) => SubstAllIdle(a, m); SubstAllIdle(b, m);
    case Mul(a, b) => SubstAllIdle(a, m); SubstAllIdle(b, m);
    case Pow(a, b) => SubstAllIdle(a, m); SubstAllIdle(b, m);
    case Call(_, a) => SubstAllIdle(a, m);
  }

  lemma {:induction false} SubstThenAll(e: Expr, x: string, v: Expr, m: map<string, Expr>)
    requires SubstAll(v, m) == v
    ensures SubstAll(Subst(e, x, v), m) == SubstAll(e, m[x := v])
  {
    match e
    case Sym(_) =>
    case Num(_) =>
    case Add(a, b) => SubstThenAll(a, x, v, m); SubstThenAll(b, x, v, m);
    case Mul(a, b) => SubstThenAll(a, x, v, m); SubstThenAll(b, x, v, m);
    case Pow(a, b) => SubstThenAll(a, x, v, m); SubstThenAll(b, x, v, m);
    case Call(_, a) => SubstThenAll(a, x, v, m);
  }

  lemma {:induction false} SubstEachSimultaneous(e: Expr, keys: seq<string>, m: map<string, Expr>)
    requires Unchained(m)
    ensures SubstEach(e, keys, m) == SubstAll(e, Restrict(m, keys))
    decreases |keys|
  {
    if keys == [] {
      assert Restrict(m, keys) == map[];
      SubstAllIdle(e, map[]);
    } else {
      var k, rest := keys[0], keys[1..];
      assert forall j :: j in keys <==> j == k || j in rest;
      if k in m {
        var v := m[k];
        SubstEachSimultaneous(Subst(e, k, v), rest, m);
        SubstAllIdle(v, Restrict(m, rest));
        SubstThenAll(e, k, v, Restrict(m, rest));
        assert Restrict(m, rest)[k := v] == Restrict(m, keys);
      } else {
        SubstEachSimultaneous(e, rest, m);
        assert Restrict(m, rest) == Restrict(m, keys);
      }
    }
  }

  /**
   * When no value brings in a key that would be replaced by something else,
   * the order does not matter: `subs` with a dictionary is the simultaneous
   * substitution.
   */
  lemma SubsDictSimultaneous(e: Expr, m: map<string, Expr>)
    requires Unchained(m)
    ensures SubsDict(e, m) == SubstAll(e, m)
  {
    var order := SortedNames(m.Keys);
    SubstEachSimultaneous(e, order, m);
    RestrictAll(m, order);
  }

  lemma RestrictAll(m: map<string, Expr>, keys: seq<string>)
    requires forall k :: k in m ==> k in keys
    ensures Restrict(m, keys) == m
  {
  }

  /**
   * With `{x: y, y: z}` the `y` brought in for `x` is replaced as well:
   * `(x + y).subs({x: y, y: z})` is `z + z`, where the simultaneous
   * substitution gives `y + z`.
   */
  lemma SubsDictChains()
    ensures var m := map["x" := Sym("y"), "y" := Sym("z")];
            SubsDict(Add(Sym("x"), Sym("y")), m) == Add(Sym("z"), Sym("z"))
            && SubstAll(Add(Sym("x"), Sym("y")), m) == Add(Sym("y"), Sym("z"))
  {
    SubsDictPair(Add(Sym("x"), Sym("y")), "x", Sym("y"), "y", Sym("z"));
  }

  /** A dictionary of two symbols substitutes the one whose name comes first, then the other. */
  lemma SubsDictPair(e: Expr, x: string, v: Expr, y: string, w: Expr)
    requires !NameLe(y, x)
    ensures SubsDict(e, map[x := v, y := w]) == Subst(Subst(e, x, v), y, w)
  {
    var m := map[x := v, y := w];
    NameLeReflexive(x);
    assert x != y && m[x] == v && m[y] == w;
    assert m.Keys == {x, y};
    SortedPair(x, y);
    assert [x, y][1..] == [y] && [y][1..] == [];
    var e1 := Subst(e, x, v);
    assert SubstEach(e, [x, y], m) == SubstEach(e1, [y], m);
    assert SubstEach(e1, [y], m) == SubstEach(Subst(e1, y, w), [], m);
  }

  /** A renaming of symbols as a substitution. */
  function RenameMap(m: map<string, string>): map<string, Expr>
  {
    map k | k in m :: Sym(m[k])
  }

  /** The name a symbol ends with when the keys of a renaming are applied one after the other. */
  function RenameEach(s: string, keys: seq<string>, m: map<string, string>): string
    decreases |keys|
  {
    if keys == [] then s
    else RenameEach(if keys[0] in m && s == keys[0] then m[keys[0]] else s, keys[1..], m)
  }

  /** `Symbol(s).subs(m)` for a renaming `m`: its keys in name order. */
  function Renamed(s: string, m: map<string, string>): string
  {
    RenameEach(s, SortedNames(m.Keys), m)
  }

  /** `{s.subs(m) for s in symbols}`: the image of a set of symbols under a renaming. */
  function Image(symbols: set<string>, m: map<string, string>): set<string>
  {
    set s | s in symbols :: Renamed(s, m)
  }

  function ImageEach(symbols: set<string>, keys: seq<string>, m: map<string, string>): set<string>
  {
    set s | s in symbols :: RenameEach(s, keys, m)
  }

  /** Renaming by the first key, then by the rest, is renaming by all of them. */
  lemma ImageEachStep(F: set<string>, F': set<string>, keys: seq<string>, m: map<string, string>)
    requires keys != [] && keys[0] in m
    requires F' == set s | s in F :: if s == keys[0] then m[keys[0]] else s
    ensures ImageEach(F', keys[1..], m) == ImageEach(F, keys, m)
  {
    var k, rest := keys[0], keys[1..];
    var A, B := ImageEach(F', rest, m), ImageEach(F, keys, m);
    forall t | t in A ensures t in B {
      var s' :| s' in F' && t == RenameEach(s', rest, m);
      var s :| s in F && s' == (if s == k then m[k] else s);
      assert t == RenameEach(s, keys, m);
    }
    forall t | t in B ensures t in A {
      var s :| s in F && t == RenameEach(s, keys, m);
      var s' := if s == k then m[k] else s;
      assert s' in F';
    }
  }

  lemma {:induction false} RenameEachFreeSymbols(e: Expr, keys: seq<string>, m: map<string, string>)
    ensures FreeSymbols(SubstEach(e, keys, RenameMap(m))) == ImageEach(FreeSymbols(e), keys, m)
    decreases |keys|
  {
    var F := FreeSymbols(e);
    if keys == [] {
      assert ImageEach(F, keys, m) == F;
    } else {
      var k, rest := keys[0], keys[1..];
      if k in m {
        var e' := Subst(e, k, Sym(m[k]));
        SubstFreeSymbols(e, k, Sym(m[k]));
        RenameEachFreeSymbols(e', rest, m);
        ImageEachStep(F, FreeSymbols(e'), keys, m);
      } else {
        RenameEachFreeSymbols(e, rest, m);
        assert ImageEach(F, keys, m) == ImageEach(F, rest, m);
      }
    }
  }

  /** A renaming sends the free symbols of an expression to their image. */
  lemma RenameAllFreeSymbols(e: Expr, m: map<string, string>)
    ensures FreeSymbols(SubsDict(e, RenameMap(m))) == Image(FreeSymbols(e), m)
  {
    var keys := SortedNames(m.Keys);
    assert RenameMap(m).Keys == m.Keys;
    assert SubsDict(e, RenameMap(m)) == SubstEach(e, keys, RenameMap(m));
    RenameEachFreeSymbols(e, keys, m);
    assert ImageEach(FreeSymbols(e), keys, m) == Image(FreeSymbols(e), m);
  }

  /** Each key of `m` that is also a value is mapped to itself. */
  predicate RenamesOnce(m: map<string, string>)
  {
    forall k :: k in m && m[k] in m ==> m[m[k]] == m[k]
  }

  lemma {:induction false} RenameEachFixed(t: string, keys: seq<string>, m: map<string, string>)
    requires t !in m || m[t] == t
    ensures RenameEach(t, keys, m) == t
    decreases |keys|
  {
    if keys != [] {
      RenameEachFixed(t, keys[1..], m);
    }
  }

  lemma {:induction false} RenameEachOnce(s: string, keys: seq<string>, m: map<string, string>)
    requires RenamesOnce(m)
    ensures RenameEach(s, keys, m) == if s in keys && s in m then m[s] else s
    decreases |keys|
  {
    if keys != [] {
      if keys[0] == s && s in m {
        RenameEachFixed(m[s], keys[1..], m);
      } else {
        RenameEachOnce(s, keys[1..], m);
      }
    }
  }

  /** A renaming without chains renames each symbol by its own entry alone. */
  lemma RenamedOnce(s: string, m: map<string, string>)
    requires RenamesOnce(m)
    ensures Renamed(s, m) == if s in m then m[s] else s
  {
    RenameEachOnce(s, SortedNames(m.Keys), m);
  }

  /** `acc + e1 + e2 + ...`, summed left to right. */
  function SumOf(acc: Expr, es: seq<Expr>): Expr
    decreases |es|
  {
    if es == [] then acc else SumOf(Add(acc, es[0]), es[1..])
  }

  /** The symbols of a sum are those of its terms. */
  lemma {:induction false} SumOfFreeSymbols(acc: Expr, es: seq<Expr>)
    ensures forall s :: s in FreeSymbols(SumOf(acc, es)) <==>
      s in FreeSymbols(acc) || exists i :: 0 <= i < |es| && s in FreeSymbols(es[i])
    decreases |es|
  {
    if es != [] {
      SumOfFreeSymbols(Add(acc, es[0]), es[1..]);
      forall s ensures (exists i :: 0 <= i < |es| && s in FreeSymbols(es[i])) <==>
        s in FreeSymbols(es[0]) || exists i :: 0 <= i < |es[1..]| && s in FreeSymbols(es[1..][i])
      {
        if exists i :: 0 <= i < |es| && s in FreeSymbols(es[i]) {
          var i :| 0 <= i < |es| && s in FreeSymbols(es[i]);
          if i > 0 {
            assert es[1..][i - 1] == es[i];
          }
        }
        if exists i :: 0 <= i < |es[1..]| && s in FreeSymbols(es[1..][i]) {
          var i :| 0 <= i < |es[1..]| && s in FreeSymbols(es[1..][i]);
          assert es[1..][i] == es[i + 1];
        }
      }
    }
  }
}
