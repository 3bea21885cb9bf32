/**
 * The equation viewer of `psymple/visualization/equation_viewer.py`:
 * options that say which symbols and assignment types may be substituted,
 * the bounded and cycle-guarded substitution of assignments into
 * expressions, the memoised dependency analysis, the split of assignments
 * into variables and parameters, and the invention of readable symbols.
 * Formatting (text, LaTeX, HTML, Markdown) is not modelled.
 */
module EquationViewers {
  import opened Wrappers
  import opened Values
  import opened Expressions
  import opened Text
  import opened Assignments

  datatype SubstitutionMode = NoSubstitution | Shallow | Deep | Selective

  /** The Python class of an assignment, as `type(assignment)` reports it. */
  datatype AssignmentType = DifferentialType | ParameterType | DefaultParameterType | FunctionalType

  function TypeOf(a: Assignment): (r: AssignmentType)
    ensures r.DifferentialType? <==> a.Differential?
    ensures r.ParameterType? <==> a.Parameter? && a.tag.PlainParameter?
    ensures r.DefaultParameterType? <==> a.Parameter? && a.tag.DefaultParameter?
    ensures r.FunctionalType? <==> a.Parameter? && a.tag.FunctionalParameter?
  {
    match a
    case Differential(_, _) => DifferentialType
    case Parameter(PlainParameter, _, _, _) => ParameterType
    case Parameter(DefaultParameter, _, _, _) => DefaultParameterType
    case Parameter(FunctionalParameter, _, _, _) => FunctionalType
  }

  /** `SubstitutionOptions`: what may be substituted, how deep, and how symbols are renamed. */
  datatype SubstitutionOptions = SubstitutionOptions(
    mode: SubstitutionMode,
    maxDepth: int,
    substituteTypes: set<AssignmentType>,
    excludeTypes: set<AssignmentType>,
    substituteSymbols: set<string>,
    excludeSymbols: set<string>,
    symbolMapping: map<string, string>)
  {
    /**
     * `should_substitute_symbol(symbol)`: an excluded symbol is never
     * substituted; a non-empty include set admits only its members.
     */
    function ShouldSubstituteSymbol(s: string): (r: bool)
      ensures r <==> s !in excludeSymbols && (substituteSymbols == {} || s in substituteSymbols)
    {
      if excludeSymbols != {} && s in excludeSymbols then false
      else if substituteSymbols != {} && s !in substituteSymbols then false
      else true
    }

    /** `should_substitute_type(obj_type)`: the same rule for assignment types. */
    function ShouldSubstituteType(t: AssignmentType): (r: bool)
      ensures r <==> t !in excludeTypes && (substituteTypes == {} || t in substituteTypes)
    {
      if excludeTypes != {} && t in excludeTypes then false
      else if substituteTypes != {} && t !in substituteTypes then false
      else true
    }
  }

  /** The default options: shallow substitution, depth at most 10, nothing excluded, no renaming. */
  const DefaultOptions: SubstitutionOptions := SubstitutionOptions(Shallow, 10, {}, {}, {}, {}, map[])

  // ---------------------------------------------------------------------
  // Substitution

  /**
   * `{a.symbol: a for a in assignments}`: the assignment of each name, a
   * later assignment of a name replacing an earlier one.
   */
  function AssignmentMap(assignments: seq<Assignment>): (r: map<string, Assignment>)
    ensures forall s :: s in r <==> s in AssignmentNameList(assignments)
    ensures forall s :: s in r ==> r[s] in assignments && r[s].Name() == s
  {
    if assignments == [] then map[]
    else
      var n := |assignments| - 1;
      assert AssignmentNameList(assignments) == AssignmentNameList(assignments[..n]) + [assignments[n].Name()];
      AssignmentMap(assignments[..n])[assignments[n].Name() := assignments[n]]
  }

  /** The assignment kept for a name is its last one. */
  lemma {:induction false} AssignmentMapLast(assignments: seq<Assignment>, i: nat)
    requires i < |assignments|
    requires forall j :: i < j < |assignments| ==> assignments[j].Name() != assignments[i].Name()
    ensures AssignmentMap(assignments)[assignments[i].Name()] == assignments[i]
  {
    var n := |assignments| - 1;
    if i < n {
      var front := assignments[..n];
      assert front[i] == assignments[i];
      assert forall j :: i < j < |front| ==> front[j] == assignments[j];
      AssignmentMapLast(front, i);
    }
  }

  /** `expr.subs(options.symbol_mapping)`: the renamings applied in the order of their keys' names. */
  function Mapped(e: Expr, o: SubstitutionOptions): Expr
  {
    SubsDict(e, RenameMap(o.symbolMapping))
  }

  /** The symbols of `e` that get replaced: not on the visited path, allowed, and with an allowed assignment. */
  function Eligible(amap: map<string, Assignment>, e: Expr, o: SubstitutionOptions, visited: set<string>): (r: set<string>)
    ensures forall s :: s in r ==> s in amap && s !in visited && s in FreeSymbols(e)
  {
    set s | s in FreeSymbols(e) && s !in visited && o.ShouldSubstituteSymbol(s) && s in amap
                                && o.ShouldSubstituteType(TypeOf(amap[s]))
  }

  /** Marking one more assignment as visited leaves fewer unvisited ones. */
  lemma FewerUnvisited(keys: set<string>, before: set<string>, after: set<string>, s: string)
    requires s in keys && s !in before && before + {s} <= after
    ensures |keys - after| < |keys - before|
  {
    assert keys - after <= (keys - before) - {s};
    SubsetSize(keys - after, (keys - before) - {s});
    assert |(keys - before) - {s}| == |keys - before| - 1;
  }

  lemma {:induction false} SubsetSize(a: set<string>, b: set<string>)
    requires a <= b
    ensures |a| <= |b|
    decreases |b|
  {
    if a != {} {
      var x :| x in a;
      SubsetSize(a - {x}, b - {x});
    }
  }

  /**
   * `_substitute_expression(expr, options, depth, visited)`: past the
   * depth limit, or below the top level in shallow mode, the expression is
   * returned as it is; otherwise the symbol mapping is applied and every
   * eligible symbol is replaced by its assignment's expression, itself
   * substituted one level deeper with the symbol added to the path. The
   * replacements form one dictionary, applied key after key in name order.
   */
  function SubstituteExpression(amap: map<string, Assignment>, e: Expr, o: SubstitutionOptions, depth: int,
                                visited: set<string>): (r: Expr)
    ensures depth >= o.maxDepth ==> r == e
    ensures o.mode.Shallow? && depth > 0 ==> r == e
    decreases |amap.Keys - visited|, 1
  {
    if depth >= o.maxDepth then e
    else if o.mode.Shallow? && depth > 0 then e
    else SubsDict(Mapped(e, o), Substitutions(amap, Mapped(e, o), o, depth, visited))
  }

  /** The replacement of each eligible symbol of `e`. */
  function Substitutions(amap: map<string, Assignment>, e: Expr, o: SubstitutionOptions, depth: int,
                         visited: set<string>): (r: map<string, Expr>)
    ensures r.Keys == Eligible(amap, e, o, visited)
    decreases |amap.Keys - visited|, 0
  {
    var eligible := Eligible(amap, e, o, visited);
    map s | s in eligible ::
      assert s in amap && s !in visited;
      FewerUnvisited(amap.Keys, visited, visited + {s}, s);
      SubstituteExpression(amap, amap[s].expression, o, depth + 1, visited + {s})
  }

  /** Each eligible symbol with its assignment's expression as written. */
  function Unexpanded(amap: map<string, Assignment>, e: Expr, o: SubstitutionOptions, visited: set<string>)
    : (r: map<string, Expr>)
    ensures r.Keys == Eligible(amap, e, o, visited)
    ensures forall s :: s in r ==> r[s] == amap[s].expression
  {
    map s | s in Eligible(amap, e, o, visited) :: amap[s].expression
  }

  /**
   * In shallow mode each eligible symbol is replaced by its assignment's
   * expression exactly as written, key after key in name order: one level
   * of substitution, in which an eligible symbol that an earlier expression
   * brings in is replaced as well.
   */
  lemma ShallowSubstitutesOnce(amap: map<string, Assignment>, e: Expr, o: SubstitutionOptions, visited: set<string>)
    requires o.mode.Shallow? && 0 < o.maxDepth
    ensures SubstituteExpression(amap, e, o, 0, visited)
         == SubsDict(Mapped(e, o), Unexpanded(amap, Mapped(e, o), o, visited))
  {
    var mapped := Mapped(e, o);
    assert Substitutions(amap, mapped, o, 0, visited) == Unexpanded(amap, mapped, o, visited);
  }

  /**
   * With `a = b + 1` and `b = c`, shallow substitution turns `a + b` into
   * `(c + 1) + c`: the `b` that `a` brings in is replaced too.
   */
  lemma ShallowChains()
    ensures var a := Parameter(PlainParameter, "a", Add(Sym("b"), Num(1.0)), Add(Sym("b"), Num(1.0)));
            var b := Parameter(PlainParameter, "b", Sym("c"), Sym("c"));
            SubstituteExpression(map["a" := a, "b" := b], Add(Sym("a"), Sym("b")), DefaultOptions, 0, {})
            == Add(Add(Sym("c"), Num(1.0)), Sym("c"))
  {
    var a := Parameter(PlainParameter, "a", Add(Sym("b"), Num(1.0)), Add(Sym("b"), Num(1.0)));
    var b := Parameter(PlainParameter, "b", Sym("c"), Sym("c"));
    var amap := map["a" := a, "b" := b];
    var e := Add(Sym("a"), Sym("b"));
    ChainsMapped(e);
    ShallowSubstitutesOnce(amap, e, DefaultOptions, {});
    ChainsEligible(a, b, e);
    ChainsOrder(map["a" := Add(Sym("b"), Num(1.0)), "b" := Sym("c")], e);
  }

  lemma ChainsMapped(e: Expr)
    ensures Mapped(e, DefaultOptions) == e
  {
    assert RenameMap(DefaultOptions.symbolMapping).Keys == {};
    assert SortedNames({}) == [];
  }

  lemma ChainsEligible(a: Assignment, b: Assignment, e: Expr)
    requires a == Parameter(PlainParameter, "a", Add(Sym("b"), Num(1.0)), Add(Sym("b"), Num(1.0)))
    requires b == Parameter(PlainParameter, "b", Sym("c"), Sym("c"))
    requires e == Add(Sym("a"), Sym("b"))
    ensures Unexpanded(map["a" := a, "b" := b], e, DefaultOptions, {})
         == map["a" := Add(Sym("b"), Num(1.0)), "b" := Sym("c")]
  {
    var o := DefaultOptions;
    var amap := map["a" := a, "b" := b];
    assert FreeSymbols(e) == {"a", "b"};
    assert o.ShouldSubstituteSymbol("a") && o.ShouldSubstituteSymbol("b");
    assert o.ShouldSubstituteType(TypeOf(a)) && o.ShouldSubstituteType(TypeOf(b));
    assert Eligible(amap, e, o, {}) == {"a", "b"};
  }

  lemma ChainsOrder(m: map<string, Expr>, e: Expr)
    requires m == map["a" := Add(Sym("b"), Num(1.0)), "b" := Sym("c")]
    requires e == Add(Sym("a"), Sym("b"))
    ensures SubsDict(e, m) == Add(Add(Sym("c"), Num(1.0)), Sym("c"))
  {
    SubsDictPair(e, "a", Add(Sym("b"), Num(1.0)), "b", Sym("c"));
  }

  /**
   * A symbol already on the visited path is never substituted again: if it
   * occurs in the expression and is not renamed, it still occurs afterwards.
   */
  lemma VisitedKept(amap: map<string, Assignment>, e: Expr, o: SubstitutionOptions, depth: int,
                    visited: set<string>, s: string)
    requires s in visited && s in FreeSymbols(e) && s !in o.symbolMapping
    ensures s in FreeSymbols(SubstituteExpression(amap, e, o, depth, visited))
  {
    if depth < o.maxDepth && !(o.mode.Shallow? && depth > 0) {
      var mapped := Mapped(e, o);
      SubsDictKeeps(e, RenameMap(o.symbolMapping), s);
      SubsDictKeeps(mapped, Substitutions(amap, mapped, o, depth, visited), s);
    }
  }

  /** Every assignment of a symbol in `S` uses only symbols of `S`. */
  ghost predicate Closed(amap: map<string, Assignment>, S: set<string>)
  {
    forall s :: s in S && s in amap ==> FreeSymbols(amap[s].expression) <= S
  }

  /** The renaming sends symbols of `S` into `S`. */
  predicate RenamesWithin(m: map<string, string>, S: set<string>)
  {
    forall s :: s in S && s in m ==> m[s] in S
  }

  /**
   * Substitution never brings in a symbol from outside a set that contains
   * the expression's symbols and is closed under the assignments and the
   * renaming: every symbol of the result is a dependency of the expression.
   */
  lemma {:induction false} SubstitutionStaysWithin(amap: map<string, Assignment>, e: Expr, o: SubstitutionOptions,
                                                   depth: int, visited: set<string>, S: set<string>)
    requires Closed(amap, S) && RenamesWithin(o.symbolMapping, S) && FreeSymbols(e) <= S
    ensures FreeSymbols(SubstituteExpression(amap, e, o, depth, visited)) <= S
    decreases |amap.Keys - visited|
  {
    if depth < o.maxDepth && !(o.mode.Shallow? && depth > 0) {
      var mapped := Mapped(e, o);
      SubsDictWithin(e, RenameMap(o.symbolMapping), S);
      var subs := Substitutions(amap, mapped, o, depth, visited);
      forall s | s in subs ensures FreeSymbols(subs[s]) <= S {
        FewerUnvisited(amap.Keys, visited, visited + {s}, s);
        SubstitutionStaysWithin(amap, amap[s].expression, o, depth + 1, visited + {s}, S);
      }
      SubsDictWithin(mapped, subs, S);
    }
  }

  /**
   * `substitute_assignment(assignment, options)`: in `NONE` mode the
   * assignment itself; otherwise a new assignment of the renamed symbol and
   * the substituted expression. A differential assignment stays
   * differential; every parameter assignment, whatever its subclass, is
   * rebuilt as a plain `ParameterAssignment`, which raises
   * `DependencyError` when the symbol occurs in its new expression.
   */
  function SubstituteAssignment(amap: map<string, Assignment>, a: Assignment, o: SubstitutionOptions)
    : (r: Result<Assignment>)
    ensures o.mode.NoSubstitution? ==> r == Ok(a)
    ensures !o.mode.NoSubstitution? ==>
              var name := if a.Name() in o.symbolMapping then o.symbolMapping[a.Name()] else a.Name();
              var e := SubstituteExpression(amap, a.expression, o, 0, {});
              (a.Differential? ==> r == Ok(Differential(name, e)))
              && (a.Parameter? ==> (r.Ok? <==> name !in FreeSymbols(e))
                                   && (r.Ok? ==> r.value == Parameter(PlainParameter, name, e, e))
                                   && (r.Err? ==> r.error == DependencyError))
  {
    if o.mode.NoSubstitution? then Ok(a)
    else
      var e := SubstituteExpression(amap, a.expression, o, 0, {});
      var name := if a.Name() in o.symbolMapping then o.symbolMapping[a.Name()] else a.Name();
      if a.Differential? then NewDifferential(name, RBasic(e))
      else NewParameter(PlainParameter, name, RBasic(e))
  }

  /** Substitution forgets the default and functional tags. */
  lemma SubstitutionDropsTags(amap: map<string, Assignment>, a: Assignment, o: SubstitutionOptions)
    requires !o.mode.NoSubstitution? && SubstituteAssignment(amap, a, o).Ok?
    ensures TypeOf(SubstituteAssignment(amap, a, o).value) == if a.Differential? then DifferentialType else ParameterType
  {
  }

  // ---------------------------------------------------------------------
  // Dependencies

  /**
   * Every recorded dependency of a symbol lies in each closed set that
   * contains the symbol: it is reachable from the symbol through the
   * assignments.
   */
  ghost predicate SoundDependencies(amap: map<string, Assignment>, d: map<string, set<string>>)
  {
    forall x, S :: x in d && Closed(amap, S) && x in S ==> d[x] <= S
  }

  /**
   * Every symbol of `V` that has an assignment and is not in `V0` has all the
   * symbols of that assignment in `D`.
   */
  ghost predicate ExpandedSince(amap: map<string, Assignment>, V: set<string>, V0: set<string>, D: set<string>)
  {
    forall g :: g in V && g !in V0 && g in amap ==> FreeSymbols(amap[g].expression) <= D
  }

  lemma ExpandedSinceJoin(amap: map<string, Assignment>, V0: set<string>, V1: set<string>, V2: set<string>,
                          D1: set<string>, D2: set<string>, D: set<string>)
    requires ExpandedSince(amap, V1, V0, D1) && ExpandedSince(amap, V2, V1, D2) && D1 <= D && D2 <= D
    ensures ExpandedSince(amap, V2, V0, D)
  {
  }

  lemma ExpandedSinceAdd(amap: map<string, Assignment>, V: set<string>, V0: set<string>, s: string, D: set<string>)
    requires ExpandedSince(amap, V, V0 + {s}, D)
    requires s in amap ==> FreeSymbols(amap[s].expression) <= D
    ensures ExpandedSince(amap, V, V0, D)
  {
  }

  /**
   * The dependencies recorded for `root` are complete: they hold the symbols
   * of the assignment of `root` and of each of its dependencies, so every
   * symbol reachable from `root` is among them.
   */
  ghost predicate CompleteFor(amap: map<string, Assignment>, d: map<string, set<string>>, root: string)
  {
    root in d && forall x :: (x == root || x in d[root]) && x in amap ==> FreeSymbols(amap[x].expression) <= d[root]
  }

  /**
   * A walk from `root` that expanded every symbol it visited, into the
   * dependencies of `root` and into the visited set itself, recorded for
   * `root` exactly the closure: the dependencies lie in the visited set (by
   * soundness) and are closed.
   */
  lemma WalkComplete(amap: map<string, Assignment>, visited: set<string>, d: map<string, set<string>>, root: string)
    requires root in visited && root in d
    requires ExpandedSince(amap, visited, {}, d[root]) && ExpandedSince(amap, visited, {}, visited)
    requires forall S :: Closed(amap, S) && root in S ==> d[root] <= S
    ensures CompleteFor(amap, d, root)
  {
    assert Closed(amap, visited);
    assert d[root] <= visited;
  }

  /** A chain of assignments from `root`: each symbol occurs in the assignment of the one before. */
  ghost predicate Chain(amap: map<string, Assignment>, path: seq<string>)
  {
    forall i :: 0 <= i < |path| - 1 ==> path[i] in amap && path[i + 1] in FreeSymbols(amap[path[i]].expression)
  }

  /** Complete dependencies hold the end of every chain of at least one step from `root`. */
  lemma {:induction false} ChainRecorded(amap: map<string, Assignment>, d: map<string, set<string>>, root: string, path: seq<string>, i: nat)
    requires CompleteFor(amap, d, root)
    requires |path| >= 2 && path[0] == root && Chain(amap, path) && 1 <= i < |path|
    ensures path[i] in d[root]
  {
    if i > 1 {
      ChainRecorded(amap, d, root, path, i - 1);
    }
  }

  /**
   * The state of one `get_dependencies` call: the symbols seen so far and
   * the dependencies recorded for them.
   */
  class DependencyWalk {
    const assignmentMap: map<string, Assignment>
    const maxDepth: Option<int>
    var visited: set<string>
    var dependencies: map<string, set<string>>

    constructor (assignmentMap: map<string, Assignment>, maxDepth: Option<int>)
      ensures this.assignmentMap == assignmentMap && this.maxDepth == maxDepth
      ensures visited == {} && dependencies == map[]
    {
      this.assignmentMap := assignmentMap;
      this.maxDepth := maxDepth;
      visited := {};
      dependencies := map[];
    }

    predicate WithinDepth(depth: int)
    {
      maxDepth.None? || depth < maxDepth.value
    }

    /**
     * `_analyze_dependencies(symbol, depth)`: nothing past the depth limit;
     * for a symbol seen before, what has been recorded for it (nothing while
     * it is still being analysed, on a cycle); otherwise the symbols of its
     * assignment together with their own dependencies, which are recorded.
     */
    method Analyze(symbol: string, depth: int) returns (deps: set<string>)
      modifies this
      requires SoundDependencies(assignmentMap, dependencies)
      ensures SoundDependencies(assignmentMap, dependencies)
      ensures old(visited) <= visited
      ensures forall S :: Closed(assignmentMap, S) && symbol in S ==> deps <= S
      ensures !WithinDepth(depth) ==> deps == {} && visited == old(visited) && dependencies == old(dependencies)
      ensures WithinDepth(depth) ==> symbol in visited
      ensures WithinDepth(depth) && symbol !in old(visited) ==> symbol in dependencies && dependencies[symbol] == deps
      ensures WithinDepth(depth) && symbol !in old(visited) && symbol in assignmentMap ==>
                FreeSymbols(assignmentMap[symbol].expression) <= deps
      ensures symbol in old(visited) ==> visited == old(visited)
      ensures ExpandedSince(assignmentMap, visited, old(visited), deps)
      ensures maxDepth.None? ==> ExpandedSince(assignmentMap, visited, old(visited), visited)
      decreases |assignmentMap.Keys - visited|, 1
    {
      if !WithinDepth(depth) {
        return {};
      }
      if symbol in visited {
        return if symbol in dependencies then dependencies[symbol] else {};
      }
      visited := visited + {symbol};
      deps := {};
      if symbol in assignmentMap {
        var expression := assignmentMap[symbol].expression;
        FewerUnvisited(assignmentMap.Keys, old(visited), visited, symbol);
        deps := AnalyzeEach(symbol, FreeList(expression), depth, FreeSymbols(expression));
        ExpandedSinceAdd(assignmentMap, visited, old(visited), symbol, deps);
        if maxDepth.None? {
          assert FreeSymbols(expression) <= visited;
          ExpandedSinceAdd(assignmentMap, visited, old(visited), symbol, visited);
        }
      }
      dependencies := dependencies[symbol := deps];
    }

    /**
     * The loop of `_analyze_dependencies` over the symbols of `symbol`'s
     * assignment: each one is analysed a level deeper and what it depends on
     * is added to `deps0`.
     */
    method AnalyzeEach(symbol: string, direct: seq<string>, depth: int, deps0: set<string>) returns (deps: set<string>)
      modifies this
      requires symbol in visited && symbol in assignmentMap
      requires forall k :: 0 <= k < |direct| ==> direct[k] in FreeSymbols(assignmentMap[symbol].expression)
      requires SoundDependencies(assignmentMap, dependencies)
      requires forall S :: Closed(assignmentMap, S) && symbol in S ==> deps0 <= S
      ensures SoundDependencies(assignmentMap, dependencies)
      ensures old(visited) <= visited
      ensures deps0 <= deps
      ensures forall S :: Closed(assignmentMap, S) && symbol in S ==> deps <= S
      ensures ExpandedSince(assignmentMap, visited, old(visited), deps)
      ensures maxDepth.None? ==> ExpandedSince(assignmentMap, visited, old(visited), visited)
      ensures maxDepth.None? ==> forall k :: 0 <= k < |direct| ==> direct[k] in visited
      decreases |assignmentMap.Keys - visited| + 1, 0
    {
      deps := deps0;
      var i := 0;
      while i < |direct|
        invariant 0 <= i <= |direct|
        invariant SoundDependencies(assignmentMap, dependencies)
        invariant old(visited) <= visited
        invariant deps0 <= deps
        invariant forall S :: Closed(assignmentMap, S) && symbol in S ==> deps <= S
        invariant ExpandedSince(assignmentMap, visited, old(visited), deps)
        invariant maxDepth.None? ==> ExpandedSince(assignmentMap, visited, old(visited), visited)
        invariant maxDepth.None? ==> forall k :: 0 <= k < i ==> direct[k] in visited
      {
        SubsetSize(assignmentMap.Keys - visited, assignmentMap.Keys - old(visited));
        ghost var before, depsBefore := visited, deps;
        var more := Analyze(direct[i], depth + 1);
        deps := deps + more;
        ExpandedSinceJoin(assignmentMap, old(visited), before, visited, depsBefore, more, deps);
        if maxDepth.None? {
          ExpandedSinceJoin(assignmentMap, old(visited), before, visited, before, visited, visited);
        }
        i := i + 1;
      }
    }
  }

  /** `EquationSubstitutor`: the assignments by name and a cache of dependency analyses. */
  class EquationSubstitutor {
    const assignments: seq<Assignment>
    const assignmentMap: map<string, Assignment>
    var dependencyCache: map<string, map<string, set<string>>>

    ghost predicate CacheSound()
      reads this
    {
      forall k :: k in dependencyCache ==> SoundDependencies(assignmentMap, dependencyCache[k])
    }

    constructor (assignments: seq<Assignment>)
      ensures this.assignments == assignments && assignmentMap == AssignmentMap(assignments)
      ensures dependencyCache == map[] && CacheSound()
    {
      this.assignments := assignments;
      assignmentMap := AssignmentMap(assignments);
      dependencyCache := map[];
    }

    /**
     * `get_dependencies(assignment, max_depth)`: a cached analysis of the
     * assignment's symbol is returned as it is (whatever depth it was made
     * with); otherwise the symbol is analysed from depth 0, the dependencies
     * of every symbol reached are returned and cached under the symbol.
     */
    method GetDependencies(a: Assignment, maxDepth: Option<int>) returns (r: map<string, set<string>>)
      modifies this
      requires CacheSound()
      ensures CacheSound()
      ensures SoundDependencies(assignmentMap, r)
      ensures a.Name() in old(dependencyCache) ==> r == old(dependencyCache)[a.Name()] && dependencyCache == old(dependencyCache)
      ensures a.Name() !in old(dependencyCache) ==> dependencyCache == old(dependencyCache)[a.Name() := r]
      ensures a.Name() !in old(dependencyCache) && (maxDepth.None? || 0 < maxDepth.value) ==>
                a.Name() in r && (a.Name() in assignmentMap ==> FreeSymbols(assignmentMap[a.Name()].expression) <= r[a.Name()])
      ensures a.Name() !in old(dependencyCache) && maxDepth.None? ==> CompleteFor(assignmentMap, r, a.Name())
    {
      var key := a.Name();
      if key in dependencyCache {
        return dependencyCache[key];
      }
      var walk := new DependencyWalk(assignmentMap, maxDepth);
      var deps := walk.Analyze(key, 0);
      r := walk.dependencies;
      if maxDepth.None? {
        WalkComplete(assignmentMap, walk.visited, r, key);
      }
      dependencyCache := dependencyCache[key := r];
    }
  }

  // ---------------------------------------------------------------------
  // The viewer

  /** The differential assignments, in order. */
  function VariableAssignments(assignments: seq<Assignment>): (r: seq<Assignment>)
    ensures forall a :: a in r <==> a in assignments && a.Differential?
  {
    if assignments == [] then []
    else
      var n := |assignments| - 1;
      assert assignments == assignments[..n] + [assignments[n]];
      VariableAssignments(assignments[..n]) + if assignments[n].Differential? then [assignments[n]] else []
  }

  /** All other assignments, in order. */
  function ParameterAssignments(assignments: seq<Assignment>): (r: seq<Assignment>)
    ensures forall a :: a in r <==> a in assignments && !a.Differential?
  {
    if assignments == [] then []
    else
      var n := |assignments| - 1;
      assert assignments == assignments[..n] + [assignments[n]];
      ParameterAssignments(assignments[..n]) + if assignments[n].Differential? then [] else [assignments[n]]
  }

  /** The two lists split the assignments: each one lands in exactly one of them, as often as it occurs. */
  lemma {:induction false} CategoriesPartition(assignments: seq<Assignment>)
    ensures multiset(VariableAssignments(assignments)) + multiset(ParameterAssignments(assignments)) == multiset(assignments)
  {
    if assignments != [] {
      var n := |assignments| - 1;
      var front, last := assignments[..n], assignments[n];
      CategoriesPartition(front);
      assert multiset(assignments) == multiset(front) + multiset{last} by {
        assert assignments == front + [last];
      }
      var vs := if last.Differential? then [last] else [];
      var ps := if last.Differential? then [] else [last];
      assert VariableAssignments(assignments) == VariableAssignments(front) + vs;
      assert ParameterAssignments(assignments) == ParameterAssignments(front) + ps;
      assert multiset(vs) + multiset(ps) == multiset{last};
    }
  }

  /**
   * The readable names of `symbols` added to `mapping`: a symbol already
   * mapped is skipped; a short one (at most three characters) is kept when
   * asked to; any other gets `{prefix}_{counter}` and the counter advances.
   */
  function Readable(symbols: seq<string>, prefix: string, keepShort: bool, mapping: map<string, string>, counter: nat)
    : (r: (map<string, string>, nat))
    ensures forall k :: k in r.0 <==> k in mapping || k in symbols
    ensures forall k :: k in mapping ==> r.0[k] == mapping[k]
    ensures counter <= r.1
    decreases |symbols|
  {
    if symbols == [] then (mapping, counter)
    else
      var s := symbols[0];
      assert forall k :: k in symbols <==> k == s || k in symbols[1..] by {
        assert symbols == [s] + symbols[1..];
      }
      if s in mapping then Readable(symbols[1..], prefix, keepShort, mapping, counter)
      else if keepShort && |s| <= 3 then Readable(symbols[1..], prefix, keepShort, mapping[s := s], counter)
      else Readable(symbols[1..], prefix, keepShort, mapping[s := Numbered(prefix, counter)], counter + 1)
  }

  /** A symbol that is renamed: new, and not kept for being short. */
  predicate Renamed(s: string, mapping: map<string, string>, keepShort: bool)
  {
    s !in mapping && !(keepShort && |s| <= 3)
  }

  /** A new short symbol keeps its name when asked to. */
  lemma {:induction false} ReadableKeepsShort(symbols: seq<string>, prefix: string, keepShort: bool,
                                              mapping: map<string, string>, counter: nat, s: string)
    requires s in symbols && s !in mapping && keepShort && |s| <= 3
    ensures Readable(symbols, prefix, keepShort, mapping, counter).0[s] == s
    decreases |symbols|
  {
    var s0 := symbols[0];
    if s0 != s {
      assert s in symbols[1..] by {
        assert symbols == [s0] + symbols[1..];
      }
      if s0 in mapping {
        ReadableKeepsShort(symbols[1..], prefix, keepShort, mapping, counter, s);
      } else if keepShort && |s0| <= 3 {
        ReadableKeepsShort(symbols[1..], prefix, keepShort, mapping[s0 := s0], counter, s);
      } else {
        ReadableKeepsShort(symbols[1..], prefix, keepShort, mapping[s0 := Numbered(prefix, counter)], counter + 1, s);
      }
    }
  }

  /** A renamed symbol gets a numbered name whose counter `k` lies in the range used. */
  lemma {:induction false} ReadableNumbers(symbols: seq<string>, prefix: string, keepShort: bool,
                                           mapping: map<string, string>, counter: nat, s: string) returns (k: nat)
    requires s in symbols && Renamed(s, mapping, keepShort)
    ensures var r := Readable(symbols, prefix, keepShort, mapping, counter);
            counter <= k < r.1 && r.0[s] == Numbered(prefix, k)
    decreases |symbols|
  {
    var s0 := symbols[0];
    var rest := symbols[1..];
    if s0 == s {
      k := counter;
      ReadableFirst(symbols, prefix, keepShort, mapping, counter);
    } else {
      assert s in rest by {
        assert symbols == [s0] + rest;
      }
      if s0 in mapping {
        k := ReadableNumbers(rest, prefix, keepShort, mapping, counter, s);
      } else if keepShort && |s0| <= 3 {
        k := ReadableNumbers(rest, prefix, keepShort, mapping[s0 := s0], counter, s);
      } else {
        k := ReadableNumbers(rest, prefix, keepShort, mapping[s0 := Numbered(prefix, counter)], counter + 1, s);
      }
    }
  }

  /** The first symbol, when renamed, takes the current counter. */
  lemma ReadableFirst(symbols: seq<string>, prefix: string, keepShort: bool, mapping: map<string, string>, counter: nat)
    requires symbols != [] && Renamed(symbols[0], mapping, keepShort)
    ensures var r := Readable(symbols, prefix, keepShort, mapping, counter);
            counter < r.1 && symbols[0] in r.0 && r.0[symbols[0]] == Numbered(prefix, counter)
  {
    var m' := mapping[symbols[0] := Numbered(prefix, counter)];
    assert Readable(symbols, prefix, keepShort, mapping, counter) == Readable(symbols[1..], prefix, keepShort, m', counter + 1);
  }

  /** Distinct renamed symbols get distinct names. */
  lemma {:induction false} ReadableDistinct(symbols: seq<string>, prefix: string, keepShort: bool,
                                            mapping: map<string, string>, counter: nat, a: string, b: string)
    requires a in symbols && b in symbols && a != b && Renamed(a, mapping, keepShort) && Renamed(b, mapping, keepShort)
    ensures var r := Readable(symbols, prefix, keepShort, mapping, counter).0; r[a] != r[b]
    decreases |symbols|
  {
    var s0 := symbols[0];
    var rest := symbols[1..];
    assert forall k :: k in symbols <==> k == s0 || k in rest by {
      assert symbols == [s0] + rest;
    }
    var r := Readable(symbols, prefix, keepShort, mapping, counter);
    if s0 == a || s0 == b {
      var first := if s0 == a then a else b;
      var other := if s0 == a then b else a;
      var m' := mapping[s0 := Numbered(prefix, counter)];
      var k := ReadableNumbers(rest, prefix, keepShort, m', counter + 1, other);
      if r.0[first] == r.0[other] {
        NumberedInjective(prefix, counter, k);
      }
    } else if s0 in mapping {
      ReadableDistinct(rest, prefix, keepShort, mapping, counter, a, b);
    } else if keepShort && |s0| <= 3 {
      ReadableDistinct(rest, prefix, keepShort, mapping[s0 := s0], counter, a, b);
    } else {
      ReadableDistinct(rest, prefix, keepShort, mapping[s0 := Numbered(prefix, counter)], counter + 1, a, b);
    }
  }

  /** Numbered names with different prefixes never coincide: the part after `{prefix}_` is all digits. */
  lemma NumberedPrefixesDiffer(p: string, q: string, i: nat, j: nat)
    requires p != q
    ensures Numbered(p, i) != Numbered(q, j)
  {
    var x, y := Numbered(p, i), Numbered(q, j);
    if |p| == |q| {
      assert x[..|p|] == p && y[..|q|] == q;
    } else if |p| < |q| && |x| == |y| {
      assert y[|q|] == '_';
      assert x[|q|] == NatToString(i)[|q| - |p| - 1];
    } else if |q| < |p| && |x| == |y| {
      assert x[|p|] == '_';
      assert y[|p|] == NatToString(j)[|p| - |q| - 1];
    }
  }

  /**
   * `create_readable_symbols(var_prefix, param_prefix, keep_short_names)`:
   * variables first, counting from 1, then parameters, counting from 1.
   */
  function ReadableSymbols(variables: seq<string>, parameters: seq<string>, varPrefix: string, paramPrefix: string,
                           keepShort: bool): map<string, string>
  {
    var forVariables := Readable(variables, varPrefix, keepShort, map[], 1).0;
    Readable(parameters, paramPrefix, keepShort, forVariables, 1).0
  }

  /**
   * Every symbol gets a readable name; a name used by a variable keeps the
   * variable's readable name; with distinct prefixes, any two renamed
   * symbols get distinct names.
   */
  lemma ReadableSymbolsProperties(variables: seq<string>, parameters: seq<string>, varPrefix: string,
                                  paramPrefix: string, keepShort: bool, a: string, b: string)
    requires varPrefix != paramPrefix
    ensures var m := ReadableSymbols(variables, parameters, varPrefix, paramPrefix, keepShort);
            forall k :: k in m <==> k in variables || k in parameters
    ensures var m := ReadableSymbols(variables, parameters, varPrefix, paramPrefix, keepShort);
            a in variables ==> m[a] == Readable(variables, varPrefix, keepShort, map[], 1).0[a]
    ensures var m := ReadableSymbols(variables, parameters, varPrefix, paramPrefix, keepShort);
            (a != b && (a in variables || a in parameters) && (b in variables || b in parameters)
             && !(keepShort && |a| <= 3) && !(keepShort && |b| <= 3)) ==> m[a] != m[b]
  {
    var mv := Readable(variables, varPrefix, keepShort, map[], 1);
    var mp := Readable(parameters, paramPrefix, keepShort, mv.0, 1);
    var m := mp.0;
    if a != b && (a in variables || a in parameters) && (b in variables || b in parameters)
       && !(keepShort && |a| <= 3) && !(keepShort && |b| <= 3) {
      if a in variables && b in variables {
        ReadableDistinct(variables, varPrefix, keepShort, map[], 1, a, b);
      } else if a !in variables && b !in variables {
        ReadableDistinct(parameters, paramPrefix, keepShort, mv.0, 1, a, b);
      } else {
        var v := if a in variables then a else b;
        var p := if a in variables then b else a;
        var i := ReadableNumbers(variables, varPrefix, keepShort, map[], 1, v);
        var j := ReadableNumbers(parameters, paramPrefix, keepShort, mv.0, 1, p);
        NumberedPrefixesDiffer(varPrefix, paramPrefix, i, j);
      }
    }
  }

  /**
   * An `EquationViewer`: the assignments, a substitutor over them, and the
   * assignments split into variables and parameters.
   */
  class EquationViewer {
    var assignments: seq<Assignment>
    var substitutor: EquationSubstitutor
    var variableAssignments: seq<Assignment>
    var parameterAssignments: seq<Assignment>

    ghost predicate Valid()
      reads this, substitutor
    {
      substitutor.assignmentMap == AssignmentMap(assignments) && substitutor.CacheSound()
      && variableAssignments == VariableAssignments(assignments)
      && parameterAssignments == ParameterAssignments(assignments)
    }

    /** `EquationViewer(assignments)`; no assignments stand for an empty list. */
    constructor (assignments: Option<seq<Assignment>>)
      ensures Valid() && fresh(substitutor)
      ensures this.assignments == if assignments.Some? then assignments.value else []
    {
      var given := if assignments.Some? then assignments.value else [];
      this.assignments := given;
      substitutor := new EquationSubstitutor(given);
      variableAssignments := [];
      parameterAssignments := [];
      new;
      CategorizeAssignments();
    }

    /** `_categorize_assignments()`: differential assignments are variables, all others parameters. */
    method CategorizeAssignments()
      modifies this
      ensures variableAssignments == VariableAssignments(assignments)
      ensures parameterAssignments == ParameterAssignments(assignments)
      ensures assignments == old(assignments) && substitutor == old(substitutor)
    {
      variableAssignments := [];
      parameterAssignments := [];
      var i := 0;
      while i < |assignments|
        invariant 0 <= i <= |assignments|
        invariant variableAssignments == VariableAssignments(assignments[..i])
        invariant parameterAssignments == ParameterAssignments(assignments[..i])
        invariant assignments == old(assignments) && substitutor == old(substitutor)
      {
        assert assignments[..i + 1][..i] == assignments[..i];
        if assignments[i].Differential? {
          variableAssignments := variableAssignments + [assignments[i]];
        } else {
          parameterAssignments := parameterAssignments + [assignments[i]];
        }
        i := i + 1;
      }
      assert assignments[..i] == assignments;
    }

    /** `add_assignments(assignments)`: the list grows, and the substitutor and the split are rebuilt. */
    method AddAssignments(more: seq<Assignment>)
      modifies this
      ensures assignments == old(assignments) + more
      ensures Valid() && fresh(substitutor) && substitutor.dependencyCache == map[]
    {
      assignments := assignments + more;
      substitutor := new EquationSubstitutor(assignments);
      CategorizeAssignments();
    }

    /**
     * `get_dependencies(assignment, symbol, max_depth)`: the assignment takes
     * precedence; a symbol is looked up among the assignments, and one with
     * no assignment has no dependencies; with neither, `ValueError`.
     */
    method GetDependencies(assignment: Option<Assignment>, symbol: Option<string>, maxDepth: Option<int>)
        returns (r: Result<map<string, set<string>>>)
      modifies substitutor
      requires Valid()
      ensures Valid()
      ensures r.Err? <==> assignment.None? && symbol.None?
      ensures r.Err? ==> r.error == ValueError
      ensures assignment.None? && symbol.Some? && symbol.value !in AssignmentNameList(assignments) ==>
                r == Ok(map[symbol.value := {}])
      ensures r.Ok? ==> SoundDependencies(substitutor.assignmentMap, r.value)
      ensures assignment.Some? && assignment.value.Name() !in old(substitutor.dependencyCache) && maxDepth.None? ==>
                CompleteFor(substitutor.assignmentMap, r.value, assignment.value.Name())
      ensures assignment.None? && symbol.Some? && symbol.value !in old(substitutor.dependencyCache) && maxDepth.None? ==>
                CompleteFor(substitutor.assignmentMap, r.value, symbol.value)
    {
      if assignment.Some? {
        var deps := substitutor.GetDependencies(assignment.value, maxDepth);
        return Ok(deps);
      }
      if symbol.None? {
        return Err(ValueError);
      }
      var found := FindAssignment(assignments, symbol.value);
      if found.Some? {
        var deps := substitutor.GetDependencies(found.value, maxDepth);
        return Ok(deps);
      }
      r := Ok(map[symbol.value := {}]);
    }

    /** `create_readable_symbols(var_prefix, param_prefix, keep_short_names)` */
    method CreateReadableSymbols(varPrefix: string, paramPrefix: string, keepShort: bool)
        returns (mapping: map<string, string>)
      ensures mapping == ReadableSymbols(AssignmentNameList(variableAssignments), AssignmentNameList(parameterAssignments),
                                         varPrefix, paramPrefix, keepShort)
    {
      mapping := AddReadable(AssignmentNameList(variableAssignments), varPrefix, keepShort, map[]);
      mapping := AddReadable(AssignmentNameList(parameterAssignments), paramPrefix, keepShort, mapping);
    }
  }

  /** The first assignment of a symbol, as the search loop of `get_dependencies` finds it. */
  method FindAssignment(assignments: seq<Assignment>, symbol: string) returns (r: Option<Assignment>)
    ensures r.None? <==> symbol !in AssignmentNameList(assignments)
    ensures r.Some? ==> exists i :: 0 <= i < |assignments| && r.value == assignments[i] && symbol == assignments[i].Name()
                                   && symbol !in AssignmentNameList(assignments[..i])
  {
    var names := AssignmentNameList(assignments);
    var i := 0;
    while i < |assignments|
      invariant 0 <= i <= |assignments|
      invariant symbol !in names[..i]
    {
      if assignments[i].Name() == symbol {
        assert AssignmentNameList(assignments[..i]) == names[..i];
        return Some(assignments[i]);
      }
      assert names[..i + 1] == names[..i] + [names[i]];
      i := i + 1;
    }
    assert names[..i] == names;
    r := None;
  }

  /** One loop of `create_readable_symbols`: its counter starts at 1. */
  method AddReadable(symbols: seq<string>, prefix: string, keepShort: bool, start: map<string, string>)
      returns (mapping: map<string, string>)
    ensures mapping == Readable(symbols, prefix, keepShort, start, 1).0
  {
    mapping := start;
    var counter := 1;
    var i := 0;
    while i < |symbols|
      invariant 0 <= i <= |symbols| && 1 <= counter
      invariant Readable(symbols, prefix, keepShort, start, 1) == Readable(symbols[i..], prefix, keepShort, mapping, counter)
    {
      assert symbols[i..][0] == symbols[i] && symbols[i..][1..] == symbols[i + 1..];
      var s := symbols[i];
      if s !in mapping {
        if keepShort && |s| <= 3 {
          mapping := mapping[s := s];
        } else {
          mapping := mapping[s := Numbered(prefix, counter)];
          counter := counter + 1;
        }
      }
      i := i + 1;
    }
  }
}
