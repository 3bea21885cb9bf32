/**
 * Variables, parameters and update rules of the prototype models,
 * `models/variables.py`. An update rule gives the rate of change of one
 * variable by an equation in some variables and parameters; rules can be
 * checked for completeness, have their parameters substituted by their
 * computed values, and be combined into one rule per variable.
 */
module ModelVariables {
  import opened Wrappers
  import opened Expressions
  import ModelContainers

  /** A `Variable`: its symbol, its initial value (a list) and its description. */
  datatype Variable = Variable(symbol: string, initialValue: seq<Option<real>>, description: string)

  /**
   * A parameter of an update rule: its symbol, value and description, and the
   * `computed_value` a simulation gives it (`None` until then).
   */
  datatype Parameter = Parameter(symbol: string, value: Expr, description: string, computedValue: Option<Expr>)

  /** No element occurs twice. */
  predicate Distinct<T(==)>(s: seq<T>)
  {
    forall i, j :: 0 <= i < j < |s| ==> s[i] != s[j]
  }

  /** `f"{symbol_letter}_{symbol_name}"` */
  function BasicSymbol(symbolLetter: string, symbolName: string): string
  {
    symbolLetter + "_" + symbolName
  }

  /** Two basic symbols of one letter are equal only for equal names. */
  lemma BasicSymbolsDistinct(symbolLetter: string, a: string, b: string)
    requires a != b
    ensures BasicSymbol(symbolLetter, a) != BasicSymbol(symbolLetter, b)
  {
    var n := |symbolLetter + "_"|;
    if |a| == |b| {
      var k :| 0 <= k < |a| && a[k] != b[k];
      assert BasicSymbol(symbolLetter, a)[n + k] == a[k];
      assert BasicSymbol(symbolLetter, b)[n + k] == b[k];
    }
  }

  /** `description or f"{symbol_name} variable"`: an empty or missing description is replaced. */
  function VariableDescription(symbolName: string, description: Option<string>): (r: string)
    ensures description.Some? && description.value != "" ==> r == description.value
    ensures description.None? || description.value == "" ==> r == symbolName + " variable"
  {
    if description.Some? && description.value != "" then description.value else symbolName + " variable"
  }

  /**
   * `Variable.basic(symbol_name, symbol_letter, initial_value, description)`
   * as written: the initial value is `[initial_value] or [0]`, and as a
   * one-element list is truthy the fallback `[0]` is never taken, so a
   * missing initial value is stored as `[None]`.
   */
  function BasicAsWritten(symbolName: string, symbolLetter: string, initialValue: Option<real>, description: Option<string>): (r: Variable)
    ensures r.symbol == BasicSymbol(symbolLetter, symbolName)
    ensures r.initialValue == [initialValue]
    ensures initialValue.None? ==> r.initialValue != [Some(0.0)] && r.initialValue[0].None?
    ensures r.description == VariableDescription(symbolName, description)
  {
    Variable(BasicSymbol(symbolLetter, symbolName), [initialValue], VariableDescription(symbolName, description))
  }

  /**
   * `Variable.basic(...)` with the fallback applied to the value, as
   * `[initial_value or 0]`: a missing initial value becomes `[0]`, so a basic
   * variable always has a known initial value. The one-element list around
   * the value is kept as written; only the fallback is corrected.
   */
  function Basic(symbolName: string, symbolLetter: string, initialValue: Option<real>, description: Option<string>): (r: Variable)
    ensures r.symbol == BasicSymbol(symbolLetter, symbolName)
    ensures |r.initialValue| == 1 && r.initialValue[0].Some?
    ensures initialValue.Some? ==> r.initialValue == [initialValue]
    ensures initialValue.None? ==> r.initialValue == [Some(0.0)]
    ensures initialValue.Some? ==> r == BasicAsWritten(symbolName, symbolLetter, initialValue, description)
    ensures r.description == VariableDescription(symbolName, description)
  {
    var value := if initialValue.Some? then initialValue else Some(0.0);
    Variable(BasicSymbol(symbolLetter, symbolName), [value], VariableDescription(symbolName, description))
  }

  function SymbolOfVariable(v: Variable): string { v.symbol }

  function SymbolOfParameter(p: Parameter): string { p.symbol }

  function VariableSymbols(vs: seq<Variable>): set<string>
  {
    set v | v in vs :: v.symbol
  }

  function ParameterSymbols(ps: seq<Parameter>): set<string>
  {
    set p | p in ps :: p.symbol
  }

  /** The elements of `s` without repetitions, in order of first occurrence. */
  function Dedupe(s: seq<string>): (r: seq<string>)
    ensures forall x :: x in r <==> x in s
    ensures Distinct(r)
  {
    if s == [] then []
    else
      var rest := Dedupe(s[1..]);
      if s[0] in rest then rest else [s[0]] + rest
  }

  /** `x` is the first of `objects` with its symbol, the one `_objectify` returns for that symbol. */
  predicate IsFirst<T(==)>(objects: seq<T>, symbolOf: T -> string, x: T)
  {
    var f := ModelContainers.FirstWithSymbol(objects, symbolOf, symbolOf(x));
    f.Some? && objects[f.value] == x
  }

  /**
   * For each of the symbols `syms` that is the symbol of one of `objects`,
   * the first such object, in the order of `syms`.
   */
  function Dependencies<T(==)>(syms: seq<string>, objects: seq<T>, symbolOf: T -> string): (r: seq<T>)
    ensures forall i :: 0 <= i < |r| ==> IsFirst(objects, symbolOf, r[i]) && symbolOf(r[i]) in syms
    ensures Distinct(syms) ==> forall i, j :: 0 <= i < j < |r| ==> symbolOf(r[i]) != symbolOf(r[j])
    decreases |syms|
  {
    if syms == [] then []
    else
      var rest := Dependencies(syms[1..], objects, symbolOf);
      match ModelContainers.FirstWithSymbol(objects, symbolOf, syms[0])
      case None => rest
      case Some(k) => [objects[k]] + rest
  }

  /** The dependencies of `syms`: those of its first symbol, then those of the rest. */
  lemma DependenciesStep<T>(syms: seq<string>, objects: seq<T>, symbolOf: T -> string)
    requires syms != []
    ensures var f := ModelContainers.FirstWithSymbol(objects, symbolOf, syms[0]);
            Dependencies(syms, objects, symbolOf)
            == (if f.Some? then [objects[f.value]] else []) + Dependencies(syms[1..], objects, symbolOf)
  {
  }

  /** Every one of the symbols that some object has is the symbol of a dependency. */
  lemma {:induction false} DependenciesCover<T>(syms: seq<string>, objects: seq<T>, symbolOf: T -> string, k: nat)
    requires k < |objects| && symbolOf(objects[k]) in syms
    ensures exists i :: 0 <= i < |Dependencies(syms, objects, symbolOf)| && symbolOf(Dependencies(syms, objects, symbolOf)[i]) == symbolOf(objects[k])
    decreases |syms|
  {
    var r := Dependencies(syms, objects, symbolOf);
    var f := ModelContainers.FirstWithSymbol(objects, symbolOf, syms[0]);
    var front: seq<T> := if f.Some? then [objects[f.value]] else [];
    DependenciesStep(syms, objects, symbolOf);
    if symbolOf(objects[k]) == syms[0] {
      assert f.Some?;
      assert r[0] == objects[f.value];
    } else {
      assert symbolOf(objects[k]) in syms[1..];
      DependenciesCover(syms[1..], objects, symbolOf, k);
      var rest := Dependencies(syms[1..], objects, symbolOf);
      var j :| 0 <= j < |rest| && symbolOf(rest[j]) == symbolOf(objects[k]);
      assert r[|front| + j] == rest[j];
    }
  }

  /** `DependenciesCover` for every object at once */
  lemma DependenciesCoverAll<T>(syms: seq<string>, objects: seq<T>, symbolOf: T -> string)
    ensures forall k :: 0 <= k < |objects| && symbolOf(objects[k]) in syms ==>
      exists i :: 0 <= i < |Dependencies(syms, objects, symbolOf)| && symbolOf(Dependencies(syms, objects, symbolOf)[i]) == symbolOf(objects[k])
  {
    forall k | 0 <= k < |objects| && symbolOf(objects[k]) in syms
      ensures exists i :: 0 <= i < |Dependencies(syms, objects, symbolOf)| && symbolOf(Dependencies(syms, objects, symbolOf)[i]) == symbolOf(objects[k])
    {
      DependenciesCover(syms, objects, symbolOf, k);
    }
  }

  /**
   * `UpdateRule._get_dependencies(equation, variables, parameters)`: the
   * variables and the parameters whose symbols are free symbols of the
   * equation, one per symbol (the first with that symbol), in the order in
   * which the symbols first occur in the equation.
   */
  function GetDependencies(equation: Expr, variables: seq<Variable>, parameters: seq<Parameter>): (r: (seq<Variable>, seq<Parameter>))
    ensures forall i :: 0 <= i < |r.0| ==> IsFirst(variables, SymbolOfVariable, r.0[i]) && r.0[i].symbol in FreeSymbols(equation)
    ensures forall i :: 0 <= i < |r.1| ==> IsFirst(parameters, SymbolOfParameter, r.1[i]) && r.1[i].symbol in FreeSymbols(equation)
    ensures forall k :: 0 <= k < |variables| && variables[k].symbol in FreeSymbols(equation) ==>
      exists i :: 0 <= i < |r.0| && r.0[i].symbol == variables[k].symbol
    ensures forall k :: 0 <= k < |parameters| && parameters[k].symbol in FreeSymbols(equation) ==>
      exists i :: 0 <= i < |r.1| && r.1[i].symbol == parameters[k].symbol
    ensures forall i, j :: 0 <= i < j < |r.0| ==> r.0[i].symbol != r.0[j].symbol
    ensures forall i, j :: 0 <= i < j < |r.1| ==> r.1[i].symbol != r.1[j].symbol
  {
    var syms := Dedupe(FreeList(equation));
    DependenciesCoverAll(syms, variables, SymbolOfVariable);
    DependenciesCoverAll(syms, parameters, SymbolOfParameter);
    (Dependencies(syms, variables, SymbolOfVariable), Dependencies(syms, parameters, SymbolOfParameter))
  }

  /**
   * `equation.subs((p.symbol, p.computed_value) for p in parameters)`: the
   * pairs form an ordered list, so each parameter's symbol is replaced by its
   * computed value in turn. sympy skips a pair whose value it cannot
   * convert, so a parameter without a computed value stays in place.
   */
  function SubstParameters(e: Expr, ps: seq<Parameter>): Expr
    decreases |ps|
  {
    if ps == [] then e
    else
      var e1 := if ps[0].computedValue.Some? then Subst(e, ps[0].symbol, ps[0].computedValue.value) else e;
      SubstParameters(e1, ps[1..])
  }

  /** The symbols of the parameters that have a computed value */
  function SubstitutedSymbols(ps: seq<Parameter>): (r: set<string>)
    ensures forall s :: s in r <==> exists p :: p in ps && p.computedValue.Some? && p.symbol == s
    decreases |ps|
  {
    if ps == [] then {}
    else
      var rest := SubstitutedSymbols(ps[1..]);
      assert forall p :: p in ps <==> p == ps[0] || p in ps[1..];
      if ps[0].computedValue.Some? then {ps[0].symbol} + rest else rest
  }

  /** The symbols of the computed values */
  function ComputedSymbols(ps: seq<Parameter>): (r: set<string>)
    ensures forall p :: p in ps && p.computedValue.Some? ==> FreeSymbols(p.computedValue.value) <= r
    ensures forall s :: s in r ==> exists p :: p in ps && p.computedValue.Some? && s in FreeSymbols(p.computedValue.value)
    decreases |ps|
  {
    if ps == [] then {}
    else
      var rest := ComputedSymbols(ps[1..]);
      assert forall p :: p in ps <==> p == ps[0] || p in ps[1..];
      if ps[0].computedValue.Some? then FreeSymbols(ps[0].computedValue.value) + rest else rest
  }

  /**
   * After the substitution, the free symbols come from the equation, less the
   * substituted symbols, or from the computed values.
   */
  lemma {:induction false} SubstParametersFreeSymbols(e: Expr, ps: seq<Parameter>)
    ensures FreeSymbols(SubstParameters(e, ps)) <= FreeSymbols(e) - SubstitutedSymbols(ps) + ComputedSymbols(ps)
    decreases |ps|
  {
    if ps != [] {
      var e1 := if ps[0].computedValue.Some? then Subst(e, ps[0].symbol, ps[0].computedValue.value) else e;
      if ps[0].computedValue.Some? {
        SubstFreeSymbols(e, ps[0].symbol, ps[0].computedValue.value);
      }
      SubstParametersFreeSymbols(e1, ps[1..]);
    }
  }

  /** An update rule. Substituting its parameters changes its equation and parameters in place. */
  class UpdateRule {
    /** the variable whose rate of change the equation gives */
    const variable: Variable
    var equation: Expr
    const variables: seq<Variable>
    var parameters: seq<Parameter>
    const description: string
    /** whether `_equation_lambdified` holds a compiled equation */
    var lambdified: bool

    /** `UpdateRule(variable, equation, variables, parameters, description)`, with no compiled equation yet */
    constructor(variable: Variable, equation: Expr, variables: seq<Variable>, parameters: seq<Parameter>, description: string)
      ensures this.variable == variable && this.equation == equation
      ensures this.variables == variables && this.parameters == parameters
      ensures this.description == description && !lambdified
    {
      this.variable := variable;
      this.equation := equation;
      this.variables := variables;
      this.parameters := parameters;
      this.description := description;
      this.lambdified := false;
    }

    /**
     * `_check_equation_completeness()`: an `Exception` when the equation has
     * a free symbol that is neither a variable's nor a parameter's symbol.
     */
    function CheckEquationCompleteness(): (r: Result<()>)
      reads this
      ensures r.Ok? <==> forall s :: s in FreeSymbols(equation) ==> s in VariableSymbols(variables) || s in ParameterSymbols(parameters)
      ensures r.Err? ==> r.error == GeneralException
    {
      if FreeSymbols(equation) <= VariableSymbols(variables) + ParameterSymbols(parameters) then Ok(())
      else Err(GeneralException)
    }

    /**
     * `sub_parameters()`: each parameter's symbol in the equation is replaced
     * by its computed value, in order; the parameters become an empty list
     * and the compiled equation is dropped.
     */
    method SubParameters()
      modifies this
      ensures equation == SubstParameters(old(equation), old(parameters))
      ensures parameters == [] && !lambdified
    {
      equation := SubstParameters(equation, parameters);
      parameters := [];
      lambdified := false;
    }
  }

  /**
   * A rule built from the dependencies `_get_dependencies` finds is complete
   * exactly when every free symbol of its equation is a symbol of the given
   * variables or parameters.
   */
  lemma DependenciesComplete(rule: UpdateRule, variables: seq<Variable>, parameters: seq<Parameter>)
    requires (rule.variables, rule.parameters) == GetDependencies(rule.equation, variables, parameters)
    ensures rule.CheckEquationCompleteness().Ok? <==>
      FreeSymbols(rule.equation) <= VariableSymbols(variables) + ParameterSymbols(parameters)
  {
    var (vs, ps) := GetDependencies(rule.equation, variables, parameters);
    forall s | s in FreeSymbols(rule.equation) && s in VariableSymbols(variables) ensures s in VariableSymbols(vs) {
      var k :| 0 <= k < |variables| && variables[k].symbol == s;
      var i :| 0 <= i < |vs| && vs[i].symbol == s;
      assert vs[i] in vs;
    }
    forall s | s in FreeSymbols(rule.equation) && s in ParameterSymbols(parameters) ensures s in ParameterSymbols(ps) {
      var k :| 0 <= k < |parameters| && parameters[k].symbol == s;
      var i :| 0 <= i < |ps| && ps[i].symbol == s;
      assert ps[i] in ps;
    }
    forall s | s in VariableSymbols(vs) ensures s in VariableSymbols(variables) {
      var v :| v in vs && v.symbol == s;
    }
    forall s | s in ParameterSymbols(ps) ensures s in ParameterSymbols(parameters) {
      var p :| p in ps && p.symbol == s;
    }
  }

  /**
   * When every parameter has a computed value and no computed value uses a
   * parameter's symbol, substituting the parameters leaves none of their
   * symbols in the equation: the symbols left come from the equation or from
   * the computed values.
   */
  lemma SubParametersRemovesParameters(e: Expr, ps: seq<Parameter>)
    requires forall p :: p in ps ==> p.computedValue.Some?
    requires forall p, q :: p in ps && q in ps ==> p.symbol !in FreeSymbols(q.computedValue.value)
    ensures FreeSymbols(SubstParameters(e, ps)) !! ParameterSymbols(ps)
    ensures FreeSymbols(SubstParameters(e, ps)) <= FreeSymbols(e) - ParameterSymbols(ps) + ComputedSymbols(ps)
  {
    SubstParametersFreeSymbols(e, ps);
    assert ParameterSymbols(ps) <= SubstitutedSymbols(ps);
    forall s | s in ComputedSymbols(ps) ensures s !in ParameterSymbols(ps) {
      var q :| q in ps && q.computedValue.Some? && s in FreeSymbols(q.computedValue.value);
    }
  }

  /** The equations of the rules, in order */
  function Equations(rules: seq<UpdateRule>): (r: seq<Expr>)
    reads rules
    ensures |r| == |rules| && forall k :: 0 <= k < |rules| ==> r[k] == rules[k].equation
  {
    seq(|rules|, k requires 0 <= k < |rules| reads rules => rules[k].equation)
  }

  /**
   * `reduce(add, equations)`, or `0` when the list is empty and `reduce`
   * raises (the bare `except` of `_combine`).
   */
  function SumEquations(es: seq<Expr>): (r: Expr)
    ensures es == [] ==> r == Num(0.0)
    ensures forall s :: s in FreeSymbols(r) <==> exists k :: 0 <= k < |es| && s in FreeSymbols(es[k])
  {
    if es == [] then Num(0.0)
    else
      SumOfFreeSymbols(es[0], es[1..]);
      assert forall k :: 1 <= k < |es| ==> es[k] == es[1..][k - 1];
      SumOf(es[0], es[1..])
  }

  /** The variables of all the rules */
  function AllVariables(rules: seq<UpdateRule>): set<Variable>
    reads rules
  {
    set k, v | 0 <= k < |rules| && v in rules[k].variables :: v
  }

  /** The parameters of all the rules */
  function AllParameters(rules: seq<UpdateRule>): set<Parameter>
    reads rules
  {
    set k, p | 0 <= k < |rules| && p in rules[k].parameters :: p
  }

  /** `list(s)` of a set: each element once, in an order Python leaves unspecified. */
  method ListOfSet<T(==)>(s: set<T>) returns (r: seq<T>)
    ensures forall x :: x in r <==> x in s
    ensures Distinct(r) && |r| == |s|
  {
    r := [];
    var rest := s;
    while rest != {}
      invariant rest <= s
      invariant forall x :: x in r <==> x in s && x !in rest
      invariant Distinct(r) && |r| + |rest| == |s|
      decreases |rest|
    {
      var x :| x in rest;
      r := r + [x];
      rest := rest - {x};
    }
  }

  /** The combined rule's description */
  function CombinedDescription(variable: Variable): string
  {
    "Combined update rule for variable '" + variable.symbol + "'"
  }

  /**
   * `UpdateRules._combine(variable, update_rules)`: a new rule for the
   * variable whose equation is the sum of the rules' equations (0 for no
   * rules) and whose variables and parameters are those of all the rules,
   * each once.
   */
  method Combine(variable: Variable, rules: seq<UpdateRule>) returns (r: UpdateRule)
    ensures fresh(r)
    ensures r.variable == variable && r.equation == SumEquations(Equations(rules))
    ensures (forall v :: v in r.variables <==> v in AllVariables(rules)) && Distinct(r.variables)
    ensures (forall p :: p in r.parameters <==> p in AllParameters(rules)) && Distinct(r.parameters)
    ensures r.description == CombinedDescription(variable) && !r.lambdified
  {
    var vs := ListOfSet(AllVariables(rules));
    var ps := ListOfSet(AllParameters(rules));
    r := new UpdateRule(variable, SumEquations(Equations(rules)), vs, ps, CombinedDescription(variable));
  }

  /** `[u for u in self if u.variable == var]` */
  function RulesFor(rules: seq<UpdateRule>, v: Variable): (r: seq<UpdateRule>)
    reads rules
    ensures forall k :: 0 <= k < |r| ==> r[k] in rules && r[k].variable == v
    ensures forall k :: 0 <= k < |rules| && rules[k].variable == v ==> rules[k] in r
    decreases |rules|
  {
    if rules == [] then []
    else
      var rest := RulesFor(rules[1..], v);
      if rules[0].variable == v then [rules[0]] + rest else rest
  }

  /** `c` is the rule `_combine` builds for the variable `v` from the rules of `v` among `rules`. */
  ghost predicate CombinedFor(c: UpdateRule, rules: seq<UpdateRule>, v: Variable)
    reads c, rules
  {
    var group := RulesFor(rules, v);
    c.variable == v && c.equation == SumEquations(Equations(group)) &&
    (forall x :: x in c.variables <==> x in AllVariables(group)) &&
    (forall p :: p in c.parameters <==> p in AllParameters(group))
  }

  /** `self._combine(var, updates_for_var)` for one variable of `_combine_update_rules` */
  method CombineFor(rules: seq<UpdateRule>, v: Variable) returns (c: UpdateRule)
    ensures fresh(c) && CombinedFor(c, rules, v)
  {
    c := Combine(v, RulesFor(rules, v));
  }

  /**
   * `UpdateRules._combine_update_rules()`: one combined rule for each
   * distinct variable of the rules, combining the rules of that variable.
   */
  method CombineUpdateRules(rules: seq<UpdateRule>) returns (r: seq<UpdateRule>)
    ensures forall k :: 0 <= k < |r| ==> fresh(r[k]) && CombinedFor(r[k], rules, r[k].variable)
    ensures (set k | 0 <= k < |r| :: r[k].variable) == (set j | 0 <= j < |rules| :: rules[j].variable)
    ensures forall i, j :: 0 <= i < j < |r| ==> r[i].variable != r[j].variable
  {
    var vars := ListOfSet(set j | 0 <= j < |rules| :: rules[j].variable);
    r := [];
    var i := 0;
    while i < |vars|
      invariant 0 <= i <= |vars| && |r| == i
      invariant forall k :: 0 <= k < i ==> fresh(r[k])
      invariant forall k :: 0 <= k < i ==> r[k].variable == vars[k]
      invariant forall k :: 0 <= k < i ==> CombinedFor(r[k], rules, vars[k])
    {
      var c := CombineFor(rules, vars[i]);
      var r' := r + [c];
      assert forall k :: 0 <= k < i ==> r'[k] == r[k];
      r := r';
      i := i + 1;
    }
    RuleVariables(r, vars, set j | 0 <= j < |rules| :: rules[j].variable);
  }

  /** Rules whose variables are, one by one, those of a list of a set's elements have each element of the set once. */
  lemma RuleVariables(r: seq<UpdateRule>, vars: seq<Variable>, s: set<Variable>)
    requires |r| == |vars| && forall k :: 0 <= k < |r| ==> r[k].variable == vars[k]
    requires (forall x :: x in vars <==> x in s) && Distinct(vars)
    ensures (set k | 0 <= k < |r| :: r[k].variable) == s
    ensures forall i, j :: 0 <= i < j < |r| ==> r[i].variable != r[j].variable
  {
    assert forall x :: x in s ==> exists k :: 0 <= k < |vars| && vars[k] == x;
  }

  /**
   * The equation of a combined rule uses exactly the symbols of the
   * equations of the rules for its variable.
   */
  lemma CombinedEquationSymbols(rules: seq<UpdateRule>, v: Variable, s: string)
    ensures s in FreeSymbols(SumEquations(Equations(RulesFor(rules, v)))) <==>
      exists j :: 0 <= j < |rules| && rules[j].variable == v && s in FreeSymbols(rules[j].equation)
  {
    var group := RulesFor(rules, v);
    if exists j :: 0 <= j < |rules| && rules[j].variable == v && s in FreeSymbols(rules[j].equation) {
      var j :| 0 <= j < |rules| && rules[j].variable == v && s in FreeSymbols(rules[j].equation);
      var k :| 0 <= k < |group| && group[k] == rules[j];
      assert s in FreeSymbols(Equations(group)[k]);
    }
    if s in FreeSymbols(SumEquations(Equations(group))) {
      var k :| 0 <= k < |group| && s in FreeSymbols(Equations(group)[k]);
      var j :| 0 <= j < |rules| && rules[j] == group[k];
    }
  }
}
