/**
 * The simulation-side containers and objects of `psymple/variables.py`:
 * symbol-keyed containers, variables, simulation variables and update
 * rules. An update rule is an equation together with the variables and
 * parameters it depends on.
 */
module SimVariables {
  import opened Wrappers
  import opened Expressions
  import opened Text
  import opened Dicts

  /** A key into a `Container`: a string, or a sympy symbol given by its name. */
  datatype Key = KeyStr(text: string) | KeySymbol(name: string)
  {
    /** the symbol the key denotes: a string `s` stands for `Symbol(s)` */
    function Symbol(): string
    {
      if KeyStr? then text else name
    }
  }

  /**
   * `Container.__getitem__`: a string key is looked up as the symbol of that
   * name; a missing key raises `KeyError`.
   */
  function ContainerGet<V>(c: Dict<V>, key: Key): (r: Result<V>)
    ensures r.Ok? <==> HasKey(c, key.Symbol())
    ensures r.Ok? ==> Get(c, key.Symbol()) == Some(r.value)
    ensures r.Err? ==> r.error == KeyError
  {
    match Get(c, key.Symbol())
    case Some(v) => Ok(v)
    case None => Err(KeyError)
  }

  /** A `Variable`: a symbol with an initial value and a description. */
  datatype Variable = Variable(symbol: string, initialValue: Option<real>, description: string)

  /** The letter `Variable.basic` puts in front of a name unless told otherwise. */
  const DefaultLetter: string := "x"

  /**
   * `Variable.basic(name, letter, initial_value, description)`: the symbol is
   * `f"{letter}_{name}"`, and a missing or empty description becomes
   * `f"{name} variable"`.
   */
  function Basic(name: string, letter: string, initialValue: Option<real>, description: Option<string>): (r: Variable)
    ensures |r.symbol| == |letter| + 1 + |name|
    ensures r.symbol[..|letter| + 1] == letter + "_" && r.symbol[|letter| + 1..] == name
    ensures r.initialValue == initialValue
    ensures description.Some? && description.value != "" ==> r.description == description.value
    ensures description.None? || description.value == "" ==> r.description == name + " variable"
  {
    var text := if description.Some? && description.value != "" then description.value else name + " variable";
    Variable(letter + "_" + name, initialValue, text)
  }

  /** Basic variables with the same letter and distinct names have distinct symbols. */
  lemma BasicInjective(a: string, b: string, letter: string, ia: Option<real>, ib: Option<real>,
                       da: Option<string>, db: Option<string>)
    requires Basic(a, letter, ia, da).symbol == Basic(b, letter, ib, db).symbol
    ensures a == b
  {
    var s := Basic(a, letter, ia, da).symbol;
    assert a == s[|letter| + 1..];
    assert b == s[|letter| + 1..];
  }

  /** A `SimVariable`: a variable with an update rule and a recorded time series. */
  class SimVariable {
    var symbol: string
    var initialValue: Option<real>
    var description: string
    var updateRule: UpdateRule?
    var timeSeries: seq<Option<real>>
    var buffer: Option<real>

    /** Nothing has been simulated: the series holds only the initial value. */
    predicate AtStart()
      reads this
    {
      timeSeries == [initialValue] && buffer == initialValue
    }

    /** `SimVariable(variable)` */
    constructor (v: Variable)
      ensures symbol == v.symbol && initialValue == v.initialValue && description == v.description
      ensures updateRule == null
      ensures AtStart()
    {
      symbol := v.symbol;
      initialValue := v.initialValue;
      description := v.description;
      updateRule := null;
      timeSeries := [v.initialValue];
      buffer := v.initialValue;
    }

    /** `set_update_rule(update_rule)` */
    method SetUpdateRule(rule: UpdateRule)
      modifies this
      ensures updateRule == rule
      ensures symbol == old(symbol) && initialValue == old(initialValue) && description == old(description)
      ensures timeSeries == old(timeSeries) && buffer == old(buffer)
      ensures old(AtStart()) ==> AtStart()
    {
      updateRule := rule;
    }
  }

  /**
   * `_initialize_dependencies(variables, parameters, warn)`: with `warn`, an
   * equation using a symbol outside `variables` and `parameters` raises
   * `DependencyError`; otherwise the dependencies are the equation's symbols
   * among the variables and among the parameters.
   */
  function Dependencies(equation: Expr, variables: set<string>, parameters: set<string>, warn: bool)
    : (r: Result<(set<string>, set<string>)>)
    ensures r.Err? <==> warn && !(FreeSymbols(equation) <= variables + parameters)
    ensures r.Err? ==> r.error == DependencyError
    ensures r.Ok? ==> r.value.0 <= variables && r.value.1 <= parameters
    ensures r.Ok? ==> forall s :: s in FreeSymbols(equation) * variables ==> s in r.value.0
    ensures r.Ok? ==> forall s :: s in FreeSymbols(equation) * parameters ==> s in r.value.1
    ensures r.Ok? ==> r.value.0 + r.value.1 <= FreeSymbols(equation)
    ensures r.Ok? && warn ==> r.value.0 + r.value.1 == FreeSymbols(equation)
  {
    var symbols := FreeSymbols(equation);
    if warn && !(symbols <= variables + parameters) then Err(DependencyError)
    else Ok((symbols * variables, symbols * parameters))
  }

  /** An `UpdateRule`: an equation and the variables and parameters it depends on. */
  class UpdateRule {
    var equation: Expr
    var variables: set<string>
    var parameters: set<string>
    var description: string

    /** The dependencies are exactly the symbols of the equation. */
    predicate Complete()
      reads this
    {
      FreeSymbols(equation) == variables + parameters
    }

    constructor (equation: Expr, description: string)
      ensures this.equation == equation && this.description == description
      ensures variables == {} && parameters == {}
    {
      this.equation := equation;
      this.description := description;
      variables := {};
      parameters := {};
    }

    /** `_initialize_dependencies`; on an error nothing is changed. */
    method InitializeDependencies(vars: set<string>, pars: set<string>, warn: bool) returns (r: Result<()>)
      modifies this
      ensures var d := Dependencies(old(equation), vars, pars, warn);
              (r.Ok? <==> d.Ok?) && (r.Err? ==> r.error == d.error)
      ensures equation == old(equation) && description == old(description)
      ensures r.Ok? ==> (variables, parameters) == Dependencies(equation, vars, pars, warn).value
      ensures r.Err? ==> variables == old(variables) && parameters == old(parameters)
      ensures r.Ok? && warn ==> Complete()
    {
      var d := Dependencies(equation, vars, pars, warn);
      if d.Err? {
        return Err(d.error);
      }
      variables, parameters := d.value.0, d.value.1;
      r := Ok(());
    }

    /**
     * `sub_symbols(vars_dict, pars_dict)`: the variables are renamed by
     * `vars_dict`, the parameters by `pars_dict`, and the equation by both,
     * `pars_dict` winning on a shared key. Each `subs` takes its dictionary's
     * keys one after the other in name order.
     */
    method SubSymbols(varsDict: map<string, string>, parsDict: map<string, string>)
      modifies this
      ensures variables == Image(old(variables), varsDict)
      ensures parameters == Image(old(parameters), parsDict)
      ensures equation == SubsDict(old(equation), RenameMap(varsDict + parsDict))
      ensures FreeSymbols(equation) == Image(FreeSymbols(old(equation)), varsDict + parsDict)
      ensures description == old(description)
      ensures old(Complete()) && varsDict.Keys !! old(parameters) && parsDict.Keys !! old(variables)
              && RenamesOnce(varsDict) && RenamesOnce(parsDict) && RenamesOnce(varsDict + parsDict)
              ==> Complete()
    {
      RenameAllFreeSymbols(equation, varsDict + parsDict);
      if Complete() && varsDict.Keys !! parameters && parsDict.Keys !! variables
         && RenamesOnce(varsDict) && RenamesOnce(parsDict) && RenamesOnce(varsDict + parsDict) {
        RenamingKeepsComplete(equation, variables, parameters, varsDict, parsDict);
      }
      variables := Image(variables, varsDict);
      parameters := Image(parameters, parsDict);
      equation := SubsDict(equation, RenameMap(varsDict + parsDict));
    }
  }

  /** An update rule built with `UpdateRule(equation, variables, parameters, description)`. */
  method NewUpdateRule(equation: Expr, vars: set<string>, pars: set<string>, description: string)
    returns (r: Result<UpdateRule>)
    ensures r.Ok? <==> FreeSymbols(equation) <= vars + pars
    ensures r.Err? ==> r.error == DependencyError
    ensures r.Ok? ==> fresh(r.value) && r.value.equation == equation && r.value.description == description
    ensures r.Ok? ==> r.value.variables == FreeSymbols(equation) * vars
    ensures r.Ok? ==> r.value.parameters == FreeSymbols(equation) * pars
    ensures r.Ok? ==> r.value.Complete()
  {
    var rule := new UpdateRule(equation, description);
    var init := rule.InitializeDependencies(vars, pars, true);
    if init.Err? {
      return Err(init.error);
    }
    r := Ok(rule);
  }

  /**
   * Renaming variables and parameters with keys that do not cross over, and
   * without chains, keeps the dependencies of an equation exactly its
   * symbols.
   */
  lemma RenamingKeepsComplete(equation: Expr, vars: set<string>, pars: set<string>,
                              varsDict: map<string, string>, parsDict: map<string, string>)
    requires FreeSymbols(equation) == vars + pars
    requires varsDict.Keys !! pars && parsDict.Keys !! vars
    requires RenamesOnce(varsDict) && RenamesOnce(parsDict) && RenamesOnce(varsDict + parsDict)
    ensures FreeSymbols(SubsDict(equation, RenameMap(varsDict + parsDict)))
         == Image(vars, varsDict) + Image(pars, parsDict)
  {
    var both := varsDict + parsDict;
    RenameAllFreeSymbols(equation, both);
    ImageUnion(vars, pars, both);
    forall x | x in vars ensures (x in both <==> x in varsDict) && (x in varsDict ==> both[x] == varsDict[x]) {
      assert x !in parsDict;
    }
    ImageAgrees(vars, both, varsDict);
    forall x | x in pars ensures (x in both <==> x in parsDict) && (x in parsDict ==> both[x] == parsDict[x]) {
      assert x !in varsDict;
    }
    ImageAgrees(pars, both, parsDict);
  }

  /**
   * A chain breaks this: with the variable `a`, the parameter `b`,
   * `vars_dict = {a: b}` and `pars_dict = {b: c}`, the equation `a + b`
   * becomes `c + c`, while the rule's variables become `{b}`.
   */
  lemma ChainedRenamingLosesVariable()
    ensures var equation := SubsDict(Add(Sym("a"), Sym("b")), RenameMap(map["a" := "b", "b" := "c"]));
            equation == Add(Sym("c"), Sym("c"))
            && Image({"a"}, map["a" := "b"]) == {"b"}
            && FreeSymbols(equation) != Image({"a"}, map["a" := "b"]) + Image({"b"}, map["b" := "c"])
  {
    ChainedEquation();
    SingleRenaming("a", "b");
    SingleRenaming("b", "c");
    assert "b" !in FreeSymbols(Add(Sym("c"), Sym("c")));
  }

  lemma ChainedEquation()
    ensures SubsDict(Add(Sym("a"), Sym("b")), RenameMap(map["a" := "b", "b" := "c"])) == Add(Sym("c"), Sym("c"))
  {
    assert RenameMap(map["a" := "b", "b" := "c"]) == map["a" := Sym("b"), "b" := Sym("c")];
    SubsDictPair(Add(Sym("a"), Sym("b")), "a", Sym("b"), "b", Sym("c"));
  }

  /** Renaming one symbol by a one-entry dictionary. */
  lemma SingleRenaming(x: string, y: string)
    ensures Image({x}, map[x := y]) == {y}
  {
    var m := map[x := y];
    assert m.Keys == {x};
    assert SortedNames({x}) == [x];
    assert RenameEach(x, [x], m) == RenameEach(y, [], m) == y;
    assert Renamed(x, m) == y;
  }

  lemma ImageUnion(a: set<string>, b: set<string>, m: map<string, string>)
    ensures Image(a + b, m) == Image(a, m) + Image(b, m)
  {
  }

  /** Two renamings without chains that agree on a set have the same image of it. */
  lemma ImageAgrees(s: set<string>, m: map<string, string>, m': map<string, string>)
    requires RenamesOnce(m) && RenamesOnce(m')
    requires forall x :: x in s ==> (x in m <==> x in m') && (x in m ==> m[x] == m'[x])
    ensures Image(s, m) == Image(s, m')
  {
    forall x | x in s ensures Renamed(x, m) == Renamed(x, m') {
      RenamedOnce(x, m);
      RenamedOnce(x, m');
    }
  }
}
