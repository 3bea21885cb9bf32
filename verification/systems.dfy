/**
 * The system-level rules of `psymple/build/system.py`. A system holds a
 * ported object, the system parameters and utility functions expressions
 * may use, and after compilation the simulation variables and parameters.
 * Modelled here: checking function signatures, the namespace of callables,
 * classifying parameter assignments, ordering parameters by their
 * dependencies, inventing readable symbols, and the guards that refuse to
 * work on an uncompiled system.
 */
module Systems {
  import opened Wrappers
  import opened Values
  import opened Expressions
  import opened Names
  import opened Text
  import opened Dicts
  import opened Assignments
  import opened PortedObjects
  import opened CompiledObjects
  import opened SimVariables
  import opened Simulations
  import Compilation

  // ---------------------------------------------------------------------
  // Signatures of system parameters

  /**
   * `self.system_parameters.keys() | time_name`: a set united with a string
   * gains the string's characters, not the string.
   */
  function KnownArguments(keys: set<string>, timeName: string): (r: set<string>)
    ensures forall s :: s in r <==> s in keys || (|s| == 1 && s[0] in timeName)
  {
    var characters := set i | 0 <= i < |timeName| :: [timeName[i]];
    assert forall s :: s in characters <==> |s| == 1 && s[0] in timeName by {
      forall s | |s| == 1 && s[0] in timeName ensures s in characters {
        var i :| 0 <= i < |timeName| && timeName[i] == s[0];
        assert s == [timeName[i]];
      }
    }
    keys + characters
  }

  /**
   * `_check_are_system_parameters(*params)`: `SystemError` unless every
   * argument name is a system parameter or a character of the time name.
   */
  function CheckAreSystemParameters(params: seq<string>, keys: set<string>, timeName: string): (r: Result<()>)
    ensures r.Ok? <==> forall p :: p in params ==> p in keys || (|p| == 1 && p[0] in timeName)
    ensures r.Err? ==> r.error == SystemError
  {
    if forall p :: p in params ==> p in KnownArguments(keys, timeName) then Ok(()) else Err(SystemError)
  }

  /**
   * With a time name of one character, which is what a system always has
   * (it reverts any other time symbol to `T`), the check accepts exactly the
   * system parameters and the time name.
   */
  lemma CheckWithOneCharacterTime(params: seq<string>, keys: set<string>, timeName: string)
    requires |timeName| == 1
    ensures CheckAreSystemParameters(params, keys, timeName).Ok?
        <==> forall p :: p in params ==> p in keys || p == timeName
  {
    forall p | |p| == 1 && p[0] in timeName ensures p == timeName {
      assert p[0] == timeName[0];
    }
    forall p | p == timeName ensures |p| == 1 && p[0] in timeName {
    }
  }

  /** The kinds of parameter a Python signature distinguishes. */
  datatype ParamKind = PositionalOnly | PositionalOrKeyword | VarPositional | KeywordOnly | VarKeyword

  datatype SignatureParameter = SignatureParameter(name: string, kind: ParamKind)

  /** `sum(1 for x in params if x.kind == kind)` */
  function CountKind(ps: seq<SignatureParameter>, kind: ParamKind): (r: nat)
    ensures r <= |ps|
  {
    if ps == [] then 0 else (if ps[0].kind == kind then 1 else 0) + CountKind(ps[1..], kind)
  }

  /** `tuple(range(lo, hi + 1))` */
  function Range(lo: nat, hi: nat): (r: seq<nat>)
    requires lo <= hi
    ensures |r| == hi - lo + 1 && forall i :: 0 <= i < |r| ==> r[i] == lo + i
  {
    seq(hi - lo + 1, i requires 0 <= i <= hi - lo => lo + i)
  }

  /**
   * `_inspect_signature(callable)`: the argument names and the accepted
   * numbers of arguments. Keyword-only parameters raise
   * `NotImplementedError`; with positional-only parameters any count from
   * their number up to the number of positional parameters is accepted,
   * otherwise exactly the number of positional-or-keyword parameters.
   */
  function InspectSignature(ps: seq<SignatureParameter>): (r: Result<(seq<string>, seq<nat>)>)
    ensures r.Err? <==> CountKind(ps, KeywordOnly) > 0
    ensures r.Err? ==> r.error == NotImplementedError
    ensures r.Ok? ==> |r.value.0| == |ps| && forall i :: 0 <= i < |ps| ==> r.value.0[i] == ps[i].name
    ensures r.Ok? ==> var po := CountKind(ps, PositionalOnly);
                      var pk := CountKind(ps, PositionalOrKeyword);
                      forall n :: n in r.value.1 <==> if po > 0 then po <= n <= po + pk else n == pk
    ensures r.Ok? ==> CountKind(ps, PositionalOnly) + CountKind(ps, PositionalOrKeyword) in r.value.1
    ensures r.Ok? ==> forall i :: 0 < i < |r.value.1| ==> r.value.1[i - 1] < r.value.1[i]
  {
    var po := CountKind(ps, PositionalOnly);
    var ko := CountKind(ps, KeywordOnly);
    var pk := CountKind(ps, PositionalOrKeyword);
    if ko > 0 then Err(NotImplementedError)
    else
      var nargs := if po > 0 then Range(po, po + pk) else [pk];
      assert po > 0 ==> forall n :: po <= n <= po + pk ==> n in nargs by {
        if po > 0 {
          forall n | po <= n <= po + pk ensures n in nargs {
            assert nargs[n - po] == n;
          }
        }
      }
      Ok((seq(|ps|, i requires 0 <= i < |ps| => ps[i].name), nargs))
  }

  /** Every parameter has exactly one kind, so the counts add up to the length. */
  lemma {:induction false} CountKindsPartition(ps: seq<SignatureParameter>)
    ensures CountKind(ps, PositionalOnly) + CountKind(ps, PositionalOrKeyword) + CountKind(ps, VarPositional)
            + CountKind(ps, KeywordOnly) + CountKind(ps, VarKeyword) == |ps|
  {
    if ps != [] {
      CountKindsPartition(ps[1..]);
    }
  }

  // ---------------------------------------------------------------------
  // Classification of parameter assignments

  /**
   * `_process_parameter_assignment(assignment)`: functional assignments are
   * fixed; a default assignment is exposable when its name is hierarchical
   * (it came from a nested child) and optional otherwise; anything else is
   * composite.
   */
  function ProcessParameterAssignment(a: Assignment): (r: ParameterType)
    ensures r.Functional? <==> a.Parameter? && a.tag.FunctionalParameter?
    ensures r.DefaultExposable? <==> a.Parameter? && a.tag.DefaultParameter? && HasSeparator(a.Name())
    ensures r.DefaultOptional? <==> a.Parameter? && a.tag.DefaultParameter? && !HasSeparator(a.Name())
    ensures r.Composite? <==> a.Differential? || a.tag.PlainParameter?
  {
    if a.Parameter? && a.tag.FunctionalParameter? then Functional
    else if a.Parameter? && a.tag.DefaultParameter? then
      (if HasSeparator(a.Name()) then DefaultExposable else DefaultOptional)
    else Composite
  }

  /**
   * Exactly the default assignments become parameters `set_parameters` may
   * change; none is classified as required, which only inputs without a
   * default are.
   */
  lemma SettableIffDefault(a: Assignment)
    ensures !ProcessParameterAssignment(a).Required?
    ensures Settable(ProcessParameterAssignment(a)) <==> a.Parameter? && a.tag.DefaultParameter?
  {
  }

  /** The default assignment compile makes for an unconnected input of a child is exposable. */
  lemma ChildDefaultIsExposable(child: string, port: string, e: Expr)
    ensures ProcessParameterAssignment(Parameter(DefaultParameter, Join(child, port), e, e)) == DefaultExposable
  {
    assert Join(child, port)[|child|] == Separator;
  }

  /**
   * `_get_symbols(variable_assignments, parameter_assignments, required_inputs)`:
   * the variable symbols, and the parameter symbols together with the
   * required inputs.
   */
  function GetSymbols(variableAssignments: seq<Assignment>, parameterAssignments: seq<Assignment>,
                      requiredInputs: seq<string>): (r: (set<string>, set<string>))
    ensures forall n :: n in r.0 <==> n in AssignmentNameList(variableAssignments)
    ensures forall n :: n in r.1 <==> n in AssignmentNameList(parameterAssignments) || n in requiredInputs
  {
    (set n | n in AssignmentNameList(variableAssignments),
     set n | n in AssignmentNameList(parameterAssignments) + requiredInputs)
  }

  // ---------------------------------------------------------------------
  // Parameter update order

  /**
   * An order in which parameters can be updated: every parameter exactly
   * once, each after the parameters it depends on.
   */
  predicate IsUpdateOrder(deps: map<string, set<string>>, order: seq<string>)
  {
    NoDuplicates(order)
    && (forall x :: x in order ==> x in deps) && (forall x :: x in deps ==> x in order)
    && forall i, j :: 0 <= i < |order| && 0 <= j < |order| && order[i] in deps && order[j] in deps[order[i]] ==> j < i
  }

  /** Every dependency is a parameter, a variable or time. */
  predicate AllDefined(deps: map<string, set<string>>, variables: set<string>, time: string)
  {
    forall p, d :: p in deps && d in deps[p] ==> d in deps || d in variables || d == time
  }

  /** No parameter `x` depends on, among the parameters, waits in `remaining`. */
  predicate Ready(deps: map<string, set<string>>, remaining: set<string>, x: string)
    requires x in deps
  {
    forall d :: d in deps[x] && d in deps ==> d !in remaining
  }

  /** The first position of `order` holding an element of `s`. */
  function FirstIn(order: seq<string>, s: set<string>): (i: nat)
    requires exists k :: 0 <= k < |order| && order[k] in s
    ensures i < |order| && order[i] in s
    ensures forall k :: 0 <= k < i ==> order[k] !in s
  {
    if order[0] in s then 0
    else
      assert exists k :: 0 <= k < |order[1..]| && order[1..][k] in s by {
        var k :| 0 <= k < |order| && order[k] in s;
        assert order[1..][k - 1] == order[k];
      }
      1 + FirstIn(order[1..], s)
  }

  /**
   * When every parameter left waits for another one left, any arrangement
   * of all parameters puts some parameter no later than one it depends on.
   */
  lemma StuckWitness(deps: map<string, set<string>>, remaining: set<string>, order: seq<string>)
      returns (i: nat, j: nat)
    requires remaining <= deps.Keys && remaining != {}
    requires forall x :: x in remaining ==> !Ready(deps, remaining, x)
    requires forall x :: x in order <==> x in deps
    ensures i < |order| && j < |order| && order[i] in deps && order[j] in deps[order[i]] && i <= j
  {
    var r :| r in remaining;
    assert r in order;
    var k :| 0 <= k < |order| && order[k] == r;
    i := FirstIn(order, remaining);
    var x := order[i];
    var d :| d in deps[x] && d in deps && d in remaining;
    assert d in order;
    j :| 0 <= j < |order| && order[j] == d;
  }

  /**
   * The parameters placed so far: each one once, none still waiting, and
   * each after every parameter it depends on, all of which are placed.
   */
  predicate Placed(deps: map<string, set<string>>, placed: seq<string>, remaining: set<string>)
  {
    remaining <= deps.Keys
    && (forall x :: x in placed ==> x in deps && x !in remaining)
    && (forall x :: x in deps && x !in remaining ==> x in placed)
    && NoDuplicates(placed)
    && (forall i, d :: 0 <= i < |placed| && d in deps[placed[i]] && d in deps ==> d in placed)
    && (forall i, j :: 0 <= i < |placed| && 0 <= j < |placed| && placed[j] in deps[placed[i]] ==> j < i)
  }

  /** Placing a parameter whose dependencies are all placed keeps `Placed`. */
  lemma PlaceStep(deps: map<string, set<string>>, placed: seq<string>, remaining: set<string>, x: string)
    requires Placed(deps, placed, remaining) && x in remaining && Ready(deps, remaining, x)
    ensures Placed(deps, placed + [x], remaining - {x})
  {
    var p := placed + [x];
    var n := |placed|;
    assert x !in placed;
    assert x !in deps[x];
    assert forall i :: 0 <= i < n ==> x !in deps[placed[i]];
    forall i, j | 0 <= i < |p| && 0 <= j < |p| && p[j] in deps[p[i]] ensures j < i {
      if i < n {
        assert p[i] == placed[i];
      }
      if j < n {
        assert p[j] == placed[j];
      }
    }
    forall i, d | 0 <= i < |p| && d in deps[p[i]] && d in deps ensures d in p {
      if i < n {
        assert p[i] == placed[i];
      }
    }
  }

  /** With nothing left waiting, the placed parameters are an update order. */
  lemma PlacedIsOrder(deps: map<string, set<string>>, placed: seq<string>)
    requires Placed(deps, placed, {})
    ensures IsUpdateOrder(deps, placed)
  {
  }

  /**
   * `compute_parameter_update_order()` over each parameter's dependencies:
   * a dependency that is neither a parameter, a variable nor time raises
   * `SystemError`, and so does a cycle among the parameters (there is then no
   * update order); otherwise the result is an update order. The order is
   * built by repeatedly taking a parameter none of whose dependencies is
   * still waiting.
   */
  method ComputeParameterUpdateOrder(deps: map<string, set<string>>, variables: set<string>, time: string)
      returns (r: Result<seq<string>>)
    ensures !AllDefined(deps, variables, time) ==> r == Err(SystemError)
    ensures r.Ok? ==> IsUpdateOrder(deps, r.value)
    ensures r.Err? ==> r.error == SystemError
    ensures r.Err? && AllDefined(deps, variables, time) ==> forall order :: !IsUpdateOrder(deps, order)
  {
    if !AllDefined(deps, variables, time) {
      return Err(SystemError);
    }
    var placed: seq<string> := [];
    var remaining := deps.Keys;
    while remaining != {}
      invariant Placed(deps, placed, remaining)
      decreases |remaining|
    {
      if x :| x in remaining && Ready(deps, remaining, x) {
        PlaceStep(deps, placed, remaining, x);
        placed := placed + [x];
        remaining := remaining - {x};
      } else {
        NoOrderWhenStuck(deps, remaining);
        return Err(SystemError);
      }
    }
    PlacedIsOrder(deps, placed);
    r := Ok(placed);
  }

  /** When every parameter left waits for another one left, there is no update order. */
  lemma NoOrderWhenStuck(deps: map<string, set<string>>, remaining: set<string>)
    requires remaining <= deps.Keys && remaining != {}
    requires forall x :: x in remaining ==> !Ready(deps, remaining, x)
    ensures forall order :: !IsUpdateOrder(deps, order)
  {
    forall order ensures !IsUpdateOrder(deps, order) {
      if NoDuplicates(order) && forall x :: x in order <==> x in deps {
        var i, j := StuckWitness(deps, remaining, order);
      }
    }
  }

  /** The dependencies of each simulation parameter, keyed by parameter. */
  function DependencyMap(params: Dict<SimParameter>): (r: map<string, set<string>>)
    ensures forall k :: k in r <==> HasKey(params, k)
    ensures forall k :: HasKey(params, k) ==> Get(params, k).Some? && r[k] == Get(params, k).value.dependencies
  {
    map k | k in Keys(params) :: Get(params, k).value.dependencies
  }

  // ---------------------------------------------------------------------
  // Readable symbols

  /**
   * The new names for `names`, later entries winning: with hashing every
   * `.` becomes `_`, otherwise the `i`-th name becomes `{letter}_{i}`.
   */
  function Renamings(names: seq<string>, letter: string, hash: bool): (r: map<string, string>)
    ensures forall k :: k in r <==> k in names
    ensures hash ==> forall k :: k in r ==> r[k] == ReplaceChar(k, Separator, '_')
  {
    if names == [] then map[]
    else
      var n := |names| - 1;
      var front := Renamings(names[..n], letter, hash);
      assert names == names[..n] + [names[n]];
      front[names[n] := if hash then ReplaceChar(names[n], Separator, '_') else Numbered(letter, n)]
  }

  /** Without hashing, distinct names are numbered by their position. */
  lemma {:induction false} RenamingsNumbered(names: seq<string>, letter: string, i: nat)
    requires NoDuplicates(names) && i < |names|
    ensures Renamings(names, letter, false)[names[i]] == Numbered(letter, i)
  {
    var n := |names| - 1;
    if i < n {
      assert NoDuplicates(names[..n]);
      assert names[..n][i] == names[i];
      RenamingsNumbered(names[..n], letter, i);
    }
  }

  /** Names without the hierarchy separator: symbols exposed at the surface object. */
  function Surface(names: seq<string>): (r: seq<string>)
    ensures forall x :: x in r <==> x in names && !HasSeparator(x)
  {
    Filter(names, x => !HasSeparator(x))
  }

  /** The names that are not at the surface. */
  function Hierarchical(names: seq<string>): (r: seq<string>)
    ensures forall x :: x in r <==> x in names && HasSeparator(x)
  {
    Filter(names, x => HasSeparator(x))
  }

  /** The identity renaming of `names`. */
  function Identity(names: seq<string>): (r: map<string, string>)
    ensures forall k :: k in r <==> k in names
    ensures forall k :: k in r ==> r[k] == k
  {
    map k | k in names :: k
  }

  /**
   * `get_readable_symbols(keep_surface_symbols, hash_symbols)` over the
   * variable and parameter symbols (in container order): the symbols to
   * rename are renamed, time becomes `t`, and then surface symbols are kept
   * as they are if asked to.
   */
  function ReadableSymbols(vars: seq<string>, pars: seq<string>, time: string, keepSurface: bool, hash: bool)
    : (r: (map<string, string>, map<string, string>))
  {
    var editVars := if keepSurface then Hierarchical(vars) else vars;
    var editPars := if keepSurface then Hierarchical(pars) else pars;
    var varsDict := Renamings(editVars, "x", hash)[time := "t"];
    var parsDict := Renamings(editPars, "a", hash);
    if keepSurface then (varsDict + Identity(Surface(vars)), parsDict + Identity(Surface(pars)))
    else (varsDict, parsDict)
  }

  /** Every variable, time and every parameter gets a readable name, and nothing else does. */
  lemma ReadableSymbolsDomain(vars: seq<string>, pars: seq<string>, time: string, keepSurface: bool, hash: bool)
    ensures var (vd, pd) := ReadableSymbols(vars, pars, time, keepSurface, hash);
            (forall k :: k in vd <==> k in vars || k == time) && (forall k :: k in pd <==> k in pars)
  {
  }

  /**
   * Surface symbols keep their names when asked to; time is `t` unless it is
   * itself a kept surface variable.
   */
  lemma ReadableSymbolsKeepSurface(vars: seq<string>, pars: seq<string>, time: string, hash: bool)
    ensures var (vd, pd) := ReadableSymbols(vars, pars, time, true, hash);
            (forall v :: v in vars && !HasSeparator(v) ==> vd[v] == v)
            && (forall p :: p in pars && !HasSeparator(p) ==> pd[p] == p)
            && (!(time in vars && !HasSeparator(time)) ==> vd[time] == "t")
  {
    var sv := Surface(vars);
    var vd := Renamings(Hierarchical(vars), "x", hash)[time := "t"];
    assert ReadableSymbols(vars, pars, time, true, hash).0 == vd + Identity(sv);
  }

  /**
   * Without hashing, the renamed variables get pairwise distinct names
   * `x_0, x_1, ...` and the renamed parameters `a_0, a_1, ...`.
   */
  lemma NumberedNamesDistinct(names: seq<string>, letter: string, a: string, b: string)
    requires NoDuplicates(names) && a in names && b in names && a != b
    ensures Renamings(names, letter, false)[a] != Renamings(names, letter, false)[b]
  {
    var i :| 0 <= i < |names| && names[i] == a;
    var j :| 0 <= j < |names| && names[j] == b;
    RenamingsNumbered(names, letter, i);
    RenamingsNumbered(names, letter, j);
    if Numbered(letter, i) == Numbered(letter, j) {
      NumberedInjective(letter, i, j);
    }
  }

  // ---------------------------------------------------------------------
  // Compilation into simulation variables and parameters

  /**
   * `_create_simulation_variables`: one variable per variable assignment,
   * after checking that its update rule uses only known symbols
   * (`DependencyError` otherwise).
   */
  function AddSimulationVariables(d: Dict<Variable>, vas: seq<Assignment>, variables: set<string>, parameters: set<string>)
    : (r: Result<Dict<Variable>>)
    ensures r.Ok? <==> forall a :: a in vas ==> FreeSymbols(a.expression) <= variables + parameters
    ensures r.Err? ==> r.error == DependencyError
    decreases |vas|
  {
    if vas == [] then Ok(d)
    else
      var a := vas[0];
      var rule :- Dependencies(a.expression, variables, parameters, true);
      var r := AddSimulationVariables(Put(d, a.Name(), Variable(a.Name(), None, "")), vas[1..], variables, parameters);
      AssignmentsCons(vas);
      r
  }

  /** Compile makes a variable of the name of every variable assignment, and of no other name. */
  lemma {:induction false} AddSimulationVariablesKey(d: Dict<Variable>, vas: seq<Assignment>,
                                                     variables: set<string>, parameters: set<string>, k: string)
    requires AddSimulationVariables(d, vas, variables, parameters).Ok?
    ensures HasKey(AddSimulationVariables(d, vas, variables, parameters).value, k)
            <==> HasKey(d, k) || k in AssignmentNameList(vas)
    decreases |vas|
  {
    if vas != [] {
      var a := vas[0];
      var d' := Put(d, a.Name(), Variable(a.Name(), None, ""));
      assert AddSimulationVariables(d, vas, variables, parameters) == AddSimulationVariables(d', vas[1..], variables, parameters);
      AddSimulationVariablesKey(d', vas[1..], variables, parameters, k);
      assert HasKey(d', k) <==> HasKey(d, k) || k == a.Name();
      NameListCons(vas, k);
    }
  }

  /**
   * The simulation parameter for one parameter assignment: its type, its
   * expression as value, and the parameters among its symbols as
   * dependencies; `DependencyError` when it uses an unknown symbol.
   */
  function SimulationParameter(a: Assignment, variables: set<string>, parameters: set<string>): (r: Result<SimParameter>)
    ensures r.Ok? <==> FreeSymbols(a.expression) <= variables + parameters
    ensures r.Err? ==> r.error == DependencyError
    ensures r.Ok? ==> r.value.symbol == a.Name() && r.value.ptype == ProcessParameterAssignment(a)
                      && r.value.value == Some(a.expression)
                      && r.value.dependencies == FreeSymbols(a.expression) * parameters
  {
    var rule :- Dependencies(a.expression, variables, parameters, true);
    Ok(SimParameter(a.Name(), ProcessParameterAssignment(a), Some(a.expression), rule.1))
  }

  /**
   * `_create_simulation_parameters`: one parameter per parameter assignment,
   * with its type, its expression as value and the parameters it depends on.
   */
  function AddSimulationParameters(d: Dict<SimParameter>, pas: seq<Assignment>, variables: set<string>,
                                   parameters: set<string>): (r: Result<Dict<SimParameter>>)
    ensures r.Ok? <==> forall a :: a in pas ==> FreeSymbols(a.expression) <= variables + parameters
    ensures r.Err? ==> r.error == DependencyError
    decreases |pas|
  {
    if pas == [] then Ok(d)
    else
      var p :- SimulationParameter(pas[0], variables, parameters);
      var r := AddSimulationParameters(Put(d, p.symbol, p), pas[1..], variables, parameters);
      AssignmentsCons(pas);
      r
  }

  /** Compile makes a parameter of the name of every parameter assignment, and of no other name. */
  lemma AddSimulationParametersKeys(d: Dict<SimParameter>, pas: seq<Assignment>,
                                    variables: set<string>, parameters: set<string>)
    ensures AddSimulationParameters(d, pas, variables, parameters).Ok? ==>
              forall k :: HasKey(AddSimulationParameters(d, pas, variables, parameters).value, k)
                          <==> HasKey(d, k) || k in AssignmentNameList(pas)
  {
    if AddSimulationParameters(d, pas, variables, parameters).Ok? {
      forall k ensures HasKey(AddSimulationParameters(d, pas, variables, parameters).value, k)
                       <==> HasKey(d, k) || k in AssignmentNameList(pas) {
        AddSimulationParametersKey(d, pas, variables, parameters, k);
      }
    }
  }

  /** `AddSimulationParametersKeys` for one name */
  lemma {:induction false} AddSimulationParametersKey(d: Dict<SimParameter>, pas: seq<Assignment>,
                                                      variables: set<string>, parameters: set<string>, k: string)
    requires AddSimulationParameters(d, pas, variables, parameters).Ok?
    ensures HasKey(AddSimulationParameters(d, pas, variables, parameters).value, k)
            <==> HasKey(d, k) || k in AssignmentNameList(pas)
    decreases |pas|
  {
    if pas != [] {
      var p := SimulationParameter(pas[0], variables, parameters).value;
      var d' := Put(d, p.symbol, p);
      assert AddSimulationParameters(d, pas, variables, parameters) == AddSimulationParameters(d', pas[1..], variables, parameters);
      AddSimulationParametersKey(d', pas[1..], variables, parameters, k);
      assert HasKey(d', k) <==> HasKey(d, k) || k == pas[0].Name();
      NameListCons(pas, k);
    }
  }

  /** Every parameter whose dependencies lie among `parameters`. */
  ghost predicate DependsWithin(d: Dict<SimParameter>, parameters: set<string>)
  {
    forall k :: HasKey(d, k) ==> Get(d, k).Some? && Get(d, k).value.dependencies <= parameters
  }

  /** The parameters compile makes depend only on the system's parameters. */
  lemma {:induction false} AddSimulationParametersWithin(d: Dict<SimParameter>, pas: seq<Assignment>,
                                                         variables: set<string>, parameters: set<string>)
    requires DependsWithin(d, parameters)
    ensures AddSimulationParameters(d, pas, variables, parameters).Ok? ==>
              DependsWithin(AddSimulationParameters(d, pas, variables, parameters).value, parameters)
    decreases |pas|
  {
    if pas != [] && AddSimulationParameters(d, pas, variables, parameters).Ok? {
      var p := SimulationParameter(pas[0], variables, parameters).value;
      var d' := Put(d, p.symbol, p);
      forall k | HasKey(d', k) ensures Get(d', k).Some? && Get(d', k).value.dependencies <= parameters {
        if k != p.symbol {
          assert Get(d', k) == Get(d, k);
        }
      }
      AddSimulationParametersWithin(d', pas[1..], variables, parameters);
    }
  }

  /** `_create_input_parameters`: a required parameter without value for each required input. */
  function AddInputParameters(d: Dict<SimParameter>, required: seq<string>): (r: Dict<SimParameter>)
    ensures forall k :: HasKey(r, k) <==> HasKey(d, k) || k in required
    ensures forall k :: k in required ==> Get(r, k) == Some(SimParameter(k, Required, None, {}))
    ensures forall k :: k !in required ==> Get(r, k) == Get(d, k)
    decreases |required|
  {
    if required == [] then d
    else
      var n := |required| - 1;
      var front := AddInputParameters(d, required[..n]);
      assert forall k :: k in required <==> k in required[..n] || k == required[n] by {
        assert required == required[..n] + [required[n]];
      }
      Put(front, required[n], SimParameter(required[n], Required, None, {}))
  }

  /** What compiling a system produces: variables, parameters and the required inputs. */
  datatype CompiledSystem = CompiledSystem(variables: Dict<Variable>, parameters: Dict<SimParameter>, requiredInputs: seq<string>)

  /** The object a system compiles: the ported object itself or the named child. */
  function CompileTarget(po: PortedObject, child: Option<string>): (r: Result<PortedObject>)
    ensures child.None? || child.value == "" ==> r == Ok(po)
    ensures child.Some? && child.value != "" && !po.CompositeObject? ==> r == Err(AttributeError)
  {
    if child.Some? && child.value != "" then
      (if po.CompositeObject? then GetChild(po, child.value) else Err(AttributeError))
    else Ok(po)
  }

  /**
   * `System.compile(child)` after the object check: the target is compiled
   * without prefixing, its assignments collected, and a variable made for
   * each variable assignment and a parameter for each parameter assignment
   * and each required input.
   */
  function CompileSystem(po: PortedObject, child: Option<string>, time: string): (r: Result<CompiledSystem>)
  {
    var target :- CompileTarget(po, child);
    var compiled :- Compilation.Compile(target, false);
    var assignments :- GetAssignments(compiled);
    var required := Dicts.Values(SetInputParameters(compiled).value.requiredInputs);
    var (variables, parameters) := GetSymbols(assignments.0, assignments.1, required);
    var vs :- AddSimulationVariables(Empty(), assignments.0, variables + {time}, parameters);
    var ps :- AddSimulationParameters(Empty(), assignments.1, variables + {time}, parameters);
    Ok(CompiledSystem(vs, AddInputParameters(ps, required), required))
  }

  /** What `System.compile(child)` yields: `SystemError` without an object, else `CompileSystem`. */
  function CompileOutcome(po: Option<PortedObject>, child: Option<string>, time: string): (r: Result<CompiledSystem>)
    ensures po.None? ==> r == Err(SystemError)
  {
    if po.None? then Err(SystemError) else CompileSystem(po.value, child, time)
  }

  /**
   * After compiling, every parameter depends only on parameters, so ordering
   * the parameters never meets an undefined dependency.
   */
  lemma CompiledDependenciesDefined(po: PortedObject, child: Option<string>, time: string, variables: set<string>)
    requires CompileSystem(po, child, time).Ok?
    ensures AllDefined(DependencyMap(CompileSystem(po, child, time).value.parameters), variables, time)
  {
    var target := CompileTarget(po, child).value;
    var compiled := Compilation.Compile(target, false).value;
    var assignments := GetAssignments(compiled).value;
    var required := Dicts.Values(SetInputParameters(compiled).value.requiredInputs);
    var (vars, pars) := GetSymbols(assignments.0, assignments.1, required);
    var ps := AddSimulationParameters(Empty(), assignments.1, vars + {time}, pars).value;
    AddSimulationParametersWithin(Empty(), assignments.1, vars + {time}, pars);
    AddSimulationParametersKeys(Empty(), assignments.1, vars + {time}, pars);
    var final := AddInputParameters(ps, required);
    var deps := DependencyMap(final);
    forall p, d | p in deps && d in deps[p] ensures d in deps {
      if p !in required {
        assert Get(final, p) == Get(ps, p);
        assert d in pars;
      }
    }
  }

  // ---------------------------------------------------------------------
  // The system object

  /** An entry of the lambdify namespace: a module name or a dictionary of callables. */
  datatype NamespaceEntry = ModuleName(name: string) | Callables(functions: map<string, string>)

  /** `any(isinstance(entry, dict) and name in entry for entry in lambdify_ns)` */
  predicate DefinesName(ns: seq<NamespaceEntry>, name: string)
  {
    exists i :: 0 <= i < |ns| && ns[i].Callables? && name in ns[i].functions
  }

  /**
   * A `System`: the ported object (held as built, since the data round trip
   * is not modelled), the system parameters with their values, the names of
   * the utility functions, the lambdify namespace (callables are named by
   * opaque identifiers) and, once compiled, the variables and parameters.
   */
  class System {
    var portedObject: Option<PortedObject>
    var compiled: bool
    var systemParameters: Dict<Expr>
    var utilityFunctions: set<string>
    var lambdifyNs: seq<NamespaceEntry>
    var variables: Dict<Variable>
    var parameters: Dict<SimParameter>
    var requiredInputs: seq<string>
    var simulations: map<string, Setter>
    var time: string

    /** `System(ported_object=None, time_symbol=...)`; any time symbol other than `T` reverts to `T`. */
    constructor (timeSymbol: string)
      ensures portedObject.None? && !compiled
      ensures time == TimeSymbol
      ensures systemParameters == Empty() && utilityFunctions == {}
      ensures lambdifyNs == [ModuleName("numpy"), ModuleName("scipy")]
      ensures simulations == map[] && variables == Empty() && parameters == Empty()
    {
      portedObject := None;
      compiled := false;
      systemParameters := Empty();
      utilityFunctions := {};
      lambdifyNs := [ModuleName("numpy"), ModuleName("scipy")];
      variables := Empty();
      parameters := Empty();
      requiredInputs := [];
      simulations := map[];
      time := TimeSymbol;
    }

    /**
     * `_add_to_lambdify_ns(name, callable)`: a name already in the namespace
     * raises `SystemError` when it is a system parameter or a utility
     * function; for any other name the message's variable is never bound and
     * Python raises `UnboundLocalError`. Otherwise `{name: callable}` is put
     * at the front.
     */
    method AddToLambdifyNs(name: string, callable: string) returns (r: Result<()>)
      modifies this
      ensures r.Err? <==> DefinesName(old(lambdifyNs), name)
      ensures r.Err? ==> r.error == if HasKey(systemParameters, name) || name in utilityFunctions
                                    then SystemError else UnboundLocalError
      ensures r.Ok? ==> lambdifyNs == [Callables(map[name := callable])] + old(lambdifyNs)
      ensures r.Err? ==> lambdifyNs == old(lambdifyNs)
      ensures systemParameters == old(systemParameters) && utilityFunctions == old(utilityFunctions)
      ensures compiled == old(compiled) && portedObject == old(portedObject) && time == old(time)
      ensures variables == old(variables) && parameters == old(parameters) && simulations == old(simulations)
      ensures requiredInputs == old(requiredInputs)
    {
      var i := 0;
      while i < |lambdifyNs|
        invariant 0 <= i <= |lambdifyNs|
        invariant forall k :: 0 <= k < i ==> !(lambdifyNs[k].Callables? && name in lambdifyNs[k].functions)
      {
        if lambdifyNs[i].Callables? && name in lambdifyNs[i].functions {
          if HasKey(systemParameters, name) || name in utilityFunctions {
            return Err(SystemError);
          }
          return Err(UnboundLocalError);
        }
        i := i + 1;
      }
      lambdifyNs := [Callables(map[name := callable])] + lambdifyNs;
      r := Ok(());
    }

    /**
     * `set_object(ported_object, compile)`: the object replaces the current
     * one, the system is no longer compiled and its variables and parameters
     * are emptied; then it is compiled if asked to.
     */
    method SetObject(po: PortedObject, compile: bool) returns (r: Result<()>)
      modifies this
      ensures portedObject == Some(po) && time == old(time)
      ensures !compile ==> r.Ok? && !compiled && variables == Empty() && parameters == Empty()
                           && simulations == old(simulations) && requiredInputs == old(requiredInputs)
      ensures compile ==> simulations == map[]
      ensures compile ==> (r.Ok? <==> CompileSystem(po, None, time).Ok?)
      ensures compile ==>
                var outcome := CompileOutcome(Some(po), None, time);
                (r.Ok? <==> outcome.Ok?) && (r.Err? ==> r.error == outcome.error && !compiled)
                && (r.Ok? ==> compiled && CompiledSystem(variables, parameters, requiredInputs) == outcome.value)
      ensures systemParameters == old(systemParameters) && utilityFunctions == old(utilityFunctions)
      ensures lambdifyNs == old(lambdifyNs)
    {
      portedObject := Some(po);
      compiled := false;
      variables := Empty();
      parameters := Empty();
      r := Ok(());
      if compile {
        r := Compile(None);
      }
    }

    /**
     * `compile(child)`: the stored simulations are dropped first; without an
     * object `SystemError` is raised; otherwise the result of
     * `CompileSystem` becomes the variables, parameters and required inputs
     * and the system is compiled. A failure leaves the flag as it was.
     */
    method Compile(child: Option<string>) returns (r: Result<()>)
      modifies this
      ensures simulations == map[]
      ensures portedObject == old(portedObject) && time == old(time)
      ensures var outcome := CompileOutcome(old(portedObject), child, old(time));
              (r.Ok? <==> outcome.Ok?) && (r.Err? ==> r.error == outcome.error && compiled == old(compiled))
              && (r.Ok? ==> compiled && CompiledSystem(variables, parameters, requiredInputs) == outcome.value)
      ensures systemParameters == old(systemParameters) && utilityFunctions == old(utilityFunctions)
      ensures lambdifyNs == old(lambdifyNs)
    {
      var result := CompileOutcome(portedObject, child, time);
      simulations, requiredInputs := map[], [];
      if result.Err? {
        return Err(result.error);
      }
      var outcome := result.value;
      variables, parameters, requiredInputs, compiled := outcome.variables, outcome.parameters, outcome.requiredInputs, true;
      r := Ok(());
    }

    /** `set_parameters(values)`: `SystemError` before compiling, else the setter's rules. */
    method SetParameters(values: seq<(string, Raw)>) returns (r: Result<()>)
      modifies this
      ensures !compiled ==> r == Err(SystemError) && parameters == old(parameters)
      ensures compiled ==> (parameters, r) == SetAll(old(parameters), values, time, SystemValues())
      ensures variables == old(variables) && compiled == old(compiled) && time == old(time)
      ensures systemParameters == old(systemParameters) && simulations == old(simulations)
    {
      if !compiled {
        return Err(SystemError);
      }
      var outcome := SetAll(parameters, values, time, SystemValues());
      parameters := outcome.0;
      r := outcome.1;
    }

    /** `set_initial_values(values)`: `SystemError` before compiling, else the setter's rules. */
    method SetInitialValues(values: seq<(string, real)>) returns (r: Result<()>)
      modifies this
      ensures !compiled ==> r == Err(SystemError) && variables == old(variables)
      ensures compiled ==> (variables, r) == InitAll(old(variables), values)
      ensures parameters == old(parameters) && compiled == old(compiled) && time == old(time)
      ensures systemParameters == old(systemParameters) && simulations == old(simulations)
    {
      if !compiled {
        return Err(SystemError);
      }
      var outcome := InitAll(variables, values);
      variables := outcome.0;
      r := outcome.1;
    }

    /** The values of the system parameters, the symbols a parameter value may use besides time. */
    function SystemValues(): set<Expr>
      reads this
    {
      set v | v in Dicts.Values(systemParameters)
    }

    /** The names of the variables. */
    function VariableNames(): set<string>
      reads this
    {
      set k | k in Keys(variables)
    }

    /** The names of the required parameters. */
    function RequiredParameters(): (r: set<string>)
      reads this
      ensures forall k :: k in r <==> HasKey(parameters, k) && Get(parameters, k).value.ptype.Required?
    {
      set k | k in Keys(parameters) && Get(parameters, k).value.ptype.Required?
    }

    /** The required parameters that the given input names leave without a value. */
    function MissingInputs(inputNames: seq<string>): (r: set<string>)
      reads this
      ensures forall k :: k in r <==> k in RequiredParameters() && k !in inputNames
    {
      set k | k in RequiredParameters() && k !in inputNames
    }

    /**
     * `create_simulation(name, solver, initial_values, input_parameters)`:
     * `SystemError` before compiling; the flag reports the warning about
     * required parameters without an input value. The parameters are put in
     * the update order `compute_parameter_update_order()` finds (`SystemError`
     * when there is none), reported in the ghost `order`, and the simulation
     * is built from them. It is stored only under a non-empty name.
     */
    method CreateSimulation(name: Option<string>, initialValues: seq<(string, real)>, inputParameters: seq<(string, Raw)>)
        returns (r: Result<Setter>, warned: bool, ghost order: seq<string>)
      modifies this
      ensures !compiled ==> r == Err(SystemError)
      ensures r.Ok? ==> compiled
      ensures compiled ==> (warned <==> MissingInputs(KeysOf(inputParameters)) != {})
      ensures compiled && !AllDefined(DependencyMap(parameters), VariableNames(), time) ==> r == Err(SystemError)
      ensures compiled && (forall o :: !IsUpdateOrder(DependencyMap(parameters), o)) ==> r == Err(SystemError)
      ensures compiled && AllDefined(DependencyMap(parameters), VariableNames(), time)
              && (exists o :: IsUpdateOrder(DependencyMap(parameters), o))
              ==> IsUpdateOrder(DependencyMap(parameters), order) && OrderedParameters(parameters, order).Ok?
                  && (r.Ok? <==> InitAll(variables, initialValues).1.Ok?
                                 && SetAll(OrderedParameters(parameters, order).value, inputParameters, time, SystemValues()).1.Ok?)
      ensures r.Ok? ==> IsUpdateOrder(DependencyMap(parameters), order) && OrderedParameters(parameters, order).Ok?
                        && r.value.variables == InitAll(variables, initialValues).0
                        && r.value.parameters
                           == SetAll(OrderedParameters(parameters, order).value, inputParameters, time, SystemValues()).0
                        && r.value.systemValues == SystemValues()
      ensures r.Ok? && name.Some? && name.value != "" ==> simulations == old(simulations)[name.value := r.value]
      ensures r.Err? || name.None? || name.value == "" ==> simulations == old(simulations)
      ensures r.Ok? ==> fresh(r.value) && r.value.time == time
      ensures variables == old(variables) && parameters == old(parameters) && compiled == old(compiled)
      ensures portedObject == old(portedObject) && time == old(time) && systemParameters == old(systemParameters)
    {
      warned := false;
      order := [];
      if !compiled {
        return Err(SystemError), false, [];
      }
      warned := MissingInputs(KeysOf(inputParameters)) != {};
      var found := ComputeParameterUpdateOrder(DependencyMap(parameters), VariableNames(), time);
      if found.Err? {
        return Err(found.error), warned, [];
      }
      order := found.value;
      assert forall i :: 0 <= i < |order| ==> HasKey(parameters, order[i]) by {
        forall i | 0 <= i < |order| ensures HasKey(parameters, order[i]) {
          assert order[i] in order;
        }
      }
      OrderedParametersFound(parameters, order);
      var sim := NewSimulation(variables, parameters, found.value, time, SystemValues(), initialValues, inputParameters);
      if sim.Err? {
        return Err(sim.error), warned, order;
      }
      if name.Some? && name.value != "" {
        simulations := simulations[name.value := sim.value];
      }
      r := Ok(sim.value);
    }

    /** `get_readable_symbols(keep_surface_symbols, hash_symbols)` */
    function GetReadableSymbols(keepSurface: bool, hash: bool): (r: (map<string, string>, map<string, string>))
      reads this
      ensures forall k :: k in r.0 <==> HasKey(variables, k) || k == time
      ensures forall k :: k in r.1 <==> HasKey(parameters, k)
    {
      ReadableSymbolsDomain(Keys(variables), Keys(parameters), time, keepSurface, hash);
      ReadableSymbols(Keys(variables), Keys(parameters), time, keepSurface, hash)
    }
  }
}
