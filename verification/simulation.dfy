/**
 * The parameter-type state machine of `psymple/simulate/simulation.py`.
 * `SetterObject.set_parameters` overrides the value of a parameter whose
 * type allows it and makes it `default_optional`; `set_initial_values` sets
 * the initial values of variables. A simulation orders its parameters by a
 * given update order and then applies both setters.
 */
module Simulations {
  import opened Wrappers
  import opened Expressions
  import opened Values
  import opened Dicts
  import opened SimVariables

  /** The types a system gives its parameters. */
  datatype ParameterType = Functional | DefaultExposable | DefaultOptional | Composite | Required

  /** The types whose value `set_parameters` may replace. */
  predicate Settable(t: ParameterType)
  {
    t.DefaultOptional? || t.DefaultExposable? || t.Required?
  }

  /**
   * A simulation parameter: its symbol, its type, its value (none for a
   * required input that has not been given one) and the symbols its value
   * depends on.
   */
  datatype SimParameter = SimParameter(symbol: string, ptype: ParameterType, value: Option<Expr>, dependencies: set<string>)

  /**
   * The value `set_parameters` makes of an entry: a string is parsed, an int
   * or float becomes a `Number`, and any other type raises `TypeError`.
   */
  function ParameterValue(raw: Raw): (r: Result<Expr>)
    ensures r.Ok? <==> (raw.RStr? && raw.parsed.Some?) || raw.RInt? || raw.RFloat?
    ensures raw.RStr? && raw.parsed.Some? ==> r == Ok(raw.parsed.value)
    ensures raw.RInt? ==> r == Ok(Num(raw.i as real))
    ensures raw.RFloat? ==> r == Ok(Num(raw.x))
    ensures r.Err? ==> r.error == if raw.RStr? then SyntaxError else TypeError
  {
    match raw
    case RStr(_, parsed) => if parsed.Some? then Ok(parsed.value) else Err(SyntaxError)
    case RInt(i) => Ok(Num(i as real))
    case RFloat(x) => Ok(Num(x))
    case _ => Err(TypeError)
  }

  /** A number is accepted wherever the assignment wrapper accepts it, with the same value. */
  lemma ParameterValueAgrees(raw: Raw)
    requires ParameterValue(raw).Ok?
    ensures WrapExpression(raw) == Ok(Some(ParameterValue(raw).value))
  {
  }

  /**
   * The symbols of a value that are neither time nor the value of a system
   * parameter; `set_parameters` rejects a value that has any.
   */
  function BadSymbols(v: Expr, time: string, systemValues: set<Expr>): (r: set<string>)
    ensures forall s :: s in r <==> s in FreeSymbols(v) && s != time && Sym(s) !in systemValues
  {
    set s | s in FreeSymbols(v) && s != time && Sym(s) !in systemValues
  }

  /**
   * A parameter given a new value: the value changes, it depends on the
   * value's symbols other than time, and its type becomes `default_optional`.
   */
  function Overridden(p: SimParameter, v: Expr, time: string): (r: SimParameter)
    ensures r.symbol == p.symbol && r.ptype == DefaultOptional && r.value == Some(v)
    ensures r.dependencies == FreeSymbols(v) - {time}
  {
    p.(ptype := DefaultOptional, value := Some(v), dependencies := FreeSymbols(v) - {time})
  }

  /**
   * One entry of `set_parameters`: the parameter is looked up (`KeyError`),
   * the value converted, its symbols checked (`ParsingError`) and the type
   * checked (`TypeError` for a fixed parameter), in that order.
   */
  function SetOne(params: Dict<SimParameter>, key: string, raw: Raw, time: string, systemValues: set<Expr>)
    : (r: Result<Dict<SimParameter>>)
    ensures !HasKey(params, key) ==> r == Err(KeyError)
    ensures HasKey(params, key) && ParameterValue(raw).Err? ==> r == Err(ParameterValue(raw).error)
    ensures HasKey(params, key) && ParameterValue(raw).Ok? && BadSymbols(ParameterValue(raw).value, time, systemValues) != {}
            ==> r == Err(ParsingError)
    ensures r.Ok? <==> HasKey(params, key) && ParameterValue(raw).Ok?
                       && BadSymbols(ParameterValue(raw).value, time, systemValues) == {}
                       && Settable(Get(params, key).value.ptype)
    ensures r.Err? ==> r.error in {KeyError, SyntaxError, TypeError, ParsingError}
    ensures r.Ok? ==> r.value == Put(params, key, Overridden(Get(params, key).value, ParameterValue(raw).value, time))
  {
    match Get(params, key)
    case None => Err(KeyError)
    case Some(p) =>
      var v :- ParameterValue(raw);
      if BadSymbols(v, time, systemValues) != {} then Err(ParsingError)
      else if Settable(p.ptype) then Ok(Put(params, key, Overridden(p, v, time)))
      else Err(TypeError)
  }

  /** Overriding an existing parameter keeps the keys and changes only that entry. */
  lemma SetOneEffect(params: Dict<SimParameter>, key: string, raw: Raw, time: string, systemValues: set<Expr>)
    requires SetOne(params, key, raw, time, systemValues).Ok?
    ensures var next := SetOne(params, key, raw, time, systemValues).value;
            Keys(next) == Keys(params)
            && Get(next, key) == Some(Overridden(Get(params, key).value, ParameterValue(raw).value, time))
            && forall k :: k != key ==> Get(next, k) == Get(params, k)
  {
  }

  /**
   * `set_parameters(values)`: the entries are applied in order and the
   * first failing one stops the loop; the parameters it has already changed
   * stay changed. The second component is the outcome.
   */
  function SetAll(params: Dict<SimParameter>, entries: seq<(string, Raw)>, time: string, systemValues: set<Expr>)
    : (r: (Dict<SimParameter>, Result<()>))
    ensures Keys(r.0) == Keys(params)
    decreases |entries|
  {
    if entries == [] then (params, Ok(()))
    else
      match SetOne(params, entries[0].0, entries[0].1, time, systemValues)
      case Err(e) => (params, Err(e))
      case Ok(next) =>
        SetOneEffect(params, entries[0].0, entries[0].1, time, systemValues);
        SetAll(next, entries[1..], time, systemValues)
  }

  /**
   * A failing `set_parameters` leaves exactly the entries before the failing
   * one applied, and the failing entry's error is the outcome.
   */
  lemma {:induction false} SetAllStopsAt(params: Dict<SimParameter>, entries: seq<(string, Raw)>, time: string,
                                         systemValues: set<Expr>)
      returns (j: nat)
    requires SetAll(params, entries, time, systemValues).1.Err?
    ensures j < |entries|
    ensures var before := SetAll(params, entries[..j], time, systemValues);
            before.1.Ok?
            && before.0 == SetAll(params, entries, time, systemValues).0
            && SetOne(before.0, entries[j].0, entries[j].1, time, systemValues)
               == Err(SetAll(params, entries, time, systemValues).1.error)
    decreases |entries|
  {
    match SetOne(params, entries[0].0, entries[0].1, time, systemValues)
    case Err(e) =>
      j := 0;
      assert entries[..0] == [];
    case Ok(next) =>
      var rest := entries[1..];
      var j' := SetAllStopsAt(next, rest, time, systemValues);
      j := j' + 1;
      var before := entries[..j];
      assert before[0] == entries[0] && before[1..] == rest[..j'];
      assert SetAll(params, before, time, systemValues) == SetAll(next, rest[..j'], time, systemValues);
      assert SetAll(params, entries, time, systemValues) == SetAll(next, rest, time, systemValues);
      assert entries[j] == rest[j'];
  }

  /** A parameter whose type cannot be set keeps its entry, even when an entry names it. */
  lemma {:induction false} SetAllKeepsFixed(params: Dict<SimParameter>, entries: seq<(string, Raw)>, time: string,
                                            systemValues: set<Expr>, k: string)
    requires HasKey(params, k) && !Settable(Get(params, k).value.ptype)
    ensures Get(SetAll(params, entries, time, systemValues).0, k) == Get(params, k)
    decreases |entries|
  {
    if entries != [] && SetOne(params, entries[0].0, entries[0].1, time, systemValues).Ok? {
      var next := SetOne(params, entries[0].0, entries[0].1, time, systemValues).value;
      SetOneEffect(params, entries[0].0, entries[0].1, time, systemValues);
      assert Get(next, k) == Get(params, k);
      assert HasKey(next, k);
      SetAllKeepsFixed(next, entries[1..], time, systemValues, k);
    }
  }

  /** A parameter no entry names keeps its entry. */
  lemma {:induction false} SetAllKeepsUnnamed(params: Dict<SimParameter>, entries: seq<(string, Raw)>, time: string,
                                              systemValues: set<Expr>, k: string)
    requires forall i :: 0 <= i < |entries| ==> entries[i].0 != k
    ensures Get(SetAll(params, entries, time, systemValues).0, k) == Get(params, k)
    decreases |entries|
  {
    if entries != [] && SetOne(params, entries[0].0, entries[0].1, time, systemValues).Ok? {
      var next := SetOne(params, entries[0].0, entries[0].1, time, systemValues).value;
      SetOneEffect(params, entries[0].0, entries[0].1, time, systemValues);
      var rest := entries[1..];
      assert forall i :: 0 <= i < |rest| ==> rest[i] == entries[i + 1];
      SetAllKeepsUnnamed(next, rest, time, systemValues, k);
    }
  }

  /** An overridden parameter stays of type `default_optional` whatever the later entries do. */
  lemma {:induction false} SetAllStaysOptional(params: Dict<SimParameter>, entries: seq<(string, Raw)>, time: string,
                                               systemValues: set<Expr>, k: string)
    requires HasKey(params, k) && Get(params, k).value.ptype == DefaultOptional
    ensures HasKey(SetAll(params, entries, time, systemValues).0, k)
    ensures Get(SetAll(params, entries, time, systemValues).0, k).value.ptype == DefaultOptional
    decreases |entries|
  {
    if entries != [] && SetOne(params, entries[0].0, entries[0].1, time, systemValues).Ok? {
      var next := SetOne(params, entries[0].0, entries[0].1, time, systemValues).value;
      SetOneEffect(params, entries[0].0, entries[0].1, time, systemValues);
      assert HasKey(next, k) && Get(next, k).value.ptype == DefaultOptional;
      SetAllStaysOptional(next, entries[1..], time, systemValues, k);
    }
  }

  /** A successful `set_parameters` passed its first entry without error. */
  lemma SetAllStep(params: Dict<SimParameter>, entries: seq<(string, Raw)>, time: string, systemValues: set<Expr>)
    requires entries != [] && SetAll(params, entries, time, systemValues).1.Ok?
    ensures SetOne(params, entries[0].0, entries[0].1, time, systemValues).Ok?
    ensures SetAll(params, entries, time, systemValues)
            == SetAll(SetOne(params, entries[0].0, entries[0].1, time, systemValues).value, entries[1..], time, systemValues)
  {
  }

  /** After a successful `set_parameters` every named parameter is of type `default_optional`. */
  lemma {:induction false} SetAllTypes(params: Dict<SimParameter>, entries: seq<(string, Raw)>, time: string,
                                       systemValues: set<Expr>, i: nat)
    requires i < |entries| && SetAll(params, entries, time, systemValues).1.Ok?
    ensures HasKey(SetAll(params, entries, time, systemValues).0, entries[i].0)
    ensures Get(SetAll(params, entries, time, systemValues).0, entries[i].0).value.ptype == DefaultOptional
    decreases i
  {
    SetAllStep(params, entries, time, systemValues);
    var next := SetOne(params, entries[0].0, entries[0].1, time, systemValues).value;
    var rest := entries[1..];
    if i == 0 {
      SetOneEffect(params, entries[0].0, entries[0].1, time, systemValues);
      assert HasKey(next, entries[0].0);
      SetAllStaysOptional(next, rest, time, systemValues, entries[0].0);
    } else {
      assert rest[i - 1] == entries[i];
      SetAllTypes(next, rest, time, systemValues, i - 1);
    }
  }

  /**
   * After a successful `set_parameters` with distinct names, every named
   * parameter holds its new value.
   */
  lemma {:induction false} SetAllValues(params: Dict<SimParameter>, entries: seq<(string, Raw)>, time: string,
                                        systemValues: set<Expr>, i: nat)
    requires DistinctKeys(entries) && i < |entries|
    requires SetAll(params, entries, time, systemValues).1.Ok?
    ensures ParameterValue(entries[i].1).Ok? && HasKey(SetAll(params, entries, time, systemValues).0, entries[i].0)
    ensures Get(SetAll(params, entries, time, systemValues).0, entries[i].0).value.value
            == Some(ParameterValue(entries[i].1).value)
    decreases i
  {
    if i == 0 {
      SetAllFirstValue(params, entries, time, systemValues);
    } else {
      SetAllStep(params, entries, time, systemValues);
      var next := SetOne(params, entries[0].0, entries[0].1, time, systemValues).value;
      var rest := entries[1..];
      DistinctKeysTail(entries);
      assert rest[i - 1] == entries[i];
      SetAllValues(next, rest, time, systemValues, i - 1);
    }
  }

  /** `SetAllValues` for the first entry, which no later entry overrides. */
  lemma SetAllFirstValue(params: Dict<SimParameter>, entries: seq<(string, Raw)>, time: string, systemValues: set<Expr>)
    requires DistinctKeys(entries) && entries != []
    requires SetAll(params, entries, time, systemValues).1.Ok?
    ensures ParameterValue(entries[0].1).Ok? && HasKey(SetAll(params, entries, time, systemValues).0, entries[0].0)
    ensures Get(SetAll(params, entries, time, systemValues).0, entries[0].0).value.value
            == Some(ParameterValue(entries[0].1).value)
  {
    SetAllStep(params, entries, time, systemValues);
    var next := SetOne(params, entries[0].0, entries[0].1, time, systemValues).value;
    DistinctKeysTail(entries);
    SetOneEffect(params, entries[0].0, entries[0].1, time, systemValues);
    SetAllKeepsUnnamed(next, entries[1..], time, systemValues, entries[0].0);
    assert HasKey(next, entries[0].0);
  }

  /** One entry of `set_initial_values`: `variables[var].initial_value = value`. */
  function InitOne(vars: Dict<Variable>, key: string, value: real): (r: Result<Dict<Variable>>)
    ensures r.Err? <==> !HasKey(vars, key)
    ensures r.Err? ==> r.error == KeyError
    ensures r.Ok? ==> r.value == Put(vars, key, Get(vars, key).value.(initialValue := Some(value)))
  {
    match Get(vars, key)
    case None => Err(KeyError)
    case Some(v) => Ok(Put(vars, key, v.(initialValue := Some(value))))
  }

  /**
   * `set_initial_values(values)`: the entries are applied in order; an
   * unknown variable raises `KeyError` after the earlier entries are applied.
   */
  function InitAll(vars: Dict<Variable>, entries: seq<(string, real)>): (r: (Dict<Variable>, Result<()>))
    ensures Keys(r.0) == Keys(vars)
    ensures r.1.Ok? <==> forall i :: 0 <= i < |entries| ==> HasKey(vars, entries[i].0)
    ensures r.1.Err? ==> r.1.error == KeyError
  {
    if forall i :: 0 <= i < |entries| ==> HasKey(vars, entries[i].0) then
      InitFromOk(vars, entries, 0);
      InitFrom(vars, entries, 0)
    else
      var i :| 0 <= i < |entries| && !HasKey(vars, entries[i].0);
      InitFromFails(vars, entries, 0, i);
      InitFrom(vars, entries, 0)
  }

  /** `set_initial_values` leaves alone every variable no entry names. */
  lemma InitAllKeeps(vars: Dict<Variable>, entries: seq<(string, real)>, k: string)
    requires forall i :: 0 <= i < |entries| ==> entries[i].0 != k
    ensures Get(InitAll(vars, entries).0, k) == Get(vars, k)
  {
    InitFromKeeps(vars, entries, 0, k);
  }

  /** `set_initial_values` changes no variable's symbol or description. */
  lemma InitAllNames(vars: Dict<Variable>, entries: seq<(string, real)>, k: string)
    requires HasKey(vars, k)
    ensures Get(InitAll(vars, entries).0, k).value.symbol == Get(vars, k).value.symbol
    ensures Get(InitAll(vars, entries).0, k).value.description == Get(vars, k).value.description
  {
    InitFromNames(vars, entries, 0, k);
  }

  /** `InitAll` from the `j`-th entry on */
  function InitFrom(vars: Dict<Variable>, entries: seq<(string, real)>, j: nat): (r: (Dict<Variable>, Result<()>))
    requires j <= |entries|
    ensures Keys(r.0) == Keys(vars)
    ensures r.1.Err? ==> r.1.error == KeyError
    decreases |entries| - j
  {
    if j == |entries| then (vars, Ok(()))
    else
      match InitOne(vars, entries[j].0, entries[j].1)
      case Err(e) => (vars, Err(e))
      case Ok(next) => InitFrom(next, entries, j + 1)
  }

  /** `set_initial_values` succeeds when every entry names a variable ... */
  lemma {:induction false} InitFromOk(vars: Dict<Variable>, entries: seq<(string, real)>, j: nat)
    requires j <= |entries| && forall i :: j <= i < |entries| ==> HasKey(vars, entries[i].0)
    ensures InitFrom(vars, entries, j).1.Ok?
    decreases |entries| - j
  {
    if j < |entries| {
      var next := InitOne(vars, entries[j].0, entries[j].1).value;
      assert Keys(next) == Keys(vars);
      InitFromOk(next, entries, j + 1);
    }
  }

  /** ... and only then: the first entry naming no variable raises `KeyError`. */
  lemma {:induction false} InitFromFails(vars: Dict<Variable>, entries: seq<(string, real)>, j: nat, i: nat)
    requires j <= i < |entries| && !HasKey(vars, entries[i].0)
    ensures InitFrom(vars, entries, j).1.Err?
    decreases i - j
  {
    if HasKey(vars, entries[j].0) {
      var next := InitOne(vars, entries[j].0, entries[j].1).value;
      assert Keys(next) == Keys(vars);
      InitFromFails(next, entries, j + 1, i);
    }
  }

  lemma {:induction false} InitFromKeeps(vars: Dict<Variable>, entries: seq<(string, real)>, j: nat, k: string)
    requires j <= |entries| && forall i :: j <= i < |entries| ==> entries[i].0 != k
    ensures Get(InitFrom(vars, entries, j).0, k) == Get(vars, k)
    decreases |entries| - j
  {
    if j < |entries| && HasKey(vars, entries[j].0) {
      InitFromKeeps(InitOne(vars, entries[j].0, entries[j].1).value, entries, j + 1, k);
    }
  }

  lemma {:induction false} InitFromNames(vars: Dict<Variable>, entries: seq<(string, real)>, j: nat, k: string)
    requires j <= |entries| && HasKey(vars, k)
    ensures Get(InitFrom(vars, entries, j).0, k).value.symbol == Get(vars, k).value.symbol
    ensures Get(InitFrom(vars, entries, j).0, k).value.description == Get(vars, k).value.description
    decreases |entries| - j
  {
    if j < |entries| && HasKey(vars, entries[j].0) {
      InitFromNames(InitOne(vars, entries[j].0, entries[j].1).value, entries, j + 1, k);
    }
  }

  /** After a successful `set_initial_values` every named variable has its new initial value. */
  lemma InitAllValues(vars: Dict<Variable>, entries: seq<(string, real)>, i: nat)
    requires DistinctKeys(entries) && i < |entries|
    requires InitAll(vars, entries).1.Ok?
    ensures HasKey(InitAll(vars, entries).0, entries[i].0)
    ensures Get(InitAll(vars, entries).0, entries[i].0).value.initialValue == Some(entries[i].1)
  {
    assert InitAll(vars, entries) == InitFrom(vars, entries, 0);
    assert HasKey(vars, entries[i].0);
    InitFromValue(vars, entries, 0, i);
  }

  /** `InitAllValues` for the `i`-th entry, applying the entries from the `j`-th on */
  lemma {:induction false} InitFromValue(vars: Dict<Variable>, entries: seq<(string, real)>, j: nat, i: nat)
    requires DistinctKeys(entries) && j <= i < |entries| && HasKey(vars, entries[i].0)
    requires InitFrom(vars, entries, j).1.Ok?
    ensures Get(InitFrom(vars, entries, j).0, entries[i].0).value.initialValue == Some(entries[i].1)
    decreases i - j
  {
    var key := entries[j].0;
    var next := InitOne(vars, key, entries[j].1).value;
    assert InitFrom(vars, entries, j) == InitFrom(next, entries, j + 1);
    if j < i {
      assert HasKey(next, entries[i].0);
      InitFromValue(next, entries, j + 1, i);
    } else {
      InitFromKeeps(next, entries, j + 1, key);
      assert Get(next, key).value.initialValue == Some(entries[j].1);
    }
  }

  /**
   * `_create_ordered_parameters(parameters, order)`: the parameters looked
   * up in the given order (`KeyError` for a missing one).
   */
  function OrderedParameters(params: Dict<SimParameter>, order: seq<string>): (r: Result<Dict<SimParameter>>)
    ensures r.Err? ==> r.error == KeyError
  {
    if order == [] then Ok(Empty())
    else
      var d :- OrderedParameters(params, order[..|order| - 1]);
      match Get(params, order[|order| - 1])
      case None => Err(KeyError)
      case Some(p) => Ok(Put(d, order[|order| - 1], p))
  }

  /** Ordering succeeds when every name of the order is a parameter ... */
  lemma {:induction false} OrderedParametersFound(params: Dict<SimParameter>, order: seq<string>)
    requires forall i :: 0 <= i < |order| ==> HasKey(params, order[i])
    ensures OrderedParameters(params, order).Ok?
  {
    if order != [] {
      var front := order[..|order| - 1];
      assert forall i :: 0 <= i < |front| ==> front[i] == order[i];
      OrderedParametersFound(params, front);
    }
  }

  /** ... and a name of the order that is no parameter raises `KeyError`. */
  lemma {:induction false} OrderedParametersMissing(params: Dict<SimParameter>, order: seq<string>, i: nat)
    requires i < |order| && !HasKey(params, order[i])
    ensures OrderedParameters(params, order) == Err(KeyError)
  {
    var n := |order| - 1;
    var front := order[..n];
    if i < n {
      assert front[i] == order[i];
      OrderedParametersMissing(params, front, i);
      OrderedParametersLastFails(params, order);
    } else {
      assert order[n] == order[i];
      OrderedParametersLastFails(params, order);
    }
  }

  /** Ordering fails when the front of the order fails or its last name is no parameter. */
  lemma OrderedParametersLastFails(params: Dict<SimParameter>, order: seq<string>)
    requires order != []
    requires OrderedParameters(params, order[..|order| - 1]).Err? || !HasKey(params, order[|order| - 1])
    ensures OrderedParameters(params, order) == Err(KeyError)
  {
  }

  /** A successful ordering orders its front and then puts its last name. */
  lemma OrderedParametersOkStep(params: Dict<SimParameter>, order: seq<string>)
    requires order != [] && OrderedParameters(params, order).Ok?
    ensures OrderedParameters(params, order[..|order| - 1]).Ok? && HasKey(params, order[|order| - 1])
    ensures OrderedParameters(params, order).value
            == Put(OrderedParameters(params, order[..|order| - 1]).value, order[|order| - 1], Get(params, order[|order| - 1]).value)
  {
  }

  /** Every parameter the order names is among the ordered ones, unchanged ... */
  lemma {:induction false} OrderedParametersValues(params: Dict<SimParameter>, order: seq<string>, k: string)
    requires OrderedParameters(params, order).Ok? && k in order
    ensures HasKey(OrderedParameters(params, order).value, k)
    ensures Get(OrderedParameters(params, order).value, k) == Get(params, k)
  {
    var n := |order| - 1;
    var front := order[..n];
    var last := order[n];
    if k != last {
      InFront(order, k);
      OrderedParametersOkStep(params, order);
      OrderedParametersValues(params, front, k);
    } else {
      OrderedParametersOkStep(params, order);
    }
    PutAt(OrderedParameters(params, front).value, last, Get(params, last).value, k);
  }

  /** ... and there is no other. */
  lemma {:induction false} OrderedParametersOnly(params: Dict<SimParameter>, order: seq<string>, k: string)
    requires OrderedParameters(params, order).Ok? && HasKey(OrderedParameters(params, order).value, k)
    ensures k in order
  {
    var n := |order| - 1;
    var front := order[..n];
    var last := order[n];
    OrderedParametersOkStep(params, order);
    var d := OrderedParameters(params, front).value;
    if k != last {
      assert HasKey(d, k);
      OrderedParametersOnly(params, front, k);
      var j :| 0 <= j < |front| && front[j] == k;
      assert order[j] == k;
    }
  }

  /** ... in the order given, when it names each parameter once. */
  lemma {:induction false} OrderedParametersKeys(params: Dict<SimParameter>, order: seq<string>)
    requires OrderedParameters(params, order).Ok? && NoDuplicates(order)
    ensures Keys(OrderedParameters(params, order).value) == order
  {
    if order != [] {
      var n := |order| - 1;
      var front := order[..n];
      NoDuplicatesSplit(order);
      OrderedParametersKeys(params, front);
      assert order == front + [order[n]];
    }
  }

  lemma InFront(s: seq<string>, x: string)
    requires x in s && x != s[|s| - 1]
    ensures x in s[..|s| - 1]
  {
    var j :| 0 <= j < |s| && s[j] == x;
    assert s[..|s| - 1][j] == x;
  }

  lemma NoDuplicatesSplit(s: seq<string>)
    requires NoDuplicates(s) && s != []
    ensures NoDuplicates(s[..|s| - 1]) && s[|s| - 1] !in s[..|s| - 1]
  {
  }

  /**
   * The part of `SetterObject` that `set_parameters` and
   * `set_initial_values` use: the variables and parameters, the time symbol
   * and the values of the system parameters.
   */
  class Setter {
    var variables: Dict<Variable>
    var parameters: Dict<SimParameter>
    var time: string
    var systemValues: set<Expr>

    constructor (variables: Dict<Variable>, parameters: Dict<SimParameter>, time: string, systemValues: set<Expr>)
      ensures this.variables == variables && this.parameters == parameters
      ensures this.time == time && this.systemValues == systemValues
    {
      this.variables := variables;
      this.parameters := parameters;
      this.time := time;
      this.systemValues := systemValues;
    }

    /** `set_parameters(values)` */
    method SetParameters(values: seq<(string, Raw)>) returns (r: Result<()>)
      modifies this
      ensures (parameters, r) == SetAll(old(parameters), values, time, systemValues)
      ensures variables == old(variables) && time == old(time) && systemValues == old(systemValues)
    {
      var i := 0;
      while i < |values|
        invariant 0 <= i <= |values|
        invariant SetAll(old(parameters), values, time, systemValues) == SetAll(parameters, values[i..], time, systemValues)
        invariant variables == old(variables) && time == old(time) && systemValues == old(systemValues)
      {
        assert values[i..][0] == values[i] && values[i..][1..] == values[i + 1..];
        var step := SetOne(parameters, values[i].0, values[i].1, time, systemValues);
        if step.Err? {
          return Err(step.error);
        }
        parameters := step.value;
        i := i + 1;
      }
      r := Ok(());
    }

    /** `set_initial_values(values)` */
    method SetInitialValues(values: seq<(string, real)>) returns (r: Result<()>)
      modifies this
      ensures (variables, r) == InitAll(old(variables), values)
      ensures parameters == old(parameters) && time == old(time) && systemValues == old(systemValues)
    {
      var i := 0;
      while i < |values|
        invariant 0 <= i <= |values|
        invariant InitAll(old(variables), values) == InitFrom(variables, values, i)
        invariant parameters == old(parameters) && time == old(time) && systemValues == old(systemValues)
      {
        var step := InitOne(variables, values[i].0, values[i].1);
        if step.Err? {
          return Err(step.error);
        }
        variables := step.value;
        i := i + 1;
      }
      r := Ok(());
    }
  }

  /**
   * `Simulation(system, solver, initial_values, input_parameters)`: copies of
   * the system's variables and of its parameters in update order, then the
   * initial values and the input parameters are set.
   */
  method NewSimulation(variables: Dict<Variable>, parameters: Dict<SimParameter>, order: seq<string>, time: string,
                       systemValues: set<Expr>, initialValues: seq<(string, real)>, inputParameters: seq<(string, Raw)>)
    returns (r: Result<Setter>)
    ensures OrderedParameters(parameters, order).Err? ==> r == Err(KeyError)
    ensures r.Ok? <==> OrderedParameters(parameters, order).Ok?
                       && InitAll(variables, initialValues).1.Ok?
                       && SetAll(OrderedParameters(parameters, order).value, inputParameters, time, systemValues).1.Ok?
    ensures r.Ok? ==> fresh(r.value)
                      && r.value.variables == InitAll(variables, initialValues).0
                      && r.value.parameters
                         == SetAll(OrderedParameters(parameters, order).value, inputParameters, time, systemValues).0
                      && r.value.time == time && r.value.systemValues == systemValues
  {
    var ordered := OrderedParameters(parameters, order);
    if ordered.Err? {
      return Err(ordered.error);
    }
    var sim := new Setter(variables, ordered.value, time, systemValues);
    var init := sim.SetInitialValues(initialValues);
    if init.Err? {
      return Err(init.error);
    }
    var setting := sim.SetParameters(inputParameters);
    if setting.Err? {
      return Err(setting.error);
    }
    r := Ok(sim);
  }
}
