/**
 * The first version of the ported-object engine, `psymple/ported_objects.py`.
 * Its ports, port entries and compiled ports have the shapes of the later
 * engine, but it behaves differently in a few places: a port whose name is
 * already a variable or output port raises `ValueError` instead of being
 * skipped with a warning; the child variables summed by a variable
 * aggregation wire must agree on their initial values; and
 * `set_input_parameters` moves defaulted input ports into the internal
 * parameters, removing them from the inputs.
 */
module LegacyPortedObjects {
  import opened Wrappers
  import opened Expressions
  import opened Values
  import opened Dicts
  import opened Ports
  import opened Assignments
  import opened CompiledPorts
  import opened Wires
  import opened SimVariables
  import PortedBase
  import PortedObjects
  import Names

  /*
   * Assignments
   */

  /**
   * The right-hand side as `Assignment.__init__` leaves it: a string, an int or
   * a float is sympified and a sympy object is kept. `None` or any other object
   * is kept as well, and fails with `AttributeError` as soon as its free
   * symbols are asked for.
   */
  function LegacyExpression(raw: Raw): (r: Result<Expr>)
    ensures r.Ok? <==> WrapExpression(raw).Ok? && WrapExpression(raw).value.Some?
    ensures r.Ok? ==> WrapExpression(raw) == Ok(Some(r.value))
    ensures raw.RNone? || raw.ROther? ==> r == Err(AttributeError)
  {
    match raw
    case RStr(_, parsed) => if parsed.Some? then Ok(parsed.value) else Err(SyntaxError)
    case RInt(i) => Ok(Num(i as real))
    case RFloat(x) => Ok(Num(x))
    case RBasic(e) => Ok(e)
    case _ => Err(AttributeError)
  }

  /**
   * `ParameterAssignment(symbol, expression)` and its tagged subclasses: the
   * symbol becomes a `Parameter` whose value is the expression, and a symbol
   * occurring in its own expression raises `DependencyError`. Whenever either
   * engine builds the assignment, both build the same one.
   */
  function LegacyParameter(tag: ParameterTag, symbol: string, expression: Raw): (r: Result<Assignment>)
    ensures r.Ok? ==> r.value == Parameter(tag, symbol, r.value.expression, r.value.expression)
    ensures r.Ok? ==> symbol !in FreeSymbols(r.value.expression)
    ensures LegacyExpression(expression).Ok? ==>
      (r.Ok? <==> symbol !in FreeSymbols(LegacyExpression(expression).value))
    ensures LegacyExpression(expression).Ok? && r.Err? ==> r.error == DependencyError
    ensures r.Ok? || NewParameter(tag, symbol, expression).Ok? ==> r == NewParameter(tag, symbol, expression)
  {
    var e :- LegacyExpression(expression);
    if symbol in FreeSymbols(e) then Err(DependencyError) else Ok(Parameter(tag, symbol, e, e))
  }

  /** The left-hand side an assignment is given: a plain symbol with its description, or a `Variable`. */
  datatype SymbolArg = PlainSymbol(name: string, description: string) | VariableArg(variable: Variable)

  /** A differential assignment of the legacy engine: its `Variable`, carrying the initial value, and its right-hand side. */
  datatype LegacyDifferential = LegacyDifferential(variable: Variable, expression: Expr)

  /**
   * `DifferentialAssignment(symbol_wrapper, expression)`: a plain symbol is
   * coerced into a `Variable` of initial value 0 that keeps its description;
   * a `Variable` is kept as given. Where it succeeds, the later engine builds
   * the same assignment.
   */
  function NewLegacyDifferential(s: SymbolArg, expression: Raw): (r: Result<LegacyDifferential>)
    ensures r.Ok? <==> LegacyExpression(expression).Ok?
    ensures r.Ok? && s.PlainSymbol? ==> r.value.variable == Variable(s.name, Some(0.0), s.description)
    ensures r.Ok? && s.VariableArg? ==> r.value.variable == s.variable
    ensures r.Ok? ==> NewDifferential(r.value.variable.symbol, expression)
                      == Ok(Differential(r.value.variable.symbol, r.value.expression))
  {
    var e :- LegacyExpression(expression);
    match s
    case PlainSymbol(name, description) => Ok(LegacyDifferential(Variable(name, Some(0.0), description), e))
    case VariableArg(v) => Ok(LegacyDifferential(v, e))
  }

  /**
   * `combine(other)`: the other right-hand side is added to this one; the
   * variable, and with it the initial value, stays.
   */
  function Combine(a: LegacyDifferential, other: LegacyDifferential): (r: LegacyDifferential)
    ensures r.variable == a.variable
    ensures FreeSymbols(r.expression) == FreeSymbols(a.expression) + FreeSymbols(other.expression)
    ensures Differential(r.variable.symbol, r.expression)
         == Combined(Differential(a.variable.symbol, a.expression), Differential(other.variable.symbol, other.expression))
  {
    a.(expression := Add(a.expression, other.expression))
  }

  /*
   * Ports
   */

  /**
   * `check_existing_port_names(port)`: `ValueError` when the name is already a
   * variable or an output port. Input ports are not consulted (the variable
   * ports are looked at twice instead). Where the later engine only warns and
   * skips the port, this one raises.
   */
  function CheckExistingPortNames(t: PortedBase.PortTable, name: string): (r: Result<()>)
    ensures r.Err? <==> HasKey(t.variables, name) || HasKey(t.outputs, name)
    ensures r.Err? ==> r.error == ValueError
    ensures t.parsingLocals == {} ==> (r.Ok? <==> PortedBase.CheckExistingPortNames(t, name))
  {
    if HasKey(t.variables, name) || HasKey(t.outputs, name) || HasKey(t.variables, name) then Err(ValueError)
    else Ok(())
  }

  /**
   * `parse_port_entry(port_info, port_type)`: the entry is parsed as by the
   * later engine except that a tuple without a description gives the port the
   * description `None` rather than `""`; then the name of the port is checked.
   */
  function ParsePortEntry(t: PortedBase.PortTable, entry: PortedBase.PortEntry, kind: PortKind): (r: Result<Port>)
    ensures r.Ok? <==> PortedBase.ParseEntry(entry, kind, RNone).Ok? &&
                       CheckExistingPortNames(t, PortedBase.ParseEntry(entry, kind, RNone).value.name).Ok?
    ensures r.Ok? ==> KindOf(r.value) == kind && !HasKey(t.variables, r.value.name) && !HasKey(t.outputs, r.value.name)
    ensures PortedBase.ParseEntry(entry, kind, RNone).Ok? && r.Err? ==> r.error == ValueError
  {
    var p :- PortedBase.ParseEntry(entry, kind, RNone);
    var _ :- CheckExistingPortNames(t, p.name);
    Ok(p)
  }

  /** `ports[port.name] = port` in the dictionary of the port's kind. */
  function Insert(t: PortedBase.PortTable, kind: PortKind, p: Port): PortedBase.PortTable
  {
    PortedBase.WithPorts(t, kind, Put(PortedBase.PortsOf(t, kind), p.name, p))
  }

  /** Each entry parsed on its own, a tuple without a description getting `None`. */
  function ParseAll(entries: seq<PortedBase.PortEntry>, kind: PortKind): (r: seq<Result<Port>>)
    ensures |r| == |entries| && forall i :: 0 <= i < |r| ==> r[i] == PortedBase.ParseEntry(entries[i], kind, RNone)
  {
    seq(|entries|, i requires 0 <= i < |entries| => PortedBase.ParseEntry(entries[i], kind, RNone))
  }

  /**
   * Adding the parsed ports from index `i` on, in order: the first parse
   * error, or the first port whose name is already a variable or output
   * port, stops the loop.
   */
  function AddParsed(t: PortedBase.PortTable, kind: PortKind, parsed: seq<Result<Port>>, i: nat): Result<PortedBase.PortTable>
    requires i <= |parsed|
    decreases |parsed| - i
  {
    if i == |parsed| then Ok(t)
    else
      var p :- parsed[i];
      var _ :- CheckExistingPortNames(t, p.name);
      AddParsed(Insert(t, kind, p), kind, parsed, i + 1)
  }

  /** One step of `AddParsed`: a parse error or a taken name stops it, otherwise it goes on with the port added. */
  lemma AddParsedStep(t: PortedBase.PortTable, kind: PortKind, parsed: seq<Result<Port>>, i: nat)
    requires i < |parsed|
    ensures parsed[i].Err? ==> AddParsed(t, kind, parsed, i) == Err(parsed[i].error)
    ensures parsed[i].Ok? && CheckExistingPortNames(t, parsed[i].value.name).Err? ==>
      AddParsed(t, kind, parsed, i) == Err(ValueError)
    ensures parsed[i].Ok? && CheckExistingPortNames(t, parsed[i].value.name).Ok? ==>
      AddParsed(t, kind, parsed, i) == AddParsed(Insert(t, kind, parsed[i].value), kind, parsed, i + 1)
  {
  }

  /**
   * `add_input_ports(*ports)` and its siblings, as a specification: each entry
   * is parsed, its name checked, and the port added, in order (parsing does
   * not depend on the ports added before).
   */
  function AddPortsSpec(t: PortedBase.PortTable, kind: PortKind, entries: seq<PortedBase.PortEntry>): Result<PortedBase.PortTable>
  {
    AddParsed(t, kind, ParseAll(entries, kind), 0)
  }

  /** `add_input_ports(*ports)` and its siblings */
  method AddPorts(t: PortedBase.PortTable, kind: PortKind, entries: seq<PortedBase.PortEntry>)
    returns (r: Result<PortedBase.PortTable>)
    ensures r == AddPortsSpec(t, kind, entries)
  {
    var parsed := ParseAll(entries, kind);
    var current := t;
    var i := 0;
    while i < |entries|
      invariant 0 <= i <= |entries|
      invariant AddParsed(current, kind, parsed, i) == AddParsed(t, kind, parsed, 0)
    {
      var p := parsed[i];
      AddParsedStep(current, kind, parsed, i);
      if p.Err? {
        return Err(p.error);
      }
      var check := CheckExistingPortNames(current, p.value.name);
      if check.Err? {
        return Err(check.error);
      }
      current := Insert(current, kind, p.value);
      i := i + 1;
    }
    return Ok(current);
  }

  /** The added port is in the dictionary of its kind. */
  lemma InsertHas(t: PortedBase.PortTable, kind: PortKind, p: Port)
    ensures kind != InputKind ==> HasKey(Insert(t, kind, p).variables, p.name) || HasKey(Insert(t, kind, p).outputs, p.name)
  {
  }

  /** Adding a port keeps every name the table had, in every dictionary. */
  lemma InsertKeeps(t: PortedBase.PortTable, kind: PortKind, p: Port, n: string)
    ensures HasKey(t.inputs, n) ==> HasKey(Insert(t, kind, p).inputs, n)
    ensures HasKey(t.outputs, n) ==> HasKey(Insert(t, kind, p).outputs, n)
    ensures HasKey(t.variables, n) ==> HasKey(Insert(t, kind, p).variables, n)
  {
  }

  /**
   * A port named like an existing variable or output port makes adding the
   * ports fail, whatever comes before it.
   */
  lemma {:induction false} ExistingNameRaises(t: PortedBase.PortTable, kind: PortKind, parsed: seq<Result<Port>>, i: nat, j: nat)
    requires i <= j < |parsed| && parsed[j].Ok?
    requires HasKey(t.variables, parsed[j].value.name) || HasKey(t.outputs, parsed[j].value.name)
    ensures AddParsed(t, kind, parsed, i).Err?
    decreases j - i
  {
    AddParsedStep(t, kind, parsed, i);
    if i < j && parsed[i].Ok? && CheckExistingPortNames(t, parsed[i].value.name).Ok? {
      var u := Insert(t, kind, parsed[i].value);
      InsertKeeps(t, kind, parsed[i].value, parsed[j].value.name);
      ExistingNameRaises(u, kind, parsed, i + 1, j);
    }
  }

  /**
   * Two output ports, or two variable ports, of the same name make adding
   * them fail: the legacy engine never redefines an output or a variable
   * port.
   */
  lemma {:induction false} DuplicateRaises(t: PortedBase.PortTable, kind: PortKind, parsed: seq<Result<Port>>,
                                           from: nat, i: nat, j: nat)
    requires kind != InputKind && from <= i < j < |parsed| && parsed[i].Ok? && parsed[j].Ok?
    requires parsed[i].value.name == parsed[j].value.name
    ensures AddParsed(t, kind, parsed, from).Err?
    decreases i - from
  {
    if parsed[from].Ok? && CheckExistingPortNames(t, parsed[from].value.name).Ok? {
      if from == i {
        InsertHas(t, kind, parsed[i].value);
        ExistingNameRaises(Insert(t, kind, parsed[i].value), kind, parsed, i + 1, j);
      } else {
        DuplicateRaises(Insert(t, kind, parsed[from].value), kind, parsed, from + 1, i, j);
      }
    }
  }

  /** Two entries of an output or variable port of the same name make `add_output_ports` / `add_variable_ports` fail. */
  lemma DuplicateEntriesRaise(t: PortedBase.PortTable, kind: PortKind, entries: seq<PortedBase.PortEntry>, i: nat, j: nat)
    requires kind != InputKind && i < j < |entries|
    requires PortedBase.ParseEntry(entries[i], kind, RNone).Ok? && PortedBase.ParseEntry(entries[j], kind, RNone).Ok?
    requires PortedBase.ParseEntry(entries[i], kind, RNone).value.name == PortedBase.ParseEntry(entries[j], kind, RNone).value.name
    ensures AddPortsSpec(t, kind, entries).Err?
  {
    DuplicateRaises(t, kind, ParseAll(entries, kind), 0, i, j);
  }

  /** Every tuple among the entries gives its description. */
  predicate Described(entries: seq<PortedBase.PortEntry>, kind: PortKind)
  {
    forall e :: e in entries && e.PortTuple? ==> |e.items| >= if kind == InputKind then 3 else 2
  }

  /**
   * Where the legacy engine adds the ports without raising, the later engine
   * (with no `parsing_locals`) adds exactly the same ports, provided every
   * tuple gives its description (the two engines describe the other tuples
   * differently, see `PortedBase.UndescribedTuple`).
   */
  lemma {:induction false} AddParsedAgrees(t: PortedBase.PortTable, kind: PortKind, entries: seq<PortedBase.PortEntry>, i: nat)
    requires t.parsingLocals == {} && i <= |entries| && AddParsed(t, kind, ParseAll(entries, kind), i).Ok?
    requires Described(entries, kind)
    ensures PortedBase.AddPortsSpec(t, kind, entries[i..]) == AddParsed(t, kind, ParseAll(entries, kind), i)
    decreases |entries| - i
  {
    if i < |entries| {
      assert entries[i] in entries;
      PortedBase.DescribedEntryParses(entries[i], kind, RNone, EmptyText);
      var p := ParseAll(entries, kind)[i].value;
      assert entries[i..][0] == entries[i] && entries[i..][1..] == entries[i + 1..];
      assert PortedBase.AddPort(t, kind, p) == Insert(t, kind, p);
      AddParsedAgrees(Insert(t, kind, p), kind, entries, i + 1);
    }
  }

  /*
   * Variable aggregation in `CompositePortedObject.compile`
   */

  /** `d.pop(n)` for each name in turn, collecting the values; `KeyError` at the first name absent by then. */
  function PopAll<V>(d: Dict<V>, names: seq<string>): (r: Result<(Dict<V>, seq<V>)>)
    ensures r.Ok? ==> |r.value.1| == |names|
    ensures r.Err? ==> r.error == KeyError
    decreases |names|
  {
    if names == [] then Ok((d, []))
    else
      var first :- Pop(d, names[0]);
      var rest :- PopAll(first.1, names[1..]);
      Ok((rest.0, [first.0] + rest.1))
  }

  /** One step of popping: the first name, then the rest. */
  lemma PopAllStep<V>(d: Dict<V>, names: seq<string>)
    requires names != []
    ensures !HasKey(d, names[0]) ==> PopAll(d, names).Err?
    ensures HasKey(d, names[0]) ==>
      var d' := Dict(RemoveIn(d.items, names[0]));
      (PopAll(d, names).Ok? <==> PopAll(d', names[1..]).Ok?) &&
      (PopAll(d, names).Ok? ==>
        PopAll(d, names).value == (PopAll(d', names[1..]).value.0, [Get(d, names[0]).value] + PopAll(d', names[1..]).value.1))
  {
  }

  /** Removing a key leaves every other key. */
  lemma RemoveInKeys<V>(d: Dict<V>, n: string)
    ensures forall k :: HasKey(Dict(RemoveIn(d.items, n)), k) <==> HasKey(d, k) && k != n
  {
    forall k | HasKey(d, k) && k != n ensures HasKey(Dict(RemoveIn(d.items, n)), k) {
      assert GetIn(RemoveIn(d.items, n), k) == GetIn(d.items, k);
    }
  }

  /**
   * Popping succeeds exactly when the names are distinct keys of the
   * dictionary: a child variable port named twice is popped the second time
   * from a dictionary that no longer holds it.
   */
  lemma {:induction false} PopAllSucceeds<V>(d: Dict<V>, names: seq<string>)
    ensures PopAll(d, names).Ok? <==> NoDuplicates(names) && forall i :: 0 <= i < |names| ==> HasKey(d, names[i])
    decreases |names|
  {
    if names != [] {
      PopAllStep(d, names);
      var d' := Dict(RemoveIn(d.items, names[0]));
      RemoveInKeys(d, names[0]);
      PopAllSucceeds(d', names[1..]);
      assert forall i :: 1 <= i < |names| ==> names[1..][i - 1] == names[i];
      if NoDuplicates(names) && forall i :: 0 <= i < |names| ==> HasKey(d, names[i]) {
        assert NoDuplicates(names[1..]);
        assert forall i :: 0 <= i < |names[1..]| ==> HasKey(d', names[1..][i]);
      } else if HasKey(d, names[0]) && PopAll(d', names[1..]).Ok? {
        assert NoDuplicates(names[1..]) && forall i :: 0 <= i < |names[1..]| ==> HasKey(d', names[1..][i]);
        forall a, b | 0 <= a < b < |names| ensures names[a] != names[b] {
          if a == 0 {
            assert HasKey(d', names[1..][b - 1]);
          } else {
            assert names[1..][a - 1] != names[1..][b - 1];
          }
        }
      }
    }
  }

  /** Popping gives the values stored under the names, and the names are gone afterwards. */
  lemma {:induction false} PopAllValues<V>(d: Dict<V>, names: seq<string>)
    requires PopAll(d, names).Ok?
    ensures forall i :: 0 <= i < |names| ==> Get(d, names[i]) == Some(PopAll(d, names).value.1[i])
    ensures forall k :: HasKey(PopAll(d, names).value.0, k) <==> HasKey(d, k) && k !in names
    decreases |names|
  {
    if names != [] {
      PopAllStep(d, names);
      PopAllSucceeds(d, names);
      var d' := Dict(RemoveIn(d.items, names[0]));
      RemoveInKeys(d, names[0]);
      PopAllValues(d', names[1..]);
      var vs := PopAll(d, names).value.1;
      assert vs[1..] == PopAll(d', names[1..]).value.1;
      forall i | 1 <= i < |names| ensures Get(d, names[i]) == Some(vs[i]) {
        assert names[1..][i - 1] == names[i] && vs[1..][i - 1] == vs[i];
        assert names[i] != names[0];
        assert GetIn(RemoveIn(d.items, names[0]), names[i]) == GetIn(d.items, names[i]);
      }
    }
  }

  /** The initial values of a sequence of child variables, in order. */
  function InitialValues(children: seq<LegacyDifferential>): (r: seq<Option<real>>)
    ensures |r| == |children| && forall i :: 0 <= i < |r| ==> r[i] == children[i].variable.initialValue
  {
    seq(|children|, i requires 0 <= i < |children| => children[i].variable.initialValue)
  }

  /** Two of the values are known (not `None`) and differ. */
  predicate Conflicting(values: seq<Option<real>>)
  {
    exists i, j :: 0 <= i < |values| && 0 <= j < |values| && values[i].Some? && values[j].Some? && values[i] != values[j]
  }

  /**
   * `v` is the value a set of initial values agrees on: `None` when every value
   * is `None`, and otherwise one of the values, equal to every known one.
   */
  predicate AgreedValue(v: Option<real>, values: seq<Option<real>>)
  {
    (v.None? <==> forall i :: 0 <= i < |values| ==> values[i].None?) &&
    (v.Some? ==> v in values && forall i :: 0 <= i < |values| && values[i].Some? ==> values[i] == v)
  }

  /** `initial_values.add(...)` for each child in turn: the set of the children's initial values. */
  method CollectInitialValues(values: seq<Option<real>>) returns (seen: set<Option<real>>)
    ensures forall v :: v in seen <==> v in values
  {
    seen := {};
    var i := 0;
    while i < |values|
      invariant 0 <= i <= |values|
      invariant forall v :: v in seen <==> v in values[..i]
    {
      assert values[..i + 1] == values[..i] + [values[i]];
      seen := seen + {values[i]};
      i := i + 1;
    }
    assert values[..i] == values;
  }

  /**
   * The initial value of an aggregated variable: the set of the children's
   * initial values without `None` must hold at most one value (else
   * `ValueError`), and that value, or `None`, is passed on.
   */
  method AggregateInitialValue(values: seq<Option<real>>) returns (r: Result<Option<real>>)
    ensures r.Err? <==> Conflicting(values)
    ensures r.Err? ==> r.error == ValueError
    ensures r.Ok? ==> AgreedValue(r.value, values)
  {
    var seen := CollectInitialValues(values);
    var known := seen - {None};
    assert forall k :: 0 <= k < |values| && values[k].Some? ==> values[k] in known;
    if |known| > 1 {
      var v :| v in known;
      assert |known - {v}| == |known| - 1;
      var w :| w in known - {v};
      var a :| 0 <= a < |values| && values[a] == v;
      var b :| 0 <= b < |values| && values[b] == w;
      assert values[a].Some? && values[b].Some? && values[a] != values[b];
      return Err(ValueError);
    } else if |known| == 1 {
      var v :| v in known;
      assert |known - {v}| == 0;
      assert known == {v};
      r := Ok(v);
    } else {
      r := Ok(None);
    }
  }

  /** The right-hand sides of a sequence of child variables, in order. */
  function RightHandSides(children: seq<LegacyDifferential>): (r: seq<Expr>)
    ensures |r| == |children| && forall i :: 0 <= i < |r| ==> r[i] == children[i].expression
  {
    seq(|children|, i requires 0 <= i < |children| => children[i].expression)
  }

  /** What one aggregation wire leaves behind. */
  datatype Aggregation = Aggregation(
    /** the child variable ports still unconnected */
    unconnected: Dict<LegacyDifferential>,
    /** the new variable and its summed right-hand side */
    assignment: LegacyDifferential,
    /** each child variable identified with the new one */
    identifications: seq<SymbolIdentification>,
    /**
     * the name and description of the new compiled variable port, taken from
     * the parent port, or `None` when the assignment stays internal
     */
    parent: Option<(string, Raw)>)

  /**
   * One `VariableAggregationWiring` of `compile` on the composite object
   * `po`: the summed child variable ports are popped from the unconnected
   * ones (`KeyError` for one already taken), their known initial values must
   * agree (`ValueError`), the new variable is named after the parent port or
   * else the output name (`WiringError` with neither), its right-hand side is
   * `0` plus each child's right-hand side, and each child variable is
   * identified with it. With a parent port, that port is looked up with the
   * composite object's `_get_port_by_name`: its own ports first, then
   * `child.rest` in the named child; an unknown name without a separator or
   * an unknown child raises `ValueError`, and a child that is not composite
   * gives `None`, whose `name` then raises `AttributeError`. A compiled
   * variable port with the found port's name and description is added, which
   * raises `ValueError` when the name is already one of `compiledNames`, the
   * compiled object's variable and output ports.
   */
  method Aggregate(po: PortedObjects.PortedObject, compiledNames: set<string>, unconnected: Dict<LegacyDifferential>,
                   w: VariableAggregationWiring)
    returns (r: Result<Aggregation>)
    requires po.CompositeObject?
    ensures PopAll(unconnected, w.childPorts).Err? ==> r == Err(KeyError)
    ensures PopAll(unconnected, w.childPorts).Ok? ==>
      var children := PopAll(unconnected, w.childPorts).value.1;
      var parent := if w.parentPort.Some? then PortedObjects.LookupPort(po, w.parentPort.value) else Ok(None);
      var unnamed := w.parentPort.None? && w.outputName.None?;
      (r.Err? <==> Conflicting(InitialValues(children)) || unnamed ||
                   (w.parentPort.Some? && (parent.Err? || parent.value.None? || parent.value.value.name in compiledNames))) &&
      (r.Err? ==> r.error == if Conflicting(InitialValues(children)) then ValueError
                             else if unnamed then WiringError
                             else if parent.Err? then ValueError
                             else if parent.value.None? then AttributeError
                             else ValueError)
    ensures r.Ok? ==>
      var (rest, children) := PopAll(unconnected, w.childPorts).value;
      var name := if w.parentPort.Some? then w.parentPort.value else w.outputName.value;
      r.value.unconnected == rest &&
      r.value.assignment.variable.symbol == name && r.value.assignment.variable.description == "" &&
      AgreedValue(r.value.assignment.variable.initialValue, InitialValues(children)) &&
      r.value.assignment.expression == SumOf(Num(0.0), RightHandSides(children)) &&
      |r.value.identifications| == |children| &&
      (forall i :: 0 <= i < |children| ==>
        r.value.identifications[i] == SymbolIdentification(name, children[i].variable.symbol)) &&
      (w.parentPort.None? ==> r.value.parent.None?)
    ensures r.Ok? && w.parentPort.Some? ==>
      var found := PortedObjects.LookupPort(po, w.parentPort.value);
      found.Ok? && found.value.Some? &&
      r.value.parent == Some((found.value.value.name, found.value.value.description)) &&
      found.value.value.name !in compiledNames
    ensures PopAll(unconnected, w.childPorts).Ok? && !Conflicting(InitialValues(PopAll(unconnected, w.childPorts).value.1))
            && w.parentPort.Some? ==>
      var own := PortedBase.GetPortByName(po.table, w.parentPort.value);
      (own.Some? ==> (r.Ok? <==> own.value.name !in compiledNames)
                     && (r.Ok? ==> r.value.parent == Some((own.value.name, own.value.description)))) &&
      (own.None? && Names.SplitFirst(w.parentPort.value).None? ==> r == Err(ValueError)) &&
      (own.None? && Names.SplitFirst(w.parentPort.value).Some?
                 && Names.SplitFirst(w.parentPort.value).value.0 !in PortedObjects.ChildNames(po.children)
       ==> r == Err(ValueError))
  {
    var popped := PopAllLoop(unconnected, w.childPorts);
    if popped.Err? {
      return Err(popped.error);
    }
    var (rest, children) := popped.value;
    var initial := AggregateInitialValue(InitialValues(children));
    if initial.Err? {
      return Err(initial.error);
    }
    var name;
    if w.parentPort.Some? {
      name := w.parentPort.value;
    } else if w.outputName.Some? {
      name := w.outputName.value;
    } else {
      return Err(WiringError);
    }
    var assignment, identifications := CombineChildren(Variable(name, initial.value, ""), children);
    var parent := None;
    if w.parentPort.Some? {
      var found := PortedObjects.LookupPort(po, w.parentPort.value);
      if found.Err? {
        return Err(found.error);
      }
      if found.value.None? {
        return Err(AttributeError);
      }
      if found.value.value.name in compiledNames {
        return Err(ValueError);
      }
      parent := Some((found.value.value.name, found.value.value.description));
    }
    r := Ok(Aggregation(rest, assignment, identifications, parent));
  }

  /**
   * `assg.combine(child.assignment)` and the symbol identification, for each
   * child in turn, starting from the assignment of `variable` to `0`.
   */
  method CombineChildren(variable: Variable, children: seq<LegacyDifferential>)
    returns (assignment: LegacyDifferential, identifications: seq<SymbolIdentification>)
    ensures assignment.variable == variable
    ensures assignment.expression == SumOf(Num(0.0), RightHandSides(children))
    ensures |identifications| == |children|
    ensures forall k :: 0 <= k < |children| ==>
      identifications[k] == SymbolIdentification(variable.symbol, children[k].variable.symbol)
  {
    assignment := LegacyDifferential(variable, Num(0.0));
    identifications := [];
    var i := 0;
    assert RightHandSides(children)[0..] == RightHandSides(children);
    while i < |children|
      invariant 0 <= i <= |children|
      invariant assignment.variable == variable
      invariant SumOf(assignment.expression, RightHandSides(children)[i..]) == SumOf(Num(0.0), RightHandSides(children))
      invariant |identifications| == i
      invariant forall k :: 0 <= k < i ==> identifications[k] == SymbolIdentification(variable.symbol, children[k].variable.symbol)
    {
      assert RightHandSides(children)[i..][1..] == RightHandSides(children)[i + 1..];
      assignment := Combine(assignment, children[i]);
      identifications := identifications + [SymbolIdentification(variable.symbol, children[i].variable.symbol)];
      i := i + 1;
    }
    assert RightHandSides(children)[i..] == [];
  }

  /** The outcome of popping the remaining names, after `values` were popped already. */
  function AfterPopped<V>(values: seq<V>, r: Result<(Dict<V>, seq<V>)>): Result<(Dict<V>, seq<V>)>
  {
    if r.Err? then r else Ok((r.value.0, values + r.value.1))
  }

  /** Popping the next name moves its value into the popped ones. */
  lemma AfterPoppedStep<V>(values: seq<V>, d: Dict<V>, names: seq<string>)
    requires names != [] && HasKey(d, names[0])
    ensures AfterPopped(values, PopAll(d, names))
         == AfterPopped(values + [Get(d, names[0]).value], PopAll(Dict(RemoveIn(d.items, names[0])), names[1..]))
  {
    PopAllStep(d, names);
    var v := Get(d, names[0]).value;
    var rest := PopAll(Dict(RemoveIn(d.items, names[0])), names[1..]);
    if rest.Ok? {
      AfterPoppedJoin(values, v, PopAll(d, names), rest);
    }
  }

  /** Adding the popped value at the front of the rest, or after the earlier values, gives the same list. */
  lemma AfterPoppedJoin<V>(values: seq<V>, v: V, whole: Result<(Dict<V>, seq<V>)>, rest: Result<(Dict<V>, seq<V>)>)
    requires whole.Ok? && rest.Ok? && whole.value == (rest.value.0, [v] + rest.value.1)
    ensures AfterPopped(values, whole) == AfterPopped(values + [v], rest)
  {
    assert values + ([v] + rest.value.1) == (values + [v]) + rest.value.1;
  }

  /** The pops of one aggregation wire, one name after another. */
  method PopAllLoop<V>(d: Dict<V>, names: seq<string>) returns (r: Result<(Dict<V>, seq<V>)>)
    ensures r == PopAll(d, names)
  {
    var current := d;
    var values := [];
    var i := 0;
    assert names[0..] == names;
    if PopAll(d, names).Ok? {
      assert [] + PopAll(d, names).value.1 == PopAll(d, names).value.1;
    }
    while i < |names|
      invariant 0 <= i <= |names|
      invariant AfterPopped(values, PopAll(current, names[i..])) == PopAll(d, names)
    {
      assert names[i..][0] == names[i] && names[i..][1..] == names[i + 1..];
      if !HasKey(current, names[i]) {
        PopAllStep(current, names[i..]);
        return Err(KeyError);
      }
      var v := Get(current, names[i]).value;
      AfterPoppedStep(values, current, names[i..]);
      current := Dict(RemoveIn(current.items, names[i]));
      values := values + [v];
      i := i + 1;
    }
    assert names[i..] == [];
    assert values + [] == values;
    r := Ok((current, values));
  }

  /** The summed right-hand side of an aggregation uses exactly the symbols of the children's right-hand sides. */
  lemma AggregateSymbols(children: seq<LegacyDifferential>)
    ensures forall s :: s in FreeSymbols(SumOf(Num(0.0), RightHandSides(children))) <==>
      exists i :: 0 <= i < |children| && s in FreeSymbols(children[i].expression)
  {
    SumOfFreeSymbols(Num(0.0), RightHandSides(children));
  }

  /*
   * `CompiledPortedObject.set_input_parameters`
   */

  /** An input port whose default value is not `None`. */
  predicate Defaulted(p: CompiledPort)
  {
    p.CompiledInput? && !p.defaultValue.RNone?
  }

  /** The keys of the defaulted input ports, in order. */
  function DefaultedNames(items: seq<(string, CompiledPort)>): (r: seq<string>)
    ensures forall n :: n in r ==> n in KeysOf(items)
    ensures forall i :: 0 <= i < |items| && Defaulted(items[i].1) ==> items[i].0 in r
    decreases |items|
  {
    if items == [] then []
    else
      var rest := DefaultedNames(items[1..]);
      assert KeysOf(items) == [items[0].0] + KeysOf(items[1..]);
      assert forall i :: 1 <= i < |items| ==> items[i] == items[1..][i - 1];
      if Defaulted(items[0].1) then [items[0].0] + rest else rest
  }

  /**
   * The first loop of `set_input_parameters`, as a specification: each
   * defaulted input becomes a `DefaultParameterAssignment` of its name,
   * stored among the internal parameters under that name.
   */
  function AddDefaults(params: Dict<Assignment>, items: seq<(string, CompiledPort)>): Result<Dict<Assignment>>
    decreases |items|
  {
    if items == [] then Ok(params)
    else if Defaulted(items[0].1) then
      var a :- LegacyParameter(DefaultParameter, items[0].0, items[0].1.defaultValue);
      AddDefaults(Put(params, items[0].0, a), items[1..])
    else AddDefaults(params, items[1..])
  }

  /** The second loop of `set_input_parameters`, as a specification: each name is removed in turn. */
  function RemoveAll<V>(d: Dict<V>, names: seq<string>): (r: Dict<V>)
    ensures forall k :: HasKey(r, k) <==> HasKey(d, k) && k !in names
    ensures forall k :: k !in names ==> Get(r, k) == Get(d, k)
    ensures forall x :: x in r.items ==> x in d.items
    decreases |names|
  {
    if names == [] then d
    else
      RemoveInItems(d.items, names[0]);
      RemoveInKeys(d, names[0]);
      RemoveAll(Dict(RemoveIn(d.items, names[0])), names[1..])
  }

  /** A key that is not defaulted keeps its internal parameter. */
  lemma {:induction false} AddDefaultsKeeps(params: Dict<Assignment>, items: seq<(string, CompiledPort)>, k: string)
    requires k !in DefaultedNames(items) && AddDefaults(params, items).Ok?
    ensures Get(AddDefaults(params, items).value, k) == Get(params, k)
    decreases |items|
  {
    if items != [] {
      if Defaulted(items[0].1) {
        var a := LegacyParameter(DefaultParameter, items[0].0, items[0].1.defaultValue).value;
        AddDefaultsKeeps(Put(params, items[0].0, a), items[1..], k);
      } else {
        AddDefaultsKeeps(params, items[1..], k);
      }
    }
  }

  /**
   * With distinct keys, each defaulted input ends up as the internal
   * `DefaultParameterAssignment` of its name, its default value being the
   * expression.
   */
  lemma {:induction false} AddDefaultsAssigns(params: Dict<Assignment>, items: seq<(string, CompiledPort)>, i: nat)
    requires DistinctKeys(items) && i < |items| && Defaulted(items[i].1)
    requires AddDefaults(params, items).Ok?
    ensures LegacyParameter(DefaultParameter, items[i].0, items[i].1.defaultValue).Ok?
    ensures Get(AddDefaults(params, items).value, items[i].0)
         == Some(LegacyParameter(DefaultParameter, items[i].0, items[i].1.defaultValue).value)
    decreases i
  {
    var next := if Defaulted(items[0].1) then
      Put(params, items[0].0, LegacyParameter(DefaultParameter, items[0].0, items[0].1.defaultValue).value)
      else params;
    var rest := items[1..];
    assert forall j :: 0 <= j < |rest| ==> rest[j] == items[j + 1];
    assert AddDefaults(params, items) == AddDefaults(next, rest);
    if i == 0 {
      assert items[0].0 !in KeysOf(rest) by {
        forall j | 0 <= j < |rest| ensures KeysOf(rest)[j] != items[0].0 {
        }
      }
      AddDefaultsKeeps(next, rest, items[0].0);
    } else {
      AddDefaultsAssigns(next, rest, i - 1);
    }
  }

  /** After the second loop no input port left has a default value. */
  lemma InputsLeftWithoutDefault(d: Dict<CompiledPort>)
    ensures forall x :: x in RemoveAll(d, DefaultedNames(d.items)).items ==> !Defaulted(x.1)
  {
    var r := RemoveAll(d, DefaultedNames(d.items));
    forall x | x in r.items ensures !Defaulted(x.1) {
      var j :| 0 <= j < |r.items| && r.items[j] == x;
      assert KeysOf(r.items)[j] == x.0;
      var i :| 0 <= i < |d.items| && d.items[i] == x;
    }
  }

  /** Every input port without a default value stays, unchanged. */
  lemma UndefaultedInputsStay(d: Dict<CompiledPort>, k: string)
    requires Dicts.Valid(d) && HasKey(d, k) && !Defaulted(Get(d, k).value)
    ensures Get(RemoveAll(d, DefaultedNames(d.items)), k) == Get(d, k)
  {
    if k in DefaultedNames(d.items) {
      DistinctKeysOf(d.items);
      DefaultedNamesDefaulted(d.items, k);
    }
  }

  /** With distinct keys, a defaulted name is the key of a defaulted port. */
  lemma {:induction false} DefaultedNamesDefaulted(items: seq<(string, CompiledPort)>, k: string)
    requires DistinctKeys(items) && k in DefaultedNames(items)
    ensures GetIn(items, k).Some? && Defaulted(GetIn(items, k).value)
    decreases |items|
  {
    if items[0].0 != k {
      var rest := items[1..];
      assert forall j :: 0 <= j < |rest| ==> rest[j] == items[j + 1];
      DefaultedNamesDefaulted(rest, k);
    }
  }

  /** The first loop of `set_input_parameters`: the new internal parameters and the defaulted names. */
  method AddDefaultsLoop(params: Dict<Assignment>, items: seq<(string, CompiledPort)>)
    returns (r: Result<(Dict<Assignment>, seq<string>)>)
    ensures var next := AddDefaults(params, items);
      (r.Ok? <==> next.Ok?) && (r.Err? ==> r.error == next.error) &&
      (r.Ok? ==> r.value == (next.value, DefaultedNames(items)))
  {
    var current := params;
    var defaulted := [];
    var i := 0;
    while i < |items|
      invariant 0 <= i <= |items|
      invariant AddDefaults(current, items[i..]) == AddDefaults(params, items)
      invariant defaulted + DefaultedNames(items[i..]) == DefaultedNames(items)
    {
      assert items[i..][0] == items[i] && items[i..][1..] == items[i + 1..];
      var (name, port) := items[i];
      if Defaulted(port) {
        var a := LegacyParameter(DefaultParameter, name, port.defaultValue);
        if a.Err? {
          return Err(a.error);
        }
        current := Put(current, name, a.value);
        defaulted := defaulted + [name];
      }
      i := i + 1;
    }
    assert items[i..] == [];
    assert defaulted + DefaultedNames(items[i..]) == defaulted;
    return Ok((current, defaulted));
  }

  /** The second loop of `set_input_parameters`: `pop` of each defaulted name. */
  method RemoveAllLoop<V>(d: Dict<V>, names: seq<string>) returns (r: Dict<V>)
    ensures r == RemoveAll(d, names)
  {
    r := d;
    var j := 0;
    while j < |names|
      invariant 0 <= j <= |names|
      invariant RemoveAll(r, names[j..]) == RemoveAll(d, names)
    {
      assert names[j..][0] == names[j] && names[j..][1..] == names[j + 1..];
      r := Dict(RemoveIn(r.items, names[j]));
      j := j + 1;
    }
    assert names[j..] == [];
  }

  /** The free inputs and the internal parameters of a legacy compiled ported object. */
  class LegacyCompiled {
    var inputs: Dict<CompiledPort>
    var internalParameters: Dict<Assignment>

    /** The input ports are compiled input ports with distinct names. */
    ghost predicate InputsWellFormed()
      reads this
    {
      Dicts.Valid(inputs) && forall x :: x in inputs.items ==> x.1.CompiledInput?
    }

    constructor (inputs: Dict<CompiledPort>, internalParameters: Dict<Assignment>)
      ensures this.inputs == inputs && this.internalParameters == internalParameters
    {
      this.inputs := inputs;
      this.internalParameters := internalParameters;
    }

    /**
     * `set_input_parameters()`: each input port with a default value becomes
     * the internal `DefaultParameterAssignment` of its name, and is then
     * removed from the input ports; the inputs without a default stay. An
     * error of the first loop leaves the input ports as they were.
     */
    method SetInputParameters() returns (r: Result<()>)
      modifies this
      ensures var next := AddDefaults(old(internalParameters), old(inputs).items);
        (r.Ok? <==> next.Ok?) && (r.Err? ==> r.error == next.error)
      ensures r.Ok? ==> internalParameters == AddDefaults(old(internalParameters), old(inputs).items).value
      ensures r.Ok? ==> inputs == RemoveAll(old(inputs), DefaultedNames(old(inputs).items))
      ensures r.Err? ==> inputs == old(inputs)
    {
      var added := AddDefaultsLoop(internalParameters, inputs.items);
      if added.Err? {
        return Err(added.error);
      }
      internalParameters := added.value.0;
      inputs := RemoveAllLoop(inputs, added.value.1);
      r := Ok(());
    }
  }
}
