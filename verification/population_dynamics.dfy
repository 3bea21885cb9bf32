/**
 * The ready-made population models of `psymple/population_dynamics/core.py`:
 * a functional object summing its inputs, a variable object growing at a
 * rate, and a composite population wiring a birth and a death rate through
 * the sum into the growth rate. The constructors only build strings and
 * argument lists; what sympy makes of a built string is a parameter.
 */
module PopulationDynamics {
  import opened Wrappers
  import opened Values
  import opened Expressions
  import opened Names
  import opened Dicts
  import opened Assignments
  import opened Ports
  import opened PortedBase
  import opened PortedObjects

  // ---------------------------------------------------------------------
  // Joining and splitting strings

  /** `sep.join(parts)` */
  function JoinWith(sep: char, parts: seq<string>): (r: string)
    ensures parts == [] ==> r == []
    ensures |parts| == 1 ==> r == parts[0]
    decreases |parts|
  {
    if parts == [] then []
    else if |parts| == 1 then parts[0]
    else parts[0] + [sep] + JoinWith(sep, parts[1..])
  }

  /** `s.split(sep)`: the pieces between the separators, always at least one. */
  function SplitAll(sep: char, s: string): (r: seq<string>)
    ensures |r| >= 1
    decreases |s|
  {
    if s == [] then [[]]
    else
      var rest := SplitAll(sep, s[1..]);
      if s[0] == sep then [[]] + rest else [[s[0]] + rest[0]] + rest[1..]
  }

  /** A string without the separator splits into itself. */
  lemma {:induction false} SplitWithout(sep: char, s: string)
    requires sep !in s
    ensures SplitAll(sep, s) == [s]
    decreases |s|
  {
    if s != [] {
      assert sep !in s[1..];
      SplitWithout(sep, s[1..]);
      assert [s[0]] + s[1..] == s;
    }
  }

  /** Splitting at a separator after a piece without one gives that piece first. */
  lemma {:induction false} SplitAfterPiece(sep: char, a: string, b: string)
    requires sep !in a
    ensures SplitAll(sep, a + [sep] + b) == [a] + SplitAll(sep, b)
    decreases |a|
  {
    var s := a + [sep] + b;
    if a == [] {
      assert s[1..] == b;
    } else {
      assert s[1..] == a[1..] + [sep] + b;
      assert sep !in a[1..];
      SplitAfterPiece(sep, a[1..], b);
      assert [a[0]] + a[1..] == a;
    }
  }

  /**
   * Joining pieces that hold no separator and splitting the result gives the
   * pieces back (for at least one piece: `"".split(sep)` is `[""]`).
   */
  lemma {:induction false} SplitJoined(sep: char, parts: seq<string>)
    requires parts != [] && forall p :: p in parts ==> sep !in p
    ensures SplitAll(sep, JoinWith(sep, parts)) == parts
    decreases |parts|
  {
    if |parts| == 1 {
      SplitWithout(sep, parts[0]);
    } else {
      assert parts[0] in parts;
      assert forall p :: p in parts[1..] ==> p in parts;
      SplitJoined(sep, parts[1..]);
      SplitAfterPiece(sep, parts[0], JoinWith(sep, parts[1..]));
      assert [parts[0]] + parts[1..] == parts;
    }
  }

  // ---------------------------------------------------------------------
  // Summation

  /** The symbol of the single assignment of a `Summation`. */
  const SumSymbol: string := "sum"

  const DefaultSummationName: string := "summation"

  /** The text of the sum: `"+".join(summands)`. */
  function SumText(summands: seq<string>): string
  {
    JoinWith('+', summands)
  }

  /**
   * `Summation(*summands, name)`: a functional object whose one assignment
   * is `sum = "+".join(summands)`; `parsed` is what sympy makes of that text.
   */
  function NewSummation(summands: seq<string>, name: string, parsed: Option<Expr>): Result<PortedObject>
  {
    NewFunctionalObject(name, [], [SumEntry(summands, parsed)], true, {})
  }

  /** `Summation.sum`: the address of the sum from the summation's parent. */
  function SumAddress(name: string): string
  {
    Join(name, SumSymbol)
  }

  /** The free symbols of the sum that become input ports. */
  function SumInputs(e: Expr): set<string>
  {
    FreeSymbols(e) - DefaultGlobals - {SumSymbol}
  }

  /**
   * A summation is built exactly when sympy parses the sum, the sum does
   * not use the symbol `sum` itself, and no summand symbol holds the
   * separator.
   */
  lemma SummationBuilds(summands: seq<string>, name: string, parsed: Option<Expr>)
    ensures NewSummation(summands, name, parsed).Ok? <==>
              parsed.Some? && SumSymbol !in FreeSymbols(parsed.value)
              && forall n :: n in SumInputs(parsed.value) ==> !HasSeparator(n)
  {
    var entry := SumEntry(summands, parsed);
    var t0 := EmptyTable(name);
    OneFunctionalAssignment(name, entry);
    var a := NewParameter(FunctionalParameter, SumSymbol, RStr(SumText(summands), parsed));
    assert ParseAssignmentEntry(entry, ParameterClass(FunctionalParameter)) == a;
    if a.Ok? {
      var names := AssignmentFreeNames(a.value);
      AddSymbolInputsWithCreate(t0, names);
      assert forall n :: n in names <==> n in SumInputs(parsed.value);
    }
  }

  /**
   * A summation that is built has the one assignment `sum`, exposed at an
   * output port `sum`, and an input port for every other symbol of the sum.
   */
  lemma SummationShape(summands: seq<string>, name: string, parsed: Option<Expr>)
    requires NewSummation(summands, name, parsed).Ok?
    ensures parsed.Some?
    ensures var po := NewSummation(summands, name, parsed).value;
              po.FunctionalObject? && po.Name() == name
              && Keys(po.assignments) == [SumSymbol]
              && Get(po.assignments, SumSymbol) == Some(Parameter(FunctionalParameter, SumSymbol, parsed.value, parsed.value))
              && Get(po.table.outputs, SumSymbol) == Some(OutputPort(SumSymbol, EmptyText))
              && forall n :: n in SumInputs(parsed.value) ==> HasKey(po.table.inputs, n)
  {
    var entry := SumEntry(summands, parsed);
    var t0 := EmptyTable(name);
    OneFunctionalAssignment(name, entry);
    var a := NewParameter(FunctionalParameter, SumSymbol, RStr(SumText(summands), parsed));
    assert ParseAssignmentEntry(entry, ParameterClass(FunctionalParameter)) == a;
    if a.Ok? {
      var names := AssignmentFreeNames(a.value);
      AddSymbolInputsWithCreate(t0, names);
      assert forall n :: n in names <==> n in SumInputs(parsed.value);
    }
  }

  /** The assignment entry of a `Summation`. */
  function SumEntry(summands: seq<string>, parsed: Option<Expr>): AssignmentEntry
  {
    AssignmentTuple([RStr(SumSymbol, Some(Sym(SumSymbol))), RStr(SumText(summands), parsed)])
  }

  /** A port table with no ports. */
  function EmptyTable(name: string): PortTable
  {
    PortTable(name, Empty(), Empty(), Empty(), {})
  }

  /** A functional object with no declared inputs and one assignment is that assignment added to an empty object. */
  lemma OneFunctionalAssignment(name: string, entry: AssignmentEntry)
    ensures NewFunctionalObject(name, [], [entry], true, {}) ==
              var a := ParseAssignmentEntry(entry, ParameterClass(FunctionalParameter));
              if a.Err? then Err(a.error) else AddParameter(FunctionalObject(EmptyTable(name), Empty(), true), a.value, true)
  {
    var po := FunctionalObject(EmptyTable(name), Empty(), true);
    assert NewTable(name, [], [], [], {}) == Ok(EmptyTable(name));
    assert NewFunctionalObject(name, [], [entry], true, {}) == AddParametersSpec(po, [entry], true);
    assert [entry][0] == entry && [entry][1..] == [];
    var a := ParseAssignmentEntry(entry, ParameterClass(FunctionalParameter));
    if a.Ok? {
      var next := AddParameter(po, a.value, true);
      if next.Ok? {
        assert AddParametersSpec(next.value, [], true) == Ok(next.value);
      }
    }
  }

  // ---------------------------------------------------------------------
  // Malthusian growth

  const DefaultBaseName: string := "malthusian_var"
  const DefaultVariableSymbol: string := "x"
  const DefaultRateSymbol: string := "r"

  /**
   * Python's truth value of the `rate` argument: `None`, zero and the empty
   * string are false. Any other Python object is taken as true.
   */
  predicate Truthy(v: Raw)
  {
    match v
    case RNone => false
    case RStr(text, _) => text != ""
    case RInt(i) => i != 0
    case RFloat(x) => x != 0.0
    case RBasic(e) => e != Num(0.0)
    case ROther => true
  }

  /** The input ports `MalthusianBase` declares: the rate port, with the rate as its default, only for a true rate. */
  function RatePorts(rateSymbol: string, rate: Raw): seq<PortEntry>
  {
    if Truthy(rate) then [PortDict(map["name" := RStr(rateSymbol, Some(Sym(rateSymbol))), "default_value" := rate])]
    else []
  }

  /** The growth law's text `f"{rate_symbol}*{variable_symbol}"`. */
  function GrowthText(rateSymbol: string, variableSymbol: string): string
  {
    rateSymbol + "*" + variableSymbol
  }

  /** The growth text is the product of the rate symbol and the variable symbol. */
  lemma GrowthTextFactors(rateSymbol: string, variableSymbol: string)
    requires '*' !in rateSymbol && '*' !in variableSymbol
    ensures SplitAll('*', GrowthText(rateSymbol, variableSymbol)) == [rateSymbol, variableSymbol]
  {
    SplitAfterPiece('*', rateSymbol, variableSymbol);
    SplitWithout('*', variableSymbol);
  }

  /**
   * `MalthusianBase(name, rate, variable_symbol, rate_symbol)`: a variable
   * object with the single differential assignment `d(variable)/dt =
   * rate*variable`; `parsed` is what sympy makes of the growth text.
   */
  function NewMalthusianBase(name: string, rate: Raw, variableSymbol: string, rateSymbol: string, parsed: Option<Expr>)
    : Result<PortedObject>
  {
    var entry := AssignmentDict(map["variable" := RStr(variableSymbol, Some(Sym(variableSymbol))),
                                    "expression" := RStr(GrowthText(rateSymbol, variableSymbol), parsed)]);
    NewVariableObject(name, RatePorts(rateSymbol, rate), [], [entry], true, {})
  }

  /** `MalthusianBase.variable`: the address of the variable from the parent. */
  function VariableAddress(name: string, variableSymbol: string): string
  {
    Join(name, variableSymbol)
  }

  /** `MalthusianBase.rate`: the address of the rate from the parent. */
  function RateAddress(name: string, rateSymbol: string): string
  {
    Join(name, rateSymbol)
  }

  /**
   * The addresses of a child's ports lead back to the child and the port, as
   * `_get_port_by_name` splits them.
   */
  lemma AddressesResolve(name: string, symbol: string)
    requires !HasSeparator(name)
    ensures SplitFirst(SumAddress(name)) == Some((name, SumSymbol))
    ensures SplitFirst(VariableAddress(name, symbol)) == Some((name, symbol))
    ensures SplitFirst(RateAddress(name, symbol)) == Some((name, symbol))
  {
    SplitJoin(name, SumSymbol);
    SplitJoin(name, symbol);
  }

  /**
   * The ports `MalthusianBase` declares: for a true rate, exactly the rate
   * port with the rate as its default; otherwise none (a rate symbol holding
   * the separator raises `ValueError`).
   */
  lemma RatePortDeclared(name: string, rateSymbol: string, rate: Raw)
    ensures var t := NewTable(name, RatePorts(rateSymbol, rate), [], [], {});
            (t.Ok? <==> !Truthy(rate) || !HasSeparator(rateSymbol))
            && (t.Ok? && Truthy(rate) ==> Keys(t.value.inputs) == [rateSymbol]
                                          && Get(t.value.inputs, rateSymbol) == Some(InputPort(rateSymbol, EmptyText, rate)))
            && (t.Ok? && !Truthy(rate) ==> Keys(t.value.inputs) == [])
  {
    var t0 := EmptyTable(name);
    var ports := RatePorts(rateSymbol, rate);
    if Truthy(rate) {
      var e := ports[0];
      assert ports[1..] == [];
      assert e.fields.Keys == {"name", "default_value"};
      assert ParsePortEntry(e, InputKind) == NewPort(InputKind, rateSymbol, EmptyText, rate);
      if !HasSeparator(rateSymbol) {
        var t1 := AddPort(t0, InputKind, InputPort(rateSymbol, EmptyText, rate));
        assert AddPortsSpec(t0, InputKind, ports) == AddPortsSpec(t1, InputKind, []);
        assert NewTable(name, ports, [], [], {}) == Ok(t1);
        assert t1.inputs == Put(Empty(), rateSymbol, InputPort(rateSymbol, EmptyText, rate));
      } else {
        assert AddPortsSpec(t0, InputKind, ports) == Err(ValueError);
      }
    } else {
      assert NewTable(name, ports, [], [], {}) == Ok(t0);
    }
  }

  // ---------------------------------------------------------------------
  // Malthusian population

  /** The input ports of `MalthusianPopulation`: the birth and the death rate with their defaults. */
  function PopulationInputs(birthSymbol: string, birthRate: Raw, deathSymbol: string, deathRate: Raw): seq<PortEntry>
  {
    [PortDict(map["name" := RStr(birthSymbol, Some(Sym(birthSymbol))), "default_value" := birthRate]),
     PortDict(map["name" := RStr(deathSymbol, Some(Sym(deathSymbol))), "default_value" := deathRate])]
  }

  /** The summands of the population's rate: the birth rate and minus the death rate. */
  function RateSummands(birthSymbol: string, deathSymbol: string): seq<string>
  {
    [birthSymbol, "-1*" + deathSymbol]
  }

  /** The dictionary `{"source": source, "destination": destination}`. */
  function SourceToDestination(source: string, destination: string): DirectedWireEntry
  {
    DirectedWireDict(Dict([("source", OneDestination(source)), ("destination", OneDestination(destination))]))
  }

  /**
   * The directed wires of `MalthusianPopulation`: each rate input into the
   * summation's port of the same name, and the sum into the growth rate.
   */
  function PopulationWires(baseName: string, summationName: string, birthSymbol: string, deathSymbol: string)
    : seq<DirectedWireEntry>
  {
    [SourceToDestination(birthSymbol, Join(summationName, birthSymbol)),
     SourceToDestination(deathSymbol, Join(summationName, deathSymbol)),
     SourceToDestination(SumAddress(summationName), RateAddress(baseName, DefaultRateSymbol))]
  }

  /** The variable wire of `MalthusianPopulation`: the growth variable exposed at the population's variable port. */
  function PopulationVariableWires(baseName: string, variableSymbol: string): seq<VariableWireEntry>
  {
    [VariableWireDict({"child_ports", "parent_port"}, [VariableAddress(baseName, DefaultVariableSymbol)],
                      Some(variableSymbol), None)]
  }

  /**
   * `MalthusianPopulation(name, birth_rate, death_rate, variable_symbol,
   * birth_rate_symbol, death_rate_symbol)`: a default `MalthusianBase` and a
   * `Summation` of the birth rate and minus the death rate, wired together.
   * `growthParse` and `sumParse` are what sympy makes of the two texts.
   */
  function NewMalthusianPopulation(name: string, birthRate: Raw, deathRate: Raw, variableSymbol: string,
                                   birthSymbol: string, deathSymbol: string,
                                   growthParse: Option<Expr>, sumParse: Option<Expr>): (r: Result<PortedObject>)
    ensures r.Ok? ==> r.value.CompositeObject? && r.value.Name() == name
  {
    var base :- NewMalthusianBase(DefaultBaseName, RNone, DefaultVariableSymbol, DefaultRateSymbol, growthParse);
    var summation :- NewSummation(RateSummands(birthSymbol, deathSymbol), DefaultSummationName, sumParse);
    var args := ObjectArgs(
      Some(PopulationInputs(birthSymbol, birthRate, deathSymbol, deathRate)), None,
      Some([PortString(variableSymbol)]), None, None,
      true, [ChildObject(base), ChildObject(summation)],
      Some(PopulationVariableWires(base.Name(), variableSymbol)),
      Some(PopulationWires(base.Name(), summation.Name(), birthSymbol, deathSymbol)),
      {});
    NewCompositeObject(name, args, {})
  }

  /**
   * Every directed wire of the population, as `add_wires` reads it, runs from
   * the birth and death inputs into the summation's ports of the same names
   * and from the summation's sum into the base's rate port.
   */
  lemma PopulationWiresAddressChildren(birthSymbol: string, deathSymbol: string)
    ensures var wires := PopulationWires(DefaultBaseName, DefaultSummationName, birthSymbol, deathSymbol);
            |wires| == 3
            && ParseDirectedWireEntry(wires[0]) == Ok((birthSymbol, OneDestination(Join(DefaultSummationName, birthSymbol))))
            && ParseDirectedWireEntry(wires[1]) == Ok((deathSymbol, OneDestination(Join(DefaultSummationName, deathSymbol))))
            && ParseDirectedWireEntry(wires[2])
               == Ok((SumAddress(DefaultSummationName), OneDestination(RateAddress(DefaultBaseName, DefaultRateSymbol))))
            && SplitFirst(Join(DefaultSummationName, birthSymbol)) == Some((DefaultSummationName, birthSymbol))
            && SplitFirst(Join(DefaultSummationName, deathSymbol)) == Some((DefaultSummationName, deathSymbol))
            && SplitFirst(SumAddress(DefaultSummationName)) == Some((DefaultSummationName, SumSymbol))
            && SplitFirst(RateAddress(DefaultBaseName, DefaultRateSymbol)) == Some((DefaultBaseName, DefaultRateSymbol))
  {
    SourceFirst(birthSymbol, "destination", OneDestination(Join(DefaultSummationName, birthSymbol)));
    SourceFirst(deathSymbol, "destination", OneDestination(Join(DefaultSummationName, deathSymbol)));
    SourceFirst(SumAddress(DefaultSummationName), "destination", OneDestination(RateAddress(DefaultBaseName, DefaultRateSymbol)));
    DefaultNamesPlain();
    SplitJoin(DefaultSummationName, birthSymbol);
    SplitJoin(DefaultSummationName, deathSymbol);
    AddressesResolve(DefaultSummationName, DefaultRateSymbol);
    AddressesResolve(DefaultBaseName, DefaultRateSymbol);
  }

  /** The variable wire of the population addresses the base's variable port. */
  lemma PopulationVariableWireAddress(variableSymbol: string)
    ensures var v := PopulationVariableWires(DefaultBaseName, variableSymbol);
            |v| == 1 && v[0].childPorts == [Join(DefaultBaseName, DefaultVariableSymbol)]
            && SplitFirst(v[0].childPorts[0]) == Some((DefaultBaseName, DefaultVariableSymbol))
  {
    DefaultNamesPlain();
    AddressesResolve(DefaultBaseName, DefaultVariableSymbol);
  }

  /** The default child names hold no separator. */
  lemma DefaultNamesPlain()
    ensures !HasSeparator(DefaultSummationName) && !HasSeparator(DefaultBaseName)
  {
  }

  /**
   * With symbols free of `+`, the summation's text lists exactly the birth
   * symbol and the negated death symbol.
   */
  lemma RateSumTerms(birthSymbol: string, deathSymbol: string)
    requires '+' !in birthSymbol && '+' !in deathSymbol
    ensures SplitAll('+', SumText(RateSummands(birthSymbol, deathSymbol))) == [birthSymbol, "-1*" + deathSymbol]
  {
    assert '+' !in "-1*" + deathSymbol;
    SplitJoined('+', RateSummands(birthSymbol, deathSymbol));
  }
}
