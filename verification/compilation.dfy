/**
 * `compile` of variable, functional and composite ported objects: a
 * depth-first walk that produces one flat `CompiledPortedObject`. Each step
 * of the composite compilation is a function on a `CompileState`: the
 * compiled object so far and the child input and variable ports no wire has
 * reached yet.
 */
module Compilation {
  import opened Wrappers
  import opened Names
  import opened Expressions
  import opened Values
  import opened Dicts
  import opened Ports
  import opened Assignments
  import opened CompiledPorts
  import opened Wires
  import opened PortedBase
  import opened PortedObjects
  import opened CompiledObjects

  /** `_add_input_port(CompiledInputPort(port))` for each port in turn. */
  function AddCompiledInputs(c: Compiled, ports: seq<Port>): (r: Result<Compiled>)
    ensures r.Ok? <==> forall p :: p in ports ==> p.InputPort?
    ensures r.Err? ==> r.error == AssertionError
    ensures r.Ok? ==> r.value == c.(inputs := r.value.inputs)
    ensures r.Ok? && (forall x :: x in c.inputs.items ==> x.1.CompiledInput?) ==>
      forall x :: x in r.value.inputs.items ==> x.1.CompiledInput?
    ensures r.Ok? ==> forall p :: p in ports && CanAddPort(c, p.name) ==> HasKey(r.value.inputs, p.name)
    ensures r.Ok? ==> forall k :: HasKey(c.inputs, k) ==> HasKey(r.value.inputs, k)
    decreases |ports|
  {
    if ports == [] then Ok(c)
    else
      var p :- CompileInput(ports[0]);
      var c' := AddInputPort(c, p);
      PutInItems(c.inputs.items, p.name, p);
      assert forall q :: q in ports <==> q == ports[0] || q in ports[1..];
      AddCompiledInputs(c', ports[1..])
  }

  // ---------------------------------------------------------------------
  // VariablePortedObject.compile

  /** The union of the free symbols of the assignments (time excluded). */
  function FreeUnion(assignments: seq<Assignment>): (r: set<string>)
    ensures forall n :: n in r <==> exists a :: a in assignments && n in GetFreeSymbols(a, DefaultGlobals)
  {
    if assignments == [] then {}
    else
      assert forall a :: a in assignments <==> a == assignments[0] || a in assignments[1..];
      GetFreeSymbols(assignments[0], DefaultGlobals) + FreeUnion(assignments[1..])
  }

  function AssignmentNames(assignments: seq<Assignment>): set<string>
  {
    set a | a in assignments :: a.Name()
  }

  function PortNames(ports: seq<Port>): set<string>
  {
    set p | p in ports :: p.name
  }

  /**
   * `_assert_no_undefined_symbols(globals)`: every free symbol of every
   * assignment is an assignment's own symbol, an input port or a global.
   */
  predicate NoUndefinedSymbols(po: PortedObject, globals: set<string>)
    requires po.VariableObject?
  {
    FreeUnion(Dicts.Values(po.assignments)) <=
      AssignmentNames(Dicts.Values(po.assignments)) + PortNames(Dicts.Values(po.table.inputs)) + globals
  }

  /** One assignment: exposed at its variable port if it has one, else kept if internal, else dropped. */
  function PlaceOne(po: PortedObject, c: Compiled, k: string, a: Assignment): (r: Compiled)
    requires po.VariableObject?
    ensures r == c.(variables := r.variables, internalVariables := r.internalVariables)
    ensures HasKey(po.table.variables, k) ==>
      r == AddVariablePort(c, CompiledPorts.CompileVariable(Get(po.table.variables, k).value, a))
    ensures !HasKey(po.table.variables, k) ==> r.variables == c.variables
    ensures !HasKey(po.table.variables, k) && k in po.internals ==> r.internalVariables == Put(c.internalVariables, k, a)
    ensures !HasKey(po.table.variables, k) && k !in po.internals ==> r == c
    ensures (forall x :: x in c.variables.items ==> x.1.CompiledVariable?) ==>
      forall x :: x in r.variables.items ==> x.1.CompiledVariable?
  {
    if HasKey(po.table.variables, k) then
      var p := CompiledPorts.CompileVariable(Get(po.table.variables, k).value, a);
      PutInItems(c.variables.items, p.name, p);
      AddVariablePort(c, p)
    else if k in po.internals then c.(internalVariables := Put(c.internalVariables, k, a))
    else c
  }

  /** The assignments in order, each placed by `PlaceOne` */
  function PlaceAssignments(po: PortedObject, c: Compiled, items: seq<(string, Assignment)>): (r: Compiled)
    requires po.VariableObject?
    ensures r == c.(variables := r.variables, internalVariables := r.internalVariables)
    ensures (forall x :: x in c.variables.items ==> x.1.CompiledVariable?) ==>
      forall x :: x in r.variables.items ==> x.1.CompiledVariable?
    decreases |items|
  {
    if items == [] then c
    else PlaceAssignments(po, PlaceOne(po, c, items[0].0, items[0].1), items[1..])
  }

  /**
   * With distinct assignment keys, ports keyed by their names and no name
   * claimed by a parsing local: an assignment with a variable port is exposed
   * at that port, and an internal one is an internal variable of its key.
   */
  lemma {:induction false} PlaceAssignmentsExposes(po: PortedObject, c: Compiled, items: seq<(string, Assignment)>, i: nat)
    requires po.VariableObject? && DistinctKeys(items) && i < |items|
    requires forall k :: HasKey(po.table.variables, k) ==> Get(po.table.variables, k).value.name == k
    requires items[i].0 !in c.parsingLocals && !HasKey(c.variables, items[i].0) && !HasKey(c.outputs, items[i].0)
    ensures HasKey(po.table.variables, items[i].0) ==>
      Get(PlaceAssignments(po, c, items).variables, items[i].0) ==
        Some(CompiledPorts.CompileVariable(Get(po.table.variables, items[i].0).value, items[i].1))
    ensures !HasKey(po.table.variables, items[i].0) && items[i].0 in po.internals ==>
      Get(PlaceAssignments(po, c, items).internalVariables, items[i].0) == Some(items[i].1)
    decreases |items|
  {
    var (k, a) := items[0];
    var c' := PlaceOne(po, c, k, a);
    assert forall l :: 0 <= l < |items[1..]| ==> items[1..][l] == items[l + 1];
    if i == 0 {
      PlaceAssignmentsKeeps(po, c', items[1..], k);
    } else {
      PlaceOneKeeps(po, c, k, a, items[i].0);
      PlaceAssignmentsExposes(po, c', items[1..], i - 1);
    }
  }

  /** Placing one key leaves the other keys' variable ports and internal variables alone. */
  lemma PlaceOneKeeps(po: PortedObject, c: Compiled, k: string, a: Assignment, k': string)
    requires po.VariableObject? && k' != k
    requires forall k'' :: HasKey(po.table.variables, k'') ==> Get(po.table.variables, k'').value.name == k''
    ensures Get(PlaceOne(po, c, k, a).variables, k') == Get(c.variables, k')
    ensures Get(PlaceOne(po, c, k, a).internalVariables, k') == Get(c.internalVariables, k')
  {
  }

  /** Later assignments of other keys leave a key's variable port and internal variable alone. */
  lemma {:induction false} PlaceAssignmentsKeeps(po: PortedObject, c: Compiled, items: seq<(string, Assignment)>, k: string)
    requires po.VariableObject? && forall l :: 0 <= l < |items| ==> items[l].0 != k
    requires forall k' :: HasKey(po.table.variables, k') ==> Get(po.table.variables, k').value.name == k'
    ensures Get(PlaceAssignments(po, c, items).variables, k) == Get(c.variables, k)
    ensures Get(PlaceAssignments(po, c, items).internalVariables, k) == Get(c.internalVariables, k)
    decreases |items|
  {
    if items != [] {
      assert forall l :: 0 <= l < |items[1..]| ==> items[1..][l] == items[l + 1];
      PlaceOneKeeps(po, c, items[0].0, items[0].1, k);
      PlaceAssignmentsKeeps(po, PlaceOne(po, c, items[0].0, items[0].1), items[1..], k);
    }
  }

  /**
   * `VariablePortedObject.compile(prefix_names, global_symbols)`: the
   * undefined-symbol check (parsing locals count as globals), then the
   * assignments in order, then the input ports, then optional prefixing.
   */
  function CompileVariableObject(po: PortedObject, prefix: bool, globals: set<string>): (r: Result<Compiled>)
    requires po.VariableObject?
    ensures !NoUndefinedSymbols(po, globals + po.table.parsingLocals) ==> r == Err(DependencyError)
    ensures r.Ok? ==> WellKinded(r.value) && r.value.name == po.Name()
    ensures r.Ok? && !prefix ==> r.value.outputs.items == [] && r.value.internalParameters.items == []
  {
    if !NoUndefinedSymbols(po, globals + po.table.parsingLocals) then Err(DependencyError)
    else
      var c0 := NewCompiled(po.Name(), po.table.parsingLocals);
      var c1 := PlaceAssignments(po, c0, po.assignments.items);
      var c2 :- AddCompiledInputs(c1, Dicts.Values(po.table.inputs));
      if prefix then
        SubPrefixedFromWellKinded(c2, c2.name, ContainerKeys(c2));
        SubPrefixed(c2)
      else Ok(c2)
  }

  /**
   * Compiled without prefixing, a variable object exposes each assignment
   * that has a variable port at that port, and keeps each internal one as an
   * internal variable under its symbol.
   */
  lemma VariableCompileExposes(po: PortedObject, globals: set<string>, k: string)
    requires po.VariableObject? && Valid(po.assignments) && HasKey(po.assignments, k)
    requires forall k' :: HasKey(po.table.variables, k') ==> Get(po.table.variables, k').value.name == k'
    requires k !in po.table.parsingLocals && CompileVariableObject(po, false, globals).Ok?
    ensures HasKey(po.table.variables, k) ==>
      Get(CompileVariableObject(po, false, globals).value.variables, k) ==
        Some(CompiledPorts.CompileVariable(Get(po.table.variables, k).value, Get(po.assignments, k).value))
    ensures !HasKey(po.table.variables, k) && k in po.internals ==>
      Get(CompileVariableObject(po, false, globals).value.internalVariables, k) == Some(Get(po.assignments, k).value)
  {
    var i := GetInWitness(po.assignments.items, k);
    var c0 := NewCompiled(po.Name(), po.table.parsingLocals);
    DistinctKeysOf(po.assignments.items);
    PlaceAssignmentsExposes(po, c0, po.assignments.items, i);
  }

  // ---------------------------------------------------------------------
  // FunctionalPortedObject.compile

  /**
   * Each output port, from the `j`-th on, exposes the assignment of its name;
   * a missing one raises `KeyError`.
   */
  function AddCompiledOutputs(po: PortedObject, c: Compiled, items: seq<(string, Port)>, j: nat): (r: Result<Compiled>)
    requires po.FunctionalObject? && j <= |items|
    ensures r.Ok? <==> forall i :: j <= i < |items| ==> HasKey(po.assignments, items[i].0)
    ensures r.Err? ==> r.error == KeyError
    ensures r.Ok? ==> r.value == c.(outputs := r.value.outputs)
    ensures r.Ok? && (forall x :: x in c.outputs.items ==> x.1.CompiledOutput?) ==>
      forall x :: x in r.value.outputs.items ==> x.1.CompiledOutput?
    decreases |items| - j
  {
    if j == |items| then Ok(c)
    else
      var a :- (match Get(po.assignments, items[j].0) case None => Err(KeyError) case Some(a) => Ok(a));
      var p := CompileOutput(items[j].1, a);
      PutInItems(c.outputs.items, p.name, p);
      AddCompiledOutputs(po, AddOutputPort(c, p), items, j + 1)
  }

  /**
   * `FunctionalPortedObject.compile(prefix_names)`: input ports, then one
   * compiled output port per output port holding its assignment.
   */
  function CompileFunctionalObject(po: PortedObject, prefix: bool): (r: Result<Compiled>)
    requires po.FunctionalObject?
    ensures ((forall p :: p in Dicts.Values(po.table.inputs) ==> p.InputPort?) &&
             (exists i :: 0 <= i < |po.table.outputs.items| && !HasKey(po.assignments, po.table.outputs.items[i].0))) ==>
      r == Err(KeyError)
    ensures r.Ok? ==> WellKinded(r.value) && r.value.name == po.Name()
    ensures r.Ok? && !prefix ==> r.value.variables.items == [] && r.value.internalVariables.items == []
  {
    var c0 := NewCompiled(po.Name(), po.table.parsingLocals);
    var c1 :- AddCompiledInputs(c0, Dicts.Values(po.table.inputs));
    var c2 :- AddCompiledOutputs(po, c1, po.table.outputs.items, 0);
    if prefix then
      SubPrefixedFromWellKinded(c2, c2.name, ContainerKeys(c2));
      SubPrefixed(c2)
    else Ok(c2)
  }

  /** Every output port of a compiled functional object exposes the assignment of its name. */
  lemma {:induction false} AddCompiledOutputsExposes(po: PortedObject, c: Compiled, items: seq<(string, Port)>, j: nat, i: nat)
    requires po.FunctionalObject? && DistinctKeys(items) && j <= i < |items|
    requires forall l :: 0 <= l < |items| ==> items[l].1.name == items[l].0
    requires items[i].0 !in c.parsingLocals && !HasKey(c.variables, items[i].0) && !HasKey(c.outputs, items[i].0)
    requires AddCompiledOutputs(po, c, items, j).Ok?
    ensures Get(AddCompiledOutputs(po, c, items, j).value.outputs, items[i].0) ==
      Some(CompileOutput(items[i].1, Get(po.assignments, items[i].0).value))
    decreases i - j
  {
    var a := Get(po.assignments, items[j].0).value;
    var c' := AddOutputPort(c, CompileOutput(items[j].1, a));
    assert AddCompiledOutputs(po, c, items, j) == AddCompiledOutputs(po, c', items, j + 1);
    if i == j {
      AddCompiledOutputsKeeps(po, c', items, j + 1, items[j].0);
    } else {
      AddCompiledOutputsExposes(po, c', items, j + 1, i);
    }
  }

  lemma {:induction false} AddCompiledOutputsKeeps(po: PortedObject, c: Compiled, items: seq<(string, Port)>, j: nat, k: string)
    requires po.FunctionalObject? && j <= |items|
    requires forall l :: j <= l < |items| ==> items[l].0 != k
    requires forall l :: 0 <= l < |items| ==> items[l].1.name == items[l].0
    requires AddCompiledOutputs(po, c, items, j).Ok?
    ensures Get(AddCompiledOutputs(po, c, items, j).value.outputs, k) == Get(c.outputs, k)
    decreases |items| - j
  {
    if j < |items| {
      var a := Get(po.assignments, items[j].0).value;
      AddCompiledOutputsKeeps(po, AddOutputPort(c, CompileOutput(items[j].1, a)), items, j + 1, k);
    }
  }

  /**
   * Compiled without prefixing, a functional object whose output ports are
   * keyed by their names exposes at each output port the assignment of that
   * name.
   */
  lemma FunctionalCompileExposes(po: PortedObject, i: nat)
    requires po.FunctionalObject? && Valid(po.table.outputs) && i < |po.table.outputs.items|
    requires forall j :: 0 <= j < |po.table.outputs.items| ==> po.table.outputs.items[j].1.name == po.table.outputs.items[j].0
    requires po.table.outputs.items[i].0 !in po.table.parsingLocals
    requires CompileFunctionalObject(po, false).Ok?
    ensures Get(CompileFunctionalObject(po, false).value.outputs, po.table.outputs.items[i].0) ==
      Some(CompileOutput(po.table.outputs.items[i].1, Get(po.assignments, po.table.outputs.items[i].0).value))
  {
    var c0 := NewCompiled(po.Name(), po.table.parsingLocals);
    var c1 := AddCompiledInputs(c0, Dicts.Values(po.table.inputs)).value;
    DistinctKeysOf(po.table.outputs.items);
    AddCompiledOutputsExposes(po, c1, po.table.outputs.items, 0, i);
  }

  // ---------------------------------------------------------------------
  // CompositePortedObject.compile: state and collection of children

  datatype CompileState = CompileState(
    c: Compiled,
    unconnectedInputs: Dict<CompiledPort>,
    unconnectedVariables: Dict<CompiledPort>)

  /** Port dictionaries hold their own kind; unconnected child ports are inputs and variables. */
  ghost predicate StateKinded(s: CompileState)
  {
    WellKinded(s.c) &&
    (forall x :: x in s.unconnectedInputs.items ==> x.1.CompiledInput?) &&
    (forall x :: x in s.unconnectedVariables.items ==> x.1.CompiledVariable?)
  }

  /** Two stages of one compilation: the same object, the same compiled children */
  predicate SameObject(a: Compiled, b: Compiled)
  {
    a.name == b.name && a.parsingLocals == b.parsingLocals && a.children == b.children
  }

  /** The entries of a child dictionary keyed `child.key` */
  function ChildKeyed(child: string, items: seq<(string, CompiledPort)>): (r: seq<(string, CompiledPort)>)
    ensures |r| == |items| && forall i :: 0 <= i < |items| ==> r[i] == (Join(child, items[i].0), items[i].1)
  {
    seq(|items|, i requires 0 <= i < |items| => (Join(child, items[i].0), items[i].1))
  }

  /** Every key of the child's ports, joined to the child's name, is a key of the rekeyed ports. */
  lemma ChildKeyedKeys(child: string, items: seq<(string, CompiledPort)>)
    ensures forall k :: k in KeysOf(items) ==> Join(child, k) in KeysOf(ChildKeyed(child, items))
  {
    var entries := ChildKeyed(child, items);
    forall k | k in KeysOf(items) ensures Join(child, k) in KeysOf(entries) {
      var i :| 0 <= i < |items| && KeysOf(items)[i] == k;
      assert KeysOf(entries)[i] == Join(child, k);
    }
  }

  /** Rekeying keeps the kind of every port. */
  lemma ChildKeyedKinds(child: string, items: seq<(string, CompiledPort)>)
    ensures (forall x :: x in items ==> x.1.CompiledInput?) ==> forall x :: x in ChildKeyed(child, items) ==> x.1.CompiledInput?
    ensures (forall x :: x in items ==> x.1.CompiledVariable?) ==> forall x :: x in ChildKeyed(child, items) ==> x.1.CompiledVariable?
  {
    var entries := ChildKeyed(child, items);
    forall x | x in entries ensures exists y :: y in items && x.1 == y.1 {
      var i :| 0 <= i < |entries| && entries[i] == x;
      assert items[i] in items;
    }
  }

  /** The assignments of a child's output ports, keyed by their names */
  function OutputAssignments(items: seq<(string, CompiledPort)>): (r: seq<(string, Assignment)>)
    ensures forall x :: x in r ==> exists y :: y in items && y.1.HasAssignment() && x == (y.1.assignment.Name(), y.1.assignment)
    ensures forall y :: y in items && y.1.HasAssignment() ==> (y.1.assignment.Name(), y.1.assignment) in r
  {
    if items == [] then []
    else
      var rest := OutputAssignments(items[1..]);
      assert forall y :: y in items <==> y == items[0] || y in items[1..];
      if items[0].1.HasAssignment() then [(items[0].1.assignment.Name(), items[0].1.assignment)] + rest
      else rest
  }

  /** `unconnected.update({child.key: port for key, port in ports})` */
  function MergeChildPorts(u: Dict<CompiledPort>, child: string, items: seq<(string, CompiledPort)>): (r: Dict<CompiledPort>)
    ensures forall k :: HasKey(u, k) ==> HasKey(r, k)
    ensures forall k :: k in KeysOf(items) ==> HasKey(r, Join(child, k))
    ensures (forall x :: x in u.items ==> x.1.CompiledInput?) && (forall x :: x in items ==> x.1.CompiledInput?) ==>
      forall x :: x in r.items ==> x.1.CompiledInput?
    ensures (forall x :: x in u.items ==> x.1.CompiledVariable?) && (forall x :: x in items ==> x.1.CompiledVariable?) ==>
      forall x :: x in r.items ==> x.1.CompiledVariable?
  {
    var entries := ChildKeyed(child, items);
    var r := UpdateAll(u, entries);
    assert forall k :: k in KeysOf(items) ==> HasKey(r, Join(child, k)) by {
      UpdateAllHasKeys(u, entries);
      ChildKeyedKeys(child, items);
      forall k | k in KeysOf(items) ensures HasKey(r, Join(child, k)) {
        var i :| 0 <= i < |entries| && KeysOf(entries)[i] == Join(child, k);
        assert entries[i].0 == Join(child, k);
      }
    }
    assert forall x :: x in r.items ==> x in u.items || x in entries by {
      UpdateAllItems(u, entries);
    }
    UpdateAllHasKeys(u, entries);
    ChildKeyedKinds(child, items);
    r
  }

  /**
   * One compiled child: its input and variable ports are recorded as
   * unconnected under `child.port`; its internal assignments and the
   * assignments of its output ports become internal assignments of the
   * parent, keyed by their names.
   */
  function CollectChild(s: CompileState, child: Compiled): (r: CompileState)
    ensures r.c == s.c.(internalVariables := r.c.internalVariables, internalParameters := r.c.internalParameters)
    ensures StateKinded(s) && WellKinded(child) ==> StateKinded(r)
    ensures forall k :: HasKey(child.inputs, k) ==> HasKey(r.unconnectedInputs, Join(child.name, k))
    ensures forall k :: HasKey(s.unconnectedInputs, k) ==> HasKey(r.unconnectedInputs, k)
  {
    var iv := UpdateAll(s.c.internalVariables, RekeyedAssignments(child.internalVariables));
    var ip := UpdateAll(UpdateAll(s.c.internalParameters, RekeyedAssignments(child.internalParameters)),
                        OutputAssignments(child.outputs.items));
    var c := s.c.(internalVariables := iv, internalParameters := ip);
    assert c.inputs == s.c.inputs && c.outputs == s.c.outputs && c.variables == s.c.variables;
    var ui := MergeChildPorts(s.unconnectedInputs, child.name, child.inputs.items);
    var uv := MergeChildPorts(s.unconnectedVariables, child.name, child.variables.items);
    CompileState(c, ui, uv)
  }

  function CollectChildren(s: CompileState, children: seq<Compiled>): (r: CompileState)
    ensures r.c == s.c.(internalVariables := r.c.internalVariables, internalParameters := r.c.internalParameters)
    ensures StateKinded(s) && (forall ch :: ch in children ==> WellKinded(ch)) ==> StateKinded(r)
    decreases |children|
  {
    if children == [] then s
    else
      var r := CollectChildren(CollectChild(s, children[0]), children[1..]);
      assert forall ch :: ch in children <==> ch == children[0] || ch in children[1..];
      r
  }

  /** Every input port of every compiled child starts out unconnected, keyed `child.port`. */
  lemma {:induction false} CollectChildrenCovers(s: CompileState, children: seq<Compiled>)
    ensures forall k :: HasKey(s.unconnectedInputs, k) ==> HasKey(CollectChildren(s, children).unconnectedInputs, k)
    ensures forall ch, k :: ch in children && HasKey(ch.inputs, k) ==>
      HasKey(CollectChildren(s, children).unconnectedInputs, Join(ch.name, k))
    decreases |children|
  {
    if children != [] {
      var s' := CollectChild(s, children[0]);
      CollectChildrenCovers(s', children[1..]);
      assert CollectChildren(s, children) == CollectChildren(s', children[1..]);
      assert forall ch :: ch in children ==> ch == children[0] || ch in children[1..];
    }
  }

  // ---------------------------------------------------------------------
  // Directed wires

  /** The own output ports among a wire's destinations, in output-port order */
  function OwnOutputsAmong(po: PortedObject, destinations: seq<string>): (r: seq<string>)
    ensures forall n :: n in r <==> HasKey(po.table.outputs, n) && n in destinations
  {
    Filter(Keys(po.table.outputs), n => n in destinations)
  }

  /**
   * The symbol a directed wire identifies its destinations with: the own
   * output port it reaches, if any (it must then start at a child output
   * port), otherwise its compiled source port.
   */
  function WireRoot(po: PortedObject, c: Compiled, w: DirectedWire): (r: Result<string>)
    requires po.CompositeObject?
    ensures |OwnOutputsAmong(po, w.destinations)| > 1 ==> r == Err(WiringError)
    ensures |OwnOutputsAmong(po, w.destinations)| <= 1 && CGetPortByName(c, w.source).Err? ==> r == Err(ValueError)
    ensures |OwnOutputsAmong(po, w.destinations)| == 1 && CGetPortByName(c, w.source).Ok? ==>
      (r.Ok? <==> CGetPortByName(c, w.source).value.CompiledOutput?)
    ensures r.Err? ==> r.error == WiringError || r.error == ValueError
  {
    var outs := OwnOutputsAmong(po, w.destinations);
    if |outs| > 1 then Err(WiringError)
    else
      var source :- CGetPortByName(c, w.source);
      if |outs| == 1 then
        if source.CompiledOutput? then Ok(GetPortByName(po.table, outs[0]).value.name)
        else Err(WiringError)
      else Ok(source.name)
  }

  /** One destination of a directed wire. */
  function DestinationStep(po: PortedObject, s: CompileState, source: string, root: string, d: string): (r: Result<CompileState>)
    requires po.CompositeObject?
    ensures !HasKey(s.unconnectedInputs, d) && !HasKey(po.table.outputs, d) ==> r == Err(WiringError)
    ensures HasKey(s.unconnectedInputs, d) && r.Ok? ==>
      CGetPortByName(s.c, d).Ok? && !HasKey(r.value.unconnectedInputs, d) &&
      r.value.c == s.c.(identifications := s.c.identifications + [SymbolIdentification(root, CGetPortByName(s.c, d).value.name)]) &&
      r.value.unconnectedVariables == s.unconnectedVariables
    ensures r.Ok? ==> SameObject(r.value.c, s.c)
    ensures StateKinded(s) && r.Ok? ==> StateKinded(r.value)
    ensures r.Ok? ==> forall k :: HasKey(r.value.unconnectedInputs, k) ==> HasKey(s.unconnectedInputs, k)
  {
    if HasKey(s.unconnectedInputs, d) then
      var dest :- CGetPortByName(s.c, d);
      if !dest.CompiledInput? then Err(AssertionError)
      else
        var popped :- Pop(s.unconnectedInputs, d);
        RemoveInItems(s.unconnectedInputs.items, d);
        Ok(CompileState(s.c.(identifications := s.c.identifications + [SymbolIdentification(root, dest.name)]),
                        popped.1, s.unconnectedVariables))
    else if HasKey(po.table.outputs, d) then
      var src :- CGetPortByName(s.c, source);
      var destination := GetPortByName(po.table, d).value;
      if !destination.OutputPort? then Err(AssertionError)
      else
        var popped :- Pop(s.c.internalParameters, src.name);
        var c := s.c.(identifications := s.c.identifications + [SymbolIdentification(root, src.name)],
                      internalParameters := popped.1);
        var p := CompileOutput(destination, popped.0);
        PutInItems(c.outputs.items, p.name, p);
        Ok(s.(c := AddOutputPort(c, p)))
    else Err(WiringError)
  }

  /**
   * A child input port reached by one wire can be reached by no other: a
   * second wire into it raises `WiringError`.
   */
  lemma SecondWireRejected(po: PortedObject, s: CompileState, source: string, root: string, d: string,
                           source': string, root': string)
    requires po.CompositeObject? && HasKey(s.unconnectedInputs, d) && !HasKey(po.table.outputs, d)
    requires DestinationStep(po, s, source, root, d).Ok?
    ensures DestinationStep(po, DestinationStep(po, s, source, root, d).value, source', root', d) == Err(WiringError)
  {
  }

  function DestinationsFrom(po: PortedObject, s: CompileState, source: string, root: string, ds: seq<string>): (r: Result<CompileState>)
    requires po.CompositeObject?
    ensures r.Ok? ==> SameObject(r.value.c, s.c)
    ensures StateKinded(s) && r.Ok? ==> StateKinded(r.value)
    decreases |ds|
  {
    if ds == [] then Ok(s)
    else
      var s' :- DestinationStep(po, s, source, root, ds[0]);
      DestinationsFrom(po, s', source, root, ds[1..])
  }

  /** One directed wire: its root symbol, then each destination in turn. */
  function WireStep(po: PortedObject, s: CompileState, w: DirectedWire): (r: Result<CompileState>)
    requires po.CompositeObject?
    ensures |OwnOutputsAmong(po, w.destinations)| > 1 ==> r == Err(WiringError)
    ensures (|OwnOutputsAmong(po, w.destinations)| == 1 && CGetPortByName(s.c, w.source).Ok? &&
             !CGetPortByName(s.c, w.source).value.CompiledOutput?) ==> r == Err(WiringError)
    ensures r.Ok? ==> SameObject(r.value.c, s.c)
    ensures StateKinded(s) && r.Ok? ==> StateKinded(r.value)
  {
    var root :- WireRoot(po, s.c, w);
    DestinationsFrom(po, s, w.source, root, w.destinations)
  }

  function DirectedWiresFrom(po: PortedObject, s: CompileState, ws: seq<DirectedWire>): (r: Result<CompileState>)
    requires po.CompositeObject?
    ensures r.Ok? ==> SameObject(r.value.c, s.c)
    ensures StateKinded(s) && r.Ok? ==> StateKinded(r.value)
    decreases |ws|
  {
    if ws == [] then Ok(s)
    else
      var s' :- WireStep(po, s, ws[0]);
      DirectedWiresFrom(po, s', ws[1..])
  }

  // ---------------------------------------------------------------------
  // Defaults of unconnected child inputs

  /**
   * The unconnected child inputs in order: one with a default value becomes
   * a default parameter assignment keyed by its `child.port` key, one
   * without is listed in `bad`.
   */
  function DefaultsFrom(c: Compiled, items: seq<(string, CompiledPort)>, bad: seq<string>): (r: Result<(Compiled, seq<string>)>)
    ensures r.Ok? ==> r.value.0 == c.(internalParameters := r.value.0.internalParameters)
    decreases |items|
  {
    if items == [] then Ok((c, bad))
    else
      var (name, port) := items[0];
      if !port.CompiledInput? then Err(AttributeError)
      else if port.defaultValue.RNone? then DefaultsFrom(c, items[1..], bad + [name])
      else
        var a :- NewParameter(DefaultParameter, port.name, port.defaultValue);
        DefaultsFrom(c.(internalParameters := Put(c.internalParameters, name, a)), items[1..], bad)
  }

  /** The keys of the inputs without a default value, in order */
  function MissingDefaults(items: seq<(string, CompiledPort)>): (r: seq<string>)
    ensures forall n :: n in r ==> exists x :: x in items && x.0 == n && x.1.CompiledInput? && x.1.defaultValue.RNone?
  {
    if items == [] then []
    else
      var rest := MissingDefaults(items[1..]);
      if items[0].1.CompiledInput? && items[0].1.defaultValue.RNone? then [items[0].0] + rest else rest
  }

  /** The list `bad` ends up naming exactly the inputs without a default, in order. */
  lemma {:induction false} DefaultsFromBad(c: Compiled, items: seq<(string, CompiledPort)>, bad: seq<string>)
    ensures DefaultsFrom(c, items, bad).Ok? ==> DefaultsFrom(c, items, bad).value.1 == bad + MissingDefaults(items)
    decreases |items|
  {
    if items != [] && DefaultsFrom(c, items, bad).Ok? {
      var (name, port) := items[0];
      if port.defaultValue.RNone? {
        DefaultsFromBad(c, items[1..], bad + [name]);
        assert bad + [name] + MissingDefaults(items[1..]) == bad + ([name] + MissingDefaults(items[1..]));
      } else {
        var a := NewParameter(DefaultParameter, port.name, port.defaultValue).value;
        DefaultsFromBad(c.(internalParameters := Put(c.internalParameters, name, a)), items[1..], bad);
      }
    }
  }

  /** Later inputs of other keys leave a key's internal parameter alone. */
  lemma {:induction false} DefaultsFromKeeps(c: Compiled, items: seq<(string, CompiledPort)>, bad: seq<string>, k: string)
    requires (forall l :: 0 <= l < |items| ==> items[l].0 != k) && DefaultsFrom(c, items, bad).Ok?
    ensures Get(DefaultsFrom(c, items, bad).value.0.internalParameters, k) == Get(c.internalParameters, k)
    decreases |items|
  {
    if items != [] {
      var (name, port) := items[0];
      assert forall l :: 0 <= l < |items[1..]| ==> items[1..][l] == items[l + 1];
      if port.defaultValue.RNone? {
        DefaultsFromKeeps(c, items[1..], bad + [name], k);
      } else {
        var a := NewParameter(DefaultParameter, port.name, port.defaultValue).value;
        DefaultsFromKeeps(c.(internalParameters := Put(c.internalParameters, name, a)), items[1..], bad, k);
      }
    }
  }

  /** Each defaulted input is a default parameter assignment of its port's symbol, keyed by its `child.port` key. */
  lemma {:induction false} DefaultsFromAssigns(c: Compiled, items: seq<(string, CompiledPort)>, bad: seq<string>, i: nat)
    requires DistinctKeys(items) && i < |items| && DefaultsFrom(c, items, bad).Ok?
    requires items[i].1.CompiledInput? && !items[i].1.defaultValue.RNone?
    ensures var a := Get(DefaultsFrom(c, items, bad).value.0.internalParameters, items[i].0);
      a.Some? && a.value.Parameter? && a.value.tag == DefaultParameter && a.value.Name() == items[i].1.name
    decreases |items|
  {
    var (name, port) := items[0];
    assert forall j :: 0 <= j < |items[1..]| ==> items[1..][j] == items[j + 1];
    if port.defaultValue.RNone? {
      assert i != 0;
      DefaultsFromAssigns(c, items[1..], bad + [name], i - 1);
    } else {
      var a := NewParameter(DefaultParameter, port.name, port.defaultValue).value;
      var c' := c.(internalParameters := Put(c.internalParameters, name, a));
      if i == 0 {
        DefaultsFromKeeps(c', items[1..], bad, name);
      } else {
        DefaultsFromAssigns(c', items[1..], bad, i - 1);
      }
    }
  }

  /** Defaults for the unconnected inputs; any input without one makes a single `WiringError`. */
  function ApplyDefaults(s: CompileState): (r: Result<Compiled>)
    ensures DefaultsFrom(s.c, s.unconnectedInputs.items, []).Ok? ==>
      (r == Err(WiringError) <==> MissingDefaults(s.unconnectedInputs.items) != [])
    ensures r.Ok? ==> r.value == s.c.(internalParameters := r.value.internalParameters)
  {
    DefaultsFromBad(s.c, s.unconnectedInputs.items, []);
    var (c, bad) :- DefaultsFrom(s.c, s.unconnectedInputs.items, []);
    if bad != [] then Err(WiringError) else Ok(c)
  }

  // ---------------------------------------------------------------------
  // Variable aggregation

  /** Each child port is taken off the unconnected ones (`KeyError` if absent) and looked up. */
  function TakeChildPorts(c: Compiled, unconnected: Dict<CompiledPort>, names: seq<string>): (r: Result<(Dict<CompiledPort>, seq<CompiledPort>)>)
    ensures r.Ok? ==> |r.value.1| == |names|
    ensures r.Ok? ==> forall i :: 0 <= i < |names| ==> Ok(r.value.1[i]) == CGetPortByName(c, names[i])
    ensures r.Ok? ==> forall x :: x in r.value.0.items ==> x in unconnected.items
    ensures r.Ok? ==> forall i :: 0 <= i < |names| ==> !HasKey(r.value.0, names[i])
    ensures r.Ok? ==> (forall i :: 0 <= i < |names| ==> HasKey(unconnected, names[i])) && NoDuplicates(names)
    ensures r.Err? ==> r.error == KeyError || r.error == ValueError
  {
    var lookups := seq(|names|, i requires 0 <= i < |names| => CGetPortByName(c, names[i]));
    TakeChildPortsFrom(lookups, unconnected, names, 0)
  }

  /**
   * `TakeChildPorts` from the `j`-th child port on, where `lookups[i]` is
   * what looking up the `i`-th port gives (the compiled object does not
   * change during the loop).
   */
  function TakeChildPortsFrom(lookups: seq<Result<CompiledPort>>, unconnected: Dict<CompiledPort>, names: seq<string>, j: nat): (r: Result<(Dict<CompiledPort>, seq<CompiledPort>)>)
    requires j <= |names| == |lookups|
    requires forall i :: 0 <= i < |lookups| && lookups[i].Err? ==> lookups[i].error == ValueError
    ensures r.Ok? ==> |r.value.1| == |names| - j
    ensures r.Ok? ==> forall k :: 0 <= k < |r.value.1| ==> Ok(r.value.1[k]) == lookups[j + k]
    ensures r.Ok? ==> forall x :: x in r.value.0.items ==> x in unconnected.items
    ensures r.Ok? ==> forall i :: j <= i < |names| ==> !HasKey(r.value.0, names[i])
    ensures r.Ok? ==> forall i :: j <= i < |names| ==> HasKey(unconnected, names[i])
    ensures r.Ok? ==> forall i, l :: j <= i < l < |names| ==> names[i] != names[l]
    ensures r.Err? ==> r.error == KeyError || r.error == ValueError
    decreases |names| - j
  {
    if j == |names| then Ok((unconnected, []))
    else
      var popped :- Pop(unconnected, names[j]);
      var p :- lookups[j];
      RemoveInItems(unconnected.items, names[j]);
      PopKeys(unconnected, names[j]);
      var rest :- TakeChildPortsFrom(lookups, popped.1, names, j + 1);
      RemoveKeepsAbsent(rest.0, popped.1, names[j]);
      LookupsCons(lookups, j, p, rest.1);
      Ok((rest.0, [p] + rest.1))
  }

  /** The port looked up at `j`, in front of those looked up after it. */
  lemma LookupsCons(lookups: seq<Result<CompiledPort>>, j: nat, p: CompiledPort, later: seq<CompiledPort>)
    requires j < |lookups| && lookups[j] == Ok(p) && j + 1 + |later| <= |lookups|
    requires forall k :: 0 <= k < |later| ==> Ok(later[k]) == lookups[j + 1 + k]
    ensures forall k :: 0 <= k < |[p] + later| ==> Ok(([p] + later)[k]) == lookups[j + k]
  {
    var ports := [p] + later;
    forall k | 1 <= k < |ports| ensures Ok(ports[k]) == lookups[j + k] {
      assert ports[k] == later[k - 1];
      assert j + k == j + 1 + (k - 1);
    }
  }

  lemma RemoveKeepsAbsent(later: Dict<CompiledPort>, removed: Dict<CompiledPort>, k: string)
    requires !HasKey(removed, k) && forall x :: x in later.items ==> x in removed.items
    ensures !HasKey(later, k)
  {
    forall i | 0 <= i < |later.items| ensures later.items[i].0 != k {
      assert later.items[i] in removed.items;
      var j :| 0 <= j < |removed.items| && removed.items[j] == later.items[i];
      assert KeysOf(removed.items)[j] == later.items[i].0;
    }
  }

  /** `0 + e1 + ... + en`, summed from the left */
  function LeftSum(init: Expr, es: seq<Expr>): Expr
    decreases |es|
  {
    if es == [] then init else Add(LeftSum(init, es[..|es| - 1]), es[|es| - 1])
  }

  lemma {:induction false} LeftSumCons(init: Expr, e: Expr, es: seq<Expr>)
    ensures LeftSum(Add(init, e), es) == LeftSum(init, [e] + es)
    decreases |es|
  {
    if es != [] {
      LeftSumCons(init, e, es[..|es| - 1]);
      assert ([e] + es)[..|[e] + es| - 1] == [e] + es[..|es| - 1];
    }
  }

  function PortExpressions(ports: seq<CompiledPort>): (r: seq<Expr>)
    requires forall i :: 0 <= i < |ports| ==> !ports[i].CompiledInput?
    ensures |r| == |ports| && forall i :: 0 <= i < |ports| ==> r[i] == ports[i].assignment.expression
  {
    seq(|ports|, i requires 0 <= i < |ports| => ports[i].assignment.expression)
  }

  lemma PortExpressionsCons(ports: seq<CompiledPort>)
    requires ports != [] && forall i :: 0 <= i < |ports| ==> !ports[i].CompiledInput?
    ensures PortExpressions(ports) == [ports[0].assignment.expression] + PortExpressions(ports[1..])
  {
    var a := PortExpressions(ports);
    var b := [ports[0].assignment.expression] + PortExpressions(ports[1..]);
    forall i | 0 <= i < |a| ensures a[i] == b[i] {
      if i > 0 {
        assert ports[1..][i - 1] == ports[i];
      }
    }
  }

  /**
   * `assg.combine(child.assignment)` for each child port, recording the
   * identification of each child variable with the aggregate.
   */
  function Aggregate(acc: Assignment, ports: seq<CompiledPort>): (r: Result<(Assignment, seq<SymbolIdentification>)>)
    requires acc.Differential?
    ensures r.Err? ==> r.error == AttributeError
    ensures r.Ok? ==> forall i :: 0 <= i < |ports| ==> !ports[i].CompiledInput?
    ensures r.Ok? ==> r.value.0 == Differential(acc.Name(), LeftSum(acc.expression, PortExpressions(ports)))
    ensures r.Ok? ==> |r.value.1| == |ports|
    decreases |ports|
  {
    if ports == [] then Ok((acc, []))
    else if !ports[0].HasAssignment() then Err(AttributeError)
    else
      var next := Combined(acc, ports[0].assignment);
      var rest := Aggregate(next, ports[1..]);
      assert forall i :: 1 <= i < |ports| ==> ports[1..][i - 1] == ports[i];
      if rest.Err? then Err(rest.error)
      else
        LeftSumCons(acc.expression, ports[0].assignment.expression, PortExpressions(ports[1..]));
        PortExpressionsCons(ports);
        Ok((rest.value.0, [SymbolIdentification(acc.Name(), ports[0].assignment.Name())] + rest.value.1))
  }

  /** Aggregating ports that are all variable ports succeeds. */
  lemma {:induction false} AggregateSucceeds(acc: Assignment, ports: seq<CompiledPort>)
    requires acc.Differential? && forall i :: 0 <= i < |ports| ==> !ports[i].CompiledInput?
    ensures Aggregate(acc, ports).Ok?
    decreases |ports|
  {
    if ports != [] {
      assert forall i :: 0 <= i < |ports[1..]| ==> ports[1..][i] == ports[i + 1];
      AggregateSucceeds(Combined(acc, ports[0].assignment), ports[1..]);
    }
  }

  /** An input port among the aggregated ports raises `AttributeError`: it has no assignment. */
  lemma {:induction false} AggregateFails(acc: Assignment, ports: seq<CompiledPort>, i: nat)
    requires acc.Differential? && i < |ports| && ports[i].CompiledInput?
    ensures Aggregate(acc, ports) == Err(AttributeError)
    decreases |ports|
  {
    if i > 0 && ports[0].HasAssignment() {
      assert ports[1..][i - 1] == ports[i];
      AggregateFails(Combined(acc, ports[0].assignment), ports[1..], i - 1);
    }
  }

  /** Each aggregated child variable is identified with the aggregate, in order. */
  lemma {:induction false} AggregateIdentifies(acc: Assignment, ports: seq<CompiledPort>, i: nat)
    requires acc.Differential? && i < |ports| && Aggregate(acc, ports).Ok?
    ensures ports[i].HasAssignment() && Aggregate(acc, ports).value.1[i] == SymbolIdentification(acc.Name(), ports[i].assignment.Name())
    decreases |ports|
  {
    var next := Combined(acc, ports[0].assignment);
    if i > 0 {
      assert ports[1..][i - 1] == ports[i];
      AggregateIdentifies(next, ports[1..], i - 1);
    }
  }

  /** The symbol an aggregation wire defines: the parent port, else the output name. */
  function AggregateName(w: VariableAggregationWiring): (r: Result<string>)
    ensures w.parentPort.Some? ==> r == Ok(w.parentPort.value)
    ensures w.parentPort.None? && w.outputName.Some? ==> r == Ok(w.outputName.value)
    ensures w.parentPort.None? && w.outputName.None? ==> r == Err(WiringError)
  {
    if w.parentPort.Some? then Ok(w.parentPort.value)
    else if w.outputName.Some? then Ok(w.outputName.value)
    else Err(WiringError)
  }

  /**
   * One aggregation wire: the child variables are summed into a new
   * differential assignment of the wire's symbol, each child variable is
   * identified with it, and it is exposed at the parent port or kept as an
   * internal variable.
   */
  function VariableWireStep(po: PortedObject, s: CompileState, w: VariableAggregationWiring): (r: Result<CompileState>)
    requires po.CompositeObject?
    ensures TakeChildPorts(s.c, s.unconnectedVariables, w.childPorts).Ok? && AggregateName(w).Err? ==> r == Err(WiringError)
    ensures r.Ok? ==>
      TakeChildPorts(s.c, s.unconnectedVariables, w.childPorts).Ok? && AggregateName(w).Ok? &&
      var taken := TakeChildPorts(s.c, s.unconnectedVariables, w.childPorts).value;
      var name := AggregateName(w).value;
      var agg := Aggregate(Differential(name, Num(0.0)), taken.1);
      agg.Ok? && r.value.unconnectedVariables == taken.0 && r.value.unconnectedInputs == s.unconnectedInputs &&
      var c := s.c.(identifications := s.c.identifications + agg.value.1);
      (w.parentPort.None? ==> r.value.c == c.(internalVariables := Put(c.internalVariables, name, agg.value.0))) &&
      (w.parentPort.Some? ==>
        (LookupPort(po, name).Ok? && LookupPort(po, name).value.Some? &&
         r.value.c == AddVariablePort(c, CompiledPorts.CompileVariable(LookupPort(po, name).value.value, agg.value.0))))
    ensures r.Ok? ==> SameObject(r.value.c, s.c)
    ensures StateKinded(s) && r.Ok? ==> StateKinded(r.value)
  {
    var taken :- TakeChildPorts(s.c, s.unconnectedVariables, w.childPorts);
    var name :- AggregateName(w);
    var agg :- Aggregate(Differential(name, Num(0.0)), taken.1);
    var c := s.c.(identifications := s.c.identifications + agg.1);
    if w.parentPort.Some? then
      var parent :- LookupPort(po, name);
      if parent.None? then Err(AttributeError)
      else
        var p := CompiledPorts.CompileVariable(parent.value, agg.0);
        PutInItems(c.variables.items, p.name, p);
        Ok(CompileState(AddVariablePort(c, p), s.unconnectedInputs, taken.0))
    else Ok(CompileState(c.(internalVariables := Put(c.internalVariables, name, agg.0)), s.unconnectedInputs, taken.0))
  }

  function VariableWiresFrom(po: PortedObject, s: CompileState, ws: seq<VariableAggregationWiring>): (r: Result<CompileState>)
    requires po.CompositeObject?
    ensures r.Ok? ==> SameObject(r.value.c, s.c)
    ensures StateKinded(s) && r.Ok? ==> StateKinded(r.value)
    decreases |ws|
  {
    if ws == [] then Ok(s)
    else
      var s' :- VariableWireStep(po, s, ws[0]);
      VariableWiresFrom(po, s', ws[1..])
  }

  /**
   * A child variable port is aggregated at most once: a later aggregation
   * wire naming a port an earlier one took fails.
   */
  lemma AggregatedOnce(po: PortedObject, s: CompileState, w: VariableAggregationWiring, w': VariableAggregationWiring, n: string)
    requires po.CompositeObject? && n in w.childPorts && n in w'.childPorts
    requires VariableWireStep(po, s, w).Ok?
    ensures VariableWireStep(po, VariableWireStep(po, s, w).value, w').Err?
  {
    var s' := VariableWireStep(po, s, w).value;
    assert !HasKey(s'.unconnectedVariables, n);
  }

  /** Child variable ports no aggregation wire reached become internal variables under `child.port`. */
  function UnwiredFrom(c: Compiled, items: seq<(string, CompiledPort)>): (r: Compiled)
    requires forall i :: 0 <= i < |items| ==> !items[i].1.CompiledInput?
    ensures r == c.(internalVariables := r.internalVariables)
    ensures forall k :: HasKey(c.internalVariables, k) ==> HasKey(r.internalVariables, k)
    ensures forall x :: x in items ==> HasKey(r.internalVariables, x.0)
    decreases |items|
  {
    if items == [] then c
    else
      assert forall x :: x in items <==> x == items[0] || x in items[1..];
      assert forall i :: 1 <= i < |items| ==> items[1..][i - 1] == items[i];
      UnwiredFrom(c.(internalVariables := Put(c.internalVariables, items[0].0, items[0].1.assignment)), items[1..])
  }

  // ---------------------------------------------------------------------
  // compile

  /** Own inputs, then the compiled children, then the directed wires */
  function ConnectPhase(po: PortedObject, children: seq<Compiled>): (r: Result<CompileState>)
    requires po.CompositeObject? && forall ch :: ch in children ==> WellKinded(ch)
    ensures r.Ok? ==> StateKinded(r.value) && r.value.c.name == po.Name() && r.value.c.children == children
  {
    var c0 := NewCompiled(po.Name(), po.table.parsingLocals).(children := children);
    var c1 :- AddCompiledInputs(c0, Dicts.Values(po.table.inputs));
    var s0 := CompileState(c1, Empty(), Empty());
    assert StateKinded(s0) by {
      assert WellKinded(c1);
    }
    var s1 := CollectChildren(s0, children);
    assert StateKinded(s1) && s1.c.name == po.Name() && s1.c.children == children;
    DirectedWiresFrom(po, s1, po.directedWires)
  }

  /** Defaults, then the aggregation wires over an emptied variable-port dictionary, then unwired variables */
  function AggregatePhase(po: PortedObject, s: CompileState): (r: Result<Compiled>)
    requires po.CompositeObject? && StateKinded(s)
    ensures r.Ok? ==> WellKinded(r.value) && SameObject(r.value, s.c)
  {
    var c3 :- ApplyDefaults(s);
    var s3 := CompileState(c3.(variables := Empty()), s.unconnectedInputs, s.unconnectedVariables);
    assert StateKinded(s3);
    var s4 :- VariableWiresFrom(po, s3, po.variableWires);
    assert forall i :: 0 <= i < |s4.unconnectedVariables.items| ==> s4.unconnectedVariables.items[i] in s4.unconnectedVariables.items;
    Ok(UnwiredFrom(s4.c, s4.unconnectedVariables.items))
  }

  /** Identifications, re-keying and optional prefixing of a well-kinded compiled object */
  function FinishPhase(c: Compiled, prefix: bool): (r: Result<Compiled>)
    requires WellKinded(c)
    ensures r.Ok? ==> WellKinded(r.value) && SameObject(r.value, c)
  {
    SubIdentificationsWellKinded(c, c.identifications);
    var c6 := SubIdentifications(c);
    RemapKeysWellKinded(c6);
    var c7 := RemapKeys(c6);
    if prefix then
      SubPrefixedFromWellKinded(c7, c7.name, ContainerKeys(c7));
      SubPrefixed(c7)
    else Ok(c7)
  }

  /**
   * `CompositePortedObject.compile(prefix_names)` given its compiled
   * children: own inputs, child ports and assignments, directed wires,
   * defaults, aggregation wires, unwired variables, identifications,
   * re-keying and optional prefixing.
   */
  function CompileFromChildren(po: PortedObject, children: seq<Compiled>, prefix: bool): (r: Result<Compiled>)
    requires po.CompositeObject? && forall ch :: ch in children ==> WellKinded(ch)
    ensures r.Ok? ==> WellKinded(r.value) && r.value.name == po.Name() && r.value.children == children
  {
    var s :- ConnectPhase(po, children);
    var c :- AggregatePhase(po, s);
    FinishPhase(c, prefix)
  }

  /** `CompositePortedObject.compile(prefix_names)`: the children are compiled with prefixing first. */
  function CompileComposite(po: PortedObject, prefix: bool): (r: Result<Compiled>)
    requires po.CompositeObject?
    ensures r.Ok? ==> WellKinded(r.value) && r.value.name == po.Name()
    decreases po, 1, |po.children| + 1
  {
    var children :- CompileChildren(po, 0);
    CompileFromChildren(po, children, prefix)
  }

  /** `compile(prefix_names)` of any ported object; children are compiled with prefixing. */
  function Compile(po: PortedObject, prefix: bool): (r: Result<Compiled>)
    ensures r.Ok? ==> WellKinded(r.value) && r.value.name == po.Name()
    decreases po, 2
  {
    match po
    case VariableObject(_, _, _, _) => CompileVariableObject(po, prefix, {})
    case FunctionalObject(_, _, _) => CompileFunctionalObject(po, prefix)
    case CompositeObject(_, _, _, _) => CompileComposite(po, prefix)
  }

  /** `{name: child.compile(prefix_names=True) for name, child in self.children.items()}` from the `i`-th child on */
  function CompileChildren(po: PortedObject, i: nat): (r: Result<seq<Compiled>>)
    requires po.CompositeObject? && i <= |po.children|
    ensures r.Ok? ==> |r.value| == |po.children| - i
    ensures r.Ok? ==> forall ch :: ch in r.value ==> WellKinded(ch)
    decreases po, 1, |po.children| - i
  {
    if i == |po.children| then Ok([])
    else
      var first :- Compile(po.children[i], true);
      var rest :- CompileChildren(po, i + 1);
      Ok([first] + rest)
  }
}
