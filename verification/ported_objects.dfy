/**
 * The three kinds of ported object a user builds: a variable ported object
 * holding differential assignments, a functional ported object holding
 * functional parameter assignments, and a composite ported object holding
 * children and the wires between their ports. Objects are values here; each
 * `add_*` operation returns the updated object or the exception it raises.
 */
module PortedObjects {
  import opened Wrappers
  import opened Names
  import opened Expressions
  import opened Values
  import opened Dicts
  import opened Ports
  import opened Assignments
  import opened Wires
  import opened PortedBase

  datatype PortedObject =
    | VariableObject(table: PortTable, assignments: Dict<Assignment>, internals: set<string>, createInputPorts: bool)
    | FunctionalObject(table: PortTable, assignments: Dict<Assignment>, createInputPorts: bool)
    | CompositeObject(
        table: PortTable,
        children: seq<PortedObject>,
        variableWires: seq<VariableAggregationWiring>,
        directedWires: seq<DirectedWire>)
  {
    function Name(): string { table.name }
  }

  /** Port entries given as plain names, as `add_input_ports(*names)` receives them. */
  function PortStrings(names: seq<string>): (r: seq<PortEntry>)
    ensures |r| == |names|
    ensures forall i :: 0 <= i < |names| ==> r[i] == PortString(names[i])
  {
    seq(|names|, i requires 0 <= i < |names| => PortString(names[i]))
  }

  /**
   * Adding ports by name: it fails exactly when a name holds the separator,
   * and afterwards a name is a key when it was one before or when it is among
   * the names and was not refused by `_check_existing_port_names`.
   */
  lemma {:induction false} AddNamedPorts(t: PortTable, kind: PortKind, names: seq<string>)
    ensures AddPortsSpec(t, kind, PortStrings(names)).Ok? <==> forall n :: n in names ==> !HasSeparator(n)
    ensures AddPortsSpec(t, kind, PortStrings(names)).Ok? ==>
      var r := AddPortsSpec(t, kind, PortStrings(names)).value;
      (forall n :: HasKey(PortsOf(r, kind), n) <==>
         HasKey(PortsOf(t, kind), n) || (n in names && CheckExistingPortNames(t, n))) &&
      (forall k :: k != kind ==> PortsOf(r, k) == PortsOf(t, k)) &&
      r.name == t.name && r.parsingLocals == t.parsingLocals
    decreases |names|
  {
    if names != [] {
      var entries := PortStrings(names);
      assert entries[0] == PortString(names[0]);
      assert entries[1..] == PortStrings(names[1..]);
      var p := NewPort(kind, names[0], EmptyText, RNone);
      StringsCons(names);
      if p.Ok? {
        var t' := AddPort(t, kind, p.value);
        AddNamedPorts(t', kind, names[1..]);
      }
    }
    if AddPortsSpec(t, kind, PortStrings(names)).Ok? {
      forall n ensures HasKey(PortsOf(AddPortsSpec(t, kind, PortStrings(names)).value, kind), n) <==>
                       HasKey(PortsOf(t, kind), n) || (n in names && CheckExistingPortNames(t, n)) {
        AddNamedPortsKey(t, kind, names, n);
      }
    }
  }

  /** A string is in a list when it is the first or in the rest. */
  lemma StringsCons(names: seq<string>)
    requires names != []
    ensures forall n :: n in names <==> n == names[0] || n in names[1..]
  {
    assert names == [names[0]] + names[1..];
  }

  /** `AddNamedPorts` for one name */
  lemma {:induction false} AddNamedPortsKey(t: PortTable, kind: PortKind, names: seq<string>, n: string)
    requires AddPortsSpec(t, kind, PortStrings(names)).Ok?
    ensures HasKey(PortsOf(AddPortsSpec(t, kind, PortStrings(names)).value, kind), n) <==>
            HasKey(PortsOf(t, kind), n) || (n in names && CheckExistingPortNames(t, n))
    decreases |names|
  {
    if names != [] {
      AddPortStringsStep(t, kind, names);
      var p := NewPort(kind, names[0], EmptyText, RNone).value;
      var t' := AddPort(t, kind, p);
      AddNamedPortsKey(t', kind, names[1..], n);
      StringsCons(names);
      AddPortAt(t, kind, p, n);
    }
  }

  /** Adding ports by name adds the first name's port, then the rest's. */
  lemma AddPortStringsStep(t: PortTable, kind: PortKind, names: seq<string>)
    requires names != [] && AddPortsSpec(t, kind, PortStrings(names)).Ok?
    ensures NewPort(kind, names[0], EmptyText, RNone).Ok?
    ensures AddPortsSpec(t, kind, PortStrings(names))
            == AddPortsSpec(AddPort(t, kind, NewPort(kind, names[0], EmptyText, RNone).value), kind, PortStrings(names[1..]))
  {
    var entries := PortStrings(names);
    assert entries[0] == PortString(names[0]);
    assert entries[1..] == PortStrings(names[1..]);
  }

  /** `PortedObject.__init__`: the name, then the input, output and variable ports in that order. */
  function NewTable(name: string, inputs: seq<PortEntry>, outputs: seq<PortEntry>, variables: seq<PortEntry>,
                    parsingLocals: set<string>): (r: Result<PortTable>)
    ensures r.Ok? ==> r.value.name == name && r.value.parsingLocals == parsingLocals
  {
    var t0 := PortTable(name, Empty(), Empty(), Empty(), parsingLocals);
    var t1 :- AddPortsSpec(t0, InputKind, inputs);
    AddPortsSpecKeepsName(t0, InputKind, inputs);
    var t2 :- AddPortsSpec(t1, OutputKind, outputs);
    AddPortsSpecKeepsName(t1, OutputKind, outputs);
    var t3 :- AddPortsSpec(t2, VariableKind, variables);
    AddPortsSpecKeepsName(t2, VariableKind, variables);
    Ok(t3)
  }

  lemma {:induction false} AddPortsSpecKeepsName(t: PortTable, kind: PortKind, entries: seq<PortEntry>)
    ensures AddPortsSpec(t, kind, entries).Ok? ==>
      AddPortsSpec(t, kind, entries).value.name == t.name &&
      AddPortsSpec(t, kind, entries).value.parsingLocals == t.parsingLocals
    decreases |entries|
  {
    if entries != [] {
      var p := ParsePortEntry(entries[0], kind);
      if p.Ok? {
        AddPortsSpecKeepsName(AddPort(t, kind, p.value), kind, entries[1..]);
      }
    }
  }

  // ---------------------------------------------------------------------
  // Variable ported objects

  /** Adding a single port by name: `ValueError` exactly when the name holds the separator. */
  lemma SinglePort(t: PortTable, kind: PortKind, name: string)
    ensures AddPortsSpec(t, kind, [PortString(name)]) ==
      if HasSeparator(name) then Err(ValueError)
      else Ok(AddPort(t, kind, NewPort(kind, name, EmptyText, RNone).value))
  {
    assert [PortString(name)][1..] == [];
  }

  /** The free symbols `get_free_symbols()` reports for an assignment, in order of occurrence. */
  function AssignmentFreeNames(a: Assignment): (r: seq<string>)
    ensures forall n :: n in r <==> n in GetFreeSymbols(a, DefaultGlobals)
  {
    Filter(FreeList(a.expression), n => n !in DefaultGlobals && n != a.Name())
  }

  /** The free symbols of all assignments, assignment by assignment. */
  function AllFreeNames(assignments: seq<Assignment>): (r: seq<string>)
    ensures forall n :: n in r <==> exists a :: a in assignments && n in GetFreeSymbols(a, DefaultGlobals)
  {
    if assignments == [] then []
    else
      assert forall a :: a in assignments <==> a == assignments[0] || a in assignments[1..];
      AssignmentFreeNames(assignments[0]) + AllFreeNames(assignments[1..])
  }

  /** One iteration of the loop of `add_variable_assignments`, for a parsed assignment. */
  function AddDifferential(po: PortedObject, a: Assignment, createVariablePorts: bool): (r: Result<PortedObject>)
    requires po.VariableObject?
    ensures HasKey(po.assignments, a.Name()) ==> r == Err(ValueError)
    ensures r.Err? ==> r.error == ValueError
    ensures r.Ok? ==> r.value.VariableObject? && r.value.assignments == Put(po.assignments, a.Name(), a)
    ensures r.Ok? ==> r.value.Name() == po.Name() && r.value.table.parsingLocals == po.table.parsingLocals &&
                      r.value.createInputPorts == po.createInputPorts
    ensures r.Ok? && !createVariablePorts ==>
      r.value.table == po.table &&
      r.value.internals == if HasKey(po.table.variables, a.Name()) then po.internals else po.internals + {a.Name()}
  {
    var name := a.Name();
    if HasKey(po.assignments, name) then Err(ValueError)
    else
      var assignments := Put(po.assignments, name, a);
      if createVariablePorts then
        SinglePort(po.table, VariableKind, name);
        var t :- AddPortsSpec(po.table, VariableKind, [PortString(name)]);
        Ok(VariableObject(t, assignments, po.internals, po.createInputPorts))
      else if !HasKey(po.table.variables, name) then
        Ok(VariableObject(po.table, assignments, po.internals + {name}, po.createInputPorts))
      else
        Ok(VariableObject(po.table, assignments, po.internals, po.createInputPorts))
  }

  /** The loop of `add_variable_assignments`, one entry after another. */
  function AddDifferentialsSpec(po: PortedObject, entries: seq<AssignmentEntry>, createVariablePorts: bool): (r: Result<PortedObject>)
    requires po.VariableObject?
    ensures r.Ok? ==> r.value.VariableObject? && r.value.createInputPorts == po.createInputPorts
    ensures r.Ok? ==> r.value.Name() == po.Name() && r.value.table.parsingLocals == po.table.parsingLocals
    decreases |entries|
  {
    if entries == [] then Ok(po)
    else
      var a :- ParseAssignmentEntry(entries[0], DifferentialClass);
      var next :- AddDifferential(po, a, createVariablePorts);
      AddDifferentialsSpec(next, entries[1..], createVariablePorts)
  }

  /**
   * The free symbols that are neither internal variables, variable ports
   * nor input ports: the names `add_variable_assignments` creates input
   * ports for. Python iterates over a set here; the names are taken in
   * order of first occurrence.
   */
  function UndefinedNames(po: PortedObject): (r: seq<string>)
    requires po.VariableObject?
    ensures forall n :: n in r <==>
      (exists a :: a in Dicts.Values(po.assignments) && n in GetFreeSymbols(a, DefaultGlobals)) &&
      n !in po.internals && !HasKey(po.table.variables, n) && !HasKey(po.table.inputs, n)
  {
    Filter(AllFreeNames(Dicts.Values(po.assignments)),
      n => n !in po.internals && !HasKey(po.table.variables, n) && !HasKey(po.table.inputs, n))
  }

  /** The final step of `add_variable_assignments` with `create_input_ports` set. */
  function CreateInputPorts(po: PortedObject): (r: Result<PortedObject>)
    requires po.VariableObject?
    ensures r.Ok? ==> r.value.VariableObject? && r.value.Name() == po.Name() && r.value.createInputPorts == po.createInputPorts
  {
    var t :- AddPortsSpec(po.table, InputKind, PortStrings(UndefinedNames(po)));
    AddPortsSpecKeepsName(po.table, InputKind, PortStrings(UndefinedNames(po)));
    Ok(VariableObject(t, po.assignments, po.internals, po.createInputPorts))
  }

  /** `add_variable_assignments(*assignments, create_variable_ports, create_input_ports)` */
  function AddVariableAssignmentsSpec(po: PortedObject, entries: seq<AssignmentEntry>,
                                      createVariablePorts: bool, createInputPorts: bool): (r: Result<PortedObject>)
    requires po.VariableObject?
    ensures r.Ok? ==> r.value.VariableObject? && r.value.Name() == po.Name() && r.value.createInputPorts == po.createInputPorts
  {
    var p :- AddDifferentialsSpec(po, entries, createVariablePorts);
    if createInputPorts then CreateInputPorts(p) else Ok(p)
  }

  method AddVariableAssignments(po: PortedObject, entries: seq<AssignmentEntry>,
                                createVariablePorts: bool, createInputPorts: bool) returns (r: Result<PortedObject>)
    requires po.VariableObject?
    ensures r == AddVariableAssignmentsSpec(po, entries, createVariablePorts, createInputPorts)
  {
    var current := po;
    var i := 0;
    while i < |entries|
      invariant 0 <= i <= |entries| && current.VariableObject?
      invariant AddDifferentialsSpec(current, entries[i..], createVariablePorts) == AddDifferentialsSpec(po, entries, createVariablePorts)
    {
      assert entries[i..][0] == entries[i] && entries[i..][1..] == entries[i + 1..];
      var a := ParseAssignmentEntry(entries[i], DifferentialClass);
      if a.Err? {
        return Err(a.error);
      }
      var name := a.value.Name();
      if HasKey(current.assignments, name) {
        return Err(ValueError);
      }
      var assignments := Put(current.assignments, name, a.value);
      if createVariablePorts {
        var t := AddPorts(current.table, VariableKind, [PortString(name)]);
        if t.Err? {
          return Err(t.error);
        }
        current := VariableObject(t.value, assignments, current.internals, current.createInputPorts);
      } else if !HasKey(current.table.variables, name) {
        current := VariableObject(current.table, assignments, current.internals + {name}, current.createInputPorts);
      } else {
        current := VariableObject(current.table, assignments, current.internals, current.createInputPorts);
      }
      i := i + 1;
    }
    assert entries[i..] == [];
    if createInputPorts {
      var t := AddPorts(current.table, InputKind, PortStrings(UndefinedNames(current)));
      if t.Err? {
        return Err(t.error);
      }
      current := VariableObject(t.value, current.assignments, current.internals, current.createInputPorts);
    }
    return Ok(current);
  }

  /**
   * Every entry adds one new assignment: existing assignments are never
   * replaced and the variable names stay distinct.
   */
  lemma {:induction false} AddDifferentialsGrows(po: PortedObject, entries: seq<AssignmentEntry>, createVariablePorts: bool)
    requires po.VariableObject? && Valid(po.assignments)
    ensures AddDifferentialsSpec(po, entries, createVariablePorts).Ok? ==>
      var r := AddDifferentialsSpec(po, entries, createVariablePorts).value;
      Valid(r.assignments) &&
      |r.assignments.items| == |po.assignments.items| + |entries| &&
      (forall k :: HasKey(po.assignments, k) ==> Get(r.assignments, k) == Get(po.assignments, k))
    decreases |entries|
  {
    if entries != [] && AddDifferentialsSpec(po, entries, createVariablePorts).Ok? {
      var a := ParseAssignmentEntry(entries[0], DifferentialClass).value;
      var next := AddDifferential(po, a, createVariablePorts).value;
      PutValid(po.assignments, a.Name(), a);
      assert |next.assignments.items| == |Keys(next.assignments)| == |Keys(po.assignments)| + 1;
      AddDifferentialsGrows(next, entries[1..], createVariablePorts);
    }
  }

  /** An entry whose variable is already defined makes the whole call raise `ValueError`. */
  lemma {:induction false} ExistingVariableRaises(po: PortedObject, entries: seq<AssignmentEntry>, j: nat, createVariablePorts: bool)
    requires po.VariableObject?
    requires forall i :: 0 <= i < |entries| ==> ParseAssignmentEntry(entries[i], DifferentialClass).Ok?
    requires j < |entries| && HasKey(po.assignments, ParseAssignmentEntry(entries[j], DifferentialClass).value.Name())
    ensures AddDifferentialsSpec(po, entries, createVariablePorts) == Err(ValueError)
    decreases |entries|, 1
  {
    var ok, next := AddDifferentialStep(po, entries, createVariablePorts);
    if ok {
      var name := ParseAssignmentEntry(entries[j], DifferentialClass).value.Name();
      assert HasKey(po.assignments, name);
      ExistingLaterRaises(next, entries, j, createVariablePorts);
    }
  }

  /** `ExistingVariableRaises` on the entries after the first, once the first is added */
  lemma {:induction false} ExistingLaterRaises(next: PortedObject, entries: seq<AssignmentEntry>, j: nat, createVariablePorts: bool)
    requires next.VariableObject? && 0 < j < |entries|
    requires forall k :: 0 <= k < |entries[1..]| ==> ParseAssignmentEntry(entries[1..][k], DifferentialClass).Ok?
    requires ParseAssignmentEntry(entries[j], DifferentialClass).Ok?
    requires HasKey(next.assignments, ParseAssignmentEntry(entries[j], DifferentialClass).value.Name())
    ensures AddDifferentialsSpec(next, entries[1..], createVariablePorts) == Err(ValueError)
    decreases |entries|, 0
  {
    assert entries[1..][j - 1] == entries[j];
    ExistingVariableRaises(next, entries[1..], j - 1, createVariablePorts);
  }

  /**
   * The first step of `add_variable_assignments`: either it raises
   * `ValueError`, or the rest applies to an object holding every name it
   * held and the first entry's name.
   */
  lemma AddDifferentialStep(po: PortedObject, entries: seq<AssignmentEntry>, createVariablePorts: bool)
      returns (ok: bool, next: PortedObject)
    requires po.VariableObject? && entries != []
    requires forall i :: 0 <= i < |entries| ==> ParseAssignmentEntry(entries[i], DifferentialClass).Ok?
    ensures !ok ==> AddDifferentialsSpec(po, entries, createVariablePorts) == Err(ValueError)
    ensures ok ==> !HasKey(po.assignments, ParseAssignmentEntry(entries[0], DifferentialClass).value.Name())
    ensures ok ==> next.VariableObject?
    ensures ok ==> forall k :: HasKey(po.assignments, k) || k == ParseAssignmentEntry(entries[0], DifferentialClass).value.Name()
                              ==> HasKey(next.assignments, k)
    ensures ok ==> forall i :: 0 <= i < |entries[1..]| ==> ParseAssignmentEntry(entries[1..][i], DifferentialClass).Ok?
    ensures ok ==> AddDifferentialsSpec(po, entries, createVariablePorts) == AddDifferentialsSpec(next, entries[1..], createVariablePorts)
  {
    var step := AddDifferential(po, ParseAssignmentEntry(entries[0], DifferentialClass).value, createVariablePorts);
    ok := step.Ok?;
    next := if ok then step.value else po;
    assert forall i :: 0 <= i < |entries[1..]| ==> entries[1..][i] == entries[i + 1];
  }

  /** Two entries defining the same variable make the call raise `ValueError`. */
  lemma {:induction false} DuplicateVariableRaises(po: PortedObject, entries: seq<AssignmentEntry>, i: nat, j: nat, createVariablePorts: bool)
    requires po.VariableObject?
    requires forall k :: 0 <= k < |entries| ==> ParseAssignmentEntry(entries[k], DifferentialClass).Ok?
    requires i < j < |entries|
    requires ParseAssignmentEntry(entries[i], DifferentialClass).value.Name() == ParseAssignmentEntry(entries[j], DifferentialClass).value.Name()
    ensures AddDifferentialsSpec(po, entries, createVariablePorts) == Err(ValueError)
    decreases |entries|, 1
  {
    var ok, next := AddDifferentialStep(po, entries, createVariablePorts);
    if ok {
      if i == 0 {
        var name := ParseAssignmentEntry(entries[0], DifferentialClass).value.Name();
        assert HasKey(next.assignments, name);
        ExistingLaterRaises(next, entries, j, createVariablePorts);
      } else {
        DuplicateLaterRaises(next, entries, i, j, createVariablePorts);
      }
    }
  }

  /** `DuplicateVariableRaises` on the entries after the first */
  lemma {:induction false} DuplicateLaterRaises(next: PortedObject, entries: seq<AssignmentEntry>, i: nat, j: nat, createVariablePorts: bool)
    requires next.VariableObject? && 0 < i < j < |entries|
    requires forall k :: 0 <= k < |entries[1..]| ==> ParseAssignmentEntry(entries[1..][k], DifferentialClass).Ok?
    requires ParseAssignmentEntry(entries[i], DifferentialClass).Ok? && ParseAssignmentEntry(entries[j], DifferentialClass).Ok?
    requires ParseAssignmentEntry(entries[i], DifferentialClass).value.Name() == ParseAssignmentEntry(entries[j], DifferentialClass).value.Name()
    ensures AddDifferentialsSpec(next, entries[1..], createVariablePorts) == Err(ValueError)
    decreases |entries|, 0
  {
    assert entries[1..][i - 1] == entries[i] && entries[1..][j - 1] == entries[j];
    DuplicateVariableRaises(next, entries[1..], i - 1, j - 1, createVariablePorts);
  }

  /**
   * The input ports `create_input_ports` adds are exactly the free symbols
   * that are not internal variables, variable ports or input ports already,
   * less those `_check_existing_port_names` refuses; a free symbol holding
   * the separator makes it raise `ValueError`.
   */
  lemma CreateInputPortsExact(po: PortedObject)
    requires po.VariableObject?
    ensures CreateInputPorts(po).Ok? <==> forall n :: n in UndefinedNames(po) ==> !HasSeparator(n)
    ensures CreateInputPorts(po).Ok? ==>
      var r := CreateInputPorts(po).value;
      r.assignments == po.assignments && r.internals == po.internals &&
      r.table.variables == po.table.variables && r.table.outputs == po.table.outputs &&
      forall n :: HasKey(r.table.inputs, n) <==>
        HasKey(po.table.inputs, n) || (n in UndefinedNames(po) && CheckExistingPortNames(po.table, n))
  {
    var names := UndefinedNames(po);
    AddNamedPorts(po.table, InputKind, names);
    if CreateInputPorts(po).Ok? {
      var t := AddPortsSpec(po.table, InputKind, PortStrings(names)).value;
      assert PortsOf(t, VariableKind) == PortsOf(po.table, VariableKind);
      assert PortsOf(t, OutputKind) == PortsOf(po.table, OutputKind);
    }
  }

  /** `VariablePortedObject(name, input_ports, variable_ports, assignments, create_input_ports, parsing_locals)` */
  function NewVariableObject(name: string, inputs: seq<PortEntry>, variablePorts: seq<PortEntry>,
                             assignments: seq<AssignmentEntry>, createInputPorts: bool,
                             parsingLocals: set<string>): (r: Result<PortedObject>)
    ensures r.Ok? ==> r.value.VariableObject? && r.value.Name() == name && r.value.createInputPorts == createInputPorts
  {
    var t :- NewTable(name, inputs, [], variablePorts, parsingLocals);
    AddVariableAssignmentsSpec(VariableObject(t, Empty(), {}, createInputPorts), assignments, variablePorts == [], createInputPorts)
  }

  // ---------------------------------------------------------------------
  // Functional ported objects

  /**
   * The inner loop of `add_parameter_assignments`: each free symbol without
   * an input port gets one when `create` is set, and raises `ValueError`
   * otherwise.
   */
  function AddSymbolInputs(t: PortTable, names: seq<string>, create: bool): (r: Result<PortTable>)
    ensures r.Ok? ==> r.value.outputs == t.outputs && r.value.variables == t.variables
    ensures r.Ok? ==> r.value.name == t.name && r.value.parsingLocals == t.parsingLocals
    ensures r.Err? ==> r.error == ValueError
    decreases |names|
  {
    if names == [] then Ok(t)
    else if HasKey(t.inputs, names[0]) then AddSymbolInputs(t, names[1..], create)
    else if create then
      SinglePort(t, InputKind, names[0]);
      var t' :- AddPortsSpec(t, InputKind, [PortString(names[0])]);
      AddSymbolInputs(t', names[1..], create)
    else Err(ValueError)
  }

  /** Without `create_input_ports`, a free symbol with no input port raises `ValueError`; nothing changes otherwise. */
  lemma {:induction false} AddSymbolInputsWithoutCreate(t: PortTable, names: seq<string>)
    ensures AddSymbolInputs(t, names, false) ==
      if forall n :: n in names ==> HasKey(t.inputs, n) then Ok(t) else Err(ValueError)
    decreases |names|
  {
    if names != [] {
      AddSymbolInputsWithoutCreate(t, names[1..]);
      assert forall n :: n in names <==> n == names[0] || n in names[1..];
    }
  }

  /**
   * With `create_input_ports`, every free symbol ends up an input port
   * unless `_check_existing_port_names` refuses it; a name holding the
   * separator raises `ValueError`.
   */
  lemma {:induction false} AddSymbolInputsWithCreate(t: PortTable, names: seq<string>)
    ensures AddSymbolInputs(t, names, true).Ok? <==> forall n :: n in names && !HasKey(t.inputs, n) ==> !HasSeparator(n)
    ensures AddSymbolInputs(t, names, true).Ok? ==>
      forall n :: HasKey(AddSymbolInputs(t, names, true).value.inputs, n) <==>
        HasKey(t.inputs, n) || (n in names && CheckExistingPortNames(t, n))
    decreases |names|
  {
    if names != [] {
      assert forall n :: n in names <==> n == names[0] || n in names[1..];
      if HasKey(t.inputs, names[0]) {
        AddSymbolInputsWithCreate(t, names[1..]);
      } else {
        SinglePort(t, InputKind, names[0]);
        if !HasSeparator(names[0]) {
          var t' := AddPort(t, InputKind, NewPort(InputKind, names[0], EmptyText, RNone).value);
          AddSymbolInputsWithCreate(t', names[1..]);
          assert forall n :: CheckExistingPortNames(t', n) == CheckExistingPortNames(t, n);
          assert forall n :: n != names[0] ==> (HasKey(t'.inputs, n) <==> HasKey(t.inputs, n));
        }
      }
    }
  }

  /** One iteration of the loop of `add_parameter_assignments`, for a parsed assignment. */
  function AddParameter(po: PortedObject, a: Assignment, create: bool): (r: Result<PortedObject>)
    requires po.FunctionalObject?
    ensures HasKey(po.assignments, a.Name()) ==> r == Err(ValueError)
    ensures r.Err? ==> r.error == ValueError
    ensures r.Ok? ==> r.value.FunctionalObject? && r.value.assignments == Put(po.assignments, a.Name(), a)
    ensures r.Ok? ==> r.value.table.outputs == Put(po.table.outputs, a.Name(), OutputPort(a.Name(), EmptyText))
    ensures r.Ok? ==> r.value.Name() == po.Name() && r.value.createInputPorts == po.createInputPorts
  {
    var name := a.Name();
    if HasKey(po.assignments, name) then Err(ValueError)
    else
      var t :- AddSymbolInputs(po.table, AssignmentFreeNames(a), create);
      var out :- NewPort(OutputKind, name, EmptyText, RNone);
      Ok(FunctionalObject(t.(outputs := Put(t.outputs, name, out)), Put(po.assignments, name, a), po.createInputPorts))
  }

  /** The loop of `add_parameter_assignments`. */
  function AddParametersSpec(po: PortedObject, entries: seq<AssignmentEntry>, create: bool): (r: Result<PortedObject>)
    requires po.FunctionalObject?
    ensures r.Ok? ==> r.value.FunctionalObject? && r.value.Name() == po.Name() && r.value.createInputPorts == po.createInputPorts
    decreases |entries|
  {
    if entries == [] then Ok(po)
    else
      var a :- ParseAssignmentEntry(entries[0], ParameterClass(FunctionalParameter));
      var next :- AddParameter(po, a, create);
      AddParametersSpec(next, entries[1..], create)
  }

  /** Every assignment is exposed at an output port of its own name. */
  ghost predicate OutputsCover(po: PortedObject)
    requires po.FunctionalObject?
  {
    forall k :: HasKey(po.assignments, k) ==> Get(po.table.outputs, k) == Some(OutputPort(k, EmptyText))
  }

  /**
   * `add_parameter_assignments` adds one new assignment per entry, never
   * replaces one, and gives each an output port of the same name.
   */
  lemma {:induction false} AddParametersOutputs(po: PortedObject, entries: seq<AssignmentEntry>, create: bool)
    requires po.FunctionalObject? && Valid(po.assignments) && OutputsCover(po)
    ensures AddParametersSpec(po, entries, create).Ok? ==>
      var r := AddParametersSpec(po, entries, create).value;
      Valid(r.assignments) && OutputsCover(r) &&
      |r.assignments.items| == |po.assignments.items| + |entries| &&
      (forall k :: HasKey(po.assignments, k) ==> Get(r.assignments, k) == Get(po.assignments, k))
    decreases |entries|
  {
    if entries != [] && AddParametersSpec(po, entries, create).Ok? {
      var a := ParseAssignmentEntry(entries[0], ParameterClass(FunctionalParameter)).value;
      AddParameterOutputs(po, a, create);
      AddParametersOutputs(AddParameter(po, a, create).value, entries[1..], create);
    }
  }

  /** `AddParametersOutputs` for one assignment */
  lemma AddParameterOutputs(po: PortedObject, a: Assignment, create: bool)
    requires po.FunctionalObject? && Valid(po.assignments) && OutputsCover(po)
    requires AddParameter(po, a, create).Ok?
    ensures var r := AddParameter(po, a, create).value;
      Valid(r.assignments) && OutputsCover(r) &&
      |r.assignments.items| == |po.assignments.items| + 1 &&
      (forall k :: HasKey(po.assignments, k) ==> Get(r.assignments, k) == Get(po.assignments, k))
  {
    var next := AddParameter(po, a, create).value;
    var name := a.Name();
    PutValid(po.assignments, name, a);
    assert |next.assignments.items| == |Keys(next.assignments)| == |Keys(po.assignments)| + 1;
    forall k | HasKey(next.assignments, k)
      ensures Get(next.table.outputs, k) == Some(OutputPort(k, EmptyText))
    {
      PutAt(po.assignments, name, a, k);
      PutAt(po.table.outputs, name, OutputPort(name, EmptyText), k);
    }
    forall k | HasKey(po.assignments, k)
      ensures Get(next.assignments, k) == Get(po.assignments, k)
    {
      PutAt(po.assignments, name, a, k);
    }
  }

  /**
   * Without `create_input_ports`, an assignment using a symbol that is not
   * an input port raises `ValueError`.
   */
  lemma MissingInputRaises(po: PortedObject, e: AssignmentEntry, rest: seq<AssignmentEntry>, n: string)
    requires po.FunctionalObject?
    requires ParseAssignmentEntry(e, ParameterClass(FunctionalParameter)).Ok?
    requires n in GetFreeSymbols(ParseAssignmentEntry(e, ParameterClass(FunctionalParameter)).value, DefaultGlobals)
    requires !HasKey(po.table.inputs, n)
    ensures AddParametersSpec(po, [e] + rest, false) == Err(ValueError)
  {
    var a := ParseAssignmentEntry(e, ParameterClass(FunctionalParameter)).value;
    AddSymbolInputsWithoutCreate(po.table, AssignmentFreeNames(a));
    assert ([e] + rest)[0] == e;
  }

  /** `add_parameter_assignments(*assignments, create_input_ports)` */
  method AddParameterAssignments(po: PortedObject, entries: seq<AssignmentEntry>, create: bool) returns (r: Result<PortedObject>)
    requires po.FunctionalObject?
    ensures r == AddParametersSpec(po, entries, create)
  {
    var current := po;
    var i := 0;
    while i < |entries|
      invariant 0 <= i <= |entries| && current.FunctionalObject?
      invariant AddParametersSpec(current, entries[i..], create) == AddParametersSpec(po, entries, create)
    {
      AddParametersUnfold(current, entries, i, create);
      var a := ParseAssignmentEntry(entries[i], ParameterClass(FunctionalParameter));
      if a.Err? {
        return Err(a.error);
      }
      var next := AddParameterStep(current, a.value, create);
      if next.Err? {
        return Err(next.error);
      }
      current := next.value;
      i := i + 1;
    }
    assert entries[i..] == [];
    return Ok(current);
  }

  /** One unfolding of `AddParametersSpec` on the entries from the `i`-th on */
  lemma AddParametersUnfold(po: PortedObject, entries: seq<AssignmentEntry>, i: nat, create: bool)
    requires po.FunctionalObject? && i < |entries|
    ensures var a := ParseAssignmentEntry(entries[i], ParameterClass(FunctionalParameter));
      AddParametersSpec(po, entries[i..], create) ==
        if a.Err? then Err(a.error)
        else if AddParameter(po, a.value, create).Err? then Err(AddParameter(po, a.value, create).error)
        else AddParametersSpec(AddParameter(po, a.value, create).value, entries[i + 1..], create)
  {
    assert entries[i..][0] == entries[i] && entries[i..][1..] == entries[i + 1..];
  }

  /** The body of the loop of `add_parameter_assignments`, for a parsed assignment. */
  method AddParameterStep(po: PortedObject, a: Assignment, create: bool) returns (r: Result<PortedObject>)
    requires po.FunctionalObject?
    ensures r == AddParameter(po, a, create)
  {
    var name := a.Name();
    if HasKey(po.assignments, name) {
      return Err(ValueError);
    }
    var t := AddFreeSymbolInputs(po.table, AssignmentFreeNames(a), create);
    if t.Err? {
      return Err(t.error);
    }
    var out := NewPort(OutputKind, name, EmptyText, RNone);
    if out.Err? {
      return Err(out.error);
    }
    r := Ok(FunctionalObject(t.value.(outputs := Put(t.value.outputs, name, out.value)),
                             Put(po.assignments, name, a), po.createInputPorts));
  }

  /** The loop over the free symbols in `add_parameter_assignments`. */
  method AddFreeSymbolInputs(t: PortTable, names: seq<string>, create: bool) returns (r: Result<PortTable>)
    ensures r == AddSymbolInputs(t, names, create)
  {
    var current := t;
    var j := 0;
    while j < |names|
      invariant 0 <= j <= |names|
      invariant AddSymbolInputs(current, names[j..], create) == AddSymbolInputs(t, names, create)
    {
      assert names[j..][0] == names[j] && names[j..][1..] == names[j + 1..];
      if !HasKey(current.inputs, names[j]) {
        if create {
          var next := AddPorts(current, InputKind, [PortString(names[j])]);
          if next.Err? {
            return Err(next.error);
          }
          current := next.value;
        } else {
          return Err(ValueError);
        }
      }
      j := j + 1;
    }
    assert names[j..] == [];
    return Ok(current);
  }

  /** `FunctionalPortedObject(name, input_ports, assignments, create_input_ports, parsing_locals)` */
  function NewFunctionalObject(name: string, inputs: seq<PortEntry>, assignments: seq<AssignmentEntry>,
                               createInputPorts: bool, parsingLocals: set<string>): (r: Result<PortedObject>)
    ensures r.Ok? ==> r.value.FunctionalObject? && r.value.Name() == name && r.value.createInputPorts == createInputPorts
  {
    var t :- NewTable(name, inputs, [], [], parsingLocals);
    AddParametersSpec(FunctionalObject(t, Empty(), createInputPorts), assignments, createInputPorts)
  }

  // ---------------------------------------------------------------------
  // Composite ported objects: children

  function ChildNames(children: seq<PortedObject>): (r: seq<string>)
    ensures |r| == |children| && forall i :: 0 <= i < |children| ==> r[i] == children[i].Name()
  {
    seq(|children|, i requires 0 <= i < |children| => children[i].Name())
  }

  /** `self.children.get(name)` */
  function FindChild(children: seq<PortedObject>, name: string): (r: Option<PortedObject>)
    ensures r.Some? ==> r.value in children && r.value.Name() == name
    ensures r.None? <==> name !in ChildNames(children)
  {
    if children == [] then None
    else if children[0].Name() == name then Some(children[0])
    else
      var r := FindChild(children[1..], name);
      assert ChildNames(children) == [children[0].Name()] + ChildNames(children[1..]);
      r
  }

  /** With distinct names, the child found under a name is the one of that name. */
  lemma {:induction false} FindChildUnique(children: seq<PortedObject>, i: nat)
    requires i < |children| && NoDuplicates(ChildNames(children))
    ensures FindChild(children, children[i].Name()) == Some(children[i])
    decreases |children|
  {
    if i > 0 {
      assert ChildNames(children)[0] != ChildNames(children)[i];
      assert ChildNames(children[1..]) == ChildNames(children)[1..];
      assert children[1..][i - 1] == children[i];
      FindChildUnique(children[1..], i - 1);
    }
  }

  /** `_add_child`: a second child of the same name raises `ValueError`. */
  function AddChild(po: PortedObject, child: PortedObject): (r: Result<PortedObject>)
    requires po.CompositeObject?
    ensures r.Ok? <==> child.Name() !in ChildNames(po.children)
    ensures r.Err? ==> r.error == ValueError
    ensures r.Ok? ==> (r.value.CompositeObject? && r.value.children == po.children + [child] &&
                       r.value.table == po.table && r.value.variableWires == po.variableWires &&
                       r.value.directedWires == po.directedWires)
  {
    if FindChild(po.children, child.Name()).Some? then Err(ValueError)
    else Ok(po.(children := po.children + [child]))
  }

  /** Children keep distinct names. */
  lemma AddChildDistinct(po: PortedObject, child: PortedObject)
    requires po.CompositeObject? && NoDuplicates(ChildNames(po.children))
    ensures AddChild(po, child).Ok? ==> NoDuplicates(ChildNames(AddChild(po, child).value.children))
  {
    if AddChild(po, child).Ok? {
      var cs := po.children + [child];
      assert ChildNames(cs) == ChildNames(po.children) + [child.Name()];
    }
  }

  /**
   * The keyword arguments of a ported object's constructor, as the
   * `object_data` of a `PortedObjectData` holds them: `None` for an absent
   * key (the children are an empty list when `childrenGiven` is false).
   * `extraKeys` are any other keys.
   */
  datatype ObjectArgs = ObjectArgs(
    inputPorts: Option<seq<PortEntry>>,
    outputPorts: Option<seq<PortEntry>>,
    variablePorts: Option<seq<PortEntry>>,
    assignments: Option<seq<AssignmentEntry>>,
    createInputPorts: Option<bool>,
    childrenGiven: bool,
    children: seq<ChildEntry>,
    variableWires: Option<seq<VariableWireEntry>>,
    directedWires: Option<seq<DirectedWireEntry>>,
    extraKeys: set<string>)

  /** A child given to `add_children`: an object, ported-object data, or anything else (skipped). */
  datatype ChildEntry =
    | ChildObject(obj: PortedObject)
    | ChildData(metadata: map<string, string>, args: ObjectArgs)
    | ChildOther

  /** The keys the arguments define. */
  function ArgKeys(a: ObjectArgs): set<string>
  {
    (if a.inputPorts.Some? then {"input_ports"} else {}) +
    (if a.outputPorts.Some? then {"output_ports"} else {}) +
    (if a.variablePorts.Some? then {"variable_ports"} else {}) +
    (if a.assignments.Some? then {"assignments"} else {}) +
    (if a.createInputPorts.Some? then {"create_input_ports"} else {}) +
    (if a.childrenGiven then {"children"} else {}) +
    (if a.variableWires.Some? then {"variable_wires"} else {}) +
    (if a.directedWires.Some? then {"directed_wires"} else {}) +
    a.extraKeys
  }

  const AllowedObjectKeys: set<string> :=
    {"assignments", "input_ports", "variable_ports", "output_ports", "variable_wires", "directed_wires", "children", "create_input_ports"}

  /**
   * The checks of `PortedObjectData(metadata, object_data)`: the metadata
   * must hold "type" and "name", and the object data no key outside the
   * allowed ones, else `KeyError`.
   */
  function CheckObjectData(metadata: map<string, string>, a: ObjectArgs): (r: Result<bool>)
    ensures r.Ok? <==> "type" in metadata && "name" in metadata && ArgKeys(a) <= AllowedObjectKeys
    ensures r.Err? ==> r.error == KeyError
  {
    if !({"type", "name"} <= metadata.Keys) then Err(KeyError)
    else if ArgKeys(a) - AllowedObjectKeys != {} then Err(KeyError)
    else Ok(true)
  }

  /** The keyword arguments each constructor accepts besides `name` and `parsing_locals`. */
  function ConstructorKeys(kind: string): set<string>
  {
    if kind == "vpo" then {"input_ports", "variable_ports", "assignments", "create_input_ports"}
    else if kind == "fpo" then {"input_ports", "assignments", "create_input_ports"}
    else {"children", "input_ports", "output_ports", "variable_ports", "variable_wires", "directed_wires"}
  }

  function OrEmpty<T>(o: Option<seq<T>>): seq<T>
  {
    if o.Some? then o.value else []
  }

  /**
   * `PortedObjectData(metadata, object_data).to_ported_object(parsing_locals)`:
   * the type must be "vpo", "fpo" or "cpo" (else `KeyError`) and the object
   * data must be keyword arguments its constructor accepts (else `TypeError`).
   */
  function BuildFromData(metadata: map<string, string>, a: ObjectArgs, parsingLocals: set<string>): (r: Result<PortedObject>)
    ensures r.Ok? ==> "name" in metadata && r.value.Name() == metadata["name"]
    ensures r.Ok? ==> "type" in metadata && metadata["type"] in {"vpo", "fpo", "cpo"} && ArgKeys(a) <= ConstructorKeys(metadata["type"])
    ensures r.Ok? ==> "type" in metadata && (r.value.VariableObject? <==> metadata["type"] == "vpo") && (r.value.FunctionalObject? <==> metadata["type"] == "fpo")
    decreases a, 3
  {
    var _ :- CheckObjectData(metadata, a);
    var kind := metadata["type"];
    if kind !in {"vpo", "fpo", "cpo"} then Err(KeyError)
    else if !(ArgKeys(a) <= ConstructorKeys(kind)) then Err(TypeError)
    else
      var create := if a.createInputPorts.Some? then a.createInputPorts.value else true;
      if kind == "vpo" then
        NewVariableObject(metadata["name"], OrEmpty(a.inputPorts), OrEmpty(a.variablePorts), OrEmpty(a.assignments), create, parsingLocals)
      else if kind == "fpo" then
        NewFunctionalObject(metadata["name"], OrEmpty(a.inputPorts), OrEmpty(a.assignments), create, parsingLocals)
      else
        NewCompositeObject(metadata["name"], a, parsingLocals)
  }

  /**
   * `CompositePortedObject(name, children, input_ports, output_ports,
   * variable_ports, variable_wires, directed_wires, parsing_locals)`: the
   * ports, then the children, then the wires.
   */
  function NewCompositeObject(name: string, a: ObjectArgs, parsingLocals: set<string>): (r: Result<PortedObject>)
    ensures r.Ok? ==> r.value.CompositeObject? && r.value.Name() == name
    decreases a, 2
  {
    var t :- NewTable(name, OrEmpty(a.inputPorts), OrEmpty(a.outputPorts), OrEmpty(a.variablePorts), parsingLocals);
    var po :- if a.childrenGiven then AddChildrenFrom(CompositeObject(t, [], [], []), a, 0) else Ok(CompositeObject(t, [], [], []));
    AddWiresSpec(po, OrEmpty(a.variableWires), OrEmpty(a.directedWires))
  }

  /**
   * `add_children(*children)`, from the `i`-th child of the arguments on:
   * each child is added in turn.
   */
  function AddChildrenFrom(po: PortedObject, a: ObjectArgs, i: nat): (r: Result<PortedObject>)
    requires po.CompositeObject?
    ensures r.Ok? ==> (r.value.CompositeObject? && r.value.table == po.table &&
                       r.value.variableWires == po.variableWires && r.value.directedWires == po.directedWires)
    decreases a, 1, |a.children| - i, 1
  {
    if i >= |a.children| then Ok(po)
    else
      var next :- AddChildAt(po, a, i);
      AddChildrenFrom(next, a, i + 1)
  }

  /**
   * One child of `add_children`: an object is added, data is built first
   * (with this object's parsing locals) and anything else is skipped.
   */
  function AddChildAt(po: PortedObject, a: ObjectArgs, i: nat): (r: Result<PortedObject>)
    requires po.CompositeObject? && i < |a.children|
    ensures r.Ok? ==> (r.value.CompositeObject? && r.value.table == po.table &&
                       r.value.variableWires == po.variableWires && r.value.directedWires == po.directedWires)
    ensures r.Ok? ==> (r.value.children == po.children ||
                       exists c :: r.value.children == po.children + [c] && c.Name() !in ChildNames(po.children))
    decreases a, 1, |a.children| - i, 0
  {
    var children := a.children;
    match children[i]
    case ChildObject(c) => AddChild(po, c)
    case ChildData(m, b) =>
      assert b < children[i];
      var c :- BuildFromData(m, b, po.table.parsingLocals);
      AddChild(po, c)
    case ChildOther => Ok(po)
  }

  /** The children of a composite object always have distinct names. */
  lemma {:induction false} AddChildrenDistinct(po: PortedObject, a: ObjectArgs, i: nat)
    requires po.CompositeObject? && NoDuplicates(ChildNames(po.children))
    ensures AddChildrenFrom(po, a, i).Ok? ==> NoDuplicates(ChildNames(AddChildrenFrom(po, a, i).value.children))
    decreases |a.children| - i
  {
    if i < |a.children| && AddChildrenFrom(po, a, i).Ok? {
      var next := AddChildAt(po, a, i).value;
      if next.children != po.children {
        var c :| next.children == po.children + [c] && c.Name() !in ChildNames(po.children);
        assert AddChild(po, c) == Ok(next);
        AddChildDistinct(po, c);
      }
      AddChildrenDistinct(next, a, i + 1);
    }
  }

  // ---------------------------------------------------------------------
  // Composite ported objects: port lookup and children lookup

  /**
   * `_get_port_by_name`. A composite object looks at its own ports first;
   * otherwise the name is split at the first separator and the named child
   * is asked for the rest. A name without separator, or naming an unknown
   * child, raises `ValueError`. The other kinds only consult their own
   * ports and give `None` for an unknown name.
   */
  function LookupPort(po: PortedObject, name: string): (r: Result<Option<Port>>)
    ensures GetPortByName(po.table, name).Some? || !po.CompositeObject? ==> r == Ok(GetPortByName(po.table, name))
    ensures po.CompositeObject? && GetPortByName(po.table, name).None? && !HasSeparator(name) ==> r == Err(ValueError)
    ensures (po.CompositeObject? && GetPortByName(po.table, name).None? && HasSeparator(name) &&
             SplitFirst(name).value.0 !in ChildNames(po.children)) ==> r == Err(ValueError)
    ensures r.Err? ==> r.error == ValueError
    decreases po
  {
    var own := GetPortByName(po.table, name);
    if own.Some? || !po.CompositeObject? then Ok(own)
    else
      match SplitFirst(name)
      case None => Err(ValueError)
      case Some((parent, rest)) =>
        match FindChild(po.children, parent)
        case None => Err(ValueError)
        case Some(child) => LookupPort(child, rest)
  }

  /** A name not among the own ports, `child.rest`, is looked up as `rest` in the child. */
  lemma LookupChildPort(po: PortedObject, i: nat, rest: string)
    requires po.CompositeObject? && i < |po.children| && NoDuplicates(ChildNames(po.children))
    requires !HasSeparator(po.children[i].Name())
    requires GetPortByName(po.table, Join(po.children[i].Name(), rest)).None?
    ensures LookupPort(po, Join(po.children[i].Name(), rest)) == LookupPort(po.children[i], rest)
  {
    SplitJoin(po.children[i].Name(), rest);
    FindChildUnique(po.children, i);
  }

  /** `x` is a child of `y`, or a child of one of its descendants. */
  predicate Descends(x: PortedObject, y: PortedObject)
    decreases y
  {
    y.CompositeObject? && exists c :: c in y.children && (c == x || Descends(x, c))
  }

  /**
   * `_get_child(name)` on a composite object: its own name denotes itself,
   * a child's name the child, and `parent.rest` is resolved in `parent` (the
   * object itself or a composite child); a non-composite parent raises
   * `TypeError` and an unknown name `KeyError`.
   */
  function GetChild(po: PortedObject, name: string): (r: Result<PortedObject>)
    requires po.CompositeObject?
    ensures r.Ok? ==> r.value == po || Descends(r.value, po)
    ensures r.Err? ==> r.error == KeyError || r.error == TypeError
    ensures !HasSeparator(name) && name != po.Name() && name !in ChildNames(po.children) ==> r == Err(KeyError)
    decreases po, |name|
  {
    match SplitFirst(name)
    case None =>
      if name == po.Name() then Ok(po)
      else (
        match FindChild(po.children, name)
        case Some(c) => Ok(c)
        case None => Err(KeyError))
    case Some((parent, rest)) =>
      if parent == po.Name() then GetChild(po, rest)
      else
        match FindChild(po.children, parent)
        case None => Err(KeyError)
        case Some(c) =>
          if c.CompositeObject? then
            var r := GetChild(c, rest);
            assert r.Ok? ==> r.value == c || Descends(r.value, c);
            r
          else Err(TypeError)
  }

  /** A child is found under its own name, and under the object's name followed by its name. */
  lemma GetChildByName(po: PortedObject, i: nat)
    requires po.CompositeObject? && i < |po.children| && NoDuplicates(ChildNames(po.children))
    requires !HasSeparator(po.Name()) && !HasSeparator(po.children[i].Name()) && po.children[i].Name() != po.Name()
    ensures GetChild(po, po.children[i].Name()) == Ok(po.children[i])
    ensures GetChild(po, Join(po.Name(), po.children[i].Name())) == Ok(po.children[i])
  {
    FindChildUnique(po.children, i);
    SplitJoin(po.Name(), po.children[i].Name());
  }

  // ---------------------------------------------------------------------
  // Composite ported objects: wires

  /** The destination argument of `add_directed_wire`: one name or a list of names. */
  datatype Destinations = OneDestination(name: string) | ManyDestinations(names: seq<string>)

  /** A single name is wrapped in a list. */
  function DestinationList(d: Destinations): (r: seq<string>)
    ensures d.OneDestination? ==> r == [d.name]
    ensures d.ManyDestinations? ==> r == d.names
  {
    match d
    case OneDestination(n) => [n]
    case ManyDestinations(ns) => ns
  }

  /** A source must be an own input port, or an output or variable port of a child. */
  predicate ValidSource(po: PortedObject, name: string, p: Port)
  {
    !(HasKey(po.table.outputs, name) || HasKey(po.table.variables, name) ||
      (!HasKey(po.table.inputs, name) && p.InputPort?))
  }

  /** A destination must be an own output port or an input port of a child. */
  predicate ValidDestination(po: PortedObject, name: string, p: Port)
  {
    !(HasKey(po.table.inputs, name) || HasKey(po.table.variables, name) ||
      (!HasKey(po.table.outputs, name) && !p.InputPort?))
  }

  /** The destination is found and is valid. */
  predicate DestinationAccepted(po: PortedObject, name: string)
  {
    var l := LookupPort(po, name);
    l.Ok? && l.value.Some? && ValidDestination(po, name, l.value.value)
  }

  /** The loop of `add_directed_wire` over the destinations: a missing or invalid one raises `WiringError`. */
  function CheckDestinations(po: PortedObject, names: seq<string>): (r: Result<bool>)
    ensures r.Ok? <==> forall i :: 0 <= i < |names| ==> DestinationAccepted(po, names[i])
    ensures r.Err? && (forall i :: 0 <= i < |names| ==> LookupPort(po, names[i]).Ok?) ==> r.error == WiringError
    ensures r.Err? ==> r.error == WiringError || r.error == ValueError
    decreases |names|
  {
    if names == [] then Ok(true)
    else
      var p :- LookupPort(po, names[0]);
      if p.None? || !ValidDestination(po, names[0], p.value) then Err(WiringError)
      else
        var r := CheckDestinations(po, names[1..]);
        assert forall i :: 1 <= i < |names| ==> names[i] == names[1..][i - 1];
        r
  }

  /** `add_directed_wire(source_name, destination_names)` */
  function AddDirectedWireSpec(po: PortedObject, source: string, destinations: Destinations): (r: Result<PortedObject>)
    requires po.CompositeObject?
    ensures r.Ok? <==>
      LookupPort(po, source).Ok? && LookupPort(po, source).value.Some? &&
      ValidSource(po, source, LookupPort(po, source).value.value) &&
      forall i :: 0 <= i < |DestinationList(destinations)| ==> DestinationAccepted(po, DestinationList(destinations)[i])
    ensures r.Ok? ==> r.value == po.(directedWires := po.directedWires + [DirectedWire(source, DestinationList(destinations))])
    ensures r.Err? ==> r.error == WiringError || r.error == ValueError
  {
    var s := LookupPort(po, source);
    if s.Err? then Err(s.error)
    else if s.value.None? || !ValidSource(po, source, s.value.value) then Err(WiringError)
    else
      var names := DestinationList(destinations);
      var c := CheckDestinations(po, names);
      if c.Err? then Err(c.error)
      else Ok(po.(directedWires := po.directedWires + [DirectedWire(source, names)]))
  }

  method AddDirectedWire(po: PortedObject, source: string, destinations: Destinations) returns (r: Result<PortedObject>)
    requires po.CompositeObject?
    ensures r == AddDirectedWireSpec(po, source, destinations)
  {
    var s := LookupPort(po, source);
    if s.Err? {
      return Err(s.error);
    }
    if s.value.None? || !ValidSource(po, source, s.value.value) {
      return Err(WiringError);
    }
    var names := DestinationList(destinations);
    var i := 0;
    while i < |names|
      invariant 0 <= i <= |names|
      invariant CheckDestinations(po, names[i..]) == CheckDestinations(po, names)
    {
      assert names[i..][0] == names[i] && names[i..][1..] == names[i + 1..];
      var p := LookupPort(po, names[i]);
      if p.Err? {
        return Err(p.error);
      }
      if p.value.None? || !ValidDestination(po, names[i], p.value.value) {
        return Err(WiringError);
      }
      i := i + 1;
    }
    assert names[i..] == [];
    return Ok(po.(directedWires := po.directedWires + [DirectedWire(source, names)]));
  }

  /** The lookups of `add_variable_wire`; their results are not used. */
  function LookupAll(po: PortedObject, names: seq<string>): (r: Result<bool>)
    ensures r.Ok? <==> forall i :: 0 <= i < |names| ==> LookupPort(po, names[i]).Ok?
    ensures r.Err? ==> r.error == ValueError
    decreases |names|
  {
    if names == [] then Ok(true)
    else
      var _ :- LookupPort(po, names[0]);
      var r := LookupAll(po, names[1..]);
      assert forall i :: 1 <= i < |names| ==> names[i] == names[1..][i - 1];
      r
  }

  /**
   * `add_variable_wire(child_ports, parent_port, output_name)`. The ports are
   * looked up, but the `WiringError`s built for a wrong parent or child port
   * are never raised: only a failing lookup (`ValueError`) stops the wire.
   */
  function AddVariableWireSpec(po: PortedObject, childPorts: seq<string>, parentPort: Option<string>,
                               outputName: Option<string>): (r: Result<PortedObject>)
    requires po.CompositeObject?
    ensures r.Ok? <==>
      (parentPort.Some? ==> LookupPort(po, parentPort.value).Ok?) &&
      forall i :: 0 <= i < |childPorts| ==> LookupPort(po, childPorts[i]).Ok?
    ensures r.Err? ==> r.error == ValueError
    ensures r.Ok? ==> r.value == po.(variableWires := po.variableWires + [VariableAggregationWiring(childPorts, parentPort, outputName)])
  {
    var _ :- if parentPort.Some? then LookupPort(po, parentPort.value) else Ok(None);
    var _ :- LookupAll(po, childPorts);
    Ok(po.(variableWires := po.variableWires + [VariableAggregationWiring(childPorts, parentPort, outputName)]))
  }

  /** A variable wire as `add_wires` receives it. */
  datatype VariableWireEntry =
    /** a dictionary of keyword arguments: `keys` are the keys present */
    | VariableWireDict(keys: set<string>, childPorts: seq<string>, parentPort: Option<string>, outputName: Option<string>)
    /** `(child_ports, *rest)` */
    | VariableWireTuple(childPorts: seq<string>, rest: seq<Option<string>>)
    /** `()`, whose first item `wire_info[0]` raises `IndexError` */
    | VariableWireEmptyTuple
    | VariableWireOther

  const VariableWireKeys: set<string> := {"child_ports", "parent_port", "output_name"}

  /**
   * The arguments `add_wires` passes to `add_variable_wire`: a dictionary
   * must name "child_ports" and one of "parent_port" and "output_name" (else
   * `ValidationError`) and no other keyword (else `TypeError`); a tuple gives
   * the parent port second and the output name third when it has exactly
   * three entries, and an empty one raises `IndexError`.
   */
  function ParseVariableWireEntry(e: VariableWireEntry): (r: Result<VariableAggregationWiring>)
    ensures e.VariableWireOther? ==> r == Err(ValidationError)
    ensures e.VariableWireEmptyTuple? ==> r == Err(IndexError)
    ensures e.VariableWireDict? && !("child_ports" in e.keys && ("parent_port" in e.keys || "output_name" in e.keys)) ==>
      r == Err(ValidationError)
    ensures e.VariableWireTuple? ==> (r.Ok? && r.value.childPorts == e.childPorts &&
                                      r.value.parentPort == (if |e.rest| >= 1 then e.rest[0] else None) &&
                                      r.value.outputName == (if |e.rest| == 2 then e.rest[1] else None))
  {
    match e
    case VariableWireDict(keys, cp, pp, on) =>
      if !("child_ports" in keys && ("parent_port" in keys || "output_name" in keys)) then Err(ValidationError)
      else if !(keys <= VariableWireKeys) then Err(TypeError)
      else Ok(VariableAggregationWiring(cp, if "parent_port" in keys then pp else None, if "output_name" in keys then on else None))
    case VariableWireTuple(cp, rest) =>
      Ok(VariableAggregationWiring(cp, if |rest| >= 1 then rest[0] else None, if |rest| == 2 then rest[1] else None))
    case VariableWireEmptyTuple => Err(IndexError)
    case VariableWireOther => Err(ValidationError)
  }

  /**
   * A directed wire as `add_wires` receives it; each value is a string or a
   * list of strings.
   */
  datatype DirectedWireEntry =
    /** a dictionary, its entries in insertion order */
    | DirectedWireDict(entries: Dict<Destinations>)
    | DirectedWireTuple(items: seq<Destinations>)
    | DirectedWireOther

  /**
   * `add_directed_wire(*args)`: exactly two positional arguments, else
   * `TypeError`; the first is the source name, and a list there raises
   * `TypeError` as soon as it is looked up among the ports (it is not
   * hashable).
   */
  function DirectedArgs(args: seq<Destinations>): (r: Result<(string, Destinations)>)
    ensures r.Ok? <==> |args| == 2 && args[0].OneDestination?
    ensures r.Ok? ==> r.value == (args[0].name, args[1])
    ensures r.Err? ==> r.error == TypeError
  {
    if |args| != 2 then Err(TypeError)
    else match args[0]
      case OneDestination(source) => Ok((source, args[1]))
      case ManyDestinations(_) => Err(TypeError)
  }

  /** The keys a directed wire dictionary must have. */
  predicate DirectedWireKeys(d: Dict<Destinations>)
  {
    var keys := set k | k in Keys(d);
    keys == {"source", "destinations"} || keys == {"source", "destination"}
  }

  /**
   * The arguments `add_wires` passes to `add_directed_wire`: a dictionary
   * must have exactly the keys {source, destinations} or {source,
   * destination}, else `ValidationError`, and its values are passed in
   * insertion order, whatever their keys; a tuple is passed as it is.
   */
  function ParseDirectedWireEntry(e: DirectedWireEntry): (r: Result<(string, Destinations)>)
    ensures e.DirectedWireDict? && !DirectedWireKeys(e.entries) ==> r == Err(ValidationError)
    ensures e.DirectedWireDict? && DirectedWireKeys(e.entries) ==> r == DirectedArgs(Dicts.Values(e.entries))
    ensures e.DirectedWireTuple? ==> r == DirectedArgs(e.items)
    ensures e.DirectedWireOther? ==> r == Err(ValidationError)
  {
    match e
    case DirectedWireDict(d) =>
      if DirectedWireKeys(d) then DirectedArgs(Dicts.Values(d)) else Err(ValidationError)
    case DirectedWireTuple(items) => DirectedArgs(items)
    case DirectedWireOther => Err(ValidationError)
  }

  /** A dictionary written source first gives its source and its destinations. */
  lemma SourceFirst(source: string, key: string, destinations: Destinations)
    requires key == "destination" || key == "destinations"
    ensures ParseDirectedWireEntry(DirectedWireDict(Dict([("source", OneDestination(source)), (key, destinations)])))
         == Ok((source, destinations))
  {
    var d := Dict([("source", OneDestination(source)), (key, destinations)]);
    assert Keys(d) == ["source", key];
    assert Dicts.Values(d) == [OneDestination(source), destinations];
  }

  /**
   * A dictionary written destination first is wired the other way round:
   * the destination becomes the source.
   */
  lemma DestinationFirst(source: string, destination: string)
    ensures ParseDirectedWireEntry(DirectedWireDict(Dict([("destination", OneDestination(destination)),
                                                          ("source", OneDestination(source))])))
         == Ok((destination, OneDestination(source)))
  {
    var d := Dict([("destination", OneDestination(destination)), ("source", OneDestination(source))]);
    assert Keys(d) == ["destination", "source"];
    assert Dicts.Values(d) == [OneDestination(destination), OneDestination(source)];
  }

  /** `add_wires(variable_wires, directed_wires)`: the variable wires first, then the directed wires. */
  function AddWiresSpec(po: PortedObject, variableWires: seq<VariableWireEntry>, directedWires: seq<DirectedWireEntry>): (r: Result<PortedObject>)
    requires po.CompositeObject?
    ensures r.Ok? ==> r.value.CompositeObject? && r.value.table == po.table && r.value.children == po.children
  {
    var p :- AddVariableWiresSpec(po, variableWires);
    AddDirectedWiresSpec(p, directedWires)
  }

  function AddVariableWiresSpec(po: PortedObject, entries: seq<VariableWireEntry>): (r: Result<PortedObject>)
    requires po.CompositeObject?
    ensures r.Ok? ==> (r.value.CompositeObject? && r.value.table == po.table && r.value.children == po.children &&
                       r.value.directedWires == po.directedWires &&
                       |r.value.variableWires| == |po.variableWires| + |entries|)
    decreases |entries|
  {
    if entries == [] then Ok(po)
    else
      var w :- ParseVariableWireEntry(entries[0]);
      var next :- AddVariableWireSpec(po, w.childPorts, w.parentPort, w.outputName);
      AddVariableWiresSpec(next, entries[1..])
  }

  function AddDirectedWiresSpec(po: PortedObject, entries: seq<DirectedWireEntry>): (r: Result<PortedObject>)
    requires po.CompositeObject?
    ensures r.Ok? ==> (r.value.CompositeObject? && r.value.table == po.table && r.value.children == po.children &&
                       r.value.variableWires == po.variableWires &&
                       |r.value.directedWires| == |po.directedWires| + |entries|)
    decreases |entries|
  {
    if entries == [] then Ok(po)
    else
      var w :- ParseDirectedWireEntry(entries[0]);
      var next :- AddDirectedWireSpec(po, w.0, w.1);
      AddDirectedWiresSpec(next, entries[1..])
  }

  method AddWires(po: PortedObject, variableWires: seq<VariableWireEntry>, directedWires: seq<DirectedWireEntry>)
    returns (r: Result<PortedObject>)
    requires po.CompositeObject?
    ensures r == AddWiresSpec(po, variableWires, directedWires)
  {
    var current := po;
    var i := 0;
    while i < |variableWires|
      invariant 0 <= i <= |variableWires| && current.CompositeObject?
      invariant AddVariableWiresSpec(current, variableWires[i..]) == AddVariableWiresSpec(po, variableWires)
    {
      assert variableWires[i..][0] == variableWires[i] && variableWires[i..][1..] == variableWires[i + 1..];
      var w := ParseVariableWireEntry(variableWires[i]);
      if w.Err? {
        return Err(w.error);
      }
      var next := AddVariableWireSpec(current, w.value.childPorts, w.value.parentPort, w.value.outputName);
      if next.Err? {
        return Err(next.error);
      }
      current := next.value;
      i := i + 1;
    }
    assert variableWires[i..] == [];
    var afterVariable := current;
    i := 0;
    while i < |directedWires|
      invariant 0 <= i <= |directedWires| && current.CompositeObject?
      invariant AddDirectedWiresSpec(current, directedWires[i..]) == AddDirectedWiresSpec(afterVariable, directedWires)
    {
      assert directedWires[i..][0] == directedWires[i] && directedWires[i..][1..] == directedWires[i + 1..];
      var w := ParseDirectedWireEntry(directedWires[i]);
      if w.Err? {
        return Err(w.error);
      }
      var next := AddDirectedWire(current, w.value.0, w.value.1);
      if next.Err? {
        return Err(next.error);
      }
      current := next.value;
      i := i + 1;
    }
    assert directedWires[i..] == [];
    return Ok(current);
  }

  /** The dictionary `add_wires` receives for a dumped directed wire. */
  function DirectedWireDataEntry(d: DirectedWireData): DirectedWireEntry
  {
    DirectedWireDict(Dict([("source", OneDestination(d.source)), ("destinations", ManyDestinations(d.destinations))]))
  }

  /** The dictionary `add_wires` receives for a dumped variable wire. */
  function VariableWireDataEntry(d: VariableWireData): VariableWireEntry
  {
    VariableWireDict(VariableWireKeys, d.childPorts, d.parentPort, d.outputName)
  }

  /** A dumped directed wire, added again, is the same wire. */
  lemma DirectedWireRoundTrip(po: PortedObject, w: DirectedWire)
    requires po.CompositeObject?
    requires AddDirectedWireSpec(po, w.source, ManyDestinations(w.destinations)).Ok?
    ensures AddDirectedWiresSpec(po, [DirectedWireDataEntry(DirectedWireToData(w))]) ==
      Ok(po.(directedWires := po.directedWires + [w]))
  {
    SourceFirst(w.source, "destinations", ManyDestinations(w.destinations));
  }

  /** A dumped variable wire, added again, is the same wire. */
  lemma VariableWireRoundTrip(po: PortedObject, w: VariableAggregationWiring)
    requires po.CompositeObject?
    requires AddVariableWireSpec(po, w.childPorts, w.parentPort, w.outputName).Ok?
    ensures AddVariableWiresSpec(po, [VariableWireDataEntry(VariableWireToData(w))]) ==
      Ok(po.(variableWires := po.variableWires + [w]))
  {
  }
}
