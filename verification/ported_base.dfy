/**
 * The behaviour every ported object shares: its three port dictionaries, how
 * user entries become ports and assignments, how ports are added and looked
 * up, and how assignments are dumped.
 */
module PortedBase {
  import opened Wrappers
  import opened Names
  import opened Expressions
  import opened Values
  import opened Dicts
  import opened Ports
  import opened Assignments

  /**
   * The port dictionaries of a ported object, keyed by port name, and the
   * names its `parsing_locals` dictionary defines.
   */
  datatype PortTable = PortTable(
    name: string,
    inputs: Dict<Port>,
    outputs: Dict<Port>,
    variables: Dict<Port>,
    parsingLocals: set<string>)

  function PortsOf(t: PortTable, kind: PortKind): Dict<Port>
  {
    match kind
    case InputKind => t.inputs
    case OutputKind => t.outputs
    case VariableKind => t.variables
  }

  function WithPorts(t: PortTable, kind: PortKind, d: Dict<Port>): PortTable
  {
    match kind
    case InputKind => t.(inputs := d)
    case OutputKind => t.(outputs := d)
    case VariableKind => t.(variables := d)
  }

  /** Replacing the ports of one kind leaves the others and the rest of the table. */
  lemma WithPortsFrame(t: PortTable, kind: PortKind, d: Dict<Port>)
    ensures PortsOf(WithPorts(t, kind, d), kind) == d
    ensures forall k :: k != kind ==> PortsOf(WithPorts(t, kind, d), k) == PortsOf(t, k)
    ensures WithPorts(t, kind, d).name == t.name && WithPorts(t, kind, d).parsingLocals == t.parsingLocals
  {
    forall k | k != kind ensures PortsOf(WithPorts(t, kind, d), k) == PortsOf(t, k) {
      match k
      case InputKind =>
      case OutputKind =>
      case VariableKind =>
    }
  }

  /**
   * `_check_existing_port_names`: false (with a warning) when the name is
   * already a variable or output port, or a `parsing_locals` key. Input ports
   * are not consulted: the source checks the variable ports twice instead.
   */
  function CheckExistingPortNames(t: PortTable, name: string): (ok: bool)
    ensures ok <==> !HasKey(t.variables, name) && !HasKey(t.outputs, name) && name !in t.parsingLocals
  {
    if HasKey(t.variables, name) || HasKey(t.outputs, name) || HasKey(t.variables, name) then false
    else if name in t.parsingLocals then false
    else true
  }

  /** `_add_input_port` / `_add_output_port` / `_add_variable_port` */
  function AddPort(t: PortTable, kind: PortKind, p: Port): (r: PortTable)
    ensures CheckExistingPortNames(t, p.name) ==> PortsOf(r, kind) == Put(PortsOf(t, kind), p.name, p)
    ensures !CheckExistingPortNames(t, p.name) ==> r == t
    ensures forall k :: k != kind ==> PortsOf(r, k) == PortsOf(t, k)
    ensures r.name == t.name && r.parsingLocals == t.parsingLocals
  {
    if CheckExistingPortNames(t, p.name) then
      var d := Put(PortsOf(t, kind), p.name, p);
      WithPortsFrame(t, kind, d);
      WithPorts(t, kind, d)
    else t
  }

  /** Adding a port, seen from one name. */
  lemma AddPortAt(t: PortTable, kind: PortKind, p: Port, n: string)
    ensures HasKey(PortsOf(AddPort(t, kind, p), kind), n) <==>
            HasKey(PortsOf(t, kind), n) || (n == p.name && CheckExistingPortNames(t, n))
    ensures n != p.name ==> CheckExistingPortNames(AddPort(t, kind, p), n) == CheckExistingPortNames(t, n)
  {
    if CheckExistingPortNames(t, p.name) {
      PutAt(PortsOf(t, kind), p.name, p, n);
      var t' := AddPort(t, kind, p);
      if n != p.name {
        assert HasKey(t'.variables, n) == HasKey(t.variables, n) by {
          if kind == VariableKind { PutAt(t.variables, p.name, p, n); }
        }
        assert HasKey(t'.outputs, n) == HasKey(t.outputs, n) by {
          if kind == OutputKind { PutAt(t.outputs, p.name, p, n); }
        }
      }
    }
  }

  /** A user's description of a port, as `add_*_ports` accept it. */
  datatype PortEntry =
    | PortInstance(port: Port)
    /** keyword arguments for the port class */
    | PortDict(fields: map<string, Raw>)
    | PortTuple(items: seq<Raw>)
    | PortString(s: string)
    | PortOther

  /**
   * The name given to a port constructor. `Port.__init__` tests
   * `HIERARCHY_SEPARATOR in name`, which raises `TypeError` for `None`, a
   * number or a sympy object. Only a string is accepted here: a container
   * such as a tuple, which that test lets through, is refused in the same
   * way.
   */
  function NameArg(v: Raw): (r: Result<string>)
    ensures r.Ok? <==> v.RStr?
    ensures r.Ok? ==> r.value == v.text
    ensures r.Err? ==> r.error == TypeError
  {
    if v.RStr? then Ok(v.text) else Err(TypeError)
  }

  /** The keyword arguments the constructor of a port class accepts. */
  function PortKeywords(kind: PortKind): set<string>
  {
    if kind == InputKind then {"name", "description", "default_value"} else {"name", "description"}
  }

  /** A keyword argument, or the constructor's default when it is not given. */
  function FieldOr(fields: map<string, Raw>, key: string, missing: Raw): Raw
  {
    if key in fields then fields[key] else missing
  }

  /** `port_info[i] if len(port_info) >= i + 1 else missing` */
  function ItemOr(items: seq<Raw>, i: nat, missing: Raw): Raw
  {
    if |items| >= i + 1 then items[i] else missing
  }

  /**
   * `parse_port_entry(port_info, port_type)`, where a tuple that gives no
   * description gets `missingDescription`: `""` in this engine, `None` in
   * the first one. A port instance must have the requested class; a dict
   * needs a "name" key and is passed as keyword arguments; a tuple is
   * `(name, default_value, description)` for an input port and
   * `(name, description)` for the others; a string is the name.
   */
  function ParseEntry(entry: PortEntry, kind: PortKind, missingDescription: Raw): (r: Result<Port>)
    ensures r.Ok? ==> KindOf(r.value) == kind
    ensures r.Ok? && !entry.PortInstance? ==> WellFormed(r.value)
    ensures entry.PortInstance? ==> r == if KindOf(entry.port) == kind then Ok(entry.port) else Err(ValidationError)
    ensures entry.PortDict? && "name" !in entry.fields ==> r == Err(ValidationError)
    ensures entry.PortDict? && "name" in entry.fields ==>
      (r.Err? && r.error == TypeError <==> !(entry.fields.Keys <= PortKeywords(kind)) || !entry.fields["name"].RStr?)
    ensures entry.PortDict? && "name" in entry.fields && entry.fields.Keys <= PortKeywords(kind) && entry.fields["name"].RStr? ==>
      r == NewPort(kind, entry.fields["name"].text, FieldOr(entry.fields, "description", EmptyText),
                   FieldOr(entry.fields, "default_value", RNone))
    ensures entry.PortTuple? && |entry.items| == 0 ==> r == Err(IndexError)
    ensures entry.PortTuple? && |entry.items| >= 1 && !entry.items[0].RStr? ==> r == Err(TypeError)
    ensures entry.PortTuple? && |entry.items| >= 1 && entry.items[0].RStr? && kind == InputKind ==>
      r == NewPort(kind, entry.items[0].text, ItemOr(entry.items, 2, missingDescription), ItemOr(entry.items, 1, RNone))
    ensures entry.PortTuple? && |entry.items| >= 1 && entry.items[0].RStr? && kind != InputKind ==>
      r == NewPort(kind, entry.items[0].text, ItemOr(entry.items, 1, missingDescription), RNone)
    ensures entry.PortString? ==> r == NewPort(kind, entry.s, EmptyText, RNone)
    ensures entry.PortOther? ==> r == Err(ValidationError)
  {
    match entry
    case PortInstance(p) =>
      if KindOf(p) == kind then Ok(p) else Err(ValidationError)
    case PortDict(fields) =>
      if "name" !in fields then Err(ValidationError)
      else if !(fields.Keys <= PortKeywords(kind)) then Err(TypeError)
      else
        var name :- NameArg(fields["name"]);
        NewPort(kind, name, FieldOr(fields, "description", EmptyText), FieldOr(fields, "default_value", RNone))
    case PortTuple(items) =>
      if |items| == 0 then Err(IndexError)
      else
        var name :- NameArg(items[0]);
        if kind == InputKind then NewPort(kind, name, ItemOr(items, 2, missingDescription), ItemOr(items, 1, RNone))
        else NewPort(kind, name, ItemOr(items, 1, missingDescription), RNone)
    case PortString(s) => NewPort(kind, s, EmptyText, RNone)
    case PortOther => Err(ValidationError)
  }

  /** `parse_port_entry(port_info, port_type)` of this engine */
  function ParsePortEntry(entry: PortEntry, kind: PortKind): Result<Port>
  {
    ParseEntry(entry, kind, EmptyText)
  }

  /**
   * A tuple that gives its description, and every other entry, parses the
   * same whatever the missing description would have been.
   */
  lemma DescribedEntryParses(entry: PortEntry, kind: PortKind, missing1: Raw, missing2: Raw)
    requires entry.PortTuple? ==> |entry.items| >= if kind == InputKind then 3 else 2
    ensures ParseEntry(entry, kind, missing1) == ParseEntry(entry, kind, missing2)
  {
  }

  /** A tuple without a description gives the port the missing description. */
  lemma UndescribedTuple(name: string, kind: PortKind, missing: Raw)
    requires !HasSeparator(name)
    ensures ParseEntry(PortTuple([RStr(name, None)]), kind, missing).Ok?
    ensures ParseEntry(PortTuple([RStr(name, None)]), kind, missing).value.description == missing
  {
  }

  /**
   * The dictionary form of a port record, with the strings standing for
   * whatever sympy would parse them to (`nameParse`, `descriptionParse`).
   */
  function PortDataEntry(d: PortData, nameParse: Option<Expr>): PortEntry
  {
    var fields := map["name" := RStr(d.name, nameParse), "description" := d.description];
    PortDict(if d.defaultValue.Some? then fields["default_value" := d.defaultValue.value] else fields)
  }

  /** A dumped port parses back to the same port. */
  lemma PortDataRoundTrip(p: Port, nameParse: Option<Expr>)
    requires WellFormed(p)
    ensures ParsePortEntry(PortDataEntry(Ports.ToData(p), nameParse), KindOf(p)) == Ok(p)
  {
    var e := PortDataEntry(Ports.ToData(p), nameParse);
    assert e.fields.Keys <= PortKeywords(KindOf(p));
  }

  /** `add_input_ports(*ports)` and its siblings, as a specification: entries are parsed and added in order. */
  function AddPortsSpec(t: PortTable, kind: PortKind, entries: seq<PortEntry>): Result<PortTable>
    decreases |entries|
  {
    if entries == [] then Ok(t)
    else
      var p :- ParsePortEntry(entries[0], kind);
      AddPortsSpec(AddPort(t, kind, p), kind, entries[1..])
  }

  /** `add_input_ports(*ports)` and its siblings */
  method AddPorts(t: PortTable, kind: PortKind, entries: seq<PortEntry>) returns (r: Result<PortTable>)
    ensures r == AddPortsSpec(t, kind, entries)
  {
    var current := t;
    var rest := entries;
    while rest != []
      invariant AddPortsSpec(current, kind, rest) == AddPortsSpec(t, kind, entries)
      decreases |rest|
    {
      var p := ParsePortEntry(rest[0], kind);
      if p.Err? {
        return Err(p.error);
      }
      current := AddPort(current, kind, p.value);
      rest := rest[1..];
    }
    return Ok(current);
  }

  /**
   * Adding ports never removes or reorders ports: the old keys are a prefix
   * of the new ones, and the other dictionaries are unchanged.
   */
  lemma {:induction false} AddPortsKeepsOrder(t: PortTable, kind: PortKind, entries: seq<PortEntry>)
    requires AddPortsSpec(t, kind, entries).Ok?
    ensures var r := AddPortsSpec(t, kind, entries).value;
      Keys(PortsOf(t, kind)) <= Keys(PortsOf(r, kind)) &&
      (forall k :: k != kind ==> PortsOf(r, k) == PortsOf(t, k))
    decreases |entries|
  {
    if entries != [] {
      var p := ParsePortEntry(entries[0], kind).value;
      var t' := AddPort(t, kind, p);
      AddPortsKeepsOrder(t', kind, entries[1..]);
    }
  }

  /** A port of an already used input name replaces the existing input port. */
  lemma InputNameReused(t: PortTable, p: Port)
    requires p.InputPort? && HasKey(t.inputs, p.name)
    requires !HasKey(t.variables, p.name) && !HasKey(t.outputs, p.name) && p.name !in t.parsingLocals
    ensures Keys(AddPort(t, InputKind, p).inputs) == Keys(t.inputs)
    ensures Get(AddPort(t, InputKind, p).inputs, p.name) == Some(p)
  {
  }

  /** `_get_port_by_name`: variable ports first, then input ports, then output ports. */
  function GetPortByName(t: PortTable, name: string): (r: Option<Port>)
    ensures r.None? <==> !HasKey(t.variables, name) && !HasKey(t.inputs, name) && !HasKey(t.outputs, name)
    ensures HasKey(t.variables, name) ==> r == Get(t.variables, name)
    ensures !HasKey(t.variables, name) && HasKey(t.inputs, name) ==> r == Get(t.inputs, name)
    ensures !HasKey(t.variables, name) && !HasKey(t.inputs, name) ==> r == Get(t.outputs, name)
  {
    if HasKey(t.variables, name) then Get(t.variables, name)
    else if HasKey(t.inputs, name) then Get(t.inputs, name)
    else Get(t.outputs, name)
  }

  /** The assignment class `parse_assignment_entry` is asked for. */
  datatype AssignmentClass = DifferentialClass | ParameterClass(tag: ParameterTag)

  /** `isinstance(assignment, assignment_type)` */
  predicate IsInstance(a: Assignment, c: AssignmentClass)
  {
    match c
    case DifferentialClass => a.Differential?
    case ParameterClass(tag) => a.Parameter? && (tag == PlainParameter || a.tag == tag)
  }

  /** A user's description of an assignment. */
  datatype AssignmentEntry =
    | AssignmentInstance(assignment: Assignment)
    | AssignmentDict(fields: map<string, Raw>)
    | AssignmentTuple(items: seq<Raw>)
    | AssignmentOther

  /**
   * `SymbolWrapper(symbol)`: a string or a sympy symbol. Anything else is
   * refused here at once.
   */
  function SymbolArg(v: Raw): Result<string>
  {
    if v.RStr? then Ok(v.text)
    else if v.RBasic? && v.e.Sym? then Ok(v.e.name)
    else Err(TypeError)
  }

  /** The constructor of an assignment class. */
  function Construct(c: AssignmentClass, symbol: Raw, expression: Raw): (r: Result<Assignment>)
    ensures r.Ok? ==> IsInstance(r.value, c)
  {
    var name :- SymbolArg(symbol);
    match c
    case DifferentialClass => NewDifferential(name, expression)
    case ParameterClass(tag) => NewParameter(tag, name, expression)
  }

  /** `parse_assignment_entry(assignment_info, assignment_type)` */
  function ParseAssignmentEntry(entry: AssignmentEntry, c: AssignmentClass): (r: Result<Assignment>)
    ensures r.Ok? ==> IsInstance(r.value, c)
    ensures entry.AssignmentInstance? ==>
      r == if IsInstance(entry.assignment, c) then Ok(entry.assignment) else Err(ValidationError)
    ensures entry.AssignmentDict? && "expression" !in entry.fields ==> r == Err(ValidationError)
    ensures entry.AssignmentDict? && c.DifferentialClass? && "variable" !in entry.fields ==> r == Err(ValidationError)
    ensures entry.AssignmentDict? && c.ParameterClass? && "parameter" !in entry.fields ==> r == Err(ValidationError)
    ensures entry.AssignmentTuple? && |entry.items| >= 2 ==> r == Construct(c, entry.items[0], entry.items[1])
    ensures entry.AssignmentOther? ==> r == Err(ValidationError)
  {
    match entry
    case AssignmentInstance(a) => if IsInstance(a, c) then Ok(a) else Err(ValidationError)
    case AssignmentDict(fields) =>
      if "expression" !in fields then Err(ValidationError)
      else
        var key := if c.DifferentialClass? then "variable" else "parameter";
        if key in fields then Construct(c, fields[key], fields["expression"]) else Err(ValidationError)
    case AssignmentTuple(items) =>
      if |items| < 2 then Err(IndexError) else Construct(c, items[0], items[1])
    case AssignmentOther => Err(ValidationError)
  }

  /** `_dump_assignments`: `None` when there are none, else one record per assignment, in order. */
  function DumpAssignments(assignments: Dict<Assignment>): (r: Option<seq<AssignmentData>>)
    ensures r.None? <==> assignments.items == []
    ensures r.Some? ==> |r.value| == |assignments.items|
    ensures r.Some? ==> forall i :: 0 <= i < |r.value| ==> r.value[i] == Assignments.ToData(assignments.items[i].1)
  {
    if assignments.items == [] then None
    else Some(seq(|assignments.items|, i requires 0 <= i < |assignments.items| => Assignments.ToData(assignments.items[i].1)))
  }
}
