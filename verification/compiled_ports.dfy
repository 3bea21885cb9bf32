/**
 * Compiled ports: a port together with the assignment it exposes. Output and
 * variable ports carry an assignment (a private copy, as psymple deep-copies
 * it); input ports carry none and keep the port's default value.
 */
module CompiledPorts {
  import opened Wrappers
  import opened Expressions
  import opened Values
  import opened Ports
  import opened Assignments

  datatype CompiledPort =
    | CompiledInput(name: string, description: Raw, defaultValue: Raw)
    | CompiledOutput(name: string, description: Raw, assignment: Assignment)
    | CompiledVariable(name: string, description: Raw, assignment: Assignment)
  {
    predicate HasAssignment() { !CompiledInput? }
  }

  /** `CompiledInputPort(port)`: the port must be an `InputPort` (an `assert`). */
  function CompileInput(p: Port): (r: Result<CompiledPort>)
    ensures r.Ok? <==> p.InputPort?
    ensures r.Err? ==> r.error == AssertionError
    ensures r.Ok? ==> r.value == CompiledInput(p.name, p.description, p.defaultValue)
  {
    if p.InputPort? then Ok(CompiledInput(p.name, p.description, p.defaultValue))
    else Err(AssertionError)
  }

  /** `CompiledOutputPort(port, assignment)`: the port's name and description, a copy of the assignment. */
  function CompileOutput(p: Port, a: Assignment): (r: CompiledPort)
    ensures r.CompiledOutput? && r.name == p.name && r.description == p.description && r.assignment == a
  {
    CompiledOutput(p.name, p.description, a)
  }

  /** `CompiledVariablePort(port, assignment)` */
  function CompileVariable(p: Port, a: Assignment): (r: CompiledPort)
    ensures r.CompiledVariable? && r.name == p.name && r.description == p.description && r.assignment == a
  {
    CompiledVariable(p.name, p.description, a)
  }

  /**
   * `substitute_symbol(old, new)`. A port with an assignment passes the
   * substitution on and takes the assignment's (possibly new) name; a port
   * without one is renamed only when its symbol is `old`.
   */
  function SubstitutePort(c: CompiledPort, oldSym: string, newSym: string): (r: CompiledPort)
    ensures r.HasAssignment() ==> r.name == r.assignment.Name()
    ensures c.HasAssignment() <==> r.HasAssignment()
    ensures c.HasAssignment() ==> r.assignment == Substituted(c.assignment, oldSym, newSym)
    ensures c.CompiledInput? ==> r == CompiledInput(if c.name == oldSym then newSym else c.name, c.description, c.defaultValue)
    ensures r.CompiledOutput? == c.CompiledOutput? && r.CompiledVariable? == c.CompiledVariable?
    ensures r.description == c.description
  {
    match c
    case CompiledInput(n, d, v) => if n == oldSym then CompiledInput(newSym, d, v) else c
    case CompiledOutput(_, d, a) =>
      var a' := Substituted(a, oldSym, newSym);
      CompiledOutput(a'.Name(), d, a')
    case CompiledVariable(_, d, a) =>
      var a' := Substituted(a, oldSym, newSym);
      CompiledVariable(a'.Name(), d, a')
  }

  /** The port's name agrees with the name of the assignment it exposes. */
  predicate NameAgrees(c: CompiledPort)
  {
    c.HasAssignment() ==> c.name == c.assignment.Name()
  }

  /** A port whose name agrees with its assignment is renamed exactly like a port without one. */
  lemma SubstitutePortName(c: CompiledPort, oldSym: string, newSym: string)
    requires NameAgrees(c)
    ensures SubstitutePort(c, oldSym, newSym).name == if c.name == oldSym then newSym else c.name
  {
  }

  /** The in-place form: `substitute_symbol` updates the port's name and its assignment. */
  class CompiledPortObject {
    var name: string
    const description: Raw
    var assignment: Option<Assignment>
    /** `None` unless this is a `CompiledInputPort` */
    const defaultValue: Option<Raw>
    /** true for a `CompiledVariablePort`, false for a `CompiledOutputPort` */
    const isVariable: bool

    predicate Valid()
      reads this
    {
      defaultValue.Some? <==> assignment.None?
    }

    function Value(): CompiledPort
      reads this
      requires Valid()
    {
      if assignment.None? then CompiledInput(name, description, defaultValue.value)
      else if isVariable then CompiledVariable(name, description, assignment.value)
      else CompiledOutput(name, description, assignment.value)
    }

    /** `CompiledInputPort(port)` */
    constructor Input(p: Port)
      requires p.InputPort?
      ensures Valid() && Ok(Value()) == CompileInput(p)
    {
      name := p.name;
      description := p.description;
      assignment := None;
      defaultValue := Some(p.defaultValue);
      isVariable := false;
    }

    /** `CompiledOutputPort(port, assignment)` or `CompiledVariablePort(port, assignment)` */
    constructor WithAssignment(p: Port, a: Assignment, variable: bool)
      ensures Valid()
      ensures Value() == if variable then CompileVariable(p, a) else CompileOutput(p, a)
    {
      name := p.name;
      description := p.description;
      assignment := Some(a);
      defaultValue := None;
      isVariable := variable;
    }

    method SubstituteSymbol(oldSym: string, newSym: string)
      requires Valid()
      modifies this
      ensures Valid()
      ensures Value() == SubstitutePort(old(Value()), oldSym, newSym)
    {
      if assignment.Some? {
        var a := Substituted(assignment.value, oldSym, newSym);
        assignment := Some(a);
        name := a.Name();
      } else if name == oldSym {
        name := newSym;
      }
    }
  }
}
