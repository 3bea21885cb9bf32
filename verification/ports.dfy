/**
 * Ports: named points through which a ported object exposes its contents.
 * A port's symbol is always the symbol named after the port, so symbols are
 * represented by the port name itself.
 */
module Ports {
  import opened Wrappers
  import opened Names
  import opened Values

  datatype Port =
    | InputPort(name: string, description: Raw, defaultValue: Raw)
    | OutputPort(name: string, description: Raw)
    | VariablePort(name: string, description: Raw)

  /** The port classes, as the `port_type` argument of the parsing functions. */
  datatype PortKind = InputKind | OutputKind | VariableKind

  function KindOf(p: Port): PortKind
  {
    match p
    case InputPort(_, _, _) => InputKind
    case OutputPort(_, _) => OutputKind
    case VariablePort(_, _) => VariableKind
  }

  /**
   * The port constructors: a name holding the hierarchy separator raises
   * `ValueError`. `defaultValue` is only used by `InputPort`.
   */
  function NewPort(kind: PortKind, name: string, description: Raw, defaultValue: Raw): (r: Result<Port>)
    ensures r.Ok? <==> !HasSeparator(name)
    ensures r.Err? ==> r.error == ValueError
    ensures r.Ok? ==> KindOf(r.value) == kind && r.value.name == name && r.value.description == description
    ensures r.Ok? && kind == InputKind ==> r.value.defaultValue == defaultValue
  {
    if HasSeparator(name) then Err(ValueError)
    else
      match kind
      case InputKind => Ok(InputPort(name, description, defaultValue))
      case OutputKind => Ok(OutputPort(name, description))
      case VariableKind => Ok(VariablePort(name, description))
  }

  /** A port built by its class's constructor: no separator in its name. */
  predicate WellFormed(p: Port)
  {
    !HasSeparator(p.name)
  }

  /** The record `_to_data` returns; `defaultValue` is present for input ports only. */
  datatype PortData = PortData(name: string, description: Raw, defaultValue: Option<Raw>)

  function ToData(p: Port): (r: PortData)
    ensures r.name == p.name && r.description == p.description
    ensures r.defaultValue.Some? <==> p.InputPort?
    ensures p.InputPort? ==> r.defaultValue == Some(p.defaultValue)
  {
    match p
    case InputPort(n, d, v) => PortData(n, d, Some(v))
    case OutputPort(n, d) => PortData(n, d, None)
    case VariablePort(n, d) => PortData(n, d, None)
  }

  /** A well-formed port is what its constructor makes of its own data. */
  lemma ToDataRebuilds(p: Port)
    requires WellFormed(p)
    ensures var d := ToData(p);
      NewPort(KindOf(p), d.name, d.description, if d.defaultValue.Some? then d.defaultValue.value else RNone) == Ok(p)
  {
  }
}
