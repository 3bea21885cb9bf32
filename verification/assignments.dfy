/**
 * Assignments: a symbol on the left, an expression on the right.
 *
 * A `DifferentialAssignment` states d(variable)/dt = expression. A
 * `ParameterAssignment` states parameter = expression; its symbol wrapper is
 * a `Parameter` that stores a second copy of the expression (`value`), which
 * psymple keeps equal to the expression. `DefaultParameterAssignment` and
 * `FunctionalAssignment` are tags on parameter assignments.
 */
module Assignments {
  import opened Wrappers
  import opened Expressions
  import opened Values

  datatype ParameterTag = PlainParameter | DefaultParameter | FunctionalParameter

  datatype Assignment =
    | Differential(variable: string, expression: Expr)
    | Parameter(tag: ParameterTag, parameter: string, expression: Expr, value: Expr)
  {
    /** `assignment.name`, the name of the left-hand symbol */
    function Name(): string
    {
      if Differential? then variable else parameter
    }
  }

  /** The names of a list of assignments, in order. */
  function AssignmentNameList(assignments: seq<Assignment>): (r: seq<string>)
    ensures |r| == |assignments| && forall i :: 0 <= i < |r| ==> r[i] == assignments[i].Name()
  {
    seq(|assignments|, i requires 0 <= i < |assignments| => assignments[i].Name())
  }

  /** An assignment is in a list when it is the first or in the rest. */
  lemma AssignmentsCons(assignments: seq<Assignment>)
    requires assignments != []
    ensures forall a :: a in assignments <==> a == assignments[0] || a in assignments[1..]
  {
    assert assignments == [assignments[0]] + assignments[1..];
  }

  /** A name is in the list when it is the first one's or in the rest's. */
  lemma NameListCons(assignments: seq<Assignment>, k: string)
    requires assignments != []
    ensures k in AssignmentNameList(assignments) <==>
            k == assignments[0].Name() || k in AssignmentNameList(assignments[1..])
  {
    var names := AssignmentNameList(assignments);
    var rest := AssignmentNameList(assignments[1..]);
    if k in names {
      var i :| 0 <= i < |names| && names[i] == k;
      if i > 0 {
        assert rest[i - 1] == k;
      }
    }
    if k in rest {
      var i :| 0 <= i < |rest| && rest[i] == k;
      assert names[i + 1] == k;
    }
  }

  /** The stored parameter value agrees with the expression. */
  predicate Synced(a: Assignment)
  {
    a.Parameter? ==> a.value == a.expression
  }

  /**
   * `DifferentialAssignment(symbol, expression)` as written: once the
   * expression is wrapped, the plain symbol wrapper is always replaced by
   * `Variable(symbol=..., description=...)`, a call without the required
   * `initial_value` that raises `TypeError`.
   */
  function NewDifferentialAsWritten(symbol: string, expression: Raw): (r: Result<Assignment>)
    ensures WrapExpression(expression).Err? ==> r == Err(WrapExpression(expression).error)
    ensures WrapExpression(expression).Ok? ==> r == Err(TypeError)
  {
    var _ :- WrapExpression(expression);
    Err(TypeError)
  }

  /**
   * `DifferentialAssignment(symbol, expression)` with the variable built as
   * `Variable(symbol, None, description)`: the assignment is made whenever
   * the expression wraps to a value.
   */
  function NewDifferential(symbol: string, expression: Raw): (r: Result<Assignment>)
    ensures r.Ok? <==> WrapExpression(expression).Ok? && WrapExpression(expression).value.Some?
    ensures r.Ok? ==> r.value == Differential(symbol, WrapExpression(expression).value.value)
  {
    var e :- WrapExpression(expression);
    if e.None? then Err(AttributeError) else Ok(Differential(symbol, e.value))
  }

  /**
   * As written no differential assignment is ever made, not even of a sympy
   * expression; the corrected constructor makes it.
   */
  lemma DifferentialAsWrittenFails(symbol: string, e: Expr)
    ensures NewDifferentialAsWritten(symbol, RBasic(e)) == Err(TypeError)
    ensures NewDifferential(symbol, RBasic(e)) == Ok(Differential(symbol, e))
  {
  }

  /**
   * `ParameterAssignment(symbol, expression)` and its tagged subclasses: the
   * stored value is the expression, and a symbol that occurs in its own
   * expression raises `DependencyError`.
   */
  function NewParameter(tag: ParameterTag, symbol: string, expression: Raw): (r: Result<Assignment>)
    ensures r.Ok? ==> r.value.Parameter? && r.value.tag == tag && r.value.Name() == symbol
    ensures r.Ok? ==> Synced(r.value) && symbol !in FreeSymbols(r.value.expression)
    ensures WrapExpression(expression).Ok? && WrapExpression(expression).value.Some? ==>
      (r.Ok? <==> symbol !in FreeSymbols(WrapExpression(expression).value.value))
    ensures r.Err? && WrapExpression(expression).Ok? && WrapExpression(expression).value.Some? ==>
      r.error == DependencyError
  {
    var e :- WrapExpression(expression);
    if e.None? then Err(AttributeError)
    else if symbol in FreeSymbols(e.value) then Err(DependencyError)
    else Ok(Parameter(tag, symbol, e.value, e.value))
  }

  /**
   * `substitute_symbol(old, new)`: the left-hand symbol is renamed only when it
   * is `old`; the expression always has `old` replaced; a parameter's stored
   * value is synchronised with the new expression.
   */
  function Substituted(a: Assignment, oldSym: string, newSym: string): (r: Assignment)
    ensures r.Name() == if a.Name() == oldSym then newSym else a.Name()
    ensures r.expression == Rename(a.expression, oldSym, newSym)
    ensures Synced(r)
    ensures r.Differential? == a.Differential? && (r.Parameter? ==> r.tag == a.tag)
  {
    var name := if a.Name() == oldSym then newSym else a.Name();
    var e := Rename(a.expression, oldSym, newSym);
    match a
    case Differential(_, _) => Differential(name, e)
    case Parameter(tag, _, _, _) => Parameter(tag, name, e, e)
  }

  /** `get_free_symbols(global_symbols)` */
  function GetFreeSymbols(a: Assignment, globals: set<string>): (r: set<string>)
    ensures r <= FreeSymbols(a.expression)
    ensures a.Name() !in r && r !! globals
    ensures forall s :: s in FreeSymbols(a.expression) && s !in globals && s != a.Name() ==> s in r
  {
    FreeSymbols(a.expression) - globals - {a.Name()}
  }

  /** The default global symbols of `get_free_symbols`: the time symbol. */
  const DefaultGlobals: set<string> := {TimeSymbol}

  /** `DifferentialAssignment.combine(other)`: the right-hand sides are added. */
  function Combined(a: Assignment, other: Assignment): (r: Assignment)
    requires a.Differential?
    ensures r.Differential? && r.Name() == a.Name()
    ensures FreeSymbols(r.expression) == FreeSymbols(a.expression) + FreeSymbols(other.expression)
  {
    Differential(a.variable, Add(a.expression, other.expression))
  }

  /**
   * The record `_to_data` returns: the expression (standing for its printed
   * form), plus the "variable" or the "parameter" entry.
   */
  datatype AssignmentData = AssignmentData(expression: Expr, variable: Option<string>, parameter: Option<string>)

  function ToData(a: Assignment): (r: AssignmentData)
    ensures r.expression == a.expression
    ensures a.Differential? <==> r.variable == Some(a.Name())
    ensures a.Parameter? <==> r.parameter == Some(a.Name())
    ensures r.variable.None? || r.parameter.None?
  {
    match a
    case Differential(v, e) => AssignmentData(e, Some(v), None)
    case Parameter(_, p, e, _) => AssignmentData(e, None, Some(p))
  }

  /** A renaming through a fresh symbol is undone by the reverse renaming. */
  lemma SubstituteRoundTrip(a: Assignment, oldSym: string, newSym: string)
    requires newSym != a.Name() && newSym !in FreeSymbols(a.expression)
    requires Synced(a)
    ensures Substituted(Substituted(a, oldSym, newSym), newSym, oldSym) == a
  {
    RenameRoundTrip(a.expression, oldSym, newSym);
  }

  /**
   * The in-place form: an assignment object whose symbol, expression and
   * (for a parameter) stored value `substitute_symbol` and `combine` update.
   */
  class AssignmentObject {
    /** `None` for a `DifferentialAssignment`, the subclass tag for a parameter assignment */
    const tag: Option<ParameterTag>
    var symbol: string
    var expression: Expr
    var parameterValue: Expr

    function Value(): Assignment
      reads this
    {
      if tag.None? then Differential(symbol, expression)
      else Parameter(tag.value, symbol, expression, parameterValue)
    }

    constructor (a: Assignment)
      ensures Value() == a
    {
      tag := if a.Differential? then None else Some(a.tag);
      symbol := a.Name();
      expression := a.expression;
      parameterValue := if a.Differential? then a.expression else a.value;
    }

    method SubstituteSymbol(oldSym: string, newSym: string)
      modifies this
      ensures Value() == Substituted(old(Value()), oldSym, newSym)
    {
      if symbol == oldSym {
        symbol := newSym;
      }
      expression := Rename(expression, oldSym, newSym);
      if tag.Some? {
        // `_sync_param_value`
        parameterValue := expression;
      }
    }

    method Combine(other: Assignment)
      requires tag.None?
      modifies this
      ensures Value() == Combined(old(Value()), other)
    {
      expression := Add(expression, other.expression);
    }
  }
}
