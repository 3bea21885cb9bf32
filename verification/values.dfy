/**
 * Python values as they reach psymple's constructors, and the coercion of
 * such a value into a symbolic expression (`ExpressionWrapper`).
 */
module Values {
  import opened Wrappers
  import opened Expressions

  /**
   * A Python value. A string is given together with what sympy's
   * `parse_expr` makes of it (`None` when sympy cannot parse it); parsing
   * itself is not modelled.
   */
  datatype Raw =
    | RNone
    | RStr(text: string, parsed: Option<Expr>)
    | RInt(i: int)
    | RFloat(x: real)
    /** a sympy object */
    | RBasic(e: Expr)
    /** any other Python object (a list, a dict, ...) */
    | ROther

  /** The empty string `""`, which sympy cannot parse. */
  const EmptyText: Raw := RStr("", None)

  /**
   * `ExpressionWrapper(value).expression`: `None` is kept, a string is
   * parsed, an int or float becomes a sympy `Number`, a sympy object is kept
   * and anything else raises `ParsingError`.
   */
  function WrapExpression(raw: Raw): (r: Result<Option<Expr>>)
    ensures r == Ok(None) <==> raw.RNone?
    ensures r.Ok? && r.value.Some? ==> raw.RStr? || raw.RInt? || raw.RFloat? || raw.RBasic?
    ensures raw.RBasic? ==> r == Ok(Some(raw.e))
    ensures raw.RStr? ==> r == if raw.parsed.Some? then Ok(raw.parsed) else Err(SyntaxError)
    ensures raw.RInt? ==> r == Ok(Some(Num(raw.i as real)))
    ensures raw.RFloat? ==> r == Ok(Some(Num(raw.x)))
    ensures raw.ROther? <==> r == Err(ParsingError)
  {
    match raw
    case RNone => Ok(None)
    case RStr(_, parsed) => if parsed.Some? then Ok(parsed) else Err(SyntaxError)
    case RInt(i) => Ok(Some(Num(i as real)))
    case RFloat(x) => Ok(Some(Num(x)))
    case RBasic(e) => Ok(Some(e))
    case ROther => Err(ParsingError)
  }
}
