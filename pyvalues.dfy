/** The Python values that travel through the parameter bag and the uploaded tables, and the
    few Python operations the core applies to them: truth value (`not x`, `bool(x)`), `int(x)`,
    `a > b`, `dict.get`, `dict[key]` and the `%` string-formatting operator. */
module PyValues {
  import opened Results
  import Text

  datatype Value = PyNone | PyBool(b: bool) | PyInt(i: int) | PyFloat(x: real) | PyStr(s: string)

  /** The exceptions the modelled code can raise. */
  datatype PyError =
    | KeyError      // `d[key]` on a missing key
    | TypeError     // an operation on an unsupported type, or a `%` argument-count mismatch
    | ValueError    // `int(s)` of a string that is not an integer, or a bad `%` directive
    | DoesNotExist  // a record store lookup `objects.get(id=...)` that finds nothing

  /** A parameter bag: option name to value (a Python dict). */
  type Bag = map<string, Value>

  /** Python's truth value: `None`, `False`, zero and the empty string are false. */
  predicate Truthy(v: Value) {
    match v
    case PyNone => false
    case PyBool(b) => b
    case PyInt(i) => i != 0
    case PyFloat(x) => x != 0.0
    case PyStr(s) => s != ""
  }

  /** `bag.get(key, default)`. */
  function Get(bag: Bag, key: string, default: Value): Value {
    if key in bag then bag[key] else default
  }

  /** `bag[key]`. */
  function Lookup(bag: Bag, key: string): Result<Value, PyError> {
    if key in bag then Success(bag[key]) else Failure(KeyError)
  }

  /** `int(x)` of a float: truncation toward zero. */
  function Trunc(x: real): (i: int)
    ensures 0.0 <= x ==> 0 <= i && i as real <= x < i as real + 1.0
    ensures x < 0.0 ==> i <= 0 && i as real - 1.0 < x <= i as real
  {
    if 0.0 <= x then x.Floor else -((-x).Floor)
  }

  /** `int(x)`. */
  function ToInt(v: Value): Result<int, PyError> {
    match v
    case PyNone => Failure(TypeError)
    case PyBool(b) => Success(if b then 1 else 0)
    case PyInt(i) => Success(i)
    case PyFloat(x) => Success(Trunc(x))
    case PyStr(s) =>
      match Text.ParseInt(s)
      case Some(i) => Success(i)
      case None => Failure(ValueError)
  }

  /** The numeric view of bool, int and float, which Python compares with each other. */
  function Numeric(v: Value): Option<real> {
    match v
    case PyBool(b) => Some(if b then 1.0 else 0.0)
    case PyInt(i) => Some(i as real)
    case PyFloat(x) => Some(x)
    case _ => None
  }

  /** Python's `a > b`: numbers compare by value, strings lexicographically, anything else raises. */
  function Greater(a: Value, b: Value): (r: Result<bool, PyError>)
    ensures r.Failure? <==> !((Numeric(a).Some? && Numeric(b).Some?) || (a.PyStr? && b.PyStr?))
  {
    if Numeric(a).Some? && Numeric(b).Some? then Success(Numeric(a).value > Numeric(b).value)
    else if a.PyStr? && b.PyStr? then Success(Text.StrLess(b.s, a.s))
    else Failure(TypeError)
  }

  function Prepend(prefix: string, r: Result<string, PyError>): Result<string, PyError> {
    match r
    case Success(s) => Success(prefix + s)
    case Failure(e) => Failure(e)
  }

  /** Python's `template % arg` for a single argument whose `str` is `arg`; `used` says whether the
      argument has been consumed already. The directives `%%` and `%s` are rendered; every other
      directive, and a `%` at the end, is an error. For the templates this model formats (a name
      followed by ` (%s)`) that is Python's outcome too: any other directive in the name is
      either invalid or consumes the only argument, so the closing `%s` then has none. */
  function PercentFormat(template: string, arg: string, used: bool): Result<string, PyError>
    decreases |template|
  {
    if |template| == 0 then
      if used then Success("") else Failure(TypeError)  // not all arguments converted
    else if template[0] != '%' then
      Prepend(template[..1], PercentFormat(template[1..], arg, used))
    else if |template| == 1 then
      Failure(ValueError)                                 // incomplete format
    else if template[1] == '%' then
      Prepend("%", PercentFormat(template[2..], arg, used))
    else if template[1] == 's' then
      if used then Failure(TypeError)                     // not enough arguments
      else Prepend(arg, PercentFormat(template[2..], arg, true))
    else
      Failure(ValueError)                                 // unsupported format character
  }

  /** Text without any `%` passes through formatting unchanged. */
  lemma {:induction false} PercentFormatLiteral(literal: string, rest: string, arg: string, used: bool)
    requires '%' !in literal
    ensures PercentFormat(literal + rest, arg, used) == Prepend(literal, PercentFormat(rest, arg, used))
    decreases |literal|
  {
    if |literal| > 0 {
      var t := literal + rest;
      assert t[0] == literal[0] && literal[0] in literal;
      assert t[..1] == literal[..1];
      assert t[1..] == literal[1..] + rest;
      assert '%' !in literal[1..] by {
        forall i | 0 <= i < |literal| - 1 ensures literal[1..][i] != '%' {
          assert literal[1..][i] == literal[i + 1] && literal[i + 1] in literal;
        }
      }
      PercentFormatLiteral(literal[1..], rest, arg, used);
      assert t[0] != '%';
      assert PercentFormat(t, arg, used) == Prepend(literal[..1], PercentFormat(literal[1..] + rest, arg, used));
      assert literal[..1] + literal[1..] == literal;
      match PercentFormat(rest, arg, used) {
        case Success(s) =>
          assert literal[..1] + (literal[1..] + s) == literal + s;
        case Failure(e) =>
      }
    } else {
      assert literal + rest == rest;
      match PercentFormat(rest, arg, used) {
        case Success(s) => assert literal + s == s;
        case Failure(e) =>
      }
    }
  }
}
