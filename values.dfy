/** Values as `yaml.safe_load` hands them to the configuration checks, with
    the Python semantics those checks use: truthiness, `isinstance` and `str()`. */
module Values {

  /** A parsed YAML value. A float is kept as the text `str()` gives it; the
      model never computes with floats. */
  datatype Value =
    | Null
    | Bool(b: bool)
    | Int(i: int)
    | Float(text: string)
    | Str(s: string)
    | List(items: seq<Value>)
    | Dict(entries: map<string, Value>)

  /** Python's `bool(v)`. */
  predicate Truthy(v: Value) {
    match v
    case Null => false
    case Bool(b) => b
    case Int(i) => i != 0
    case Float(text) => text != "0.0" && text != "-0.0"
    case Str(s) => s != ""
    case List(items) => items != []
    case Dict(entries) => entries != map[]
  }

  /** The three classes `validate_config` tests against. */
  datatype PyType = StrType | IntType | BoolType

  /** `isinstance(v, t)`; `bool` is a subclass of `int` in Python. */
  predicate IsInstance(v: Value, t: PyType) {
    match t
    case StrType => v.Str?
    case IntType => v.Int? || v.Bool?
    case BoolType => v.Bool?
  }

  /** How an f-string renders the class object. */
  function TypeRepr(t: PyType): string {
    match t
    case StrType => "<class 'str'>"
    case IntType => "<class 'int'>"
    case BoolType => "<class 'bool'>"
  }

  function DigitChar(d: nat): char
    requires d < 10
  {
    ('0' as int + d) as char
  }

  function NatToString(n: nat): string {
    if n < 10 then [DigitChar(n)] else NatToString(n / 10) + [DigitChar(n % 10)]
  }

  function IntToString(i: int): string {
    if i < 0 then "-" + NatToString(-i) else NatToString(i)
  }

  /** What `str(v)` gives: spelt out for scalars; for a list or a mapping the
      model keeps the value itself instead of Python's rendering of it. */
  datatype Printed = Text(s: string) | Repr(v: Value)

  function PyStr(v: Value): Printed {
    match v
    case Null => Text("None")
    case Bool(b) => Text(if b then "True" else "False")
    case Int(i) => Text(IntToString(i))
    case Float(text) => Text(text)
    case Str(s) => Text(s)
    case List(_) => Repr(v)
    case Dict(_) => Repr(v)
  }
}
