/** The JavaScript values that the query-execution layer inspects: the
    arguments of the public methods (sniffed with `typeof`, truthiness,
    `Array.isArray` and `Object.prototype.toString`) and the column values
    the driver hands back. Numbers are integers; floating point is not part
    of this model. */
module JsValues {

  datatype Option<+T> = None | Some(value: T)

  datatype Value =
    | Undefined
    | Null
    | Bool(b: bool)
    | Num(n: int)
    | Str(s: string)
    | Arr(items: seq<Value>)
    /** An object whose class tag is "[object Object]", with its own properties. */
    | Obj(props: map<string, Value>)
    /** A function, identified only by which one it is. */
    | Func(id: nat)

  /** The results of the `typeof` operator that these values can produce. */
  datatype JsType = UndefinedType | ObjectType | BooleanType | NumberType | StringType | FunctionType

  function TypeOf(v: Value): JsType {
    match v
    case Undefined => UndefinedType
    case Null => ObjectType
    case Bool(_) => BooleanType
    case Num(_) => NumberType
    case Str(_) => StringType
    case Arr(_) => ObjectType
    case Obj(_) => ObjectType
    case Func(_) => FunctionType
  }

  /** `typeof v === 'function'` */
  predicate IsFunction(v: Value)
    ensures IsFunction(v) <==> TypeOf(v) == FunctionType
  {
    v.Func?
  }

  /** `Object.prototype.toString.call(v) === Object.prototype.toString.call({})` */
  predicate IsPlainObject(v: Value) {
    v.Obj?
  }

  /** `if (v)`: undefined, null, false, 0 and "" are falsy. */
  predicate Truthy(v: Value) {
    match v
    case Undefined => false
    case Null => false
    case Bool(b) => b
    case Num(n) => n != 0
    case Str(s) => s != []
    case _ => true
  }

  /** `v.length == 0` for a value that is not null and whose `typeof` is "object". */
  predicate LengthLooselyZero(v: Value)
    requires v != Null && TypeOf(v) == ObjectType
  {
    match v
    case Arr(items) => |items| == 0
    case Obj(props) => "length" in props && LooselyZero(props["length"])
  }

  /** `v == 0` under JavaScript's abstract equality. */
  predicate LooselyZero(v: Value) {
    match v
    case Undefined => false
    case Null => false
    case Bool(b) => !b
    case Num(n) => n == 0
    case Str(s) => StringIsZero(s)
    case Arr(_) => JoinIsZero(v)
    case Obj(_) => false
    case Func(_) => false
  }

  /** An array compared with 0 is converted by `join(",")` and then to a number:
      two or more elements always leave a comma, which is not numeric. */
  predicate JoinIsZero(v: Value)
    requires v.Arr?
    decreases v, 0
  {
    |v.items| == 0 || (|v.items| == 1 && ElementTextIsZero(v.items[0]))
  }

  /** Whether the text `join` writes for one element converts to the number 0. */
  predicate ElementTextIsZero(e: Value)
    decreases e, 1
  {
    match e
    case Undefined => true
    case Null => true
    case Bool(_) => false
    case Num(n) => n == 0
    case Str(s) => StringIsZero(s)
    case Arr(_) => JoinIsZero(e)
    case Obj(_) => false
    case Func(_) => false
  }

  /** White space and line terminators, the characters `\s` matches and that
      string-to-number conversion trims. */
  predicate IsJsSpace(c: char) {
    c == '\t' || c == '\n' || c == '\U{000B}' || c == '\U{000C}' || c == '\r' || c == ' '
    || c == '\U{00A0}' || c == '\U{1680}' || ('\U{2000}' <= c <= '\U{200A}')
    || c == '\U{2028}' || c == '\U{2029}' || c == '\U{202F}' || c == '\U{205F}'
    || c == '\U{3000}' || c == '\U{FEFF}'
  }

  function TrimStart(s: string): (t: string)
    ensures |t| <= |s| && t == s[|s| - |t|..]
    ensures t != [] ==> !IsJsSpace(t[0])
    ensures forall i :: 0 <= i < |s| - |t| ==> IsJsSpace(s[i])
  {
    if s != [] && IsJsSpace(s[0]) then TrimStart(s[1..]) else s
  }

  function TrimEnd(s: string): (t: string)
    ensures |t| <= |s| && t == s[..|t|]
    ensures t != [] ==> !IsJsSpace(t[|t| - 1])
    ensures forall i :: |t| <= i < |s| ==> IsJsSpace(s[i])
  {
    if s != [] && IsJsSpace(s[|s| - 1]) then TrimEnd(s[..|s| - 1]) else s
  }

  predicate IsDigit(c: char) {
    '0' <= c <= '9'
  }

  predicate AllZeros(s: string) {
    forall i :: 0 <= i < |s| ==> s[i] == '0'
  }

  /** `Number(s) === 0` for a string: blank text, a decimal literal whose digits
      are all zero (with optional sign, point and exponent), or a 0x/0o/0b
      literal whose digits are all zero. */
  predicate StringIsZero(s: string) {
    var t := TrimEnd(TrimStart(s));
    t == [] || DecimalIsZero(t)
    || (|t| >= 3 && t[0] == '0' && t[1] in "xXoObB" && AllZeros(t[2..]))
  }

  predicate DecimalIsZero(t: string) {
    var u := if t != [] && (t[0] == '+' || t[0] == '-') then t[1..] else t;
    var m := MantissaLength(u);
    ZeroMantissa(u[..m]) && IsExponent(u[m..])
  }

  /** Length of the longest prefix made of digits and points. */
  function MantissaLength(u: string): (m: nat)
    ensures m <= |u|
    ensures forall i :: 0 <= i < m ==> IsDigit(u[i]) || u[i] == '.'
    ensures m < |u| ==> !(IsDigit(u[m]) || u[m] == '.')
  {
    if u != [] && (IsDigit(u[0]) || u[0] == '.') then 1 + MantissaLength(u[1..]) else 0
  }

  /** All digits zero, at least one digit, at most one point. */
  predicate ZeroMantissa(m: string) {
    && (exists i :: 0 <= i < |m| && m[i] == '0')
    && (forall i :: 0 <= i < |m| ==> m[i] == '0' || m[i] == '.')
    && (forall i, j :: 0 <= i < j < |m| && m[i] == '.' ==> m[j] != '.')
  }

  predicate IsExponent(e: string) {
    e == []
    || (|e| >= 2 && (e[0] == 'e' || e[0] == 'E') &&
        var d := if e[1] == '+' || e[1] == '-' then e[2..] else e[1..];
        d != [] && forall i :: 0 <= i < |d| ==> IsDigit(d[i]))
  }
}
