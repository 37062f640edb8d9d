/**
 JSON values as `encoding/json` decodes them into `any`, with an abstract parser and printer.

 A number is the decimal `mantissa / 10^scale` in lowest terms, so equal numbers are equal values: a law over
 all values asks for one text per number, as a printer gives. A Go type assertion that fails on a map or slice
 yields nil, which reads as empty: `ObjOf` and `ArrOf` do the same.
 */
module Json {
  import opened Wrappers
  import opened Text

  datatype Decimal = Decimal(mantissa: int, scale: nat)

  type Number = d: Decimal | d.scale == 0 || d.mantissa % 10 != 0 witness Decimal(0, 0)

  datatype Value =
    | Null
    | Bool(b: bool)
    | Num(number: Number)
    | Str(s: string)
    | Arr(items: seq<Value>)
    | Obj(fields: Object)

  type Object = map<string, Value>

  function Field(o: Object, name: string): Option<Value> {
    if name in o then Some(o[name]) else None
  }

  /** `v, _ := x.(map[string]any)`. */
  function ObjOf(v: Option<Value>): Object {
    if v.Some? && v.value.Obj? then v.value.fields else map[]
  }

  /** `v, _ := x.([]any)`. */
  function ArrOf(v: Option<Value>): seq<Value> {
    if v.Some? && v.value.Arr? then v.value.items else []
  }

  function Pow10(n: nat): (p: nat)
    ensures p >= 1
  {
    if n == 0 then 1 else 10 * Pow10(n - 1)
  }

  /** Zero unless a number; Go's float-to-int conversion drops the fraction. */
  function ToInt(v: Option<Value>): int {
    if v.Some? && v.value.Num? then
      var n := v.value.number;
      if n.mantissa >= 0 then n.mantissa / Pow10(n.scale) else -((-n.mantissa) / Pow10(n.scale))
    else 0
  }

  /** The integer part, towards zero: with `p` the power of ten under the number, the multiple of `p` next to it. */
  lemma ToIntTruncates(n: Number)
    ensures var i, p := ToInt(Some(Num(n))), Pow10(n.scale);
      && (n.mantissa >= 0 ==> i * p <= n.mantissa < (i + 1) * p)
      && (n.mantissa <= 0 ==> (i - 1) * p < n.mantissa <= i * p)
  {
    DivisionBrackets(if n.mantissa >= 0 then n.mantissa else -n.mantissa, Pow10(n.scale));
  }

  lemma DivisionBrackets(m: int, p: int)
    requires m >= 0 && p >= 1
    ensures m / p * p <= m < (m / p + 1) * p
    ensures (-(m / p) - 1) * p < -m <= -(m / p) * p
  {
    assert m == m / p * p + m % p;
    assert (m / p + 1) * p == m / p * p + p;
    assert (-(m / p)) * p == -(m / p * p) && (-(m / p) - 1) * p == -(m / p * p) - p;
  }

  /** 2.75 is two, -2.75 is minus two, and a text or nothing is zero. */
  lemma ToIntExamples()
    ensures ToInt(Some(Num(Decimal(275, 2)))) == 2 && ToInt(Some(Num(Decimal(-275, 2)))) == -2
    ensures ToInt(Some(Str("5"))) == 0 && ToInt(None) == 0
  {
    assert Pow10(1) == 10 && Pow10(2) == 100;
  }

  function Integer(n: int): Value {
    Num(Decimal(n, 0))
  }

  /** `json.Unmarshal` into `any`, and `json.Marshal`. */
  datatype Codec = Codec(decode: string -> Option<Value>, encode: Value -> string)

  /**
     What is assumed of the JSON library: parsing undoes printing; a printed value has no line break,
     is not surrounded by spaces and is not the text `[DONE]`; a printed object begins with a brace.
   */
  ghost predicate Lawful(c: Codec) {
    && (forall v: Value :: c.decode(c.encode(v)) == Some(v))
    && (forall v: Value :: Trimmed(c.encode(v)) && c.encode(v) != "" && NEWLINE !in c.encode(v) && '\r' !in c.encode(v))
    && (forall v: Value :: c.encode(v) != "[DONE]")
    && (forall o: Object :: HasPrefix(c.encode(Obj(o)), "{"))
  }

  /**
     `json.Unmarshal` into a `map[string]any`: fails on anything but an object or null. A null leaves
     the map nil, which reads as empty.
   */
  function DecodeObject(c: Codec, text: string): Option<Object> {
    match c.decode(text)
    case Some(Obj(fields)) => Some(fields)
    case Some(Null) => Some(map[])
    case _ => None
  }
}
