/** hems-core/src/api/demkit.rs: the simulator's commodity values and the
    complex numbers the gateway decodes them into, the error type of every
    simulator call, and the shape of the calls themselves. */
module Demkit {
  import opened Wrappers
  import opened Json

  /** `num_complex::Complex<f64>`, with `real` for `f64`. */
  datatype ComplexValue = ComplexValue(re: real, im: real)

  function Abs(x: real): (a: real)
    ensures a >= 0.0 && (a == x || a == -x)
  {
    if x < 0.0 then -x else x
  }

  /** Bounds every modulus obeys; the exact square root is not available. */
  ghost predicate ModulusBounds(c: ComplexValue, n: real)
  {
    && Abs(c.re) <= n
    && Abs(c.im) <= n
    && n <= Abs(c.re) + Abs(c.im)
  }

  /** `Complex::norm`: an otherwise unspecified magnitude. It is never negative,
      zero exactly for 0+0i, and the absolute value for a number on an axis. */
  ghost function Norm(c: ComplexValue): (n: real)
    ensures ModulusBounds(c, n)
    ensures n >= 0.0
    ensures n == 0.0 <==> c.re == 0.0 && c.im == 0.0
    ensures c.im == 0.0 ==> n == Abs(c.re)
    ensures c.re == 0.0 ==> n == Abs(c.im)
  {
    assert ModulusBounds(c, Abs(c.re) + Abs(c.im));
    var n :| ModulusBounds(c, n); n
  }

  /** `f64::signum` on a non-NaN value: `+0.0` counts as positive. */
  function Signum(x: real): (s: real)
    ensures s == 1.0 || s == -1.0
    ensures s == 1.0 <==> x >= 0.0
  {
    if x >= 0.0 then 1.0 else -1.0
  }

  /** `f64::max`. */
  function Max(a: real, b: real): (m: real)
    ensures m >= a && m >= b && (m == a || m == b)
  {
    if a >= b then a else b
  }

  /** The rule every caller applies to a reading: `norm * signum(re)`. */
  ghost function SignedPower(c: ComplexValue): (p: real)
    ensures c.re >= 0.0 ==> p == Norm(c)
    ensures c.re < 0.0 ==> p == -Norm(c)
    ensures p > 0.0 <==> c.re > 0.0 || (c.re == 0.0 && c.im != 0.0)
    ensures p < 0.0 <==> c.re < 0.0
  {
    Norm(c) * Signum(c.re)
  }

  /** The untagged wire value: a string such as "__(1+2j)" or a bare number. */
  datatype Commodity = Complex(text: string) | Real(value: real)

  datatype Commodities = Commodities(electricity: Option<Commodity>, heat: Option<Commodity>)

  /** serde's untagged dispatch: try `Complex(String)`, then `Real(f64)`, by
      the shape of the JSON value alone. */
  function DecodeCommodity(j: Json): (r: Result<Commodity, string>)
    ensures r.Ok? <==> j.JString? || j.JInt? || j.JFloat?
    ensures j.JString? ==> r == Ok(Complex(j.s))
    ensures j.JInt? ==> r == Ok(Real(j.i as real))
    ensures j.JFloat? ==> r == Ok(Real(j.f))
  {
    match j
    case JString(s) => Ok(Complex(s))
    case JInt(i) => Ok(Real(i as real))
    case JFloat(f) => Ok(Real(f))
    case _ => Err("data did not match any variant of untagged enum Commodity")
  }

  datatype ApiError =
    | ReqwestError(detail: string)
    | SerdeError
    | ParseError
    | DemkitError(message: string)

  /** What the simulator did with one request: a decoded body, or a failure
      of the transport or of decoding the body (both a `reqwest::Error`). */
  datatype Reply<+T> = Received(body: T) | Failed(detail: string)

  datatype Measurement = Measurement(value: real, unit: string)

  /** A request to the simulator's REST surface, e.g. `/call/{entity}/{function}`. */
  datatype SetValue = Segment(text: string) | F64(x: real)
  datatype SimCall =
    | Call(entity: string, fn: string)
    | CallWithArgs(entity: string, fn: string, args: Json)
    | GetVar(entity: string, variable: string)
    | SetVar(entity: string, variable: string, value: SetValue)
    | GetTime

  /** `s.replace(c, "")`. */
  function RemoveChar(s: string, c: char): (r: string)
    ensures c !in r
    ensures |r| <= |s|
    ensures c !in s ==> r == s
    ensures forall d :: d != c ==> (d in r <==> d in s)
  {
    if s == [] then []
    else if s[0] == c then RemoveChar(s[1..], c)
    else [s[0]] + RemoveChar(s[1..], c)
  }

  lemma {:induction false} RemoveCharAppend(a: string, b: string, c: char)
    ensures RemoveChar(a + b, c) == RemoveChar(a, c) + RemoveChar(b, c)
  {
    if a != [] {
      assert (a + b)[1..] == a[1..] + b;
      RemoveCharAppend(a[1..], b, c);
    } else {
      assert a + b == b;
    }
  }

  /** `.replace("(", "").replace(")", "")`. */
  function StripParens(s: string): (r: string)
    ensures '(' !in r && ')' !in r
    ensures '(' !in s && ')' !in s ==> r == s
    ensures forall d :: d != '(' && d != ')' ==> (d in r <==> d in s)
  {
    RemoveChar(RemoveChar(s, '('), ')')
  }

  lemma StripParensAppend(a: string, b: string)
    ensures StripParens(a + b) == StripParens(a) + StripParens(b)
  {
    RemoveCharAppend(a, b, '(');
    RemoveCharAppend(RemoveChar(a, '('), RemoveChar(b, '('), ')');
  }

  /** Deleting parentheses "wherever they appear": a wrapped literal and the
      bare literal are read the same. */
  lemma StripParensWrapped(t: string)
    ensures StripParens("(" + t + ")") == StripParens(t)
  {
    StripParensAppend("(" + t, ")");
    StripParensAppend("(", t);
  }

  lemma StripParensIdempotent(s: string)
    ensures StripParens(StripParens(s)) == StripParens(s)
  {
  }

  /** `Complex::<f64>::from_str`, library code outside this model: some
      partial function from text to complex numbers, of which only one fact
      is used: the empty text is not a number. */
  ghost function ParseComplexLiteral(s: string): (r: Option<ComplexValue>)
    ensures s == [] ==> r.None?
  {
    var r: Option<ComplexValue> :| s == [] ==> r.None?; r
  }

  /** `input[2..]` panics on a string shorter than two characters. */
  predicate NoSlicePanic(c: Commodity)
  {
    c.Complex? ==> |c.text| >= 2
  }

  /** `parse_complex_str`. */
  ghost function ParseComplexStr(c: Commodity): (r: Result<ComplexValue, ApiError>)
    requires NoSlicePanic(c)
    ensures c.Real? ==> r == Ok(ComplexValue(c.value, 0.0))
    ensures r.Err? ==> c.Complex? && r.error == ParseError
    ensures c.Complex? ==>
      match ParseComplexLiteral(StripParens(c.text[2..]))
      case Some(v) => r == Ok(v)
      case None => r == Err(ParseError)
  {
    match c
    case Complex(input) =>
      (match ParseComplexLiteral(StripParens(input[2..]))
       case Some(v) => Ok(v)
       case None => Err(ParseError))
    case Real(x) => Ok(ComplexValue(x, 0.0))
  }

  /** A bare number never fails to decode and has no imaginary part. */
  lemma RealNeverFails(x: real)
    ensures ParseComplexStr(Real(x)).Ok?
    ensures ParseComplexStr(Real(x)).value.re == x
    ensures ParseComplexStr(Real(x)).value.im == 0.0
  {
  }

  /** The two characters dropped are exactly the simulator's "__" marker, and
      any parentheses around the literal do not matter. */
  lemma MarkerIsDropped(t: string)
    ensures ParseComplexStr(Complex("__" + t)) == ParseComplexStr(Complex("__(" + t + ")"))
    ensures ParseComplexStr(Complex("__" + t)).Ok? <==> ParseComplexLiteral(StripParens(t)).Some?
  {
    assert ("__" + t)[2..] == t;
    assert ("__(" + t + ")")[2..] == "(" + t + ")";
    StripParensWrapped(t);
  }

  /** The JSON string and the JSON number a client can send for the same reading. */
  lemma WireDispatchExample()
    ensures DecodeCommodity(JFloat(2.5)) == Ok(Real(2.5))
    ensures DecodeCommodity(JString("__(1+2j)")) == Ok(Complex("__(1+2j)"))
    ensures DecodeCommodity(JBool(true)).Err?
    ensures DecodeCommodity(JNull).Err?
  {
  }
}
