/** demkit/demkit/components/util/Complex.py: before the simulator answers
    over JSON, every complex number in a reply is replaced by the string
    "__" + str(value); the gateway's `parse_complex_str` undoes this.
    Python's `str` of a complex number is a parameter, `show`. */
module PyComplex {
  import opened Wrappers
  import opened Demkit

  /** The Python values a reply is built from (dict keys are strings). */
  datatype PyValue =
    | PyNone
    | PyBool(b: bool)
    | PyInt(i: int)
    | PyFloat(f: real)
    | PyComplexNum(c: ComplexValue)
    | PyStr(s: string)
    | PyList(items: seq<PyValue>)
    | PyDict(entries: seq<(string, PyValue)>)

  /** The marker the simulator puts in front of a rendered complex number. */
  const Marker: string := "__"

  /** No complex number anywhere inside. */
  predicate NoComplex(v: PyValue)
    decreases v
  {
    match v
    case PyComplexNum(_) => false
    case PyList(items) => forall i :: 0 <= i < |items| ==> NoComplex(items[i])
    case PyDict(entries) => forall i :: 0 <= i < |entries| ==> NoComplex(entries[i].1)
    case _ => true
  }

  /** `_replace_complex`, as the value it leaves behind. */
  function Replace(v: PyValue, show: ComplexValue -> string): (r: PyValue)
    ensures NoComplex(r)
    ensures v.PyComplexNum? ==> r == PyStr(Marker + show(v.c))
    ensures v.PyList? ==> r.PyList? && |r.items| == |v.items|
    ensures v.PyDict? ==>
      && r.PyDict? && |r.entries| == |v.entries|
      && forall i :: 0 <= i < |v.entries| ==> r.entries[i].0 == v.entries[i].0
    ensures !v.PyComplexNum? && !v.PyList? && !v.PyDict? ==> r == v
    decreases v
  {
    match v
    case PyComplexNum(c) => PyStr(Marker + show(c))
    case PyList(items) => PyList(seq(|items|, i requires 0 <= i < |items| => Replace(items[i], show)))
    case PyDict(entries) =>
      PyDict(seq(|entries|, i requires 0 <= i < |entries| => (entries[i].0, Replace(entries[i].1, show))))
    case _ => v
  }

  /** Lists keep their order with each element rewritten; dicts keep their
      keys in order with each value rewritten. */
  lemma ReplaceComponents(v: PyValue, show: ComplexValue -> string)
    ensures v.PyList? ==> forall i :: 0 <= i < |v.items| ==> Replace(v, show).items[i] == Replace(v.items[i], show)
    ensures v.PyDict? ==> forall i :: 0 <= i < |v.entries| ==>
      Replace(v, show).entries[i] == (v.entries[i].0, Replace(v.entries[i].1, show))
  {
  }

  /** A value without complex numbers is left alone. */
  lemma {:induction false} ReplaceFixesComplexFree(v: PyValue, show: ComplexValue -> string)
    requires NoComplex(v)
    ensures Replace(v, show) == v
    decreases v
  {
    match v
    case PyList(items) =>
      forall i | 0 <= i < |items| ensures Replace(items[i], show) == items[i] {
        ReplaceFixesComplexFree(items[i], show);
      }
      assert Replace(v, show).items == items;
    case PyDict(entries) =>
      forall i | 0 <= i < |entries| ensures Replace(entries[i].1, show) == entries[i].1 {
        ReplaceFixesComplexFree(entries[i].1, show);
      }
      assert Replace(v, show).entries == entries;
    case _ =>
  }

  /** Replacing twice is replacing once. */
  lemma ReplaceIdempotent(v: PyValue, show: ComplexValue -> string)
    ensures Replace(Replace(v, show), show) == Replace(v, show)
  {
    ReplaceFixesComplexFree(Replace(v, show), show);
  }

  /** `_replace_complex`: the index loop over a list and the key loop over a
      dict, each slot overwritten with its rewritten value. */
  method ReplaceInPlace(inp: PyValue, show: ComplexValue -> string) returns (r: PyValue)
    ensures r == Replace(inp, show)
    decreases inp
  {
    match inp {
      case PyComplexNum(c) =>
        r := PyStr(Marker + show(c));
      case PyList(items0) =>
        var items := items0;
        for each := 0 to |items|
          invariant |items| == |items0|
          invariant forall j :: 0 <= j < each ==> items[j] == Replace(items0[j], show)
          invariant forall j :: each <= j < |items| ==> items[j] == items0[j]
        {
          var x := ReplaceInPlace(items0[each], show);
          items := items[each := x];
        }
        r := PyList(items);
      case PyDict(entries0) =>
        var entries := entries0;
        for k := 0 to |entries|
          invariant |entries| == |entries0|
          invariant forall j :: 0 <= j < k ==> entries[j] == (entries0[j].0, Replace(entries0[j].1, show))
          invariant forall j :: k <= j < |entries| ==> entries[j] == entries0[j]
        {
          var (key, val) := entries0[k];
          var x := ReplaceInPlace(val, show);
          entries := entries[k := (key, x)];
        }
        r := PyDict(entries);
      case _ =>
        r := inp;
    }
  }

  /** `replace_complex`: rewrite a deep copy; the caller's value is untouched. */
  method ReplaceComplex(inp: PyValue, show: ComplexValue -> string) returns (r: PyValue)
    ensures r == Replace(inp, show)
    ensures NoComplex(r)
  {
    var clone := inp;
    r := ReplaceInPlace(clone, show);
  }

  /** Python renders a complex number so that num-complex reads it back once
      the parentheses are gone (for example "(1+2j)" and "-3j"). */
  ghost predicate ShowParses(show: ComplexValue -> string, c: ComplexValue)
  {
    ParseComplexLiteral(StripParens(show(c))) == Some(c)
  }

  /** Cross-side round trip: the gateway drops exactly the two marker
      characters, parses `str(c)` without its parentheses, and, when Python's
      rendering is one num-complex reads, gets `c` back. */
  lemma SimulatorToGateway(c: ComplexValue, show: ComplexValue -> string)
    ensures Replace(PyComplexNum(c), show).PyStr?
    ensures NoSlicePanic(Complex(Replace(PyComplexNum(c), show).s))
    ensures Replace(PyComplexNum(c), show).s[2..] == show(c)
    ensures ShowParses(show, c) ==> ParseComplexStr(Complex(Replace(PyComplexNum(c), show).s)) == Ok(c)
  {
    assert (Marker + show(c))[2..] == show(c);
  }
}
