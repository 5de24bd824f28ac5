/** The values a record, a filter or a patch can hold, and how a field is looked
    up in them. A path is the sequence of names between the dots of a dotted path. */
module Values {

  datatype Option<+T> = None | Some(value: T)

  /** The source throws on a rejected input; the model returns `Err`. */
  datatype Result<+T> = Ok(value: T) | Err {
    predicate IsFailure() {
      Err?
    }

    function PropagateFailure<U>(): Result<U>
      requires Err?
    {
      Err
    }

    function Extract(): T
      requires Ok?
    {
      value
    }
  }

  /** A JavaScript value: JSON, or a `Date` instance (`None` is the Invalid Date). */
  datatype Value =
    | Null
    | Bool(b: bool)
    | Num(n: real)
    | Str(s: string)
    | Arr(items: seq<Value>)
    | Obj(fields: Record)
    | Date(millis: Option<real>)

  type Record = map<string, Value>

  type Path = seq<string>

  /** What the language runtime brings: `Number(s)`, when finite; `Date.parse(s)`, when it succeeds; and
      the names of the functions every object inherits. */
  datatype Host = Host(number: string -> Option<real>, dateMillis: string -> Option<real>, inherited: set<string>)

  predicate IsPrimitive(v: Value) {
    v.Null? || v.Bool? || v.Num? || v.Str?
  }

  predicate IsInteger(n: real) {
    n.Floor as real == n
  }

  predicate IsThe(n: real, k: int) {
    n == k as real
  }

  lemma WholeNumbers(n: real)
    ensures IsInteger(n) <==> exists k :: IsThe(n, k)
    ensures forall j, k :: IsThe(n, j) && IsThe(n, k) ==> j == k
  {
    if IsInteger(n) {
      assert IsThe(n, n.Floor);
    }
  }

  /** `===`: primitives compare by value, and no object is identical to a filter literal. */
  predicate StrictEq(a: Value, b: Value) {
    IsPrimitive(a) && a == b
  }

  /** `dot.getProperty`: `None` is `undefined`. Only objects are walked through. */
  function Get(record: Record, path: Path): Option<Value>
    decreases path
  {
    if path == [] || path[0] !in record then None
    else if |path| == 1 then Some(record[path[0]])
    else if record[path[0]].Obj? then Get(record[path[0]].fields, path[1..])
    else None
  }

  /** Every path defined in `a` is defined in `b`, with the same value, at the paths given. */
  ghost predicate AgreeOn(a: Record, b: Record, paths: set<Path>) {
    forall p :: p in paths ==> Get(a, p) == Get(b, p)
  }
}
