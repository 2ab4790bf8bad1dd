/**
 * JSON-like values as they reach the handlers (request bodies) and as the
 * document store holds them, with the Python operations the handlers apply
 * to them: truthiness (`if not x`), `int(x)`, and `serialize_document`,
 * which turns every ObjectId in a document tree into its string form.
 */
module Documents {
  import opened Wrappers
  import opened Text

  /** The leaves of a document. `Date` is a stored `datetime`, given by its
      instant. */
  datatype Scalar =
    | Null
    | Bool(b: bool)
    | Int(i: int)
    | Float(r: real)
    | Str(s: string)
    | Date(t: int)

  /** A document tree: an ObjectId (given by its hexadecimal string), a
      dictionary with its entries in insertion order, a list, or a leaf. */
  datatype Doc =
    | OID(hex: string)
    | Dict(entries: seq<Entry>)
    | List(items: seq<Doc>)
    | Atom(scalar: Scalar)

  datatype Entry = Entry(key: string, value: Doc)

  /** A string value. */
  function StrDoc(s: string): Doc { Atom(Str(s)) }

  /** Python's `None`. */
  const Nil: Doc := Atom(Null)

  /** Python's truth value of a value (`if not x` tests its negation). */
  predicate Truthy(d: Doc)
    ensures !Truthy(d) <==>
      || d == Nil || d == Atom(Bool(false)) || d == Atom(Int(0)) || d == Atom(Float(0.0))
      || d == StrDoc("") || d == Dict([]) || d == List([])
  {
    match d
    case OID(_) => true
    case Dict(es) => es != []
    case List(xs) => xs != []
    case Atom(Null) => false
    case Atom(Bool(b)) => b
    case Atom(Int(i)) => i != 0
    case Atom(Float(r)) => r != 0.0
    case Atom(Str(s)) => s != ""
    case Atom(Date(_)) => true
  }

  /** `x.encode(...)` exists only on strings. */
  predicate IsText(d: Doc) { d.Atom? && d.scalar.Str? }

  // ---------------------------------------------------------------------
  // int(x)
  // ---------------------------------------------------------------------

  /** What `int(x)` does: a value, or one of the two exceptions it raises. */
  datatype IntConv = Converted(n: int) | ValueErr | TypeErr

  /** What `float(x)` does. Parsing and rounding floats is the runtime's
      business, so handlers receive it as a function of this type. */
  datatype FloatConv = FloatOk(r: real) | FloatValueErr | FloatTypeErr

  /** `int(r)` for a float truncates toward zero. */
  function Truncate(r: real): (n: int)
    ensures 0.0 <= r ==> 0 <= n && n as real <= r < n as real + 1.0
    ensures r < 0.0 ==> n <= 0 && n as real - 1.0 < r <= n as real
  {
    if r >= 0.0 then r.Floor else -((-r).Floor)
  }

  /** Python's `int(x)`: integers as they are, booleans as 0 and 1, floats
      truncated, strings parsed (ValueError when malformed), and TypeError
      for None, lists, dictionaries, ObjectIds and datetimes. */
  function ToInt(d: Doc): (c: IntConv)
    ensures c.TypeErr? <==> !(d.Atom? && (d.scalar.Int? || d.scalar.Bool? || d.scalar.Float? || d.scalar.Str?))
    ensures c.ValueErr? ==> IsText(d)
  {
    match d
    case Atom(Int(i)) => Converted(i)
    case Atom(Bool(b)) => Converted(if b then 1 else 0)
    case Atom(Float(r)) => Converted(Truncate(r))
    case Atom(Str(s)) =>
      (match ParseInt(s)
       case Some(n) => Converted(n)
       case None => ValueErr)
    case _ => TypeErr
  }

  /** `int(str(n)) == n`. */
  lemma ToIntShow(n: int)
    ensures ToInt(StrDoc(Show(n))) == Converted(n)
  {
    ParseShow(n);
  }

  // ---------------------------------------------------------------------
  // serialize_document
  // ---------------------------------------------------------------------

  /** No ObjectId anywhere in the tree. */
  predicate NoOid(d: Doc)
  {
    match d
    case OID(_) => false
    case Dict(es) => forall i :: 0 <= i < |es| ==> NoOid(es[i].value)
    case List(xs) => forall i :: 0 <= i < |xs| ==> NoOid(xs[i])
    case Atom(_) => true
  }

  /** `serialize_document`: ObjectIds become their strings, dictionaries and
      lists are rebuilt entry by entry, every other value is kept. */
  function Serialize(d: Doc): (r: Doc)
    ensures NoOid(r)
    ensures d.OID? ==> r == StrDoc(d.hex)
    ensures d.Atom? ==> r == d
    ensures d.Dict? <==> r.Dict?
    ensures d.Dict? ==>
              && |r.entries| == |d.entries|
              && forall i :: 0 <= i < |d.entries| ==>
                   r.entries[i].key == d.entries[i].key && r.entries[i].value == Serialize(d.entries[i].value)
    ensures d.List? <==> r.List?
    ensures d.List? ==>
              && |r.items| == |d.items|
              && forall i :: 0 <= i < |d.items| ==> r.items[i] == Serialize(d.items[i])
  {
    match d
    case OID(h) => StrDoc(h)
    case Dict(es) =>
      Dict(seq(|es|, i requires 0 <= i < |es| => Entry(es[i].key, Serialize(es[i].value))))
    case List(xs) =>
      List(seq(|xs|, i requires 0 <= i < |xs| => Serialize(xs[i])))
    case Atom(_) => d
  }

  /** The node a path of positions leads to: the i-th entry's value of a
      dictionary, the i-th item of a list; `None` when the path leaves the
      tree. */
  function At(d: Doc, path: seq<nat>): Option<Doc>
    decreases |path|
  {
    if path == [] then Some(d)
    else
      match d
      case Dict(es) => if path[0] < |es| then At(es[path[0]].value, path[1..]) else None
      case List(xs) => if path[0] < |xs| then At(xs[path[0]], path[1..]) else None
      case _ => None
  }

  /** Serialization keeps the shape of the whole tree: a path leads to a
      node in the serialized tree exactly when it does in the original, and
      there it leads to the serialized node. */
  lemma {:induction false} SerializeAt(d: Doc, path: seq<nat>)
    ensures At(Serialize(d), path).Some? <==> At(d, path).Some?
    ensures At(d, path).Some? ==> At(Serialize(d), path).value == Serialize(At(d, path).value)
    decreases |path|
  {
    if path != [] {
      match d
      case Dict(es) =>
        if path[0] < |es| {
          SerializeAt(es[path[0]].value, path[1..]);
        }
      case List(xs) =>
        if path[0] < |xs| {
          SerializeAt(xs[path[0]], path[1..]);
        }
      case _ =>
    }
  }

  /** At every depth, serialization turns an ObjectId into its string,
      keeps every other leaf, keeps a dictionary's keys in their order and
      a list's length. */
  lemma SerializeEverywhere(d: Doc, path: seq<nat>)
    requires At(d, path).Some?
    ensures At(Serialize(d), path).Some?
    ensures var n, m := At(d, path).value, At(Serialize(d), path).value;
      && (n.OID? ==> m == StrDoc(n.hex))
      && (n.Atom? ==> m == n)
      && (n.Dict? ==>
            && m.Dict? && |m.entries| == |n.entries|
            && forall i :: 0 <= i < |n.entries| ==> m.entries[i].key == n.entries[i].key)
      && (n.List? ==> m.List? && |m.items| == |n.items|)
  {
    SerializeAt(d, path);
  }

  /** On a tree without ObjectIds serialization changes nothing. */
  lemma {:induction false} SerializeKeepsClean(d: Doc)
    requires NoOid(d)
    ensures Serialize(d) == d
  {
    match d
    case OID(_) =>
    case Atom(_) =>
    case Dict(es) =>
      forall i | 0 <= i < |es|
        ensures Serialize(d).entries[i] == es[i]
      {
        SerializeKeepsClean(es[i].value);
      }
      assert Serialize(d).entries == es;
    case List(xs) =>
      forall i | 0 <= i < |xs|
        ensures Serialize(d).items[i] == xs[i]
      {
        SerializeKeepsClean(xs[i]);
      }
      assert Serialize(d).items == xs;
  }

  /** Serializing twice is serializing once. */
  lemma SerializeIdempotent(d: Doc)
    ensures Serialize(Serialize(d)) == Serialize(d)
  {
    SerializeKeepsClean(Serialize(d));
  }
}
