/**
 * The paved, unstructured view of a Kubernetes object that the patch engine reads from and
 * writes into. The repository uses an external field-path library for this; the library is
 * not part of this model, so this module gives it a small, total semantics of its own:
 * a document is a tree of objects, arrays and scalars, and a field path is a sequence of
 * already-parsed segments (an object key or an array index).
 */
module FieldPath {
  import opened Wrappers

  /** One step of a parsed field path. */
  datatype Segment = Field(name: string) | Index(index: nat)

  type Path = seq<Segment>

  /** An unstructured (JSON-shaped) document. */
  datatype Value =
    | Obj(fields: map<string, Value>)
    | Arr(items: seq<Value>)
    | Str(str: string)
    | Num(num: int)
    | Bool(truth: bool)
    | Null

  /** Why a path could not be read or written. */
  datatype PathError =
    | NoSuchField    // an object lacks the key
    | NoSuchElement  // an array is shorter than the index
    | NotAnObject    // a key was applied to something that is not an object
    | NotAnArray     // an index was applied to something that is not an array

  /** The "not found" errors, as opposed to errors about the shape of the document. */
  predicate IsNotFound(e: PathError) {
    e == NoSuchField || e == NoSuchElement
  }

  /** Reads the value at `p` in `d`. */
  function GetValue(d: Value, p: Path): Result<Value, PathError>
    decreases p
  {
    if p == [] then Ok(d)
    else match p[0]
      case Field(k) =>
        if !d.Obj? then Err(NotAnObject)
        else if k !in d.fields then Err(NoSuchField)
        else GetValue(d.fields[k], p[1..])
      case Index(i) =>
        if !d.Arr? then Err(NotAnArray)
        else if i >= |d.items| then Err(NoSuchElement)
        else GetValue(d.items[i], p[1..])
  }

  /**
   * Writes `v` at `p` in `d`. A missing key on the way is created as an empty object;
   * an index must already lie inside its array.
   */
  function SetValue(d: Value, p: Path, v: Value): Result<Value, PathError>
    decreases p
  {
    if p == [] then Ok(v)
    else match p[0]
      case Field(k) =>
        if !d.Obj? then Err(NotAnObject)
        else
          var child := if k in d.fields then d.fields[k] else Obj(map[]);
          (match SetValue(child, p[1..], v)
           case Ok(c) => Ok(Obj(d.fields[k := c]))
           case Err(e) => Err(e))
      case Index(i) =>
        if !d.Arr? then Err(NotAnArray)
        else if i >= |d.items| then Err(NoSuchElement)
        else
          (match SetValue(d.items[i], p[1..], v)
           case Ok(c) => Ok(Arr(d.items[i := c]))
           case Err(e) => Err(e))
  }

  /** `a` and `b` hold the same thing at `q`: both nothing, or both the same value. */
  predicate SameAt(a: Value, b: Value, q: Path) {
    GetValue(a, q).Ok? == GetValue(b, q).Ok? &&
    (GetValue(a, q).Ok? ==> GetValue(a, q).value == GetValue(b, q).value)
  }

  /** Neither path lies on or under the other: they part ways at some segment. */
  predicate Diverge(p: Path, q: Path) {
    !(p <= q) && !(q <= p)
  }

  /** Reading along `p + r` is reading `r` inside whatever `p` reaches, and fails where `p` fails. */
  lemma {:induction false} GetAppend(d: Value, p: Path, r: Path)
    ensures GetValue(d, p + r) ==
            match GetValue(d, p)
            case Ok(n) => GetValue(n, r)
            case Err(e) => Err(e)
    decreases p
  {
    if p == [] {
      assert p + r == r;
    } else {
      assert (p + r)[0] == p[0] && (p + r)[1..] == p[1..] + r;
      match p[0]
      case Field(k) =>
        if d.Obj? && k in d.fields {
          GetAppend(d.fields[k], p[1..], r);
        }
      case Index(i) =>
        if d.Arr? && i < |d.items| {
          GetAppend(d.items[i], p[1..], r);
        }
    }
  }

  /** Read-back: after a successful write, the path holds exactly the written value. */
  lemma {:induction false} GetAfterSet(d: Value, p: Path, v: Value)
    requires SetValue(d, p, v).Ok?
    ensures GetValue(SetValue(d, p, v).value, p) == Ok(v)
    decreases p
  {
    if p != [] {
      match p[0]
      case Field(k) =>
        var child := if k in d.fields then d.fields[k] else Obj(map[]);
        GetAfterSet(child, p[1..], v);
      case Index(i) =>
        GetAfterSet(d.items[i], p[1..], v);
    }
  }

  /** Read-back below the written location: every path under `p` reads into `v`. */
  lemma GetUnderSet(d: Value, p: Path, v: Value, r: Path)
    requires SetValue(d, p, v).Ok?
    ensures GetValue(SetValue(d, p, v).value, p + r) == GetValue(v, r)
  {
    GetAfterSet(d, p, v);
    GetAppend(SetValue(d, p, v).value, p, r);
  }

  /** An empty object holds nothing at any non-empty path. */
  lemma EmptyObjectHoldsNothing(q: Path)
    requires q != []
    ensures GetValue(Obj(map[]), q).Err?
  {
  }

  /** Frame: a write at `p` leaves every location that is neither on nor under `p` as it was. */
  lemma {:induction false} SetFrame(d: Value, p: Path, v: Value, q: Path)
    requires SetValue(d, p, v).Ok?
    requires Diverge(p, q)
    ensures SameAt(d, SetValue(d, p, v).value, q)
    decreases p
  {
    assert p != [] && q != [];
    assert p == [p[0]] + p[1..] && q == [q[0]] + q[1..];
    if p[0] == q[0] {
      assert Diverge(p[1..], q[1..]);
      match p[0]
      case Field(k) =>
        var child := if k in d.fields then d.fields[k] else Obj(map[]);
        SetFrame(child, p[1..], v, q[1..]);
        if k !in d.fields {
          EmptyObjectHoldsNothing(q[1..]);
        }
      case Index(i) =>
        SetFrame(d.items[i], p[1..], v, q[1..]);
    }
  }

  /** The frame of a write, for every location at once. */
  lemma SetFrameEverywhere(d: Value, p: Path, v: Value)
    requires SetValue(d, p, v).Ok?
    ensures forall q :: Diverge(p, q) ==> SameAt(d, SetValue(d, p, v).value, q)
  {
    forall q | Diverge(p, q)
      ensures SameAt(d, SetValue(d, p, v).value, q)
    {
      SetFrame(d, p, v, q);
    }
  }

  /** Writing the same value twice at the same path is the same as writing it once. */
  lemma {:induction false} SetIdempotent(d: Value, p: Path, v: Value)
    requires SetValue(d, p, v).Ok?
    ensures SetValue(SetValue(d, p, v).value, p, v) == SetValue(d, p, v)
    decreases p
  {
    if p != [] {
      match p[0]
      case Field(k) =>
        var child := if k in d.fields then d.fields[k] else Obj(map[]);
        var c := SetValue(child, p[1..], v).value;
        SetIdempotent(child, p[1..], v);
        assert d.fields[k := c][k := c] == d.fields[k := c];
      case Index(i) =>
        var c := SetValue(d.items[i], p[1..], v).value;
        SetIdempotent(d.items[i], p[1..], v);
        assert d.items[i := c][i := c] == d.items[i := c];
    }
  }

  /** Whether a write succeeds, and how it fails, depends on the document and the path only. */
  lemma {:induction false} SetOutcomeIgnoresValue(d: Value, p: Path, v: Value, w: Value)
    ensures SetValue(d, p, v).Ok? == SetValue(d, p, w).Ok?
    ensures SetValue(d, p, v).Err? ==> SetValue(d, p, v).error == SetValue(d, p, w).error
    decreases p
  {
    if p != [] {
      match p[0]
      case Field(k) =>
        if d.Obj? {
          var child := if k in d.fields then d.fields[k] else Obj(map[]);
          SetOutcomeIgnoresValue(child, p[1..], v, w);
        }
      case Index(i) =>
        if d.Arr? && i < |d.items| {
          SetOutcomeIgnoresValue(d.items[i], p[1..], v, w);
        }
    }
  }

  /** Every segment of `p` is an object key. */
  predicate KeysOnly(p: Path) {
    forall j :: 0 <= j < |p| ==> p[j].Field?
  }

  /** Every node that already exists strictly along `p` is an object. */
  predicate ObjectsAlong(d: Value, p: Path) {
    forall j :: 0 <= j < |p| && GetValue(d, p[..j]).Ok? ==> GetValue(d, p[..j]).value.Obj?
  }

  /**
   * A write along object keys fails only by passing through a node that is not an object:
   * when every existing node along the path is an object, the write succeeds.
   */
  lemma {:induction false} SetSucceedsAlongObjects(d: Value, p: Path, v: Value)
    requires KeysOnly(p) && ObjectsAlong(d, p)
    ensures SetValue(d, p, v).Ok?
    decreases p
  {
    if p != [] {
      assert p[..0] == [];
      var k := p[0].name;
      var child := if k in d.fields then d.fields[k] else Obj(map[]);
      forall j | 0 <= j < |p[1..]| && GetValue(child, p[1..][..j]).Ok?
        ensures GetValue(child, p[1..][..j]).value.Obj?
      {
        if k in d.fields {
          assert p[..j + 1] == [p[0]] + p[1..][..j];
          assert GetValue(d, p[..j + 1]) == GetValue(child, p[1..][..j]);
        }
      }
      SetSucceedsAlongObjects(child, p[1..], v);
    }
  }
}
