/**
 * References between managed resources and the field-path patch they may carry: the value at
 * `fieldPath` in the referenced ("from") resource is copied into the current ("to") resource's
 * manifest, at `toFieldPath` below `spec.forProvider.manifest`.
 */
module References {
  import opened Wrappers
  import opened FieldPath

  /** The API version a reference assumes when none is given (applied by the API server). */
  const DefaultAPIVersion: string := "kubernetes.crossplane.io/v1alpha1"
  /** The kind a reference assumes when none is given (applied by the API server). */
  const DefaultKind: string := "Object"

  /** Names another resource that must exist before the current one proceeds. */
  datatype DependsOn = DependsOn(
    apiVersion: string,
    kind: string,
    name: string,
    namespace: string,
    blockOwnerDeletion: Option<bool>)

  /** Names another resource and the path of the field whose value is copied from it. */
  datatype PatchesFrom = PatchesFrom(dependsOn: DependsOn, fieldPath: Option<Path>)

  /** Every write of the patch engine happens under this prefix of the destination document. */
  const ManifestPrefix: Path := [Field("spec"), Field("forProvider"), Field("manifest")]

  /** Why a patch failed: a path could not be read or written, or the result could not be converted back. */
  datatype PatchError = PathFailed(cause: PathError) | ConversionFailed

  /** The destination path of a patch: `toFieldPath` when set, the source's `fieldPath` otherwise. */
  function Destination(toFieldPath: Option<Path>, fieldPath: Path): Path
  {
    if toFieldPath.Some? then toFieldPath.value else fieldPath
  }

  /**
   * The new content of the destination after writing `value` at `path` under the manifest
   * prefix; `converts` says whether a tree converts back into the destination's typed form.
   */
  function PatchFieldValue(path: Path, value: Value, to: Value, converts: Value -> bool): (r: Result<Value, PatchError>)
    ensures r.Ok? ==> converts(r.value)
    ensures r.Ok? <==> SetValue(to, ManifestPrefix + path, value).Ok? && converts(SetValue(to, ManifestPrefix + path, value).value)
    ensures SetValue(to, ManifestPrefix + path, value).Err? ==>
              r == Err(PathFailed(SetValue(to, ManifestPrefix + path, value).error))
    ensures SetValue(to, ManifestPrefix + path, value).Ok? && r.Err? ==> r == Err(ConversionFailed)
    // read-back: the value lands at the path under the manifest
    ensures r.Ok? ==> GetValue(r.value, ManifestPrefix + path) == Ok(value)
    // frame: nothing that is neither on nor under that path changes
    ensures r.Ok? ==> forall q :: Diverge(ManifestPrefix + path, q) ==> SameAt(to, r.value, q)
  {
    match SetValue(to, ManifestPrefix + path, value)
    case Err(e) => Err(PathFailed(e))
    case Ok(paved) =>
      GetAfterSet(to, ManifestPrefix + path, value);
      SetFrameEverywhere(to, ManifestPrefix + path, value);
      if converts(paved) then Ok(paved) else Err(ConversionFailed)
  }

  /** The new content of the destination after copying `from`'s value at `fieldPath` to `Destination(toFieldPath, fieldPath)`. */
  function ApplyFromFieldPath(toFieldPath: Option<Path>, fieldPath: Path, from: Value, to: Value, converts: Value -> bool)
    : (r: Result<Value, PatchError>)
    ensures r.Ok? ==> GetValue(from, fieldPath).Ok?
    ensures GetValue(from, fieldPath).Err? ==> r == Err(PathFailed(GetValue(from, fieldPath).error))
    ensures r.Ok? ==> converts(r.value)
  {
    match GetValue(from, fieldPath)
    case Err(e) => Err(PathFailed(e))
    case Ok(out) => PatchFieldValue(Destination(toFieldPath, fieldPath), out, to, converts)
  }

  /**
   * Read-back: after a successful patch the destination holds, at the manifest prefix followed
   * by the destination path and anything below it, exactly what the source holds at the field path.
   */
  lemma ApplyReadBack(toFieldPath: Option<Path>, fieldPath: Path, from: Value, to: Value, converts: Value -> bool, below: Path)
    requires ApplyFromFieldPath(toFieldPath, fieldPath, from, to, converts).Ok?
    ensures GetValue(ApplyFromFieldPath(toFieldPath, fieldPath, from, to, converts).value,
                     ManifestPrefix + Destination(toFieldPath, fieldPath) + below)
            == GetValue(from, fieldPath + below)
  {
    var out := GetValue(from, fieldPath).value;
    var dest := ManifestPrefix + Destination(toFieldPath, fieldPath);
    GetUnderSet(to, dest, out, below);
    GetAppend(from, fieldPath, below);
  }

  /** Frame: a successful patch changes nothing that is neither on nor under its write path. */
  lemma ApplyFrame(toFieldPath: Option<Path>, fieldPath: Path, from: Value, to: Value, converts: Value -> bool, q: Path)
    requires ApplyFromFieldPath(toFieldPath, fieldPath, from, to, converts).Ok?
    requires Diverge(ManifestPrefix + Destination(toFieldPath, fieldPath), q)
    ensures SameAt(to, ApplyFromFieldPath(toFieldPath, fieldPath, from, to, converts).value, q)
  {
    // the frame clause of PatchFieldValue
  }

  /** A path that parts ways with a prefix parts ways with every extension of it. */
  lemma DivergeExtends(p: Path, ext: Path, q: Path)
    requires Diverge(p, q)
    ensures Diverge(p + ext, q)
  {
  }

  /** No write escapes the manifest: every location outside `spec.forProvider.manifest` and its ancestors is unchanged. */
  lemma ApplyConfinedToManifest(toFieldPath: Option<Path>, fieldPath: Path, from: Value, to: Value, converts: Value -> bool, q: Path)
    requires ApplyFromFieldPath(toFieldPath, fieldPath, from, to, converts).Ok?
    requires Diverge(ManifestPrefix, q)
    ensures SameAt(to, ApplyFromFieldPath(toFieldPath, fieldPath, from, to, converts).value, q)
  {
    // the frame clause of PatchFieldValue, with DivergeExtends
  }

  /** Patching again with the defaulted reference, onto the patched destination, changes nothing. */
  lemma ApplyIdempotent(toFieldPath: Option<Path>, fieldPath: Path, from: Value, to: Value, converts: Value -> bool)
    requires ApplyFromFieldPath(toFieldPath, fieldPath, from, to, converts).Ok?
    ensures var once := ApplyFromFieldPath(toFieldPath, fieldPath, from, to, converts).value;
            ApplyFromFieldPath(Some(Destination(toFieldPath, fieldPath)), fieldPath, from, once, converts) == Ok(once)
  {
    SetIdempotent(to, ManifestPrefix + Destination(toFieldPath, fieldPath), GetValue(from, fieldPath).value);
  }

  /**
   * When the source has the field, a write along object keys through a destination whose existing
   * nodes on the way are all objects succeeds, and the patch then fails only if the result does not convert.
   */
  lemma ApplySucceedsOntoObjects(toFieldPath: Option<Path>, fieldPath: Path, from: Value, to: Value, converts: Value -> bool)
    requires GetValue(from, fieldPath).Ok?
    requires KeysOnly(ManifestPrefix + Destination(toFieldPath, fieldPath))
    requires ObjectsAlong(to, ManifestPrefix + Destination(toFieldPath, fieldPath))
    ensures SetValue(to, ManifestPrefix + Destination(toFieldPath, fieldPath), GetValue(from, fieldPath).value).Ok?
    ensures ApplyFromFieldPath(toFieldPath, fieldPath, from, to, converts).Ok? <==>
            converts(SetValue(to, ManifestPrefix + Destination(toFieldPath, fieldPath), GetValue(from, fieldPath).value).value)
  {
    SetSucceedsAlongObjects(to, ManifestPrefix + Destination(toFieldPath, fieldPath), GetValue(from, fieldPath).value);
  }

  /** The unstructured content of the object a patch writes into (the "to" object). */
  class Resource {
    var content: Value

    constructor (content: Value)
      ensures this.content == content
    {
      this.content := content;
    }
  }

  /** Writes `value` at `path` under the manifest prefix of `to`, leaving `to` as it was on any failure. */
  method PatchFieldValueToObject(path: Path, value: Value, to: Resource, converts: Value -> bool)
    returns (err: Option<PatchError>)
    modifies to
    ensures var r := PatchFieldValue(path, value, old(to.content), converts);
            match r
            case Ok(doc) => err == None && to.content == doc
            case Err(e) => err == Some(e) && to.content == old(to.content)
    ensures err == None ==> GetValue(to.content, ManifestPrefix + path) == Ok(value)
  {
    var paved := to.content;
    var written := SetValue(paved, ManifestPrefix + path, value);
    if written.Err? {
      return Some(PathFailed(written.error));
    }
    if !converts(written.value) {
      return Some(ConversionFailed);
    }
    to.content := written.value;
    return None;
  }

  /** A reference to another resource, optionally carrying a patch from it. */
  class Reference {
    var dependsOn: Option<DependsOn>
    var patchesFrom: Option<PatchesFrom>
    var toFieldPath: Option<Path>

    constructor (dependsOn: Option<DependsOn>, patchesFrom: Option<PatchesFrom>, toFieldPath: Option<Path>)
      ensures this.dependsOn == dependsOn && this.patchesFrom == patchesFrom && this.toFieldPath == toFieldPath
    {
      this.dependsOn := dependsOn;
      this.patchesFrom := patchesFrom;
      this.toFieldPath := toFieldPath;
    }

    /**
     * Copies the value at `patchesFrom.fieldPath` in `from` into `to`. An unset `toFieldPath` is
     * first defaulted to the source field path, and stays so even when the patch then fails;
     * on failure `to` is left as it was.
     */
    method ApplyFromFieldPathPatch(from: Value, to: Resource, converts: Value -> bool)
      returns (err: Option<PatchError>)
      requires patchesFrom.Some? && patchesFrom.value.fieldPath.Some?
      modifies this`toFieldPath, to
      ensures toFieldPath == Some(Destination(old(toFieldPath), patchesFrom.value.fieldPath.value))
      ensures old(toFieldPath).Some? ==> toFieldPath == old(toFieldPath)
      ensures var r := ApplyFromFieldPath(old(toFieldPath), patchesFrom.value.fieldPath.value, from, old(to.content), converts);
              match r
              case Ok(doc) => err == None && to.content == doc
              case Err(e) => err == Some(e) && to.content == old(to.content)
    {
      if toFieldPath.None? {
        toFieldPath := patchesFrom.value.fieldPath;
      }
      var out := GetValue(from, patchesFrom.value.fieldPath.value);
      if out.Err? {
        return Some(PathFailed(out.error));
      }
      err := PatchFieldValueToObject(toFieldPath.value, out.value, to, converts);
    }
  }

  /** A source `{status: {id: "abc-123"}}` patched by field path `status.id` onto an empty destination. */
  lemma ExampleStatusId()
    ensures var from := Obj(map["status" := Obj(map["id" := Str("abc-123")])]);
            var path := [Field("status"), Field("id")];
            var r := ApplyFromFieldPath(None, path, from, Obj(map[]), _ => true);
            r.Ok? && GetValue(r.value, ManifestPrefix + path) == Ok(Str("abc-123"))
  {
    var from := Obj(map["status" := Obj(map["id" := Str("abc-123")])]);
    var path := [Field("status"), Field("id")];
    var dest := ManifestPrefix + path;
    assert GetValue(from, path) == Ok(Str("abc-123"));
    assert dest == [Field("spec"), Field("forProvider"), Field("manifest"), Field("status"), Field("id")];
    assert SetValue(Obj(map[]), dest, Str("abc-123")).Ok? by {
      assert SetValue(Obj(map[]), dest[4..], Str("abc-123")).Ok?;
      assert SetValue(Obj(map[]), dest[3..], Str("abc-123")).Ok?;
      assert SetValue(Obj(map[]), dest[2..], Str("abc-123")).Ok?;
      assert SetValue(Obj(map[]), dest[1..], Str("abc-123")).Ok?;
    }
    ApplyReadBack(None, path, from, Obj(map[]), _ => true, []);
    assert path + [] == path && dest + [] == dest;
  }

  /** A source `{a: {b: 1}}` has no field `a.c`: the patch fails with a not-found error. */
  lemma ExampleMissingField(to: Value, converts: Value -> bool)
    ensures var from := Obj(map["a" := Obj(map["b" := Num(1)])]);
            ApplyFromFieldPath(None, [Field("a"), Field("c")], from, to, converts) == Err(PathFailed(NoSuchField))
  {
  }
}
