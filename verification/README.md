# Object references, field-path patches and management policies

A model of the reference, patch and policy logic of the `Object` managed resource of
provider-kubernetes (`apis/object/v1alpha1/types.go`):

- **Policy gate** (`policy.dfy`, module `Policy`): the `ManagementPolicy` and `ObjectAction`
  string types with their named literals. `IsActionAllowed` decides whether the provider may
  create, update or delete the external resource. The lemmas prove the whole decision table and
  its two-axis lattice reading. They also prove that `Observe`, and any policy string that is not
  one of the four literals, denies every action.
- **Reference data model** (`references.dfy`, module `References`): `DependsOn` and `PatchesFrom`
  are datatypes. `Reference` is a class holding the two optional descriptors and a mutable
  `toFieldPath`, as the Go struct with a pointer receiver does.
- **Patch engine** (`references.dfy`): `Reference.ApplyFromFieldPathPatch` and
  `PatchFieldValueToObject` are imperative methods. The first defaults `toFieldPath` in place, reads the source
  value and returns early on errors; the second writes into the destination object. Each
  method is proved against a pure function (`ApplyFromFieldPath`, `PatchFieldValue`). Lemmas
  about those functions give the read-back, frame, confinement-to-manifest and idempotence
  properties.
- **Documents** (`fieldpath.dfy`, module `FieldPath`): the external field-path library is not
  part of this model. Documents are modelled as a JSON-shaped tree (`Value`) and field paths as
  already-parsed segment sequences. `GetValue` and `SetValue` are total functions returning a
  value or a `PathError`. The string concatenation `"spec.forProvider.manifest." + path` becomes
  the sequence `ManifestPrefix + path`.

A reference with no `PatchesFrom`, or a `PatchesFrom` with a nil `FieldPath`, makes the code
dereference a nil pointer (types.go:164, 172), so `ApplyFromFieldPathPatch` requires both to be
present.

Both the policy and the action are open strings in Go. The subset types `WirePolicy` and
`WireAction` hold exactly the values a wire string can denote: an unknown policy or action never
carries the spelling of a named literal.

## Model

| member | source | states |
|---|---|---|
| `Policy.ParsePolicy` | apis/object/v1alpha1/types.go:29-44 | a policy read from its wire string spells that string back, and is an unknown policy exactly when the string is none of the four literals |
| `Policy.ParsePolicyName` | apis/object/v1alpha1/types.go:32-44 | reading back the spelling of a policy value that can come from the wire gives that policy |
| `Policy.ParseAction` | apis/object/v1alpha1/types.go:46-51 | an action read from its wire string spells that string back, and is an "other" action exactly when the string is not Create, Update or Delete |
| `Policy.ParseActionName` | apis/object/v1alpha1/types.go:46-51 | reading back the spelling of an action gives that action |
| `Policy.IsActionAllowed` | apis/object/v1alpha1/types.go:198-205 | Default allows every action; only Default, ObserveCreateUpdate and ObserveDelete ever allow anything |
| `Policy.GrantsCorrespond` | apis/object/v1alpha1/types.go:34-44 | the four named policies and the four (create-or-update, delete) permission pairs correspond one to one |
| `Policy.GateIsLattice` | apis/object/v1alpha1/types.go:198-205 | Create and Update are decided by the policy's create-or-update permission; every other action is decided by its delete permission |
| `Policy.GateMonotone` | apis/object/v1alpha1/types.go:198-205 | a policy granting at least the permissions of another allows every action the other allows |
| `Policy.CreateUpdateGate` | apis/object/v1alpha1/types.go:199-200 | Create and Update are allowed iff the policy string is Default or ObserveCreateUpdate |
| `Policy.DeleteGate` | apis/object/v1alpha1/types.go:203-204 | Delete and any action other than Create or Update are allowed iff the policy string is Default or ObserveDelete |
| `Policy.ObserveAndUnknownDenyAll` | apis/object/v1alpha1/types.go:198-205 | the policy Observe, and any policy string outside the four literals, denies every action |
| `Policy.DecisionTable` | apis/object/v1alpha1/types.go:34-51 | the twelve cells of the named policy/action table |
| `FieldPath.GetAppend` | apis/object/v1alpha1/types.go:172 | reading along `p + r` reads `r` inside whatever `p` reaches, and fails with `p`'s error when `p` fails |
| `FieldPath.GetAfterSet` | apis/object/v1alpha1/types.go:189 | after a successful write the path reads back exactly the written value |
| `FieldPath.GetUnderSet` | apis/object/v1alpha1/types.go:189 | after a successful write every path below the written one reads into the written value |
| `FieldPath.SetFrame` | apis/object/v1alpha1/types.go:189 | a write leaves every location that is neither on nor under its path holding what it held |
| `FieldPath.SetIdempotent` | apis/object/v1alpha1/types.go:189 | writing the same value twice at the same path equals writing it once |
| `FieldPath.SetOutcomeIgnoresValue` | apis/object/v1alpha1/types.go:189 | whether a write fails, and with which error, does not depend on the written value |
| `FieldPath.SetSucceedsAlongObjects` | apis/object/v1alpha1/types.go:189 | a write along object keys succeeds whenever every node already present along the path is an object |
| `References.PatchFieldValue` | apis/object/v1alpha1/types.go:183-195 | the patch succeeds exactly when the write under the manifest prefix succeeds and its result converts back; a failed write returns the write's error, a failed conversion returns a conversion error; on success the value reads back at the manifest prefix plus the path, and every location neither on nor under that path is unchanged |
| `References.ApplyFromFieldPath` | apis/object/v1alpha1/types.go:161-178 | a failed source lookup is returned as the patch's error; success implies the source had the field and the result converts |
| `References.ApplyReadBack` | apis/object/v1alpha1/types.go:161-189 | after a successful patch the destination at the manifest prefix plus the destination path, and below it, reads exactly what the source reads at the field path |
| `References.ApplyFrame` | apis/object/v1alpha1/types.go:189 | a successful patch leaves unchanged every destination location neither on nor under the manifest prefix plus the destination path |
| `References.ApplyConfinedToManifest` | apis/object/v1alpha1/types.go:189 | no write escapes `spec.forProvider.manifest`: every location outside that subtree and its ancestors is unchanged |
| `References.ApplyIdempotent` | apis/object/v1alpha1/types.go:161-195 | re-applying the patch with the defaulted reference onto the patched destination gives the same destination |
| `References.ApplySucceedsOntoObjects` | apis/object/v1alpha1/types.go:183-195 | when the source has the field, the write path has only object keys and every node present along it is an object, the write succeeds, and the patch succeeds exactly when the written tree converts |
| `References.PatchFieldValueToObject` | apis/object/v1alpha1/types.go:183-195 | the destination's new content is the written document on success, where the value reads back at the manifest prefix plus the path; on any error the error is returned and the destination is unchanged |
| `References.Reference.constructor` | apis/object/v1alpha1/types.go:87-101 | a reference holds the given optional DependsOn, PatchesFrom and ToFieldPath |
| `References.Reference.ApplyFromFieldPathPatch` | apis/object/v1alpha1/types.go:161-178 | an unset `toFieldPath` becomes the source field path before extraction, even if the call then fails; a set one is untouched; the destination becomes the patched document on success and is unchanged on error |
| `References.ExampleStatusId` | apis/object/v1alpha1/types.go:161-195 | patching `status.id` from `{status: {id: "abc-123"}}` onto an empty destination writes `"abc-123"` at `spec.forProvider.manifest.status.id` |
| `References.ExampleMissingField` | apis/object/v1alpha1/types.go:172-175 | a source `{a: {b: 1}}` has no field `a.c`, so the patch fails with a not-found error |

## Left out

- The field-path library's path-string parsing is not part of this model. Paths are given as parsed segments. So the behaviour of an empty `toFieldPath`, which leaves a trailing dot in `"spec.forProvider.manifest."` (types.go:189), is not modelled. In the model an empty destination path writes the whole manifest.
- `FieldPath.GetValue`: an empty path reads the whole document. How the field-path library reads an empty path is not modelled. Nothing in types.go rules out an empty `fieldPath` (types.go:82, 172), and in the model it copies the whole source document into the manifest.
- `FieldPath.SetValue`: a missing intermediate key is created as an empty object. An array index must already be in range, because growing arrays with null padding is library behaviour not shown here. A write whose path passes through a scalar fails with `NotAnObject` or `NotAnArray`; this failure is the model's choice, since the library is not shown, and the `ObjectsAlong` condition of `ApplySucceedsOntoObjects` rests on it.
- Paving the `from` and `to` objects into unstructured trees (types.go:167-170, 184-187) is a foreign conversion. The model takes both documents as trees already, so paving never fails.
- Converting the patched tree back into the typed `to` object (types.go:194) is the parameter `converts`. On conversion failure the model leaves the destination unchanged. A partial fill by the converter is not modelled.
- JSON numbers are modelled as integers only. Floating-point values are not modelled.
- The API-server defaults of `DependsOn.APIVersion` and `DependsOn.Kind` (types.go:59, 63) are recorded as constants only. They are applied at admission, not by this code. The same holds for the other kubebuilder markers.
- `ObjectParameters`, `ObjectObservation`, `ObjectSpec`, `ObjectStatus`, `Object`, `ObjectList` and the embedded `xpv1` resource types (types.go:103-157) are CRD scaffolding. They are not modelled.
- Pointer aliasing between `ToFieldPath` and `PatchesFrom.FieldPath` after defaulting (types.go:164) is not modelled, and neither is concurrent sharing of a `Reference`. Paths are values.
- Resolving the resource a `DependsOn` names is done by the reconciler, not by this code. It is not modelled.
