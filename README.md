# ConstraintTemplate to constraint CRD: a Dafny model

This project models two parts of the constraint framework's ConstraintTemplate
pipeline.

The first part is the CRD helper of the client package (`crd_helpers.go`). For a
ConstraintTemplate it:

- checks that the template names exactly one target;
- composes the constraint schema from the target's match schema and the
  template's parameter schema;
- synthesises the constraint CRD: names derived from the template's kind, a
  fixed group, categories and scope, two versions, a round trip through the
  host scheme's conversion and defaulting, and the final name
  `<plural>.constraints.gatekeeper.sh`;
- validates that CRD;
- validates constraint instances against it, in a fixed first-failure-wins
  order: validator construction, schema, name, kind, group, version.

The second part is the generated deep-copy routines of the v1alpha1 template
types (`zz_generated.deepcopy.go`). These are modelled over Go's memory as it is:

- a struct is a datatype, so assigning it copies its fields and shares the
  pointers inside;
- a pointer `*T` is a `Ptr?<T>` object;
- the `Targets` map is a `TargetMap` object;
- the `Items` slice is an array.

Every v1alpha1 type has `Objects()`, the mutable objects it reaches, and
`Value()`, its contents as a value of the `Templates` module. `DeepCopyInto`
returns the new `*out`: a copy whose value equals the receiver's and whose
mutable objects are all fresh. The copy therefore shares nothing with the
original. `DeepCopy` returns nil for nil, and otherwise a new pointer filled by
`DeepCopyInto`.

Files:

- `wrappers.dfy`: `Option` and `Result`.
- `apiextensions.dfy`: the host platform's CRD and schema types, as values.
- `templates.dfy`: the template types as values. These are the internal
  `templates` types the CRD helper reads, and the abstraction of the v1alpha1
  types.
- `crd_helpers.dfy`: the CRD helper.
- `v1alpha1_deepcopy.dfy`: the v1alpha1 types and their deep-copy routines.

The host scheme (`Convert`, `Default`) and the validation library
(`NewSchemaValidator`, `ValidateCustomResource`, `IsDNS1123Subdomain`,
`ValidateCustomResourceDefinition`) are function-valued fields of the `Scheme`
and `Validators` datatypes. Every property below therefore holds whatever those
functions do.

`createSchema` does not check the number of targets; `validateTargets`
(crd_helpers.go:27-35) does, so `CreateSchema` has no cardinality error. The
target's match schema is a parameter of `CreateSchema`.

## Model

| member | source | states |
|---|---|---|
| CrdHelpers.ValidateTargets | constraint/pkg/client/crd_helpers.go:27-35 | No error iff `Targets` is non-nil with exactly one entry. More than one entry gives the multi-target error, checked first. A nil map gives "targets not specified". A non-nil empty map gives "no targets". |
| CrdHelpers.CrdHelper.CreateSchema | constraint/pkg/client/crd_helpers.go:40-60 | Fails iff a parameter schema is declared (`Validation` and `OpenAPIV3Schema` both non-nil) and its conversion fails; the error is the conversion's. Otherwise the schema's only property is `spec`, holding `match` equal to the target's match schema, `enforcementAction` of type `string`, and `parameters` exactly when one is declared, equal to the converted schema. |
| CrdHelpers.ToLower | constraint/pkg/client/crd_helpers.go:86-87 | Lower-casing keeps the length, maps each character through ASCII lower-casing, and leaves no upper-case letter. |
| CrdHelpers.ConstraintCRD | constraint/pkg/client/crd_helpers.go:80-111 | The CRD literal has the constraint group and `Cluster` scope. Its kind is the template's kind and its list kind is the kind plus `List`. Plural and singular are equal, with each character the lower-cased character of the kind. Categories are `all`, `constraint`. The validation wraps the given schema. `Spec.Version` is v1beta1. |
| CrdHelpers.ConstraintCRDVersions | constraint/pkg/client/crd_helpers.go:97-109 | The literal declares exactly two versions, v1beta1 then v1alpha1. All are served. v1beta1 is stored and v1alpha1 is not, and `Spec.Version` is v1beta1, so the one stored version is `Spec.Version`. A version is one of the declared versions iff `supportedVersions` (lines 21-24) maps it to true. |
| CrdHelpers.RequiredLabelsNames | constraint/pkg/client/crd_helpers.go:84-87 | Kind `K8sRequiredLabels` gives the plural `k8srequiredlabels` and the list kind `K8sRequiredLabelsList`. |
| CrdHelpers.CrdHelper.CreateCRD | constraint/pkg/client/crd_helpers.go:77-124 | Fails iff either conversion of the round trip fails, with that conversion's error. On success the spec is the round trip's, and the name is `<plural>.constraints.gatekeeper.sh`, built from the plural computed before the round trip. |
| CrdHelpers.CRDNameInjective | constraint/pkg/client/crd_helpers.go:122 | Different plurals give different CRD names. |
| CrdHelpers.CreatedCRDAcceptsOnlyTheTemplateKind | constraint/pkg/client/crd_helpers.go:77-157 | When the round trip keeps the spec, the created CRD has the derived names, the fixed group and scope, `Spec.Version` v1beta1, and one stored version. An instance it accepts, unless schema validation stopped the chain early with an empty non-nil error list, has the template's kind and one of the CRD's declared versions. |
| CrdHelpers.CrdHelper.ValidateCRD | constraint/pkg/client/crd_helpers.go:127-133 | No error iff the CRD validator reports no errors. Otherwise all reported errors are returned together. |
| CrdHelpers.CrdHelper.ValidateCR | constraint/pkg/client/crd_helpers.go:136-157 | No error iff schema validation returns a non-nil empty error list (Go then returns the nil aggregate at line 142 and skips lines 144-155), or every check passes: validator construction, schema, DNS-1123 name, kind, group and version. Acceptance without that early return implies the CRD's kind, the constraint group and a version in {v1alpha1, v1beta1}. |
| CrdHelpers.ValidateCRReportsFirstFailure | constraint/pkg/client/crd_helpers.go:136-156 | A rejection is exactly the error of some failing check, every check ranked before it passed, and schema validation did not return early. |
| CrdHelpers.SchemaErrorsComeBeforeIdentityErrors | constraint/pkg/client/crd_helpers.go:141-155 | An instance that fails schema validation is reported for its schema, whatever its name, kind, group or version. |
| V1alpha1.CRD.DeepCopyInto | constraint/pkg/apis/templates/v1alpha1/zz_generated.deepcopy.go:26-30 | The copy keeps a nil `Validation` nil. Its mutable objects are fresh and its value equals the receiver's. |
| V1alpha1.CRD.DeepCopy | constraint/pkg/apis/templates/v1alpha1/zz_generated.deepcopy.go:33-40 | Nil for nil. Otherwise a fresh pointer to a copy with fresh mutable objects and an equal value. |
| V1alpha1.CRDNames.DeepCopyInto | constraint/pkg/apis/templates/v1alpha1/zz_generated.deepcopy.go:43-46 | The names are copied by value: the copy equals the receiver. |
| V1alpha1.CRDNames.DeepCopy | constraint/pkg/apis/templates/v1alpha1/zz_generated.deepcopy.go:49-56 | Nil for nil. Otherwise a fresh pointer holding an equal value. |
| V1alpha1.CRDSpec.DeepCopyInto | constraint/pkg/apis/templates/v1alpha1/zz_generated.deepcopy.go:59-68 | `Names` is copied by value. A nil `Validation` stays nil; a non-nil one becomes a fresh object. The copy's value equals the receiver's. |
| V1alpha1.CRDSpec.DeepCopy | constraint/pkg/apis/templates/v1alpha1/zz_generated.deepcopy.go:71-78 | Nil for nil. Otherwise a fresh pointer to a copy with fresh mutable objects and an equal value. |
| V1alpha1.ConstraintTemplate.DeepCopyInto | constraint/pkg/apis/templates/v1alpha1/zz_generated.deepcopy.go:81-88 | `TypeMeta`, `ObjectMeta` and `Status` are copied by value. `Spec` is copied by its own routine: nil `Targets` and `Validation` stay nil, and copied targets have the same entries. The copy's mutable objects are fresh and its value equals the receiver's. |
| V1alpha1.ConstraintTemplate.DeepCopy | constraint/pkg/apis/templates/v1alpha1/zz_generated.deepcopy.go:91-98 | Nil for nil. Otherwise a fresh pointer to a copy with fresh mutable objects and an equal value. |
| V1alpha1.CopyEach | constraint/pkg/apis/templates/v1alpha1/zz_generated.deepcopy.go:116-118 | Element i of the result is a deep copy of item i: its mutable objects are fresh and its value is equal. |
| V1alpha1.CopyItems | constraint/pkg/apis/templates/v1alpha1/zz_generated.deepcopy.go:113-119 | The new slice is fresh and has the same length. Element i has fresh mutable objects and the value of item i, and does not reach the new slice. |
| V1alpha1.ConstraintTemplateList.DeepCopyInto | constraint/pkg/apis/templates/v1alpha1/zz_generated.deepcopy.go:109-121 | `TypeMeta` and `ListMeta` are copied by value. Nil `Items` stay nil. Otherwise the copy has a new slice of the same length whose element i has the value of item i. The copy's mutable objects are fresh and its value equals the receiver's. |
| V1alpha1.ConstraintTemplateList.DeepCopy | constraint/pkg/apis/templates/v1alpha1/zz_generated.deepcopy.go:124-131 | Nil for nil. Otherwise a fresh pointer to a copy with fresh mutable objects and an equal value. |
| V1alpha1.CopyTargets | constraint/pkg/apis/templates/v1alpha1/zz_generated.deepcopy.go:145-151 | A fresh map with exactly the same keys and the same target values. |
| V1alpha1.ConstraintTemplateSpec.DeepCopyInto | constraint/pkg/apis/templates/v1alpha1/zz_generated.deepcopy.go:142-153 | The CRD is deep-copied. Nil `Targets` stay nil; otherwise they become a fresh map with the same entries. The copy's mutable objects are fresh and its value equals the receiver's. |
| V1alpha1.ConstraintTemplateSpec.DeepCopy | constraint/pkg/apis/templates/v1alpha1/zz_generated.deepcopy.go:156-163 | Nil for nil. Otherwise a fresh pointer to a copy with fresh mutable objects and an equal value. |
| V1alpha1.ConstraintTemplateStatus.DeepCopyInto | constraint/pkg/apis/templates/v1alpha1/zz_generated.deepcopy.go:166-169 | The status is copied by value: the copy equals the receiver. |
| V1alpha1.ConstraintTemplateStatus.DeepCopy | constraint/pkg/apis/templates/v1alpha1/zz_generated.deepcopy.go:172-179 | Nil for nil. Otherwise a fresh pointer holding an equal value. |
| V1alpha1.Target.DeepCopyInto | constraint/pkg/apis/templates/v1alpha1/zz_generated.deepcopy.go:182-185 | A target is copied by value: the copy equals the receiver. |
| V1alpha1.Target.DeepCopy | constraint/pkg/apis/templates/v1alpha1/zz_generated.deepcopy.go:188-195 | Nil for nil. Otherwise a fresh pointer holding an equal value. |
| V1alpha1.Validation.DeepCopyInto | constraint/pkg/apis/templates/v1alpha1/zz_generated.deepcopy.go:198-205 | A nil schema stays nil. A non-nil one is replaced by the schema's own deep copy: a fresh pointer to an equal schema. |
| V1alpha1.Validation.DeepCopy | constraint/pkg/apis/templates/v1alpha1/zz_generated.deepcopy.go:208-215 | Nil for nil. Otherwise a fresh pointer to a copy with fresh mutable objects and an equal value. |
| V1alpha1.MutateCopy | constraint/pkg/apis/templates/v1alpha1/zz_generated.deepcopy.go:142-153 | Writing a target into a copied template's map, and replacing its `Validation`, leaves the original's value unchanged. The copy's map then holds the original's entries plus the new one. |
| V1alpha1.MutateOriginal | constraint/pkg/apis/templates/v1alpha1/zz_generated.deepcopy.go:59-68 | Writing into the original's targets and `Validation` after copying leaves the copy equal to the original as it was. |
| V1alpha1.MutateCopiedItem | constraint/pkg/apis/templates/v1alpha1/zz_generated.deepcopy.go:113-118 | Overwriting an element of a copied list's `Items` leaves the original list's value unchanged. |

## Left out

- `newCRDHelper` and its scheme registration (crd_helpers.go:68-74) are not modelled. The scheme is a parameter of `CrdHelper`.
- The scheme's `Convert` and `Default` are abstract functions. Their contents belong to the host platform.
- `NewSchemaValidator`, `ValidateCustomResource`, `IsDNS1123Subdomain` and `ValidateCustomResourceDefinition` are abstract functions that return error lists. Their rules belong to external libraries.
- CrdHelpers.CrdHelper.ValidateCRD: the fixed v1beta1 group-version argument of the validator is left out, because it never varies.
- CrdHelpers.CrdHelper.ValidateCR: the instance's group and version are fields of the instance. Parsing `apiVersion` into a group and a version belongs to the host library.
- CrdHelpers.ToLower: lower-cases ASCII letters only. Unicode case mapping is not modelled.
- Error texts are not modelled; each error is a distinct variant carrying the values the text would show. The printed order of `supportedVersions` is a Go runtime detail.
- The value of `constraintGroup`, `constraints.gatekeeper.sh`, is defined in the client package's `client.go`, which is not part of this model.
- The JSON schema types are reduced to a type, a property map and opaque other keywords. The author's v1beta1 schema is an opaque document.
- `Target` and `ConstraintTemplateStatus` are reduced to an opaque value field. Both are copied by value in the source.
- `ObjectMeta` is a value, so `ObjectMeta.DeepCopyInto` is a value copy. The deep copy of its own maps belongs to the host library.
- V1alpha1.DeepCopySchema: stands for the host library's `JSONSchemaProps.DeepCopy`. It returns nil for nil, and otherwise a fresh pointer to an equal schema.
- `DeepCopyObject` (zz_generated.deepcopy.go:101-106, 134-139) is not modelled. It is interface boxing over `DeepCopy`.
- V1alpha1.CRD.DeepCopyInto, V1alpha1.CRDNames.DeepCopyInto, V1alpha1.CRDSpec.DeepCopyInto, V1alpha1.ConstraintTemplate.DeepCopyInto, V1alpha1.ConstraintTemplateList.DeepCopyInto, V1alpha1.ConstraintTemplateSpec.DeepCopyInto, V1alpha1.ConstraintTemplateStatus.DeepCopyInto, V1alpha1.Target.DeepCopyInto, V1alpha1.Validation.DeepCopyInto: each returns the new `*out` instead of writing into a location the caller owns. A call whose `out` aliases `in`, or aliases memory reachable from it, is outside the model. For example, a `CRDSpec` copied into itself loses its `Validation` at zz_generated.deepcopy.go:63-65. No call in these files does this.
- V1alpha1.CopyItems: makes all element copies first and then allocates the new array filled with them. Go allocates the slice first and writes each element as it is made. Nothing else can see the new slice before it is returned, so the result is the same.
- V1alpha1.CopyTargets: Go's map iteration order is unspecified. The model takes the keys in an arbitrary order, and the result does not depend on it.
- Concurrency: nothing in these files is concurrent. The shared-cache discipline belongs to the callers.
