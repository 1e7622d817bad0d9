/**
 * The constraint CRD helpers: checking a template's targets, composing the
 * constraint schema, synthesising the constraint CRD (with its round trip
 * through the host scheme), validating that CRD, and validating constraint
 * instances against it.
 *
 * The host platform's scheme (`Convert`, `Default`) and its validators are
 * not part of this model: they are function-valued fields of `Scheme` and
 * `Validators`, so every property below holds for every behaviour they may have.
 */
module CrdHelpers {
  import opened Wrappers
  import opened Apiextensions
  import T = Templates

  /** The API group of every constraint CRD (the client package's `constraintGroup`). */
  const ConstraintGroup: string := "constraints.gatekeeper.sh"

  /** `Version` of the v1alpha1 and v1beta1 scheme group versions of the templates API. */
  const V1alpha1Version: string := "v1alpha1"
  const V1beta1Version: string := "v1beta1"

  /** `supportedVersions`: a Go `map[string]bool`. */
  const SupportedVersions: map<string, bool> := map[V1alpha1Version := true, V1beta1Version := true]

  /** `supportedVersions[v]`: a key that is absent reads as Go's zero value, false. */
  predicate IsSupportedVersion(version: string) {
    version in SupportedVersions && SupportedVersions[version]
  }

  /** One variant per error the helpers return; the texts are not modelled. */
  datatype Error =
    | MultiTarget                                   // "Multi-target templates are not currently supported"
    | TargetsNotSpecified                           // `Field "targets" not specified ...`
    | NoTargets                                     // "No targets specified ..."
    | SchemeError(message: string)                  // an error returned by the scheme's Convert
    | InvalidDefinition(errors: seq<string>)        // the aggregated CRD validation errors
    | ValidatorError(message: string)               // NewSchemaValidator failed
    | InvalidInstance(errors: seq<string>)          // the aggregated schema errors of an instance
    | InvalidName(errors: seq<string>)              // "Invalid Name: ..."
    | WrongKind(name: string, have: string, want: string)
    | WrongGroup(name: string, have: string, want: string)
    | WrongVersion(name: string, have: string)

  // ---------------------------------------------------------------- targets

  /** Go's `len` of a map: a nil map has length 0. */
  function TargetCount(targets: Option<map<string, T.Target>>): nat {
    if targets.None? then 0 else |targets.value|
  }

  /** `validateTargets`: a template must name exactly one target. */
  function ValidateTargets(templ: T.ConstraintTemplate): (r: Option<Error>)
    ensures r.None? <==> templ.spec.targets.Some? && |templ.spec.targets.value| == 1
    ensures TargetCount(templ.spec.targets) > 1 ==> r == Some(MultiTarget)
    ensures templ.spec.targets.None? ==> r == Some(TargetsNotSpecified)
    ensures templ.spec.targets == Some(map[]) ==> r == Some(NoTargets)
  {
    var targets := templ.spec.targets;
    if TargetCount(targets) > 1 then Some(MultiTarget)
    else if targets.None? then Some(TargetsNotSpecified)
    else if TargetCount(targets) == 0 then Some(NoTargets)
    else None
  }

  // ---------------------------------------------------------------- the host scheme

  /**
   * The host scheme, built once by `newCRDHelper`: converting the author's
   * v1beta1 schema to the internal one, converting a CRD to v1beta1 and back,
   * and applying the v1beta1 defaults. Each conversion may fail with an error.
   */
  datatype Scheme = Scheme(
    convertSchema: V1beta1JSONSchemaProps -> Result<JSONSchemaProps, string>,
    convertToV1beta1: CustomResourceDefinition -> Result<V1beta1CustomResourceDefinition, string>,
    applyDefaults: V1beta1CustomResourceDefinition -> V1beta1CustomResourceDefinition,
    convertFromV1beta1: V1beta1CustomResourceDefinition -> Result<CustomResourceDefinition, string>)

  /**
   * The validation library the helpers call: building a schema validator from
   * a CRD's validation, validating an instance with it, the DNS-1123 subdomain
   * rule for names, and the CRD validator (against v1beta1). Each returns the
   * list of errors it found; instance validation returns a Go slice, which may
   * be nil (`None`) or non-nil and still empty (`Some([])`).
   */
  datatype Validators = Validators(
    newSchemaValidator: Option<CustomResourceValidation> -> Result<SchemaValidator, string>,
    validateCustomResource: (Unstructured, SchemaValidator) -> Option<seq<string>>,
    isDNS1123Subdomain: string -> seq<string>,
    validateCustomResourceDefinition: CustomResourceDefinition -> seq<string>)

  /** A compiled schema validator, standing for the validation it was built from. */
  datatype SchemaValidator = SchemaValidator(validation: Option<CustomResourceValidation>)

  // ---------------------------------------------------------------- schema

  /** The template declares a parameter schema: `Validation` and its `OpenAPIV3Schema` are both non-nil. */
  predicate DeclaresParameters(templ: T.ConstraintTemplate) {
    templ.spec.crd.spec.validation.Some? && templ.spec.crd.spec.validation.value.openAPIV3Schema.Some?
  }

  function ParameterSchema(templ: T.ConstraintTemplate): V1beta1JSONSchemaProps
    requires DeclaresParameters(templ)
  {
    templ.spec.crd.spec.validation.value.openAPIV3Schema.value
  }

  /** The properties of the `spec` property of a schema (none when it has no `spec`). */
  function SpecProperties(s: JSONSchemaProps): map<string, JSONSchemaProps> {
    if "spec" in s.properties then s.properties["spec"].properties else map[]
  }

  /**
   * The shape of every constraint schema: an object whose only property is
   * `spec`, itself an object with `match` (the target's schema) and
   * `enforcementAction` (a string), and at most `parameters` besides.
   */
  ghost predicate IsConstraintSchema(s: JSONSchemaProps, matchSchema: JSONSchemaProps) {
    && s.typ == "" && s.otherKeywords == map[]
    && s.properties.Keys == {"spec"}
    && var spec := s.properties["spec"];
    && spec.typ == "" && spec.otherKeywords == map[]
    && {"match", "enforcementAction"} <= spec.properties.Keys <= {"match", "enforcementAction", "parameters"}
    && spec.properties["match"] == matchSchema
    && spec.properties["enforcementAction"] == TypedSchema("string")
  }

  // ---------------------------------------------------------------- names

  /** `strings.ToLower` on one ASCII character. */
  function LowerChar(c: char): char {
    if 'A' <= c <= 'Z' then (c as int - 'A' as int + 'a' as int) as char else c
  }

  /** `strings.ToLower`, restricted to ASCII. */
  function ToLower(s: string): (r: string)
    ensures |r| == |s|
    ensures forall i :: 0 <= i < |s| ==> r[i] == LowerChar(s[i])
    ensures forall i :: 0 <= i < |r| ==> !('A' <= r[i] <= 'Z')
  {
    if s == [] then [] else [LowerChar(s[0])] + ToLower(s[1..])
  }

  /** The name `createCRD` gives the CRD: `fmt.Sprintf("%s.%s", plural, constraintGroup)`. */
  function CRDName(plural: string): string {
    plural + "." + ConstraintGroup
  }

  /** Two different plurals never give the same CRD name. */
  lemma {:induction false} CRDNameInjective(plural1: string, plural2: string)
    requires CRDName(plural1) == CRDName(plural2)
    ensures plural1 == plural2
  {
    var suffix := "." + ConstraintGroup;
    assert CRDName(plural1) == plural1 + suffix;
    assert CRDName(plural2) == plural2 + suffix;
    assert |plural1| == |plural2|;
    assert plural1 == (plural1 + suffix)[..|plural1|];
    assert plural2 == (plural2 + suffix)[..|plural2|];
  }

  // ---------------------------------------------------------------- the CRD literal

  function Kind(templ: T.ConstraintTemplate): string {
    templ.spec.crd.spec.names.kind
  }

  /**
   * The CRD literal `createCRD` builds before the round trip: names derived from
   * the template's kind, fixed group, categories and scope, the given schema,
   * and two versions (v1beta1 served and stored, v1alpha1 served only).
   */
  function ConstraintCRD(templ: T.ConstraintTemplate, schema: Option<JSONSchemaProps>): (crd: CustomResourceDefinition)
    ensures crd.name == ""
    ensures crd.spec.group == ConstraintGroup && crd.spec.scope == "Cluster"
    ensures crd.spec.names.kind == Kind(templ)
    ensures crd.spec.names.listKind == Kind(templ) + "List"
    ensures crd.spec.names.plural == crd.spec.names.singular
    ensures |crd.spec.names.plural| == |Kind(templ)|
    ensures forall i :: 0 <= i < |Kind(templ)| ==> crd.spec.names.plural[i] == LowerChar(Kind(templ)[i])
    ensures crd.spec.names.categories == ["all", "constraint"]
    ensures crd.spec.version == V1beta1Version
    ensures crd.spec.validation == Some(CustomResourceValidation(schema))
  {
    var kind := Kind(templ);
    CustomResourceDefinition(
      "",
      CustomResourceDefinitionSpec(
        ConstraintGroup,
        CustomResourceDefinitionNames(ToLower(kind), ToLower(kind), kind, kind + "List", ["all", "constraint"]),
        Some(CustomResourceValidation(schema)),
        "Cluster",
        V1beta1Version,
        [CustomResourceDefinitionVersion(V1beta1Version, true, true),
         CustomResourceDefinitionVersion(V1alpha1Version, true, false)]))
  }

  /** The versions of a CRD spec are served, and exactly the one named `version` is stored. */
  ghost predicate OneStorageVersion(spec: CustomResourceDefinitionSpec) {
    && (forall i :: 0 <= i < |spec.versions| ==> spec.versions[i].served)
    && (forall i :: 0 <= i < |spec.versions| ==> (spec.versions[i].storage <==> spec.versions[i].name == spec.version))
    && (forall i, j :: 0 <= i < j < |spec.versions| ==> spec.versions[i].name != spec.versions[j].name)
    && (exists i :: 0 <= i < |spec.versions| && spec.versions[i].storage)
  }

  /**
   * The literal declares exactly two versions, v1beta1 then v1alpha1, exactly one
   * of them stored; and the versions it declares are exactly the versions
   * `validateCR` accepts.
   */
  lemma ConstraintCRDVersions(templ: T.ConstraintTemplate, schema: Option<JSONSchemaProps>, version: string)
    ensures var spec := ConstraintCRD(templ, schema).spec;
      && |spec.versions| == 2
      && spec.versions[0].name == V1beta1Version && spec.versions[1].name == V1alpha1Version
      && spec.version == V1beta1Version && spec.versions[0].storage && !spec.versions[1].storage
      && OneStorageVersion(spec)
      && (IsSupportedVersion(version) <==> exists i :: 0 <= i < |spec.versions| && spec.versions[i].name == version)
  {
    var spec := ConstraintCRD(templ, schema).spec;
    assert spec.versions[0].storage;
    if IsSupportedVersion(version) {
      if version == V1beta1Version {
        assert spec.versions[0].name == version;
      } else {
        assert spec.versions[1].name == version;
      }
    }
  }

  /** A template of kind `K8sRequiredLabels` gives the CRD names `k8srequiredlabels` and `K8sRequiredLabelsList`. */
  lemma RequiredLabelsNames(templ: T.ConstraintTemplate, schema: Option<JSONSchemaProps>)
    requires Kind(templ) == "K8sRequiredLabels"
    ensures ConstraintCRD(templ, schema).spec.names.plural == "k8srequiredlabels"
    ensures ConstraintCRD(templ, schema).spec.names.listKind == "K8sRequiredLabelsList"
  {
  }

  // ---------------------------------------------------------------- the crd helper

  /** `crdHelper`: the scheme it was built with. */
  datatype CrdHelper = CrdHelper(scheme: Scheme) {

    /**
     * `createSchema`: the constraint schema for a template and its target's
     * match schema. The author's parameter schema, when declared, is converted
     * by the scheme and placed under `spec.parameters`; a failed conversion is
     * returned as the error.
     */
    function CreateSchema(templ: T.ConstraintTemplate, matchSchema: JSONSchemaProps): (r: Result<JSONSchemaProps, Error>)
      ensures r.Failure? <==> DeclaresParameters(templ) && scheme.convertSchema(ParameterSchema(templ)).Failure?
      ensures r.Failure? ==> r.error == SchemeError(scheme.convertSchema(ParameterSchema(templ)).error)
      ensures r.Success? ==> IsConstraintSchema(r.value, matchSchema)
      ensures r.Success? ==> ("parameters" in SpecProperties(r.value) <==> DeclaresParameters(templ))
      ensures r.Success? && DeclaresParameters(templ) ==>
                SpecProperties(r.value)["parameters"] == scheme.convertSchema(ParameterSchema(templ)).value
    {
      var props := map["match" := matchSchema, "enforcementAction" := TypedSchema("string")];
      var converted: Option<Result<JSONSchemaProps, string>> := if DeclaresParameters(templ) then Some(scheme.convertSchema(ParameterSchema(templ))) else None;
      match converted
      case Some(Failure(e)) => Failure(SchemeError(e))
      case Some(Success(internalSchema)) => Success(ObjectSchema(map["spec" := ObjectSchema(props["parameters" := internalSchema])]))
      case None => Success(ObjectSchema(map["spec" := ObjectSchema(props)]))
    }

    /** Convert to v1beta1, apply the v1beta1 defaults, convert back. */
    function RoundTrip(crd: CustomResourceDefinition): Result<CustomResourceDefinition, string> {
      match scheme.convertToV1beta1(crd)
      case Failure(e) => Failure(e)
      case Success(v1b1) => scheme.convertFromV1beta1(scheme.applyDefaults(v1b1))
    }

    /**
     * `createCRD`: the CRD literal, sent through the round trip; a failed
     * conversion is returned as the error. The result is named after the plural
     * of the literal, whatever the round trip did to the names.
     */
    function CreateCRD(templ: T.ConstraintTemplate, schema: Option<JSONSchemaProps>): (r: Result<CustomResourceDefinition, Error>)
      ensures r.Failure? <==> RoundTrip(ConstraintCRD(templ, schema)).Failure?
      ensures r.Failure? ==> r.error == SchemeError(RoundTrip(ConstraintCRD(templ, schema)).error)
      ensures r.Success? ==> r.value.name == CRDName(ToLower(Kind(templ)))
      ensures r.Success? ==> r.value.spec == RoundTrip(ConstraintCRD(templ, schema)).value.spec
    {
      var crd := ConstraintCRD(templ, schema);
      match RoundTrip(crd)
      case Failure(e) => Failure(SchemeError(e))
      case Success(crd2) => Success(crd2.(name := CRDName(crd.spec.names.plural)))
    }

    /** `validateCRD`: the CRD is valid iff the validator reports nothing; all its errors are returned together. */
    function ValidateCRD(v: Validators, crd: CustomResourceDefinition): (r: Option<Error>)
      ensures r.None? <==> v.validateCustomResourceDefinition(crd) == []
      ensures r.Some? ==> r.value == InvalidDefinition(v.validateCustomResourceDefinition(crd))
    {
      var errors := v.validateCustomResourceDefinition(crd);
      if |errors| > 0 then Some(InvalidDefinition(errors)) else None
    }

    /**
     * `validateCR`: validator construction, schema, name, kind, group and
     * version, in that order; the first failure is returned. A schema error
     * list that is non-nil but empty passes Go's `err != nil` test, and its
     * `ToAggregate()` is nil, so the instance is then accepted at once,
     * without the name and identity checks.
     */
    function ValidateCR(v: Validators, cr: Unstructured, crd: CustomResourceDefinition): (r: Option<Error>)
      ensures r.None? <==> SchemaCheckReturnsEarly(v, cr, crd) || forall c: Check :: CheckError(v, cr, crd, c).None?
      ensures r.None? && !SchemaCheckReturnsEarly(v, cr, crd) ==>
                cr.kind == crd.spec.names.kind && cr.group == ConstraintGroup
      ensures r.None? && !SchemaCheckReturnsEarly(v, cr, crd) ==>
                cr.version == V1alpha1Version || cr.version == V1beta1Version
    {
      match v.newSchemaValidator(crd.spec.validation)
      case Failure(e) =>
        assert CheckError(v, cr, crd, BuildValidator).Some?;
        Some(ValidatorError(e))
      case Success(validator) =>
        var schemaErrors := v.validateCustomResource(cr, validator);
        if schemaErrors.Some? && schemaErrors.value == [] then
          None
        else if schemaErrors.Some? then
          assert CheckError(v, cr, crd, ValidateSchema).Some?;
          Some(InvalidInstance(schemaErrors.value))
        else
          var nameErrors := v.isDNS1123Subdomain(cr.name);
          if |nameErrors| != 0 then
            assert CheckError(v, cr, crd, ValidateName).Some?;
            Some(InvalidName(nameErrors))
          else if cr.kind != crd.spec.names.kind then
            assert CheckError(v, cr, crd, CheckKind).Some?;
            Some(WrongKind(cr.name, cr.kind, crd.spec.names.kind))
          else if cr.group != ConstraintGroup then
            assert CheckError(v, cr, crd, CheckGroup).Some?;
            Some(WrongGroup(cr.name, cr.group, ConstraintGroup))
          else if !IsSupportedVersion(cr.version) then
            assert CheckError(v, cr, crd, CheckVersion).Some?;
            Some(WrongVersion(cr.name, cr.version))
          else None
    }
  }

  // ---------------------------------------------------------------- validateCR, check by check

  /** The checks `validateCR` makes, in the order it makes them. */
  datatype Check = BuildValidator | ValidateSchema | ValidateName | CheckKind | CheckGroup | CheckVersion

  function Rank(c: Check): nat {
    match c
    case BuildValidator => 0
    case ValidateSchema => 1
    case ValidateName => 2
    case CheckKind => 3
    case CheckGroup => 4
    case CheckVersion => 5
  }

  /** Schema validation returned a non-nil, empty error list: `validateCR` stops there and accepts. */
  ghost predicate SchemaCheckReturnsEarly(v: Validators, cr: Unstructured, crd: CustomResourceDefinition) {
    var built := v.newSchemaValidator(crd.spec.validation);
    built.Success? && v.validateCustomResource(cr, built.value) == Some([])
  }

  /**
   * The error one check reports on its own, `None` when it passes. Schema
   * validation needs a validator; without one it has nothing to report, and a
   * nil or empty error list is no error.
   */
  ghost function CheckError(v: Validators, cr: Unstructured, crd: CustomResourceDefinition, c: Check): Option<Error> {
    match c
    case BuildValidator =>
      var built := v.newSchemaValidator(crd.spec.validation);
      if built.Failure? then Some(ValidatorError(built.error)) else None
    case ValidateSchema =>
      var built := v.newSchemaValidator(crd.spec.validation);
      if built.Failure? then None
      else
        var errors := v.validateCustomResource(cr, built.value);
        if errors.None? || errors.value == [] then None else Some(InvalidInstance(errors.value))
    case ValidateName =>
      if v.isDNS1123Subdomain(cr.name) == [] then None else Some(InvalidName(v.isDNS1123Subdomain(cr.name)))
    case CheckKind =>
      if cr.kind == crd.spec.names.kind then None else Some(WrongKind(cr.name, cr.kind, crd.spec.names.kind))
    case CheckGroup =>
      if cr.group == ConstraintGroup then None else Some(WrongGroup(cr.name, cr.group, ConstraintGroup))
    case CheckVersion =>
      if IsSupportedVersion(cr.version) then None else Some(WrongVersion(cr.name, cr.version))
  }

  /**
   * A rejection is the error of some failing check all of whose predecessors
   * passed, and schema validation did not stop the chain early.
   */
  lemma ValidateCRReportsFirstFailure(h: CrdHelper, v: Validators, cr: Unstructured, crd: CustomResourceDefinition)
    requires h.ValidateCR(v, cr, crd).Some?
    ensures !SchemaCheckReturnsEarly(v, cr, crd)
    ensures exists c: Check :: && h.ValidateCR(v, cr, crd) == CheckError(v, cr, crd, c)
                               && forall d: Check :: Rank(d) < Rank(c) ==> CheckError(v, cr, crd, d).None?
  {
    var r := h.ValidateCR(v, cr, crd);
    var c: Check;
    if CheckError(v, cr, crd, BuildValidator).Some? {
      c := BuildValidator;
    } else if CheckError(v, cr, crd, ValidateSchema).Some? {
      c := ValidateSchema;
    } else if CheckError(v, cr, crd, ValidateName).Some? {
      c := ValidateName;
    } else if CheckError(v, cr, crd, CheckKind).Some? {
      c := CheckKind;
    } else if CheckError(v, cr, crd, CheckGroup).Some? {
      c := CheckGroup;
    } else {
      c := CheckVersion;
    }
    assert r == CheckError(v, cr, crd, c);
    forall d: Check | Rank(d) < Rank(c) ensures CheckError(v, cr, crd, d).None? {
      match d
      case BuildValidator =>
      case ValidateSchema =>
      case ValidateName =>
      case CheckKind =>
      case CheckGroup =>
      case CheckVersion =>
    }
  }

  /**
   * An instance that fails schema validation is reported for its schema even
   * when its kind, group or version is also wrong.
   */
  lemma SchemaErrorsComeBeforeIdentityErrors(h: CrdHelper, v: Validators, cr: Unstructured, crd: CustomResourceDefinition)
    requires CheckError(v, cr, crd, ValidateSchema).Some?
    ensures h.ValidateCR(v, cr, crd) == CheckError(v, cr, crd, ValidateSchema)
  {
  }

  // ---------------------------------------------------------------- the pipeline

  /** The round trip gives back the spec it was given (the scheme only fills in defaults elsewhere). */
  ghost predicate KeepsSpec(h: CrdHelper, crd: CustomResourceDefinition) {
    h.RoundTrip(crd).Success? && h.RoundTrip(crd).value.spec == crd.spec
  }

  /**
   * When the round trip keeps the spec, the created CRD carries the derived
   * names, the fixed group, scope and categories, and one stored version,
   * v1beta1; and an instance it accepts, unless schema validation stopped the
   * chain early, has the template's kind and one of its versions.
   */
  lemma CreatedCRDAcceptsOnlyTheTemplateKind(
    h: CrdHelper, v: Validators, templ: T.ConstraintTemplate, schema: Option<JSONSchemaProps>, cr: Unstructured)
    requires KeepsSpec(h, ConstraintCRD(templ, schema))
    ensures h.CreateCRD(templ, schema).Success?
    ensures var crd := h.CreateCRD(templ, schema).value;
      && crd.name == CRDName(crd.spec.names.plural)
      && crd.spec.group == ConstraintGroup && crd.spec.scope == "Cluster"
      && crd.spec.names.kind == Kind(templ) && crd.spec.names.listKind == Kind(templ) + "List"
      && crd.spec.names.plural == crd.spec.names.singular == ToLower(Kind(templ))
      && crd.spec.version == V1beta1Version
      && OneStorageVersion(crd.spec)
      && (h.ValidateCR(v, cr, crd).None? && !SchemaCheckReturnsEarly(v, cr, crd) ==>
            && cr.kind == Kind(templ)
            && exists i :: 0 <= i < |crd.spec.versions| && crd.spec.versions[i].name == cr.version)
  {
    var crd := h.CreateCRD(templ, schema).value;
    ConstraintCRDVersions(templ, schema, cr.version);
    assert crd.spec == ConstraintCRD(templ, schema).spec;
  }
}
