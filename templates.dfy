/**
 * The value view of a ConstraintTemplate: the internal `templates` types that
 * the CRD helpers consume, and the abstract value of the heap-allocated
 * v1alpha1 types that the generated deep-copy routines copy. Nothing here is
 * shared or mutable.
 */
module Templates {
  import opened Wrappers
  import Apiextensions

  /** Kubernetes type metadata (plain values). */
  datatype TypeMeta = TypeMeta(kind: string, apiVersion: string)

  /**
   * Kubernetes object metadata. Its deep copy lives in the apimachinery
   * package; here it is a value, so copying it is assignment.
   */
  datatype ObjectMeta = ObjectMeta(
    name: string,
    namespace: string,
    labels: map<string, string>,
    annotations: map<string, string>)

  /** Kubernetes list metadata (plain values). */
  datatype ListMeta = ListMeta(resourceVersion: string, continueToken: string)

  datatype CRDNames = CRDNames(kind: string)

  /** The author's parameter schema; `None` is a nil `OpenAPIV3Schema`. */
  datatype Validation = Validation(openAPIV3Schema: Option<Apiextensions.V1beta1JSONSchemaProps>)

  /** `validation == None` is a nil `Validation` pointer: no parameters declared. */
  datatype CRDSpec = CRDSpec(names: CRDNames, validation: Option<Validation>)

  datatype CRD = CRD(spec: CRDSpec)

  /** A target's plain value fields, kept opaque. */
  datatype Target = Target(fields: string)

  /** `targets == None` is a nil map, `Some(map[])` a non-nil empty one. */
  datatype ConstraintTemplateSpec = ConstraintTemplateSpec(
    crd: CRD,
    targets: Option<map<string, Target>>)

  /** The status's plain value fields, kept opaque. */
  datatype ConstraintTemplateStatus = ConstraintTemplateStatus(fields: string)

  datatype ConstraintTemplate = ConstraintTemplate(
    typeMeta: TypeMeta,
    objectMeta: ObjectMeta,
    spec: ConstraintTemplateSpec,
    status: ConstraintTemplateStatus)

  /** `items == None` is a nil slice. */
  datatype ConstraintTemplateList = ConstraintTemplateList(
    typeMeta: TypeMeta,
    listMeta: ListMeta,
    items: Option<seq<ConstraintTemplate>>)
}
