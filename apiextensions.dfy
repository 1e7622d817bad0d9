/**
 * The Kubernetes apiextensions types that the constraint CRD helpers read and
 * build, reduced to the fields those helpers touch. Their own code (conversion,
 * defaulting, validation) is not part of this model.
 */
module Apiextensions {
  import opened Wrappers

  /**
   * The internal (unversioned) OpenAPI v3 schema. `typ` is the `Type` keyword,
   * `properties` the `Properties` map, and `otherKeywords` stands for every other
   * keyword of the Go struct; the Go zero value is the empty schema.
   */
  datatype JSONSchemaProps = JSONSchemaProps(
    typ: string,
    properties: map<string, JSONSchemaProps>,
    otherKeywords: map<string, string>)

  /** A schema literal that sets only `Type`. */
  function TypedSchema(typ: string): JSONSchemaProps
  {
    JSONSchemaProps(typ, map[], map[])
  }

  /** A schema literal that sets only `Properties`. */
  function ObjectSchema(properties: map<string, JSONSchemaProps>): JSONSchemaProps
  {
    JSONSchemaProps("", properties, map[])
  }

  /**
   * The versioned (v1beta1) schema a template author writes under
   * `validation.openAPIV3Schema`; its content is opaque here.
   */
  datatype V1beta1JSONSchemaProps = V1beta1JSONSchemaProps(document: string)

  datatype CustomResourceDefinitionNames = CustomResourceDefinitionNames(
    plural: string,
    singular: string,
    kind: string,
    listKind: string,
    categories: seq<string>)

  datatype CustomResourceValidation = CustomResourceValidation(openAPIV3Schema: Option<JSONSchemaProps>)

  datatype CustomResourceDefinitionVersion = CustomResourceDefinitionVersion(
    name: string,
    served: bool,
    storage: bool)

  datatype CustomResourceDefinitionSpec = CustomResourceDefinitionSpec(
    group: string,
    names: CustomResourceDefinitionNames,
    validation: Option<CustomResourceValidation>,
    scope: string,
    version: string,
    versions: seq<CustomResourceDefinitionVersion>)

  /** The internal CRD; `name` is its `ObjectMeta.Name`. */
  datatype CustomResourceDefinition = CustomResourceDefinition(
    name: string,
    spec: CustomResourceDefinitionSpec)

  /** The v1beta1 (versioned) CRD that the scheme converts to, defaults and converts back from. */
  datatype V1beta1CustomResourceDefinition = V1beta1CustomResourceDefinition(
    name: string,
    spec: CustomResourceDefinitionSpec,
    defaulted: map<string, string>)

  /**
   * An untyped constraint instance as the admission path hands it over: its
   * name, its kind, the group and version of its apiVersion, and its body.
   */
  datatype Unstructured = Unstructured(
    name: string,
    kind: string,
    group: string,
    version: string,
    content: map<string, string>)
}
