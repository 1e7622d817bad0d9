/**
 * The v1alpha1 ConstraintTemplate types and their generated deep-copy routines.
 *
 * Go's memory is modelled as it is: a struct is a datatype (assigning it copies
 * its fields, and the pointers, maps and slices inside it are then shared), a
 * pointer `*T` is a `Ptr?<T>`, the `Targets` map is a `TargetMap` object and
 * the `Items` slice an array. Every type has `Objects()`, the mutable objects
 * it reaches, and `Value()`, its contents as a `Templates` value.
 *
 * A Go `DeepCopyInto(out *T)` begins with `*out = *in`, which overwrites all of
 * `*out`; what it leaves in `*out` therefore depends on `in` alone. It is
 * modelled as a method that returns that new `*out` and modifies no existing
 * object: the receiver is left unchanged by construction. A copy is equal to
 * its receiver (`Value()`) and every mutable object it reaches is fresh, so it
 * shares none with the receiver.
 */
module V1alpha1 {
  import opened Wrappers
  import T = Templates
  import Apiextensions

  /** A Go pointer `*A` to a heap-allocated `A`. */
  class Ptr<A(0)> {
    var val: A

    /** `new(A)`: a fresh `A` holding Go's zero value. */
    constructor New()
    {
    }
  }

  /** A Go `map[string]Target`: a reference, so writes through one alias are seen by all. */
  class TargetMap {
    var entries: map<string, Target>

    /** `make(map[string]Target, n)`: the size hint does not change the contents. */
    constructor Make()
      ensures entries == map[]
    {
      entries := map[];
    }

    /** `m[key] = val`. */
    method Put(key: string, val: Target)
      modifies this
      ensures entries == old(entries)[key := val]
    {
      entries := entries[key := val];
    }

    ghost function Value(): map<string, T.Target>
      reads this
    {
      map k | k in entries :: entries[k].Value()
    }
  }

  /**
   * `JSONSchemaProps.DeepCopy` of the v1beta1 apiextensions package, which is
   * not part of this model: it returns nil for nil, and otherwise a fresh,
   * equal schema.
   */
  method DeepCopySchema(orig: Ptr?<Apiextensions.V1beta1JSONSchemaProps>)
    returns (out: Ptr?<Apiextensions.V1beta1JSONSchemaProps>)
    ensures orig == null ==> out == null
    ensures orig != null ==> out != null && fresh(out) && out.val == orig.val
  {
    if orig == null {
      return null;
    }
    out := new Ptr.New();
    out.val := orig.val;
  }

  // ---------------------------------------------------------------- CRDNames

  datatype CRDNames = CRDNames(kind: string) {
    function Value(): T.CRDNames {
      T.CRDNames(kind)
    }

    /** `*out = *in`: the names are plain values. */
    method DeepCopyInto() returns (out: CRDNames)
      ensures out == this
    {
      out := this;
    }

    static method DeepCopy(orig: Ptr?<CRDNames>) returns (out: Ptr?<CRDNames>)
      ensures orig == null ==> out == null
      ensures orig != null ==> out != null && fresh(out) && out.val == orig.val
    {
      if orig == null {
        return null;
      }
      out := new Ptr.New();
      var copy := orig.val.DeepCopyInto();
      out.val := copy;
    }
  }

  // ---------------------------------------------------------------- Target

  /** A target's plain value fields, kept opaque. */
  datatype Target = Target(fields: string) {
    function Value(): T.Target {
      T.Target(fields)
    }

    /** `*out = *in`: a target is a plain value. */
    method DeepCopyInto() returns (out: Target)
      ensures out == this
    {
      out := this;
    }

    static method DeepCopy(orig: Ptr?<Target>) returns (out: Ptr?<Target>)
      ensures orig == null ==> out == null
      ensures orig != null ==> out != null && fresh(out) && out.val == orig.val
    {
      if orig == null {
        return null;
      }
      out := new Ptr.New();
      var copy := orig.val.DeepCopyInto();
      out.val := copy;
    }
  }

  // ---------------------------------------------------------------- ConstraintTemplateStatus

  /** The status's plain value fields, kept opaque. */
  datatype ConstraintTemplateStatus = ConstraintTemplateStatus(fields: string) {
    function Value(): T.ConstraintTemplateStatus {
      T.ConstraintTemplateStatus(fields)
    }

    /** `*out = *in`: the status is a plain value. */
    method DeepCopyInto() returns (out: ConstraintTemplateStatus)
      ensures out == this
    {
      out := this;
    }

    static method DeepCopy(orig: Ptr?<ConstraintTemplateStatus>) returns (out: Ptr?<ConstraintTemplateStatus>)
      ensures orig == null ==> out == null
      ensures orig != null ==> out != null && fresh(out) && out.val == orig.val
    {
      if orig == null {
        return null;
      }
      out := new Ptr.New();
      var copy := orig.val.DeepCopyInto();
      out.val := copy;
    }
  }

  // ---------------------------------------------------------------- Validation

  datatype Validation = Validation(openAPIV3Schema: Ptr?<Apiextensions.V1beta1JSONSchemaProps>) {
    ghost function Objects(): set<object> {
      if openAPIV3Schema == null then {} else {openAPIV3Schema}
    }

    ghost function Value(): T.Validation
      reads Objects()
    {
      T.Validation(if openAPIV3Schema == null then None else Some(openAPIV3Schema.val))
    }

    /** A nil schema stays nil; a non-nil one is replaced by its own deep copy. */
    method DeepCopyInto() returns (out: Validation)
      ensures (out.openAPIV3Schema == null) == (openAPIV3Schema == null)
      ensures fresh(out.Objects())
      ensures out.Value() == Value()
    {
      out := this;
      if openAPIV3Schema != null {
        var schema := DeepCopySchema(openAPIV3Schema);
        out := out.(openAPIV3Schema := schema);
      }
    }

    static method DeepCopy(orig: Ptr?<Validation>) returns (out: Ptr?<Validation>)
      ensures orig == null ==> out == null
      ensures orig != null ==>
                out != null && fresh(out) && fresh(out.val.Objects()) && out.val.Value() == orig.val.Value()
    {
      if orig == null {
        return null;
      }
      out := new Ptr.New();
      var copy := orig.val.DeepCopyInto();
      out.val := copy;
    }
  }

  // ---------------------------------------------------------------- CRDSpec

  datatype CRDSpec = CRDSpec(names: CRDNames, validation: Ptr?<Validation>) {
    ghost function Objects(): set<object>
      reads validation
    {
      if validation == null then {} else {validation} + validation.val.Objects()
    }

    ghost function Value(): T.CRDSpec
      reads Objects()
    {
      T.CRDSpec(names.Value(), if validation == null then None else Some(validation.val.Value()))
    }

    /**
     * The names are copied by value; a nil `Validation` stays nil, and a non-nil
     * one becomes a new `Validation` filled by the original's `DeepCopyInto`.
     */
    method DeepCopyInto() returns (out: CRDSpec)
      ensures out.names == names
      ensures (out.validation == null) == (validation == null)
      ensures fresh(out.Objects())
      ensures out.Value() == Value()
    {
      out := this;
      if validation != null {
        var box := new Ptr.New();
        var copy := validation.val.DeepCopyInto();
        box.val := copy;
        out := out.(validation := box);
      }
    }

    static method DeepCopy(orig: Ptr?<CRDSpec>) returns (out: Ptr?<CRDSpec>)
      ensures orig == null ==> out == null
      ensures orig != null ==>
                out != null && fresh(out) && fresh(out.val.Objects()) && out.val.Value() == orig.val.Value()
    {
      if orig == null {
        return null;
      }
      out := new Ptr.New();
      var copy := orig.val.DeepCopyInto();
      out.val := copy;
    }
  }

  // ---------------------------------------------------------------- CRD

  datatype CRD = CRD(spec: CRDSpec) {
    ghost function Objects(): set<object>
      reads spec.validation
    {
      spec.Objects()
    }

    ghost function Value(): T.CRD
      reads Objects()
    {
      T.CRD(spec.Value())
    }

    method DeepCopyInto() returns (out: CRD)
      ensures (out.spec.validation == null) == (spec.validation == null)
      ensures fresh(out.Objects())
      ensures out.Value() == Value()
    {
      out := this;
      var spec' := spec.DeepCopyInto();
      out := out.(spec := spec');
    }

    static method DeepCopy(orig: Ptr?<CRD>) returns (out: Ptr?<CRD>)
      ensures orig == null ==> out == null
      ensures orig != null ==>
                out != null && fresh(out) && fresh(out.val.Objects()) && out.val.Value() == orig.val.Value()
    {
      if orig == null {
        return null;
      }
      out := new Ptr.New();
      var copy := orig.val.DeepCopyInto();
      out.val := copy;
    }
  }

  // ---------------------------------------------------------------- ConstraintTemplateSpec

  /**
   * `*out = make(map[string]Target, len(*in))` followed by `(*out)[key] = val`
   * for every entry: a new map with the same keys and the same target values.
   */
  method CopyTargets(targets: TargetMap) returns (m: TargetMap)
    ensures fresh(m)
    ensures m.entries == targets.entries
  {
    m := new TargetMap.Make();
    var keys := targets.entries.Keys;
    while keys != {}
      invariant fresh(m)
      invariant keys <= targets.entries.Keys
      invariant m.entries.Keys == targets.entries.Keys - keys
      invariant forall k :: k in m.entries ==> m.entries[k] == targets.entries[k]
      decreases keys
    {
      var key :| key in keys;
      m.Put(key, targets.entries[key]);
      keys := keys - {key};
    }
  }

  datatype ConstraintTemplateSpec = ConstraintTemplateSpec(crd: CRD, targets: TargetMap?) {
    /** The objects a template spec holds directly. */
    ghost function Roots(): set<object> {
      (if crd.spec.validation == null then {} else {crd.spec.validation})
      + (if targets == null then {} else {targets})
    }

    ghost function Objects(): set<object>
      reads Roots()
    {
      crd.Objects() + (if targets == null then {} else {targets})
    }

    ghost function Value(): T.ConstraintTemplateSpec
      reads Objects()
    {
      T.ConstraintTemplateSpec(crd.Value(), if targets == null then None else Some(targets.Value()))
    }

    /**
     * The CRD is deep-copied; a nil `Targets` stays nil, and a non-nil one
     * becomes a new map filled entry by entry with the same keys and values.
     */
    method DeepCopyInto() returns (out: ConstraintTemplateSpec)
      ensures (out.crd.spec.validation == null) == (crd.spec.validation == null)
      ensures (out.targets == null) == (targets == null)
      ensures out.targets != null ==> out.targets.entries == targets.entries
      ensures fresh(out.Objects())
      ensures out.Value() == Value()
    {
      out := this;
      var crd' := crd.DeepCopyInto();
      out := out.(crd := crd');
      if targets != null {
        var m := CopyTargets(targets);
        out := out.(targets := m);
      }
    }

    static method DeepCopy(orig: Ptr?<ConstraintTemplateSpec>) returns (out: Ptr?<ConstraintTemplateSpec>)
      ensures orig == null ==> out == null
      ensures orig != null ==>
                out != null && fresh(out) && fresh(out.val.Objects()) && out.val.Value() == orig.val.Value()
    {
      if orig == null {
        return null;
      }
      out := new Ptr.New();
      var copy := orig.val.DeepCopyInto();
      out.val := copy;
    }
  }

  // ---------------------------------------------------------------- ConstraintTemplate

  datatype ConstraintTemplate = ConstraintTemplate(
    typeMeta: T.TypeMeta,
    objectMeta: T.ObjectMeta,
    spec: ConstraintTemplateSpec,
    status: ConstraintTemplateStatus)
  {
    ghost function Roots(): set<object> {
      spec.Roots()
    }

    ghost function Objects(): set<object>
      reads Roots()
    {
      spec.Objects()
    }

    ghost function Value(): T.ConstraintTemplate
      reads Objects()
    {
      T.ConstraintTemplate(typeMeta, objectMeta, spec.Value(), status.Value())
    }

    /** `TypeMeta` and `Status` are copied by value, `ObjectMeta` and `Spec` by their own routines. */
    method DeepCopyInto() returns (out: ConstraintTemplate)
      ensures out.typeMeta == typeMeta && out.objectMeta == objectMeta && out.status == status
      ensures (out.spec.targets == null) == (spec.targets == null)
      ensures out.spec.targets != null ==> out.spec.targets.entries == spec.targets.entries
      ensures (out.spec.crd.spec.validation == null) == (spec.crd.spec.validation == null)
      ensures fresh(out.Objects())
      ensures out.Value() == Value()
    {
      out := this;
      var spec' := spec.DeepCopyInto();
      out := out.(spec := spec');
    }

    static method DeepCopy(orig: Ptr?<ConstraintTemplate>) returns (out: Ptr?<ConstraintTemplate>)
      ensures orig == null ==> out == null
      ensures orig != null ==>
                out != null && fresh(out) && fresh(out.val.Objects()) && out.val.Value() == orig.val.Value()
    {
      if orig == null {
        return null;
      }
      out := new Ptr.New();
      var copy := orig.val.DeepCopyInto();
      out.val := copy;
    }
  }

  /** The objects held directly by a sequence of templates. */
  ghost function RootsOf(s: seq<ConstraintTemplate>): set<object> {
    if s == [] then {} else s[0].Roots() + RootsOf(s[1..])
  }

  /** The mutable objects a sequence of templates reaches. */
  ghost function ObjectsOf(s: seq<ConstraintTemplate>): set<object>
    reads RootsOf(s)
  {
    if s == [] then {} else s[0].Objects() + ObjectsOf(s[1..])
  }

  ghost function ValuesOf(s: seq<ConstraintTemplate>): seq<T.ConstraintTemplate>
    reads RootsOf(s), ObjectsOf(s)
  {
    if s == [] then [] else [s[0].Value()] + ValuesOf(s[1..])
  }

  lemma {:induction false} ValuesOfPointwise(s: seq<ConstraintTemplate>, t: seq<ConstraintTemplate>)
    requires |s| == |t|
    requires forall i :: 0 <= i < |s| ==> s[i].Value() == t[i].Value()
    ensures ValuesOf(s) == ValuesOf(t)
  {
    if s != [] {
      ValuesOfPointwise(s[1..], t[1..]);
    }
  }

  lemma {:induction false} RootsOfInObjectsOf(s: seq<ConstraintTemplate>)
    ensures RootsOf(s) <= ObjectsOf(s)
  {
    if s != [] {
      RootsOfInObjectsOf(s[1..]);
    }
  }

  lemma {:induction false} RootsOfAllocated(s: seq<ConstraintTemplate>)
    ensures allocated(RootsOf(s)) && allocated(ObjectsOf(s))
  {
    if s != [] {
      RootsOfAllocated(s[1..]);
    }
  }

  lemma {:induction false} ObjectsOfMember(s: seq<ConstraintTemplate>, o: object)
    requires o in ObjectsOf(s)
    ensures exists i :: 0 <= i < |s| && o in s[i].Objects()
  {
    if o !in s[0].Objects() {
      ObjectsOfMember(s[1..], o);
      var i :| 0 <= i < |s[1..]| && o in s[1..][i].Objects();
      assert o in s[i + 1].Objects();
    }
  }

  /** `(*in)[i].DeepCopyInto(...)` for every index, in index order. */
  method CopyEach(items: array<ConstraintTemplate>) returns (copies: seq<ConstraintTemplate>)
    ensures |copies| == items.Length
    ensures forall i :: 0 <= i < items.Length ==> fresh(copies[i].Objects()) && copies[i].Value() == items[i].Value()
  {
    copies := [];
    for i := 0 to items.Length
      invariant |copies| == i
      invariant forall j :: 0 <= j < i ==> fresh(copies[j].Objects())
      invariant forall j :: 0 <= j < i ==> copies[j].Value() == items[j].Value()
    {
      label copying:
      var copy := items[i].DeepCopyInto();
      forall j | 0 <= j < i
        ensures copies[j].Value() == items[j].Value()
      {
        TemplateValueFramed@copying(copies[j]);
        TemplateValueFramed@copying(items[j]);
      }
      copies := copies + [copy];
    }
  }

  /**
   * `*out = make([]ConstraintTemplate, len(*in))` followed by
   * `(*in)[i].DeepCopyInto(&(*out)[i])` for every index: a new slice of the
   * same length whose element i is a deep copy of element i. The copies are
   * made first and the new array is then filled with them; nobody else can
   * see the new array before it is returned, so the result is the same as
   * writing each element as it is made.
   */
  method CopyItems(items: array<ConstraintTemplate>) returns (a: array<ConstraintTemplate>)
    ensures fresh(a) && a.Length == items.Length
    ensures forall i :: 0 <= i < a.Length ==> fresh(a[i].Objects()) && a[i].Value() == items[i].Value()
    ensures forall i :: 0 <= i < a.Length ==> a !in a[i].Objects()
  {
    var copies := CopyEach(items);
    label filling:
    a := new ConstraintTemplate[items.Length](j requires 0 <= j < items.Length => copies[j]);
    forall i | 0 <= i < a.Length
      ensures a[i].Value() == items[i].Value()
    {
      TemplateValueFramed@filling(copies[i]);
      TemplateValueFramed@filling(items[i]);
    }
  }

  // ---------------------------------------------------------------- ConstraintTemplateList

  datatype ConstraintTemplateList = ConstraintTemplateList(
    typeMeta: T.TypeMeta,
    listMeta: T.ListMeta,
    items: array?<ConstraintTemplate>)
  {
    ghost function Objects(): set<object>
      reads items, if items == null then {} else RootsOf(items[..])
    {
      if items == null then {} else {items} + ObjectsOf(items[..])
    }

    ghost function Value(): T.ConstraintTemplateList
      reads Objects(), if items == null then {} else RootsOf(items[..])
    {
      T.ConstraintTemplateList(typeMeta, listMeta, if items == null then None else Some(ValuesOf(items[..])))
    }

    /**
     * `TypeMeta` and `ListMeta` are copied by value; nil `Items` stay nil, and
     * non-nil ones become a new slice of deep copies.
     */
    method DeepCopyInto() returns (out: ConstraintTemplateList)
      ensures out.typeMeta == typeMeta && out.listMeta == listMeta
      ensures (out.items == null) == (items == null)
      ensures out.items != null ==>
                && out.items.Length == items.Length
                && forall i :: 0 <= i < items.Length ==> out.items[i].Value() == items[i].Value()
      ensures fresh(out.Objects())
      ensures out.Value() == Value()
    {
      out := this;
      if items != null {
        var a := CopyItems(items);
        out := out.(items := a);
        ValuesOfPointwise(a[..], items[..]);
        forall o | o in ObjectsOf(a[..])
          ensures fresh(o)
        {
          ObjectsOfMember(a[..], o);
        }
      }
    }

    static method DeepCopy(orig: Ptr?<ConstraintTemplateList>) returns (out: Ptr?<ConstraintTemplateList>)
      ensures orig == null ==> out == null
      ensures orig != null ==>
                out != null && fresh(out) && fresh(out.val.Objects()) && out.val.Value() == orig.val.Value()
    {
      if orig == null {
        return null;
      }
      var list := orig.val;
      if list.items != null {
        RootsOfAllocated(list.items[..]);
      }
      label allocating:
      out := new Ptr.New();
      ListValueFramed@allocating(list);
      var copy := list.DeepCopyInto();
      if copy.items != null {
        RootsOfInObjectsOf(copy.items[..]);
      }
      label storing:
      out.val := copy;
      ListValueFramed@storing(copy);
    }
  }

  // ---------------------------------------------------------------- independence of copies

  /** Rewriting a copy's targets and validation leaves the original as it was. */
  method MutateCopy(orig: ConstraintTemplate, key: string, target: Target) returns (copy: ConstraintTemplate)
    ensures orig.Value() == old(orig.Value())
    ensures orig.spec.targets != null ==>
              copy.spec.targets != null && copy.spec.targets.entries == orig.spec.targets.entries[key := target]
    ensures orig.spec.crd.spec.validation != null ==>
              copy.spec.crd.spec.validation != null && copy.spec.crd.spec.validation.val.openAPIV3Schema == null
  {
    copy := orig.DeepCopyInto();
    if copy.spec.targets != null {
      copy.spec.targets.Put(key, target);
    }
    if copy.spec.crd.spec.validation != null {
      copy.spec.crd.spec.validation.val := Validation(null);
    }
  }

  /** Rewriting the original's targets and validation leaves an earlier copy as it was. */
  method MutateOriginal(orig: ConstraintTemplate, key: string, target: Target) returns (copy: ConstraintTemplate)
    modifies orig.Objects()
    ensures copy.Value() == old(orig.Value())
    ensures orig.spec.targets != null ==> orig.spec.targets.entries == old(orig.spec.targets.entries)[key := target]
    ensures orig.spec.crd.spec.validation != null ==> orig.spec.crd.spec.validation.val.openAPIV3Schema == null
  {
    copy := orig.DeepCopyInto();
    if orig.spec.targets != null {
      orig.spec.targets.Put(key, target);
    }
    if orig.spec.crd.spec.validation != null {
      orig.spec.crd.spec.validation.val := Validation(null);
    }
  }

  /** Overwriting an element of a copied list leaves the original list as it was. */
  method MutateCopiedItem(orig: ConstraintTemplateList, i: nat, item: ConstraintTemplate) returns (copy: ConstraintTemplateList)
    requires orig.items != null && i < orig.items.Length
    ensures orig.Value() == old(orig.Value())
    ensures copy.items != null && i < copy.items.Length && copy.items[i] == item
  {
    RootsOfAllocated(orig.items[..]);
    ghost var v := orig.Value();
    copy := orig.DeepCopyInto();
    assert copy.items in copy.Objects();
    copy.items[i] := item;
    assert orig.Value() == v;
  }

  /** A template's value depends only on the objects it reaches. */
  twostate lemma TemplateValueFramed(x: ConstraintTemplate)
    requires old(allocated(x.Objects()))
    requires unchanged(old(x.Objects()))
    ensures x.Objects() == old(x.Objects())
    ensures x.Value() == old(x.Value())
  {
  }

  /** A list's value depends only on the objects it reaches. */
  twostate lemma ListValueFramed(x: ConstraintTemplateList)
    requires old(allocated(x.Objects()))
    requires x.items != null ==> old(allocated(RootsOf(x.items[..])))
    requires unchanged(old(x.Objects()))
    requires x.items != null ==> unchanged(old(RootsOf(x.items[..])))
    ensures x.Value() == old(x.Value())
  {
  }
}
