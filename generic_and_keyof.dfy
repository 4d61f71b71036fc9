/**
 * The generic-and-keyof lesson. `printProps<T, K extends T>` logs two objects,
 * the second of which must have every field of the first one's type;
 * `printProps2<T, K extends keyof T>` logs one line per requested key, and the
 * keys are restricted to the fields of `T`. The compiler's constraints become
 * preconditions over explicit field tables.
 */
module GenericAndKeyof {
  import opened Js

  /** The declared type of a field. */
  datatype FieldType = StringType | NumberType | BooleanType

  /** An interface: its field names, each with its declared type. */
  type ObjectType = map<string, FieldType>

  /** A runtime object: its own fields and their values. */
  type JsObject = map<string, JsValue>

  const TypeA: ObjectType := map["prop1" := StringType, "prop2" := NumberType]
  const TypeB: ObjectType := map["prop1" := StringType, "prop3" := BooleanType]
  /** `interface TypeC extends TypeA`: TypeA's fields plus prop4. */
  const TypeC: ObjectType := TypeA + map["prop4" := NumberType]
  const TypeA1: ObjectType := map["prop1" := StringType, "prop2" := NumberType]

  predicate HasType(v: JsValue, t: FieldType)
  {
    match t
    case StringType => v.Text?
    case NumberType => v.Number?
    case BooleanType => v.Boolean?
  }

  /** The object is a value of type `t`: every field of `t` is present with a value of its type. */
  predicate Conforms(o: JsObject, t: ObjectType)
  {
    forall f :: f in t ==> f in o && HasType(o[f], t[f])
  }

  /** `K extends T`: `k` has every field of `t`, with the same type. */
  predicate Extends(k: ObjectType, t: ObjectType)
  {
    forall f :: f in t ==> f in k && k[f] == t[f]
  }

  /** `keyof T`: the field names of `t`. */
  function KeyOf(t: ObjectType): (keys: set<string>)
  {
    t.Keys
  }

  /** Every requested key is in `keyof T`. */
  predicate KeysWithin(keys: seq<string>, t: ObjectType)
  {
    forall i :: 0 <= i < |keys| ==> keys[i] in KeyOf(t)
  }

  lemma ExtendsReflexive(t: ObjectType)
    ensures Extends(t, t)
  {
  }

  lemma ExtendsTransitive(j: ObjectType, k: ObjectType, t: ObjectType)
    requires Extends(j, k) && Extends(k, t)
    ensures Extends(j, t)
  {
  }

  /** What `K extends T` buys: a value of type `K` is also a value of type `T`. */
  lemma ExtendsSubstitutes(o: JsObject, k: ObjectType, t: ObjectType)
    requires Extends(k, t) && Conforms(o, k)
    ensures Conforms(o, t)
  {
  }

  /** TypeC, which extends TypeA, is accepted as K for T = TypeA; TypeB, which lacks prop2, is not. */
  lemma LessonTypes()
    ensures Extends(TypeC, TypeA)
    ensures !Extends(TypeB, TypeA)
    ensures KeyOf(TypeA) == KeyOf(TypeA1) == {"prop1", "prop2"}
  {
    assert "prop2" in TypeA && "prop2" !in TypeB;
  }

  /**
   * `printProps(p1, p2)`: logs `p1`, then `p2`. Both logged objects are values
   * of type `T`.
   */
  function PrintProps(t: ObjectType, k: ObjectType, p1: JsObject, p2: JsObject): (logged: seq<JsObject>)
    requires Extends(k, t) && Conforms(p1, t) && Conforms(p2, k)
    ensures |logged| == 2 && logged[0] == p1 && logged[1] == p2
    ensures forall i :: 0 <= i < |logged| ==> Conforms(logged[i], t)
  {
    ExtendsSubstitutes(p2, k, t);
    [p1, p2]
  }

  /** The line `printProps2` logs for one key. */
  function PropLine(name: string, value: JsValue): (line: string)
  {
    "Name: " + name + " and value: " + ToString(value)
  }

  /** The lines the lesson's calls log, with the values rendered. */
  lemma LoggedProps()
    ensures PropLine("prop1", Text("p1")) == "Name: prop1 and value: p1"
    ensures PropLine("prop2", Number(2)) == "Name: prop2 and value: 2"
  {
    assert Digits(2) == "2";
  }

  /**
   * `printProps2(p1, p2)`: the header, then one line per entry of `p2`, in
   * order and with repetitions, pairing the key with `p1`'s value for it.
   */
  method PrintProps2(t: ObjectType, p1: JsObject, p2: seq<string>) returns (logged: seq<string>)
    requires Conforms(p1, t)
    requires KeysWithin(p2, t)
    ensures |logged| == |p2| + 1
    ensures logged[0] == "Printing:"
    ensures forall i :: 0 <= i < |p2| ==> p2[i] in p1 && logged[i + 1] == PropLine(p2[i], p1[p2[i]])
  {
    logged := ["Printing:"];
    for i := 0 to |p2|
      invariant |logged| == i + 1
      invariant logged[0] == "Printing:"
      invariant forall j :: 0 <= j < i ==> p2[j] in p1 && logged[j + 1] == PropLine(p2[j], p1[p2[j]])
    {
      var propName := p2[i];
      logged := logged + [PropLine(propName, p1[propName])];
    }
  }

  /** The lesson's objects: `a` and `c` are values of their types; `["prop3"]` is not a list of keys of TypeA. */
  lemma LessonValues()
    ensures Conforms(map["prop1" := Text("p1"), "prop2" := Number(2)], TypeA)
    ensures Conforms(map["prop1" := Text("p1"), "prop2" := Number(2), "prop4" := Number(4)], TypeC)
    ensures Conforms(map["prop1" := Text("p1"), "prop3" := Boolean(true)], TypeB)
    ensures KeysWithin(["prop1", "prop2"], TypeA) && !KeysWithin(["prop3"], TypeA)
  {
    assert ["prop3"][0] == "prop3";
  }

  /** The lesson's call `printProps(a, c)`, with T = TypeA and K = TypeC: it logs `a`, then `c`. */
  lemma SamplePrintProps()
    ensures PrintProps(TypeA, TypeC,
                       map["prop1" := Text("p1"), "prop2" := Number(2)],
                       map["prop1" := Text("p1"), "prop2" := Number(2), "prop4" := Number(4)])
            == [map["prop1" := Text("p1"), "prop2" := Number(2)],
                map["prop1" := Text("p1"), "prop2" := Number(2), "prop4" := Number(4)]]
  {
    LessonTypes();
    LessonValues();
  }

  /** The lesson's calls `printProps2(a, ["prop1"])` and `printProps2(a, ["prop1", "prop2"])`. */
  method SampleCalls() returns (first: seq<string>, second: seq<string>)
    ensures first == ["Printing:", PropLine("prop1", Text("p1"))]
    ensures second == ["Printing:", PropLine("prop1", Text("p1")), PropLine("prop2", Number(2))]
  {
    var a: JsObject := map["prop1" := Text("p1"), "prop2" := Number(2)];
    LessonValues();
    var keys1, keys2 := ["prop1"], ["prop1", "prop2"];
    first := PrintProps2(TypeA, a, keys1);
    assert first[0 + 1] == PropLine(keys1[0], a[keys1[0]]);
    assert first == [first[0], first[1]];
    second := PrintProps2(TypeA, a, keys2);
    assert second[0 + 1] == PropLine(keys2[0], a[keys2[0]]);
    assert second[1 + 1] == PropLine(keys2[1], a[keys2[1]]);
    assert second == [second[0], second[1], second[2]];
  }
}
