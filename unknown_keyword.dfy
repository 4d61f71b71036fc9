/**
 * The unknown-keyword lesson: printing a nested optional field with optional
 * chaining, and two ways of defaulting a `string | undefined` value.
 */
module UnknownKeyword {
  import opened Js

  datatype ObjectC = ObjectC(m3: string)
  datatype ObjectB = ObjectB(m2: Option<ObjectC>)
  datatype ObjectA = ObjectA(m1: Option<ObjectB>)

  /** `o.m1?.m2`: undefined as soon as a link of the chain is undefined. */
  function ChainM1M2(o: ObjectA): (r: Option<ObjectC>)
  {
    match o.m1
    case None => None
    case Some(b) => b.m2
  }

  /** `print(o)`: logs `o.m1.m2.m3` when `o.m1?.m2` is truthy (an object always is). */
  function Print(o: ObjectA): (log: seq<string>)
    ensures |log| <= 1
    ensures log != [] <==> o.m1.Some? && o.m1.value.m2.Some?
    ensures log != [] ==> log[0] == o.m1.value.m2.value.m3
  {
    if ChainM1M2(o).Some? then [o.m1.value.m2.value.m3] else []
  }

  /** The version with nested `if`s that optional chaining replaces. */
  function PrintNested(o: ObjectA): (log: seq<string>)
  {
    if o.m1.Some? then
      if o.m1.value.m2.Some? then [o.m1.value.m2.value.m3] else []
    else []
  }

  /** Optional chaining changes nothing in what is logged. */
  lemma OptionalChainingEquivalent(o: ObjectA)
    ensures Print(o) == PrintNested(o)
  {
  }

  const Obj1 := ObjectA(None)
  const Obj2 := ObjectA(Some(ObjectB(None)))
  const Obj3 := ObjectA(Some(ObjectB(Some(ObjectC("Yeah!")))))

  /** Only the last object, whose chain is complete, logs anything. */
  lemma SamplePrints()
    ensures Print(Obj1) == [] && Print(Obj2) == []
    ensures Print(Obj3) == ["Yeah!"]
  {
  }

  /**
   * `getValue1()` (and `getValue2()`, which has the same body): `undefined` when
   * `Math.random() > 0.5`, otherwise "Good". The random draw is a parameter.
   */
  function GetValue(random: real): (v: Option<string>)
    requires 0.0 <= random < 1.0
    ensures v == None || v == Some("Good")
    ensures v.None? <==> random > 0.5
  {
    if random > 0.5 then None else Some("Good")
  }

  /** JavaScript truthiness of a `string | undefined`: defined and not empty. */
  predicate Truthy(v: Option<string>)
  {
    v.Some? && v.value != ""
  }

  /** The value `value1` ends with after `if (!value1) { value1 = d }`. */
  function FalsyDefault(v: Option<string>, d: string): (r: string)
  {
    if Truthy(v) then v.value else d
  }

  /** `v ?? d`: the default replaces `undefined` only. */
  function Coalesce(v: Option<string>, d: string): (r: string)
  {
    match v
    case Some(s) => s
    case None => d
  }

  /**
   * `let value1 = getValue1(); if (!value1) { value1 = "Default" }`: the
   * variable is reassigned only when it holds a falsy value.
   */
  method ValueWithFalsyFallback(random: real) returns (value1: Option<string>)
    requires 0.0 <= random < 1.0
    ensures value1.Some? && value1.value == FalsyDefault(GetValue(random), "Default")
    ensures value1 == (if random > 0.5 then Some("Default") else Some("Good"))
  {
    value1 := GetValue(random);
    if !Truthy(value1) {
      value1 := Some("Default");
    }
  }

  /** `??` and the falsy fallback agree exactly when the value is not the empty string (or the default is empty). */
  lemma CoalesceVersusFalsyDefault(v: Option<string>, d: string)
    ensures Coalesce(v, d) == FalsyDefault(v, d) <==> v != Some("") || d == ""
  {
  }

  /** On every value the getters can return, `?? "Default"` gives what the `if (!v)` fallback gives. */
  lemma CoalesceAgreesOnGetterOutputs(random: real)
    requires 0.0 <= random < 1.0
    ensures Coalesce(GetValue(random), "Default") == FalsyDefault(GetValue(random), "Default")
    ensures Coalesce(GetValue(random), "Default") in {"Default", "Good"}
  {
    CoalesceVersusFalsyDefault(GetValue(random), "Default");
  }
}
