/** The three JSON Schema keywords the qubit schema uses: `type`
    (section 6.1.1 of JSON Schema Validation, draft 2020-12), `required`
    (section 6.5.3 of the same) and `properties` (section 10.3.2.1 of
    JSON Schema Core, draft 2020-12). Any other keyword is absent, so
    additional properties are allowed. */
module JsonSchema {
  import opened Wrappers
  import opened JsonTree

  /** The seven primitive type names of section 6.1.1. */
  datatype JsonType = NullType | BooleanType | ObjectType | ArrayType | NumberType | StringType | IntegerType

  /** One entry of a `properties` keyword: a member name and its subschema. */
  datatype Property = Property(name: string, schema: Schema)

  /** A schema built from `type`, `properties` and `required` only. */
  datatype Schema = Schema(typ: Option<JsonType>, properties: seq<Property>, required: seq<string>)

  /** The instance belongs to the primitive type `t`. A boolean is never a
      number, and "integer" means a number with zero fractional part. */
  predicate HasType(j: Json, t: JsonType) {
    match t
    case NullType => j.JNull?
    case BooleanType => j.JBool?
    case ObjectType => j.JObject?
    case ArrayType => j.JArray?
    case StringType => j.JString?
    case NumberType => j.JNumber?
    case IntegerType => j.JNumber? && j.num == j.num.Floor as real
  }

  /** `required` and `properties` constrain objects only; on any other
      instance they hold vacuously, and only `type` can reject it. */
  predicate Validates(j: Json, s: Schema)
    decreases s
  {
    && (s.typ.Some? ==> HasType(j, s.typ.value))
    && (j.JObject? ==>
          && (forall n :: n in s.required ==> n in j.obj)
          && (forall i :: 0 <= i < |s.properties| && s.properties[i].name in j.obj ==>
                Validates(j.obj[s.properties[i].name], s.properties[i].schema)))
  }

  /** A schema whose `type` is "number" and which has no other keyword. */
  const NumberSchema := Schema(Some(NumberType), [], [])

  /** An object schema whose members are the required ones, each a number. */
  lemma NumberGroup(j: Json, s: Schema)
    requires s.typ == Some(ObjectType)
    requires |s.properties| == |s.required|
    requires forall i :: 0 <= i < |s.properties| ==>
               s.properties[i].schema == NumberSchema && s.properties[i].name == s.required[i]
    ensures Validates(j, s) <==>
              j.JObject? && forall n :: n in s.required ==> n in j.obj && j.obj[n].JNumber?
  {
  }
}
