/** How a pydantic model with declared fields validates `Model(**m)`: each
    declared field is either present with a value its type accepts, or absent
    with a default; undeclared keys are ignored; the instance holds exactly the
    declared fields. */
module Pydantic {
  import opened Wrappers
  import opened Json

  type Record = map<string, Json>

  datatype FieldType =
    | Str        // str
    | OptStr     // Optional[str]
    | OptFloat   // Optional[float]
    | Int        // int
    | Dict       // Dict[str, Any]
    | StrList    // List[str]
    | AnyValue   // Optional[Any]

  /** A declared field: required, or with the default it takes when absent. */
  datatype Spec = Required(ty: FieldType) | Defaulted(ty: FieldType, default: Json)

  /** A model: its declared fields by name. */
  type Schema = map<string, Spec>

  predicate Accepts(ty: FieldType, v: Json) {
    match ty
    case Str => v.JStr?
    case OptStr => v.JNull? || v.JStr?
    case OptFloat => v.JNull? || v.JInt? || v.JFloat?
    case Int => v.JInt?
    case Dict => v.JObj?
    case StrList => v.JArr? && AllStrings(v.items)
    case AnyValue => true
  }

  /** Present and a string. */
  predicate StrIn(m: Record, k: string) {
    k in m && m[k].JStr?
  }

  /** Absent, or present with a value of the given type. */
  predicate OptionalIn(m: Record, k: string, ty: FieldType) {
    k in m ==> Accepts(ty, m[k])
  }

  /** The validated value: a float field turns an integer into a float. */
  function Coerce(ty: FieldType, v: Json): Json {
    if ty == OptFloat && v.JInt? then JFloat(v.i, 0) else v
  }

  predicate FieldOk(spec: Spec, name: string, m: Record) {
    if name in m then Accepts(spec.ty, m[name]) else spec.Defaulted?
  }

  function FieldValue(spec: Spec, name: string, m: Record): Json
    requires FieldOk(spec, name, m)
  {
    if name in m then Coerce(spec.ty, m[name]) else spec.default
  }

  predicate Valid(schema: Schema, m: Record) {
    forall name :: name in schema ==> FieldOk(schema[name], name, m)
  }

  /** `Model(**m)` for a model declaring `schema`. */
  function Validate(model: string, schema: Schema, m: Record): (r: Result<Record, Exception>)
    ensures r.Ok? <==> Valid(schema, m)
    ensures r.Err? ==> r.error == Exception(ValidationError, "validation error for " + model)
    ensures r.Ok? ==> r.value.Keys == schema.Keys
    ensures r.Ok? ==> forall name :: name in schema ==> r.value[name] == FieldValue(schema[name], name, m)
  {
    if Valid(schema, m) then Ok(map name | name in schema :: FieldValue(schema[name], name, m))
    else Err(Exception(ValidationError, "validation error for " + model))
  }

  /** A required field that is missing fails the whole model. */
  lemma MissingRequiredFails(model: string, schema: Schema, m: Record, name: string)
    requires name in schema && schema[name].Required? && name !in m
    ensures Validate(model, schema, m).Err?
  {
    assert !FieldOk(schema[name], name, m);
  }
}
