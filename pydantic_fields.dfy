/**
 * The part of a pydantic model class that the settings code looks at: each
 * field's name, annotation, default, description, constraint metadata and
 * `choices` extra, in declaration order.
 */
module PydanticFields {
  import opened Wrappers

  /** A Python value as it appears in defaults and choices; numbers are exact. */
  datatype Value = BoolV(b: bool) | IntV(i: int) | RealV(r: real) | StrV(s: string) | NoneV

  /** A field annotation: `bool`, `float`, `int` or anything else (`str`, a `Literal`, ...). */
  datatype FieldType = BoolType | FloatType | IntType | OtherType(name: string)

  /**
   * One metadata entry.  `hasGe`/`hasLe` say whether the object has a `ge`/`le`
   * attribute at all; `ge`/`le` hold its value, `None` included.
   */
  datatype Constraint = Constraint(hasGe: bool, ge: Option<real>, hasLe: bool, le: Option<real>)

  /** `ge=x` alone becomes `Ge(x)`, `le=x` alone `Le(x)`. */
  function Ge(x: real): Constraint { Constraint(true, Some(x), false, None) }
  function Le(x: real): Constraint { Constraint(false, None, true, Some(x)) }

  datatype FieldInfo = FieldInfo(
    name: string,
    annotation: FieldType,
    default: Option<Value>,
    description: Option<string>,
    metadata: seq<Constraint>,
    choices: Option<seq<Value>>)

  /** A field declared as `Field(default=..., ge=.., le=.., description=...)`. */
  function Bounded(name: string, t: FieldType, default: Value, ge: real, le: real, description: string): FieldInfo {
    FieldInfo(name, t, Some(default), Some(description), [Ge(ge), Le(le)], None)
  }

  /** A field with a default and a description only. */
  function Plain(name: string, t: FieldType, default: Value, description: string): FieldInfo {
    FieldInfo(name, t, Some(default), Some(description), [], None)
  }

  /** A field with `choices=...`, which pydantic keeps in `json_schema_extra`. */
  function WithChoices(name: string, t: FieldType, default: Value, description: string, choices: seq<Value>): FieldInfo {
    FieldInfo(name, t, Some(default), Some(description), [], Some(choices))
  }

  /** The numeric value of an `int` or `float` default. */
  function Number(v: Value): Option<real> {
    match v
    case IntV(i) => Some(i as real)
    case RealV(r) => Some(r)
    case _ => None
  }

  /** A field whose default lies between its `Ge` and `Le` bounds (the first of each). */
  predicate DefaultWithinBounds(f: FieldInfo) {
    f.default.Some? && Number(f.default.value).Some? && |f.metadata| == 2
    && f.metadata[0].ge.Some? && f.metadata[1].le.Some?
    && f.metadata[0].ge.value <= Number(f.default.value).value <= f.metadata[1].le.value
  }

  /** A field whose default is one of its choices. */
  predicate DefaultAmongChoices(f: FieldInfo) {
    f.default.Some? && f.choices.Some? && f.default.value in f.choices.value
  }
}
