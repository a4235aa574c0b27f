/**
 * JSON values as the adapters see them.
 * An object is a map from its own property names. Where a value is serialised the order of its properties
 * matters, and module JsonbOrder has documents that keep it.
 */
module Json {
  import opened Options

  /** The fixed words the code compares strings with: schema keywords and JSON type names. */
  datatype Word =
    | Properties | PatternProperties | Defs | Definitions | DependentSchemas
    | AdditionalProperties | AdditionalItems | Contains | If | Then | Else | Not | PropertyNames
    | UnevaluatedItems | UnevaluatedProperties
    | AllOf | AnyOf | OneOf | PrefixItems
    | Items
    | Type | Enum | Const | Required | Format | Ref | MinContains | MaxContains
    | Title | Description | Comment | Default | Examples | Deprecated | ReadOnly | WriteOnly
    | SchemaUri | Id | Anchor
    | StringType | IntegerType | NumberType | BooleanType | NullType | ArrayType | ObjectType

  /** A string: one of the fixed words, or any other. (In a schema `Other` never spells a fixed word.) */
  datatype Text = Fixed(word: Word) | Other(chars: string)

  datatype Json =
    | Null
    | Bool(b: bool)
    | Num(n: real)
    | Str(s: Text)
    | Arr(elems: seq<Json>)
    | Obj(fields: map<Text, Json>)

  /** The value of a property, or None for a property the object does not carry. */
  function Get(m: map<Text, Json>, k: Text): Option<Json> {
    if k in m then Some(m[k]) else None
  }

  /** A value that a Zod literal can carry faithfully. */
  predicate IsPrimitive(j: Json) {
    j.Str? || j.Num? || j.Bool?
  }
}
