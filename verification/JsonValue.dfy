/** JSON values as nlohmann::json holds them, and its checked accessors. Reading a missing member or a value of the
    wrong kind throws in the original; here it gives None. Integers are those that fit 64 bits; every other number
    is a Real, whose value is never looked at. */
module JsonValue {
  import opened Wrappers

  datatype Json =
    | Null
    | Boolean(truth: bool)
    | Integer(number: int)
    | Real
    | String(text: string)
    | Array(elements: seq<Json>)
    | Object(members: map<string, Json>)

  /** `contains` */
  predicate Has(value: Json, key: string) {
    value.Object? && key in value.members
  }

  /** `at` */
  function At(value: Json, key: string): Option<Json> {
    if Has(value, key) then Some(value.members[key]) else None
  }

  /** `get<std::string>` */
  function Text(value: Option<Json>): Option<string> {
    if value.Some? && value.value.String? then Some(value.value.text) else None
  }

  /** `at(key).get<std::string>()` */
  function TextAt(value: Json, key: string): Option<string> {
    Text(At(value, key))
  }

  /** `value(key, "")`: a missing member reads as the empty string, a member that is no string is an error. */
  function TextOr(value: Json, key: string): Option<string> {
    if value.Object? && key !in value.members then Some("") else TextAt(value, key)
  }
}
