/**
  The closed universe of Python values a form field can hold or compare
  against (src/ticklist/types.py and the values the field-data checks see).
 */
module Types {

  /** One member of a Python `Enum` class: the class, the member's name and
      `str()` of the value the member stores. Members compare by identity,
      which for this datatype is structural equality. */
  datatype EnumMember = EnumMember(enumClass: string, name: string, storedText: string)

  /** A Python value as the engine sees it.
      `NoValue` is the `NO_VALUE` sentinel (`NOTHING.token`): "nothing has been
      supplied yet". It is a constructor of its own, so it is never equal to
      the domain value `NoneVal` (Python `None`).
      `ModelVal` is an instance of a data-model class with its field values.
      `Opaque` is any other object, for instance the data-model library's
      marker for a field declared without a default. */
  datatype Value =
    | NoValue
    | NoneVal
    | BoolVal(b: bool)
    | IntVal(i: int)
    | StrVal(s: string)
    | EnumVal(member: EnumMember)
    | ModelVal(model: string, fields: map<string, Value>)
    | Opaque(description: string)
}
