/**
  The pull-parser tokens the request body is read as. The concrete document
  format (JSON or another XContent flavour) is decoded elsewhere; the body
  parser only ever sees this abstract stream.
 */
module Tokens {

  /** One token of the body. `Value` stands for every scalar kind the
      parser reports as a value (string, number, boolean, embedded object);
      `text` is what the parser returns as the token's text. */
  datatype Token =
    | StartObject
    | EndObject
    | StartArray
    | EndArray
    | FieldName(name: string)
    | Value(text: string)

  /** The only field name the body grammar accepts a value under. */
  const ScrollIdField: string := "scroll_id"
}
