/** Values as PHP sees them: nullable slots, truthiness, and base64 treated as a
    symbolic (injective, uninterpreted) encoding. */
module PhpValues {

  /** A slot that may hold a value or be null / missing. */
  datatype Option<+T> = None | Some(value: T)

  /** PHP truthiness of a string-valued slot: null, "" and "0" are falsy,
      every other string is truthy. */
  predicate Truthy(v: Option<string>) {
    v.Some? && v.value != "" && v.value != "0"
  }

  /** `base64_encode(raw)`, kept symbolic: the model only needs to know which
      bytes were encoded, and that different bytes encode differently. */
  datatype Base64 = Base64Of(raw: string)
}
