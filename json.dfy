/**
 * A reference renderer for flat JSON objects whose members are all strings,
 * written without escaping: `{"k1":"v1","k2":"v2",...}` in the given order.
 */
module Json {
  import opened Bytes

  const Quote: Bytes := Ascii("\"")
  const Colon: Bytes := Ascii(":")
  const Comma: Bytes := Ascii(",")
  const OpenBrace: Bytes := Ascii("{")
  const CloseBrace: Bytes := Ascii("}")

  /** `"key":"value"` */
  function Member(key: Bytes, value: Bytes): Bytes {
    Quote + key + Quote + Colon + Quote + value + Quote
  }

  /** The members joined by commas. */
  function Members(fields: seq<(Bytes, Bytes)>): Bytes
    decreases |fields|
  {
    if |fields| == 0 then []
    else if |fields| == 1 then Member(fields[0].0, fields[0].1)
    else Member(fields[0].0, fields[0].1) + Comma + Members(fields[1..])
  }

  function Object(fields: seq<(Bytes, Bytes)>): Bytes {
    OpenBrace + Members(fields) + CloseBrace
  }
}
