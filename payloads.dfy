/**
 * The dictionaries of arbitrary values (`Dict[str, Any]`) that both logging
 * engines store, with the values restricted to the scalar kinds the
 * callers pass.
 */
module Payloads {
  import opened Wrappers

  /** A value stored under one key. */
  datatype Datum = Str(s: string) | Num(x: real) | Int(i: int) | Bool(b: bool) | Nothing

  type Payload = map<string, Datum>

  /** `d or {}`: an absent dictionary and an empty one both become empty. */
  function OrEmpty(d: Option<Payload>): Payload {
    if d.Some? then d.value else map[]
  }

  /** The truth value of an optional dictionary: present and non-empty. */
  predicate Truthy(d: Option<Payload>) {
    d.Some? && d.value != map[]
  }
}
