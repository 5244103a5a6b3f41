/**
  JSON values as the client sees them once the reply text is parsed, and the
  field extractors that typed decoding is built from.

  An object keeps its entries in the iteration order of the JSON library's map;
  that library never holds two entries with the same key, so `Get` taking the
  first match is the same as a map lookup on every value the parser produces.
*/
module JsonValues {
  import opened Wrappers

  datatype Json =
    | Null
    | Bool(b: bool)
    | Num(n: int)
    | Str(s: string)
    | Arr(items: seq<Json>)
    | Obj(fields: seq<(string, Json)>)

  /** Rust's `i64`: decoding a number into it fails outside this range. */
  newtype i64 = x: int | -0x8000_0000_0000_0000 <= x < 0x8000_0000_0000_0000

  /** The value stored under `key`, if the object has such an entry. */
  function Get(fields: seq<(string, Json)>, key: string): Option<Json>
  {
    if fields == [] then None
    else if fields[0].0 == key then Some(fields[0].1)
    else Get(fields[1..], key)
  }

  /** The first entry under `key` is the one `Get` returns. */
  lemma {:induction false} GetAt(fields: seq<(string, Json)>, i: nat, key: string)
    requires i < |fields| && fields[i].0 == key
    requires forall j :: 0 <= j < i ==> fields[j].0 != key
    ensures Get(fields, key) == Some(fields[i].1)
  {
    if i > 0 {
      GetAt(fields[1..], i - 1, key);
    }
  }

  /** A required field: absent means "missing field". */
  function Field(fields: seq<(string, Json)>, key: string): Result<Json>
  {
    match Get(fields, key)
    case Some(v) => Ok(v)
    case None => Err(DecodeError(key))
  }

  function AsString(j: Json, what: string): Result<string>
  {
    if j.Str? then Ok(j.s) else Err(DecodeError(what))
  }

  /** A number fits the field only when it is an integer in the range of `i64`. */
  function AsI64(j: Json, what: string): (r: Result<i64>)
    ensures r.Ok? ==> j == Num(r.value as int)
  {
    if j.Num? && -0x8000_0000_0000_0000 <= j.n < 0x8000_0000_0000_0000 then Ok(j.n as i64)
    else Err(DecodeError(what))
  }

  function StringField(fields: seq<(string, Json)>, key: string): Result<string>
  {
    var v :- Field(fields, key);
    AsString(v, key)
  }

  function I64Field(fields: seq<(string, Json)>, key: string): Result<i64>
  {
    var v :- Field(fields, key);
    AsI64(v, key)
  }

  /** An `Option<String>` field: absent or `null` both decode to `None`. */
  function OptionalStringField(fields: seq<(string, Json)>, key: string): Result<Option<string>>
  {
    match Get(fields, key)
    case None => Ok(None)
    case Some(Null) => Ok(None)
    case Some(Str(s)) => Ok(Some(s))
    case Some(_) => Err(DecodeError(key))
  }

  /** How an `Option<String>` is written: `None` as `null`. */
  function OptionalString(o: Option<string>): Json
  {
    match o
    case None => Null
    case Some(s) => Str(s)
  }
}
