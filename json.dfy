/** The part of jsoncpp's `Json::Value` the compile server uses: objects of
    string keys whose members are null, integers or strings. */
module Json {
  import opened Decimal

  datatype Value = Null | Int(i: int) | Str(s: string)

  type Object = map<string, Value>

  /** `obj[key]` on a const object: the member, or null when it is absent. */
  function Member(obj: Object, key: string): (v: Value)
    ensures !v.Null? ==> key in obj && obj[key] == v
  {
    if key in obj then obj[key] else Null
  }

  /** `asString()`: null reads as "", an integer as its decimal text, which
      is never empty. */
  function AsString(v: Value): (s: string)
    ensures v.Int? ==> s != ""
  {
    match v
    case Null => ""
    case Int(i) => IntToString(i)
    case Str(s) => s
  }

  /** `empty()` as jsoncpp defines it: true for null and for an empty array
      or object, never for a string, however short. */
  predicate Empty(v: Value)
    ensures Empty(v) ==> AsString(v) == ""
  {
    v.Null?
  }

  /** A member missing or holding an empty string is not rejected by `empty()`:
      the request front end stores every body field as a string, so a
      submission whose code field is blank goes on to the compiler. */
  lemma EmptyStringNotRejected()
    ensures !Empty(Str("")) && AsString(Str("")) == ""
  {
  }

  /** The test the rejection branch intends: no source text at all. */
  predicate CodeMissing(v: Value)
    ensures Empty(v) ==> CodeMissing(v)
  {
    v.Null? || (v.Str? && v.s == "")
  }

  /** CodeMissing rejects exactly the members whose text is empty. */
  lemma CodeMissingIffNoText(v: Value)
    ensures CodeMissing(v) <==> AsString(v) == ""
  {
  }
}
