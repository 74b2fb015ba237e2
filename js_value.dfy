/**
  The JavaScript values a message holds. Objects are compared by deep equality,
  so an object is a map from property names to values; the order of an object's
  keys is modelled separately where it is observable (see Gcm.InOrder).
 */
module JsValue {

  datatype Value =
    | Str(s: string)
    | Num(n: int)
    | Bool(b: bool)
    | Obj(fields: map<string, Value>)

  /** `typeof v === 'object'` with at least one own key. */
  predicate IsNonEmptyObject(v: Value)
  {
    v.Obj? && |v.fields| > 0
  }
}
