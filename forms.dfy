/**
 * The `{[key: string]: string}` error dictionaries the forms fill field by field.
 * A field "has an error" when its entry is a non-empty string, as the templates test it.
 */
module Forms {
  import opened Wrappers

  type Errors = map<string, string>

  predicate HasError(errors: Errors, field: string) {
    field in errors && errors[field] != ""
  }

  /** `errors[field] = message` when the check produced one. */
  function Report(errors: Errors, field: string, message: Option<string>): (r: Errors)
    ensures message.None? ==> r == errors
    ensures message.Some? ==> field in r && r[field] == message.value
    ensures forall f :: f != field ==> (f in r <==> f in errors) && (f in r ==> r[f] == errors[f])
  {
    if message.Some? then errors[field := message.value] else errors
  }

  /** Every entry of `errors` is a non-empty message about one of `fields`. */
  predicate Messages(errors: Errors, fields: set<string>) {
    errors.Keys <= fields && forall k :: k in errors ==> errors[k] != ""
  }

  /** Reporting a non-empty message about a known field keeps the map well formed. */
  lemma ReportMessages(errors: Errors, field: string, message: Option<string>, fields: set<string>)
    requires Messages(errors, fields) && field in fields
    requires message.Some? ==> message.value != ""
    ensures Messages(Report(errors, field, message), fields)
  {
  }

  /**
   * The clear-on-type step of `handleChange`: a set error of `field` becomes `''`;
   * an unset one, and every other field, is left alone.
   */
  function ClearError(errors: Errors, field: string): (r: Errors)
    ensures !HasError(r, field)
    ensures r.Keys == errors.Keys
    ensures !HasError(errors, field) ==> r == errors
    ensures forall f :: f in r && f != field ==> r[f] == errors[f]
  {
    if HasError(errors, field) then errors[field := ""] else errors
  }
}
