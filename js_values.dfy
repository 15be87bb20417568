/** Values as the TypeScript sources see them: optional fields and the
    JavaScript notion of a "truthy" string, shared by the backend and the page. */
module JsValues {

  /** An optional field of a request or record: `undefined`/`null` is None. */
  datatype Option<+T> = None | Some(value: T)

  /** `!!s` for an optional string: absent and empty strings are falsy. */
  predicate Truthy(s: Option<string>) {
    s.Some? && s.value != ""
  }

  /** `s || fallback` for an optional string. */
  function OrElse(s: Option<string>, fallback: string): string
  {
    if Truthy(s) then s.value else fallback
  }
}
