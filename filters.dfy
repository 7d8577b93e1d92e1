/**
 * The request's query parameters and the filter document the handlers build
 * from them for the record store.
 */
module Filters {
  import opened Wrappers

  /** Parsed query string: each parameter a single string. */
  type Query = map<string, string>

  /** `req.query[key]`: `None` when the parameter is absent (undefined). */
  function Lookup(q: Query, key: string): Option<string> {
    if key in q then Some(q[key]) else None
  }

  /** JavaScript truthiness of a parameter: present and not the empty string. */
  predicate Truthy(v: Option<string>) {
    v.Some? && v.value != ""
  }

  /** The string `parseInt` sees for a parameter: `String(undefined)` is "undefined". */
  function AsString(v: Option<string>): string {
    if v.Some? then v.value else "undefined"
  }

  /**
   * A value inside a filter: an integer (`None` is NaN), an exact string, or a
   * regular expression `new RegExp(source, ci ? 'i' : '')`, kept uninterpreted.
   */
  datatype Val = Int(n: Option<int>) | Str(s: string) | Pat(source: string, ci: bool)

  /** The constraint on one field: a bare value (equality) or `{ $in: [...] }`. */
  datatype Constraint = Bare(v: Val) | In(vals: seq<Val>)

  /** A MongoDB filter document: field name to constraint. */
  type Filter = map<string, Constraint>
}
