/**
 * The schema engine that the middleware delegates to, reduced to what the
 * middleware sees of it: a value to parse, and a deterministic `safeParse`
 * that either succeeds with a normalised value or fails with an error object
 * the middleware treats as opaque.
 */
module Zod {
  /** A JSON-like value, as found in `req.params`, `req.query` and `req.body`; Undefined is an absent section. */
  datatype Value =
    | Undefined
    | Null
    | Bool(b: bool)
    | Number(n: int)
    | Str(s: string)
    | Array(items: seq<Value>)
    | Object(fields: map<string, Value>)

  /** One problem reported by the engine, located by a path of keys. */
  datatype Issue = Issue(path: seq<string>, message: string)

  /** The engine's error object; the middleware only passes it through. */
  datatype ZodError = ZodError(issues: seq<Issue>)

  /** The result of `schema.safeParse(value)`. */
  datatype SafeParseResult = Success(data: Value) | Failure(error: ZodError)

  /**
   * A schema, seen through `safeParse`: any total, deterministic function.
   * Every property of the middleware is stated for an arbitrary schema.
   */
  type Schema = Value -> SafeParseResult
}
