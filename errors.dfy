/** Thrown errors and request bodies as the route handlers receive them. */
module Errors {
  import opened Wrappers

  /** A thrown JavaScript error; its `message` may be absent or empty. */
  datatype Thrown = Thrown(message: Option<string>)

  /** A request body: `req.json()` (or destructuring its result) throws, or yields the fields read from it. */
  datatype Request<T> = Unreadable(error: Thrown) | Readable(fields: T)
}
