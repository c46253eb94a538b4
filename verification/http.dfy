/** A reply as the route handlers send it: a status code and a JSON body. */
module Http {
  import opened Js

  datatype Reply = Reply(status: int, body: Value)

  /** `{error: message}`, the body of every error reply of the routes. */
  function ErrorBody(message: string): Value {
    Obj(map["error" := Str(message)])
  }
}
