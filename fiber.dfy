/** The part of the web framework the core relies on: status codes, the
    per-request context with its locals, and what a handler does next. */
module Fiber {

  import opened Models

  const StatusOK := 200
  const StatusCreated := 201
  const StatusBadRequest := 400
  const StatusUnauthorized := 401
  const StatusForbidden := 403
  const StatusNotFound := 404
  const StatusInternalServerError := 500

  /** A value stored in the request locals. Go stores an interface value there, so
      a type assertion succeeds only for the dynamic type it names: a Role is not
      a string and a string is not a Role. */
  datatype Local = StrLocal(s: string) | RoleLocal(role: Role) | OtherLocal

  /** A middleware either hands the request to the next handler or answers it with
      a status and an {"error": ...} body. */
  datatype Outcome = Next | Respond(status: int, error: string)

  /** The request context: the Authorization header as received, and the locals
      map that middleware fills for the handlers after it. */
  class Ctx {
    const authorization: string
    var locals: map<string, Local>

    constructor (authorization: string, locals: map<string, Local>)
      ensures this.authorization == authorization && this.locals == locals
    {
      this.authorization := authorization;
      this.locals := locals;
    }
  }
}
