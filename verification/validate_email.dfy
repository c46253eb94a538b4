/**
 * The `validateEmail` pre-handler: it lets a request through when its body
 * carries a string email containing '@', and otherwise answers 400 and stops
 * the request.
 */
module ValidateEmail {
  import opened Wrappers
  import opened Js
  import opened Http

  /** What the pre-handler does with a request: let it continue, or end it with a reply. */
  datatype Gate = Continue | Halt(reply: Reply)

  const InvalidEmail: string := "Invalid or missing email address."

  /** `request.body?.email` */
  function Email(body: Option<Value>): Option<Value> {
    OptionalGet(body, "email")
  }

  /** `!email || typeof email !== 'string' || !email.includes('@')`, evaluated left to right. */
  predicate Rejects(email: Option<Value>) {
    || !Truthy(email)
    || TypeOf(email) != "string"
    || '@' !in email.value.s
  }

  /**
   * The email passes exactly when it is a string containing '@'; an absent
   * body or email, `null`, a number, any other non-string and the empty
   * string all fail, and a failure is the 400 reply that ends the request.
   */
  function Validate(body: Option<Value>): (g: Gate)
    ensures g.Continue? <==> Email(body).Some? && Email(body).value.Str? && '@' in Email(body).value.s
    ensures Email(body) == Some(Str("")) ==> g.Halt?
    ensures Email(body).Some? && !Email(body).value.Str? ==> g.Halt?
    ensures body.None? || Email(body).None? ==> g.Halt?
    ensures g.Halt? ==> g.reply == Reply(400, ErrorBody(InvalidEmail))
  {
    if Rejects(Email(body)) then Halt(Reply(400, ErrorBody(InvalidEmail))) else Continue
  }
}
