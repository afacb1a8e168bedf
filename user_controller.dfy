/** The user handlers: a registration that only checks its fields, and a
    login that does nothing yet. Neither touches any stored state. */
module UserController {
  import opened Http

  /** The fields `registerUser` takes from the request body. */
  datatype RegisterBody = RegisterBody(name: Option<string>, email: Option<string>, password: Option<string>)

  const IncludeAllFields := HttpError(400, "Please include all fields")

  /** `registerUser`: fails with 400 when any field is falsy, otherwise answers
      with the placeholder text. */
  function RegisterUser(body: RegisterBody): (r: Result<string, HttpError>)
    ensures r.Failure? <==> Falsy(body.name) || Falsy(body.email) || Falsy(body.password)
    ensures r.Failure? ==> r.error == IncludeAllFields
    ensures r.Success? ==> r.value == "Register Route"
  {
    if Falsy(body.name) || Falsy(body.email) || Falsy(body.password) then Failure(IncludeAllFields)
    else Success("Register Route")
  }

  /** One missing field is enough, and which one is missing makes no difference. */
  lemma AnyMissingFieldGivesSameError(a: RegisterBody, b: RegisterBody)
    requires Falsy(a.name) || Falsy(a.email) || Falsy(a.password)
    requires Falsy(b.name) || Falsy(b.email) || Falsy(b.password)
    ensures RegisterUser(a) == RegisterUser(b) == Failure(IncludeAllFields)
  {
  }

  /** `loginUser`: the same placeholder for every request. */
  function LoginUser<Request>(request: Request): (r: string)
    ensures r == "Login Route"
  {
    "Login Route"
  }

  lemma LoginIgnoresRequest<Request>(a: Request, b: Request)
    ensures LoginUser(a) == LoginUser(b)
  {
  }
}
