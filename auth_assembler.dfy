/** Conversion between the authentication API's resources, the sign-in and sign-up forms
    and `User` entities (src/contexts/auth/Domain/auth.assembler.js). */
module AuthAssembler {
  import opened JsValues
  import opened UserEntity

  /** `toEntityFromResource(resource)`: the constructor applied to the resource itself, so
      each user property is the resource's own (or its default when undefined). */
  function ToEntityFromResource(resource: JsValue): (r: Result<User>)
    ensures r.Err? <==> Nullish(resource)
    ensures r.Ok? ==> forall p :: !Field(resource, PropName(p)).Undef?
                                  ==> Value(r.value, p) == Field(resource, PropName(p))
    ensures r.Ok? ==> forall p :: Field(resource, PropName(p)).Undef? ==> Value(r.value, p) == DefaultOf(p)
    ensures r.Ok? ==> Defined(r.value)
  {
    var r := NewUser(resource);
    if r.Ok? then Construction(resource); r else r
  }

  /** `toLoginResource(email, password)`: exactly the two credentials. */
  function ToLoginResource(email: JsValue, password: JsValue): (r: Bag)
    ensures r.Keys == {"email", "password"}
    ensures Get(r, "email") == email && Get(r, "password") == password
  {
    map["email" := email, "password" := password]
  }

  /** `toSignupResource(formData)`: the sign-up body. Reading a property of a null or
      undefined form throws. */
  function ToSignupResource(formData: JsValue): (r: Result<Bag>)
    ensures r.Err? <==> Nullish(formData)
    ensures r.Ok? ==> r.value.Keys == {"username", "email", "password", "name", "phone", "type"}
  {
    match Props(formData)
    case Err(e) => Err(e)
    case Ok(form) =>
      Ok(map[
        "username" := Get(form, "username"),
        "email" := Get(form, "email"),
        "password" := Get(form, "password"),
        "name" := Get(form, "name"),
        "phone" := Or(Get(form, "phone"), Str("")),
        "type" := Or(Get(form, "type"), Str("individual"))
      ])
  }

  /** The credentials and the name are the form's own; `phone` becomes '' and `type`
      'individual' when the form's are falsy; there is never an `id`. */
  lemma SignupContents(formData: JsValue)
    requires !Nullish(formData)
    ensures var form := Props(formData).value;
            var body := ToSignupResource(formData).value;
            && Get(body, "username") == Get(form, "username")
            && Get(body, "email") == Get(form, "email")
            && Get(body, "password") == Get(form, "password")
            && Get(body, "name") == Get(form, "name")
            && (Truthy(Get(form, "phone")) ==> Get(body, "phone") == Get(form, "phone"))
            && (!Truthy(Get(form, "phone")) ==> Get(body, "phone") == Str(""))
            && (Truthy(Get(form, "type")) ==> Get(body, "type") == Get(form, "type"))
            && (!Truthy(Get(form, "type")) ==> Get(body, "type") == Str("individual"))
            && "id" !in body
  {
  }

  /** A user built from a sign-up body has id 0 and so is not signed in; with no type on
      the form it is an individual. */
  lemma SignupUserIsSignedOut(formData: JsValue)
    requires !Nullish(formData)
    ensures var u := ToEntityFromResource(Obj(ToSignupResource(formData).value)).value;
            && u.id == Num(0) && !IsAuthenticated(u)
            && (!Truthy(Field(formData, "type")) ==> IsIndividual(u))
  {
    SignupContents(formData);
  }
}
