/** A signed-in user as the authentication context sees it
    (src/contexts/auth/Domain/user.entity.js). */
module UserEntity {
  import opened JsValues

  /** A `User` instance (`type` is `kind` here). */
  datatype User = User(
    id: JsValue,
    username: JsValue,
    email: JsValue,
    password: JsValue,
    name: JsValue,
    phone: JsValue,
    kind: JsValue)

  datatype Prop = Id | Username | Email | Password | Name | Phone | Kind

  function PropName(p: Prop): string {
    match p
    case Id => "id"
    case Username => "username"
    case Email => "email"
    case Password => "password"
    case Name => "name"
    case Phone => "phone"
    case Kind => "type"
  }

  /** The constructor's destructuring default for the property. */
  function DefaultOf(p: Prop): JsValue {
    match p
    case Id => Num(0)
    case Kind => Str("individual")
    case _ => Str("")
  }

  function Value(u: User, p: Prop): JsValue {
    match p
    case Id => u.id
    case Username => u.username
    case Email => u.email
    case Password => u.password
    case Name => u.name
    case Phone => u.phone
    case Kind => u.kind
  }

  /** `new User(arg)`: the parameter has no default of its own, so destructuring a null
      or undefined argument throws. */
  function NewUser(arg: JsValue): (r: Result<User>)
    ensures r.Err? <==> Nullish(arg)
  {
    match Props(arg)
    case Err(e) => Err(e)
    case Ok(args) =>
      Ok(User(
        Default(Get(args, "id"), Num(0)),
        Default(Get(args, "username"), Str("")),
        Default(Get(args, "email"), Str("")),
        Default(Get(args, "password"), Str("")),
        Default(Get(args, "name"), Str("")),
        Default(Get(args, "phone"), Str("")),
        Default(Get(args, "type"), Str("individual"))))
  }

  predicate Defined(u: User) {
    forall p :: !Value(u, p).Undef?
  }

  /** Construction: a property the argument defines (null included) is kept, an undefined
      or missing one takes its default; no property is left undefined. */
  lemma Construction(arg: JsValue)
    requires !Nullish(arg)
    ensures var args := Props(arg).value;
            var u := NewUser(arg).value;
            && (forall p :: !Get(args, PropName(p)).Undef? ==> Value(u, p) == Get(args, PropName(p)))
            && (forall p :: Get(args, PropName(p)).Undef? ==> Value(u, p) == DefaultOf(p))
            && Defined(u)
  {
    var args := Props(arg).value;
    forall p ensures Value(NewUser(arg).value, p) == Default(Get(args, PropName(p)), DefaultOf(p)) {
      match p
      case Id =>
      case _ =>
    }
  }

  /** `isAuthenticated()`: `Boolean(id && username)`. */
  predicate IsAuthenticated(u: User) {
    Truthy(if Truthy(u.id) then u.username else u.id)
  }

  /** `getDisplayName()`: `name || username || email`. */
  function DisplayName(u: User): (r: JsValue)
    ensures Truthy(u.name) ==> r == u.name
    ensures !Truthy(u.name) && Truthy(u.username) ==> r == u.username
    ensures !Truthy(u.name) && !Truthy(u.username) ==> r == u.email
    ensures Truthy(r) <==> Truthy(u.name) || Truthy(u.username) || Truthy(u.email)
  {
    Or(Or(u.name, u.username), u.email)
  }

  /** `isIndividual()` */
  predicate IsIndividual(u: User) {
    StrictEq(u.kind, Str("individual"))
  }

  /** `isCompany()` */
  predicate IsCompany(u: User) {
    StrictEq(u.kind, Str("company"))
  }

  /** Authenticated means both an id and a username are truthy: id 0 or an empty
      username is a signed-out user. */
  lemma AuthenticatedMeansIdAndUsername(u: User)
    ensures IsAuthenticated(u) <==> Truthy(u.id) && Truthy(u.username)
    ensures !IsAuthenticated(u.(id := Num(0))) && !IsAuthenticated(u.(username := Str("")))
  {
  }

  /** The account types are exact texts and exclusive. */
  lemma AccountTypes(u: User)
    ensures IsIndividual(u) <==> u.kind == Str("individual")
    ensures IsCompany(u) <==> u.kind == Str("company")
    ensures !(IsIndividual(u) && IsCompany(u))
  {
  }

  /** A user built from an empty object is an individual who is not signed in. */
  lemma EmptyUser()
    ensures var u := NewUser(Obj(map[])).value;
            IsIndividual(u) && !IsCompany(u) && !IsAuthenticated(u) && u.id == Num(0)
  {
  }
}
