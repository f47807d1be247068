/** A machine that belongs to a company
    (src/contexts/company/Domain/company-machine.entity.js). */
module CompanyEntity {
  import opened JsValues

  /** A `CompanyMachine` instance. */
  datatype CompanyMachine = CompanyMachine(id: JsValue, name: JsValue, model: JsValue, image: JsValue)

  datatype Prop = Id | Name | Model | Image

  function PropName(p: Prop): string {
    match p
    case Id => "id"
    case Name => "name"
    case Model => "model"
    case Image => "image"
  }

  /** The constructor's destructuring default for the property. */
  function DefaultOf(p: Prop): JsValue {
    match p
    case Id => Num(0)
    case Name => Str("")
    case Model => Str("")
    case Image => Null
  }

  function Value(m: CompanyMachine, p: Prop): JsValue {
    match p
    case Id => m.id
    case Name => m.name
    case Model => m.model
    case Image => m.image
  }

  /** `new CompanyMachine(arg)`: the parameter has no default of its own, so destructuring
      a null or undefined argument throws. */
  function NewCompanyMachine(arg: JsValue): (r: Result<CompanyMachine>)
    ensures r.Err? <==> Nullish(arg)
  {
    match Props(arg)
    case Err(e) => Err(e)
    case Ok(args) =>
      Ok(CompanyMachine(
        Default(Get(args, "id"), Num(0)),
        Default(Get(args, "name"), Str("")),
        Default(Get(args, "model"), Str("")),
        Default(Get(args, "image"), Null)))
  }

  predicate Defined(m: CompanyMachine) {
    forall p :: !Value(m, p).Undef?
  }

  /** Construction: a property the argument defines (null included) is kept, an undefined
      or missing one takes its default; no property is left undefined, and the argument's
      other keys are ignored. */
  lemma Construction(arg: JsValue)
    requires !Nullish(arg)
    ensures var args := Props(arg).value;
            var m := NewCompanyMachine(arg).value;
            && (forall p :: !Get(args, PropName(p)).Undef? ==> Value(m, p) == Get(args, PropName(p)))
            && (forall p :: Get(args, PropName(p)).Undef? ==> Value(m, p) == DefaultOf(p))
            && Defined(m)
  {
    var args := Props(arg).value;
    forall p ensures Value(NewCompanyMachine(arg).value, p) == Default(Get(args, PropName(p)), DefaultOf(p)) {
      match p
      case Id =>
      case _ =>
    }
  }

  /** `hasImage()` */
  predicate HasImage(m: CompanyMachine) {
    Truthy(m.image)
  }

  /** `getDisplayName()`: "<name> (<model>)". */
  function DisplayName(m: CompanyMachine): (r: string)
    ensures StartsWith(r, ToStr(m.name) + " (") && EndsWith(r, ToStr(m.model) + ")")
    ensures |r| == |ToStr(m.name)| + |ToStr(m.model)| + 3
  {
    ToStr(m.name) + " (" + ToStr(m.model) + ")"
  }

  /** A machine built from an empty object has no image and the display name " ()". */
  lemma EmptyMachine()
    ensures var m := NewCompanyMachine(Obj(map[])).value;
            !HasImage(m) && DisplayName(m) == " ()" && m.id == Num(0)
  {
  }
}
