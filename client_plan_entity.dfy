/** A subscription plan a client can hold
    (src/contexts/profile/Domain/client-plan.entity.js). */
module ClientPlanEntity {
  import opened JsValues

  datatype ClientPlan = ClientPlan(
    id: JsValue,
    name: JsValue,
    price: JsValue,
    billingCycle: JsValue,
    maxMachines: JsValue)

  datatype Prop = Id | Name | Price | BillingCycle | MaxMachines

  function PropName(p: Prop): string {
    match p
    case Id => "id"
    case Name => "name"
    case Price => "price"
    case BillingCycle => "billingCycle"
    case MaxMachines => "maxMachines"
  }

  /** The constructor's destructuring default for the property. */
  function DefaultOf(p: Prop): JsValue {
    match p
    case Id => Num(0)
    case Name => Str("")
    case Price => Num(0)
    case BillingCycle => Str("monthly")
    case MaxMachines => Num(0)
  }

  function Value(c: ClientPlan, p: Prop): JsValue {
    match p
    case Id => c.id
    case Name => c.name
    case Price => c.price
    case BillingCycle => c.billingCycle
    case MaxMachines => c.maxMachines
  }

  /** `new ClientPlan(args)` */
  function NewClientPlan(args: Bag): ClientPlan {
    ClientPlan(
      Default(Get(args, "id"), Num(0)),
      Default(Get(args, "name"), Str("")),
      Default(Get(args, "price"), Num(0)),
      Default(Get(args, "billingCycle"), Str("monthly")),
      Default(Get(args, "maxMachines"), Num(0)))
  }

  predicate Defined(c: ClientPlan) {
    forall p :: !Value(c, p).Undef?
  }

  /** Construction: a property the argument defines (null included) is kept, an undefined
      or missing one takes its default; no property is left undefined. */
  lemma Construction(args: Bag)
    ensures forall p :: !Get(args, PropName(p)).Undef? ==> Value(NewClientPlan(args), p) == Get(args, PropName(p))
    ensures forall p :: Get(args, PropName(p)).Undef? ==> Value(NewClientPlan(args), p) == DefaultOf(p)
    ensures Defined(NewClientPlan(args))
  {
    forall p ensures Value(NewClientPlan(args), p) == Default(Get(args, PropName(p)), DefaultOf(p)) {
      match p
      case Id =>
      case _ =>
    }
  }

  /** `getFormattedPrice(currency = 'USD')`: "$<price with two decimals> <currency> /
      <billingCycle>". Only a number has `toFixed`; on anything else the call throws.
      `fixed2` stands for `n.toFixed(2)`. */
  function FormattedPrice(c: ClientPlan, currency: JsValue, fixed2: int -> string): (r: Result<string>)
    ensures r.Ok? <==> IsNumber(c.price)
    ensures r.Ok? ==> StartsWith(r.value, "$")
                      && EndsWith(r.value, " " + ToStr(Default(currency, Str("USD"))) + " / " + ToStr(c.billingCycle))
  {
    var amount := match c.price
      case Num(n) => Ok(fixed2(n))
      case NaN => Ok("NaN")
      case _ => Err(TypeError);
    if amount.Err? then Err(TypeError)
    else
      var prefix := "$" + amount.value;
      var suffix := " " + ToStr(Default(currency, Str("USD"))) + " / " + ToStr(c.billingCycle);
      assert (prefix + suffix)[..1] == "$" by {
        assert (prefix + suffix)[0] == prefix[0];
      }
      assert (prefix + suffix)[|prefix|..] == suffix;
      Ok(prefix + suffix)
  }

  /** `getMaxMachinesText()` */
  function MaxMachinesText(c: ClientPlan): string {
    "Up to " + ToStr(c.maxMachines) + " machines"
  }

  /** The text has the same shape for every value, 0 included, and the count it shows for
      an integer reads back as that integer. */
  lemma MaxMachinesTextShape(c: ClientPlan)
    ensures var t := MaxMachinesText(c);
            |t| == 15 + |ToStr(c.maxMachines)| && t[..6] == "Up to " && t[|t| - 9..] == " machines"
            && t[6..|t| - 9] == ToStr(c.maxMachines)
    ensures c.maxMachines.Num? ==> ParseInt(MaxMachinesText(c)[6..|MaxMachinesText(c)| - 9]) == c.maxMachines
  {
    var t := MaxMachinesText(c);
    var count := ToStr(c.maxMachines);
    assert t == "Up to " + count + " machines";
    assert t[6..|t| - 9] == count;
    if c.maxMachines.Num? {
      ParseIntOfIntToStr(c.maxMachines.n);
    }
  }

  /** `this.name.toLowerCase()`: only a string has it; on anything else the call throws. */
  function LowerName(c: ClientPlan): (r: Result<string>)
    ensures r.Ok? <==> c.name.Str?
    ensures r.Ok? ==> r.value == Lower(c.name.s)
  {
    if c.name.Str? then Ok(Lower(c.name.s)) else Err(TypeError)
  }

  /** `name.toLowerCase() === tier` */
  function IsTier(c: ClientPlan, tier: string): Result<bool> {
    match LowerName(c)
    case Err(e) => Err(e)
    case Ok(n) => Ok(n == tier)
  }

  /** `isBasicPlan()` */
  function IsBasicPlan(c: ClientPlan): Result<bool> {
    IsTier(c, "basic")
  }

  /** `isStandardPlan()` */
  function IsStandardPlan(c: ClientPlan): Result<bool> {
    IsTier(c, "standard")
  }

  /** `isPremiumPlan()` */
  function IsPremiumPlan(c: ClientPlan): Result<bool> {
    IsTier(c, "premium")
  }

  /** The tier predicates ignore case: 'Basic', 'BASIC' and 'basic' are all the basic
      plan. They throw for a name that is not a string, and at most one of them holds. */
  lemma TierPredicates(c: ClientPlan)
    ensures IsBasicPlan(c).Err? <==> !c.name.Str?
    ensures IsBasicPlan(c) == Ok(true) <==> c.name.Str? && Lower(c.name.s) == "basic"
    ensures IsStandardPlan(c) == Ok(true) <==> c.name.Str? && Lower(c.name.s) == "standard"
    ensures IsPremiumPlan(c) == Ok(true) <==> c.name.Str? && Lower(c.name.s) == "premium"
    ensures !(IsBasicPlan(c) == Ok(true) && IsStandardPlan(c) == Ok(true))
    ensures !(IsBasicPlan(c) == Ok(true) && IsPremiumPlan(c) == Ok(true))
    ensures !(IsStandardPlan(c) == Ok(true) && IsPremiumPlan(c) == Ok(true))
  {
  }

  /** Changing the case of the name never changes a tier predicate's answer. */
  lemma TierIgnoresCase(c: ClientPlan, s: string, tier: string)
    ensures IsTier(c.(name := Str(s)), tier) == IsTier(c.(name := Str(Lower(s))), tier)
    ensures IsBasicPlan(c.(name := Str("BASIC"))) == Ok(true)
  {
    LowerIdempotent(s);
    assert Lower("BASIC") == "basic";
  }
}
