/** A machine offered for rent (src/contexts/rent/Domain/rent-machine.entity.js). */
module RentEntity {
  import opened JsValues

  /** A `RentMachine` instance (`type` is `kind` here). */
  datatype RentMachine = RentMachine(
    id: JsValue,
    name: JsValue,
    kind: JsValue,
    model: JsValue,
    price: JsValue,
    currency: JsValue,
    image: JsValue,
    isAvailable: JsValue)

  datatype Prop = Id | Name | Kind | Model | Price | Currency | Image | IsAvailable

  function PropName(p: Prop): string {
    match p
    case Id => "id"
    case Name => "name"
    case Kind => "type"
    case Model => "model"
    case Price => "price"
    case Currency => "currency"
    case Image => "image"
    case IsAvailable => "isAvailable"
  }

  /** The constructor's destructuring default for the property. */
  function DefaultOf(p: Prop): JsValue {
    match p
    case Id => Num(0)
    case Price => Num(0)
    case Currency => Str("USD")
    case Image => Null
    case IsAvailable => Bool(true)
    case _ => Str("")
  }

  function Value(m: RentMachine, p: Prop): JsValue {
    match p
    case Id => m.id
    case Name => m.name
    case Kind => m.kind
    case Model => m.model
    case Price => m.price
    case Currency => m.currency
    case Image => m.image
    case IsAvailable => m.isAvailable
  }

  /** `new RentMachine(args)`: the price is stored as `Number(price)`. */
  function NewRentMachine(args: Bag): RentMachine {
    RentMachine(
      Default(Get(args, "id"), Num(0)),
      Default(Get(args, "name"), Str("")),
      Default(Get(args, "type"), Str("")),
      Default(Get(args, "model"), Str("")),
      ToNumber(Default(Get(args, "price"), Num(0))),
      Default(Get(args, "currency"), Str("USD")),
      Default(Get(args, "image"), Null),
      Default(Get(args, "isAvailable"), Bool(true)))
  }

  /** Construction: every property but the price is stored exactly as passed when defined
      (null and false included) and defaulted otherwise; the price is always a number,
      the argument's own when it is one. */
  lemma Construction(args: Bag)
    ensures var m := NewRentMachine(args);
            && (forall p :: p != Price && !Get(args, PropName(p)).Undef? ==> Value(m, p) == Get(args, PropName(p)))
            && (forall p :: Get(args, PropName(p)).Undef? ==> Value(m, p) == DefaultOf(p))
            && IsNumber(m.price)
            && (IsNumber(Get(args, "price")) ==> m.price == Get(args, "price"))
  {
    var m := NewRentMachine(args);
    forall p | p != Price ensures Value(m, p) == Default(Get(args, PropName(p)), DefaultOf(p)) {
      match p
      case Id =>
      case _ =>
    }
  }

  /** `getFormattedPrice()`: the price in the machine's currency followed by " / month".
      `intl` stands for `new Intl.NumberFormat('en-US', {style: 'currency', currency,
      minimumFractionDigits: 0}).format(price)`, which throws for a currency code it does
      not know. */
  function FormattedPrice(m: RentMachine, intl: (JsValue, JsValue) -> Result<string>): (r: Result<string>)
    ensures r.Ok? <==> intl(m.currency, m.price).Ok?
    ensures r.Ok? ==> EndsWith(r.value, " / month") && StartsWith(r.value, intl(m.currency, m.price).value)
  {
    match intl(m.currency, m.price)
    case Err(e) => Err(e)
    case Ok(text) => Ok(text + " / month")
  }
}
