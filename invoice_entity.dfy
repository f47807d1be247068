/** An invoice of the account statement
    (src/contexts/account-statement/Domain/invoice.entity.js). */
module InvoiceEntity {
  import opened JsValues

  /** A `BillingInvoice` instance. */
  datatype BillingInvoice = BillingInvoice(
    id: JsValue,
    userId: JsValue,
    companyName: JsValue,
    amount: JsValue,
    currency: JsValue,
    status: JsValue,
    issuedAt: JsValue,
    paidAt: JsValue)

  datatype Prop = Id | UserId | CompanyName | Amount | Currency | Status | IssuedAt | PaidAt

  function PropName(p: Prop): string {
    match p
    case Id => "id"
    case UserId => "userId"
    case CompanyName => "companyName"
    case Amount => "amount"
    case Currency => "currency"
    case Status => "status"
    case IssuedAt => "issuedAt"
    case PaidAt => "paidAt"
  }

  /** The constructor's destructuring default for the property. */
  function DefaultOf(p: Prop): JsValue {
    match p
    case Id => Num(0)
    case UserId => Num(0)
    case CompanyName => Str("")
    case Amount => Num(0)
    case Currency => Str("PEN")
    case Status => Str("pending")
    case IssuedAt => Str("")
    case PaidAt => Null
  }

  function Value(b: BillingInvoice, p: Prop): JsValue {
    match p
    case Id => b.id
    case UserId => b.userId
    case CompanyName => b.companyName
    case Amount => b.amount
    case Currency => b.currency
    case Status => b.status
    case IssuedAt => b.issuedAt
    case PaidAt => b.paidAt
  }

  /** `new BillingInvoice(args)`: the amount is stored as `Number(amount)`. */
  function NewBillingInvoice(args: Bag): BillingInvoice {
    BillingInvoice(
      Default(Get(args, "id"), Num(0)),
      Default(Get(args, "userId"), Num(0)),
      Default(Get(args, "companyName"), Str("")),
      ToNumber(Default(Get(args, "amount"), Num(0))),
      Default(Get(args, "currency"), Str("PEN")),
      Default(Get(args, "status"), Str("pending")),
      Default(Get(args, "issuedAt"), Str("")),
      Default(Get(args, "paidAt"), Null))
  }

  /** Construction: every property but the amount is the argument's when defined (null
      included) and its default otherwise; the amount is always a number, the argument's
      own when it is one. */
  lemma Construction(args: Bag)
    ensures var b := NewBillingInvoice(args);
            && (forall p :: p != Amount && !Get(args, PropName(p)).Undef? ==> Value(b, p) == Get(args, PropName(p)))
            && (forall p :: Get(args, PropName(p)).Undef? ==> Value(b, p) == DefaultOf(p))
            && IsNumber(b.amount)
            && (IsNumber(Get(args, "amount")) ==> b.amount == Get(args, "amount"))
            && (Get(args, "amount").Null? ==> b.amount == Num(0))
  {
    var b := NewBillingInvoice(args);
    forall p | p != Amount ensures Value(b, p) == Default(Get(args, PropName(p)), DefaultOf(p)) {
      match p
      case Id =>
      case _ =>
    }
  }

  /** `this.status.toLowerCase()`: only a string has it; on anything else the call throws. */
  function LowerStatus(b: BillingInvoice): (r: Result<string>)
    ensures r.Ok? <==> b.status.Str?
    ensures r.Ok? ==> r.value == Lower(b.status.s)
  {
    if b.status.Str? then Ok(Lower(b.status.s)) else Err(TypeError)
  }

  /** `isPaid()` */
  function IsPaid(b: BillingInvoice): Result<bool> {
    match LowerStatus(b)
    case Err(e) => Err(e)
    case Ok(s) => Ok(s == "paid")
  }

  /** `isPending()` */
  function IsPending(b: BillingInvoice): Result<bool> {
    match LowerStatus(b)
    case Err(e) => Err(e)
    case Ok(s) => Ok(s == "pending")
  }

  /** The status checks ignore case ('PAID', 'Paid' and 'paid' are all paid), throw for a
      status that is not a string, and never both hold. */
  lemma StatusChecks(b: BillingInvoice)
    ensures IsPaid(b).Err? <==> !b.status.Str?
    ensures IsPending(b).Err? <==> !b.status.Str?
    ensures IsPaid(b) == Ok(true) <==> b.status.Str? && Lower(b.status.s) == "paid"
    ensures IsPending(b) == Ok(true) <==> b.status.Str? && Lower(b.status.s) == "pending"
    ensures !(IsPaid(b) == Ok(true) && IsPending(b) == Ok(true))
  {
  }

  /** Changing the case of the status never changes either check. */
  lemma StatusIgnoresCase(b: BillingInvoice, s: string)
    ensures IsPaid(b.(status := Str(s))) == IsPaid(b.(status := Str(Lower(s))))
    ensures IsPending(b.(status := Str(s))) == IsPending(b.(status := Str(Lower(s))))
    ensures IsPaid(b.(status := Str("PAID"))) == Ok(true)
  {
    LowerIdempotent(s);
    assert Lower("PAID") == "paid";
  }

  /** An invoice built from no data is pending, unpaid, in soles and of amount 0. */
  lemma EmptyInvoice()
    ensures var b := NewBillingInvoice(map[]);
            && IsPending(b) == Ok(true) && IsPaid(b) == Ok(false)
            && b.currency == Str("PEN") && b.amount == Num(0) && b.paidAt == Null
  {
  }
}
