/** The account statement's display helpers for raw invoice objects
    (src/contexts/account-statement/model/invoice.entity.js). */
module InvoiceFormat {
  import opened JsValues

  /** `formatCurrencyByRole(value)`: a number becomes "$ " and its two-decimal text
      (`fixed2` stands for `n.toFixed(2)`; NaN gives "NaN"); any other value is returned
      as it is, null and undefined becoming ''. */
  function FormatCurrencyByRole(value: JsValue, fixed2: int -> string): (r: JsValue)
    ensures !IsNumber(value) && !Nullish(value) ==> r == value
    ensures Nullish(value) ==> r == Str("")
    ensures IsNumber(value) ==> r.Str? && StartsWith(r.s, "$ ")
    ensures value.Num? ==> r == Str("$ " + fixed2(value.n))
  {
    match value
    case Num(n) => Str("$ " + fixed2(n))
    case NaN => Str("$ NaN")
    case _ => Coalesce(value, Str(""))
  }

  /** `formatCurrencyPEN(value)`: kept for older callers, it formats exactly as
      `formatCurrencyByRole`, in dollars despite its name. */
  function FormatCurrencyPEN(value: JsValue, fixed2: int -> string): (r: JsValue)
    ensures r == FormatCurrencyByRole(value, fixed2)
    ensures IsNumber(value) ==> StartsWith(r.s, "$ ")
  {
    FormatCurrencyByRole(value, fixed2)
  }

  /** Formatting is idempotent on everything but numbers: a formatted value formats to
      itself unless it was a number. */
  lemma FormatIdempotentOnText(value: JsValue, fixed2: int -> string)
    requires !IsNumber(value)
    ensures FormatCurrencyByRole(FormatCurrencyByRole(value, fixed2), fixed2) == FormatCurrencyByRole(value, fixed2)
  {
  }

  /** `isPaid(inv)`: `inv?.status === 'paid'`. */
  predicate IsPaid(inv: JsValue) {
    !Nullish(inv) && StrictEq(Field(inv, "status"), Str("paid"))
  }

  /** `isPending(inv)`: `inv?.status === 'pending'`. */
  predicate IsPending(inv: JsValue) {
    !Nullish(inv) && StrictEq(Field(inv, "status"), Str("pending"))
  }

  /** These checks are case-sensitive, unlike the domain entity's, false for a missing
      invoice, and never both true. */
  lemma StatusChecks(inv: JsValue)
    ensures IsPaid(inv) <==> inv.Obj? && Get(inv.props, "status") == Str("paid")
    ensures IsPending(inv) <==> inv.Obj? && Get(inv.props, "status") == Str("pending")
    ensures !(IsPaid(inv) && IsPending(inv))
    ensures !IsPaid(Obj(map["status" := Str("PAID")]))
    ensures !IsPaid(Null) && !IsPaid(Undef)
  {
  }
}
