/** Conversion from the billing API's invoice resources to `BillingInvoice` entities
    (src/contexts/account-statement/Domain/invoice.assembler.js). */
module InvoiceAssembler {
  import opened JsValues
  import opened InvoiceEntity

  /** The object literal `toEntity` passes to the constructor. */
  function InvoiceArgs(res: Bag): Bag {
    map[
      "id" := Get(res, "id"),
      "userId" := Get(res, "userId"),
      "companyName" := Get(res, "companyName"),
      "amount" := Get(res, "amount"),
      "currency" := Get(res, "currency"),
      "status" := Get(res, "status"),
      "issuedAt" := Get(res, "issuedAt"),
      "paidAt" := Get(res, "paidAt")
    ]
  }

  /** The literal holds the resource's values under exactly the names the constructor
      reads, so the invoice is the one the resource itself would construct. */
  lemma InvoiceArgsRead(res: Bag)
    ensures NewBillingInvoice(InvoiceArgs(res)) == NewBillingInvoice(res)
  {
  }

  /** `toEntity(resource)`: it throws for a null or undefined resource; the invoice holds
      the resource's eight invoice properties (the amount as a number), defaulted when
      undefined, so a resource without a currency gives an invoice in 'PEN'. */
  function ToEntity(resource: JsValue): (r: Result<BillingInvoice>)
    ensures r.Err? <==> Nullish(resource)
    ensures r.Ok? ==> forall p :: p != Amount && !Field(resource, PropName(p)).Undef?
                                  ==> Value(r.value, p) == Field(resource, PropName(p))
    ensures r.Ok? ==> forall p :: Field(resource, PropName(p)).Undef? ==> Value(r.value, p) == DefaultOf(p)
    ensures r.Ok? && Field(resource, "currency").Undef? ==> r.value.currency == Str("PEN")
    ensures r.Ok? ==> IsNumber(r.value.amount)
  {
    match Props(resource)
    case Err(e) => Err(e)
    case Ok(res) =>
      InvoiceArgsRead(res);
      Construction(res);
      Ok(NewBillingInvoice(InvoiceArgs(res)))
  }

  /** Keys of the resource other than the eight are dropped: they never change the
      invoice. */
  lemma OtherKeysDropped(res: Bag, k: string, v: JsValue)
    requires forall p :: PropName(p) != k
    ensures ToEntity(Obj(res[k := v])) == ToEntity(Obj(res))
  {
    var res' := res[k := v];
    forall p ensures Get(res', PropName(p)) == Get(res, PropName(p)) {
      assert PropName(p) != k;
    }
    assert Get(res', "id") == Get(res, "id") by { assert PropName(Id) == "id"; }
    assert Get(res', "userId") == Get(res, "userId") by { assert PropName(UserId) == "userId"; }
    assert Get(res', "companyName") == Get(res, "companyName") by { assert PropName(CompanyName) == "companyName"; }
    assert Get(res', "amount") == Get(res, "amount") by { assert PropName(Amount) == "amount"; }
    assert Get(res', "currency") == Get(res, "currency") by { assert PropName(Currency) == "currency"; }
    assert Get(res', "status") == Get(res, "status") by { assert PropName(Status) == "status"; }
    assert Get(res', "issuedAt") == Get(res, "issuedAt") by { assert PropName(IssuedAt) == "issuedAt"; }
    assert Get(res', "paidAt") == Get(res, "paidAt") by { assert PropName(PaidAt) == "paidAt"; }
    InvoiceArgsRead(res);
    InvoiceArgsRead(res');
  }

  /** `toEntityList(resources)`: `[]` for anything that is not an array, otherwise one
      invoice per element, in order. */
  function ToEntityList(resources: JsValue): (r: Result<seq<BillingInvoice>>)
    ensures !resources.Arr? ==> r == Ok([])
    ensures resources.Arr? ==>
              (r.Ok? <==> forall i :: 0 <= i < |resources.items| ==> !Nullish(resources.items[i]))
    ensures resources.Arr? && r.Ok? ==>
              |r.value| == |resources.items|
              && forall i :: 0 <= i < |r.value| ==> Ok(r.value[i]) == ToEntity(resources.items[i])
  {
    if !resources.Arr? then Ok([]) else MapResult(resources.items, ToEntity)
  }
}
