/** Conversion from the company API's equipment resources to `CompanyMachine` entities
    (src/contexts/company/Domain/company.assembler.js). */
module CompanyAssembler {
  import opened JsValues
  import opened CompanyEntity

  /** `toEntityFromResource(resource)`: the constructor applied to the resource itself;
      the machine carries only `id`, `name`, `model` and `image`. */
  function ToEntityFromResource(resource: JsValue): (r: Result<CompanyMachine>)
    ensures r.Err? <==> Nullish(resource)
    ensures r.Ok? ==> forall p :: !Field(resource, PropName(p)).Undef?
                                  ==> Value(r.value, p) == Field(resource, PropName(p))
    ensures r.Ok? ==> forall p :: Field(resource, PropName(p)).Undef? ==> Value(r.value, p) == DefaultOf(p)
    ensures r.Ok? ==> Defined(r.value)
  {
    var r := NewCompanyMachine(resource);
    if r.Ok? then Construction(resource); r else r
  }

  /** Keys of the resource other than the four are dropped. */
  lemma OtherKeysDropped(res: Bag, k: string, v: JsValue)
    requires k != "id" && k != "name" && k != "model" && k != "image"
    ensures ToEntityFromResource(Obj(res[k := v])) == ToEntityFromResource(Obj(res))
  {
  }

  /** `toEntityListFromResources(resources)`: `[]` for anything that is not an array,
      otherwise one machine per element, in order. */
  function ToEntityListFromResources(resources: JsValue): (r: Result<seq<CompanyMachine>>)
    ensures !resources.Arr? ==> r == Ok([])
    ensures resources.Arr? ==>
              (r.Ok? <==> forall i :: 0 <= i < |resources.items| ==> !Nullish(resources.items[i]))
    ensures resources.Arr? && r.Ok? ==>
              |r.value| == |resources.items|
              && forall i :: 0 <= i < |r.value| ==> Ok(r.value[i]) == ToEntityFromResource(resources.items[i])
  {
    if !resources.Arr? then Ok([]) else MapResult(resources.items, ToEntityFromResource)
  }
}
