/** Conversion from the rental catalogue's resources to `RentMachine` entities
    (src/contexts/rent/Domain/rent.assembler.js). */
module RentAssembler {
  import opened JsValues
  import opened RentEntity

  /** The object literal `toEntity` passes to the `RentMachine` constructor, as its
      destructuring pattern reads it: the value written under each of the eight names. */
  function RentArgs(r: Bag): Bag {
    map[
      "id" := Get(r, "id"),
      "name" := Or(Get(r, "equipmentName"), Get(r, "name")),
      "type" := Get(r, "type"),
      "model" := Get(r, "model"),
      "price" := Or(Get(r, "monthlyPriceUSD"), Get(r, "price")),
      "currency" := Or(Get(r, "currency"), Str("USD")),
      "image" := Or(Get(r, "imageUrl"), Get(r, "image")),
      "isAvailable" := Coalesce(Get(r, "isAvailable"), Bool(true))
    ]
  }

  /** `toEntity(resource)`: it throws for a null or undefined resource. The name is
      `equipmentName || name`, the price `monthlyPriceUSD || price` (so a monthly price of
      0 falls through to `price`), the image `imageUrl || image`, the currency 'USD' when
      falsy, and availability `isAvailable ?? true`: an explicit false is kept. */
  function ToEntity(resource: JsValue): (r: Result<RentMachine>)
    ensures r.Err? <==> Nullish(resource)
    ensures r.Ok? ==>
              var res := Props(resource).value;
              var m := r.value;
              && m.id == Default(Get(res, "id"), Num(0))
              && m.kind == Default(Get(res, "type"), Str(""))
              && m.model == Default(Get(res, "model"), Str(""))
              && (Truthy(Get(res, "equipmentName")) ==> m.name == Get(res, "equipmentName"))
              && (!Truthy(Get(res, "equipmentName")) ==> m.name == Default(Get(res, "name"), Str("")))
              && (Truthy(Get(res, "monthlyPriceUSD")) ==> m.price == ToNumber(Get(res, "monthlyPriceUSD")))
              && (!Truthy(Get(res, "monthlyPriceUSD")) ==> m.price == ToNumber(Default(Get(res, "price"), Num(0))))
              && (Truthy(Get(res, "currency")) ==> m.currency == Get(res, "currency"))
              && (!Truthy(Get(res, "currency")) ==> m.currency == Str("USD"))
              && (Truthy(Get(res, "imageUrl")) ==> m.image == Get(res, "imageUrl"))
              && (!Truthy(Get(res, "imageUrl")) ==> m.image == Default(Get(res, "image"), Null))
              && (Nullish(Get(res, "isAvailable")) <==> m.isAvailable == Bool(true) && Get(res, "isAvailable") != Bool(true))
              && (!Nullish(Get(res, "isAvailable")) ==> m.isAvailable == Get(res, "isAvailable"))
  {
    match Props(resource)
    case Err(e) => Err(e)
    case Ok(res) => Ok(NewRentMachine(RentArgs(res)))
  }

  /** An explicit `isAvailable: false` stays false; only a missing, undefined or null one
      becomes true. */
  lemma AvailabilityKeepsFalse(res: Bag)
    ensures ToEntity(Obj(res["isAvailable" := Bool(false)])).value.isAvailable == Bool(false)
    ensures ToEntity(Obj(res["isAvailable" := Null])).value.isAvailable == Bool(true)
  {
  }

  /** `toEntityList(resources)`: `[]` for anything that is not an array, otherwise one
      machine per element, in order. */
  function ToEntityList(resources: JsValue): (r: Result<seq<RentMachine>>)
    ensures !resources.Arr? ==> r == Ok([])
    ensures resources.Arr? ==>
              (r.Ok? <==> forall i :: 0 <= i < |resources.items| ==> !Nullish(resources.items[i]))
    ensures resources.Arr? && r.Ok? ==>
              |r.value| == |resources.items|
              && forall i :: 0 <= i < |r.value| ==> Ok(r.value[i]) == ToEntity(resources.items[i])
  {
    if !resources.Arr? then Ok([]) else MapResult(resources.items, ToEntity)
  }
}
