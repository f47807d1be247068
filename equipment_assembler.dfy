/** Conversion between the equipment API's resources and `Equipment` entities
    (src/contexts/equipment/Domain/equipment.assembler.js). */
module EquipmentAssembler {
  import opened JsValues
  import opened EquipmentEntity

  /** The object literal `toEntity` passes to the `Equipment` constructor, as the
      constructor's destructuring pattern reads it: the value written under each of the
      fourteen names (the literal's `image` is not among them). */
  function EntityFields(r: Bag): Equipment {
    Equipment(
      Get(r, "id"),
      Get(r, "name"),
      Get(r, "type"),
      Get(r, "model"),
      Get(r, "manufacturer"),
      Or(Get(r, "serialNumber"), Get(r, "serial_number")),
      Get(r, "code"),
      Or(Get(r, "installationDate"), Get(r, "installation_date")),
      Or(Get(r, "energyConsumption"), Get(r, "energy_consumption")),
      Get(r, "location"),
      Get(r, "address"),
      Or(Or(Get(r, "usageHours"), Get(r, "usage_hours")), Num(0)),
      Or(Get(r, "status"), Str("active")),
      Or(Get(r, "clientId"), Get(r, "client_id")))
  }

  /** `toEntity(resource)`: it throws exactly when the resource is null or undefined.
      A property without a fallback is the resource's value, or the constructor's default
      when that value is undefined. `serialNumber`, `installationDate`, `energyConsumption`
      and `clientId` take the camelCase value when it is truthy and otherwise the
      snake_case one (again defaulted when undefined); `usageHours` is the first truthy of
      its two spellings, else 0; `status` is the resource's when truthy, else 'active'. */
  function ToEntity(resource: JsValue): (r: Result<Equipment>)
    ensures r.Err? <==> Nullish(resource)
    ensures r.Ok? ==>
              var props := Props(resource).value;
              var e := r.value;
              && e.id == Default(Get(props, "id"), Num(0))
              && e.name == Default(Get(props, "name"), Str(""))
              && e.kind == Default(Get(props, "type"), Str(""))
              && e.model == Default(Get(props, "model"), Str(""))
              && e.manufacturer == Default(Get(props, "manufacturer"), Str(""))
              && e.code == Default(Get(props, "code"), Str(""))
              && e.location == Default(Get(props, "location"), Str(""))
              && e.address == Default(Get(props, "address"), Str(""))
              && (Truthy(Get(props, "serialNumber")) ==> e.serialNumber == Get(props, "serialNumber"))
              && (!Truthy(Get(props, "serialNumber")) ==> e.serialNumber == Default(Get(props, "serial_number"), Str("")))
              && (Truthy(Get(props, "installationDate")) ==> e.installationDate == Get(props, "installationDate"))
              && (!Truthy(Get(props, "installationDate")) ==> e.installationDate == Default(Get(props, "installation_date"), Null))
              && (Truthy(Get(props, "energyConsumption")) ==> e.energyConsumption == Get(props, "energyConsumption"))
              && (!Truthy(Get(props, "energyConsumption")) ==> e.energyConsumption == Default(Get(props, "energy_consumption"), Str("")))
              && (Truthy(Get(props, "clientId")) ==> e.clientId == Get(props, "clientId"))
              && (!Truthy(Get(props, "clientId")) ==> e.clientId == Default(Get(props, "client_id"), Null))
              && (Truthy(Get(props, "usageHours")) ==> e.usageHours == Get(props, "usageHours"))
              && (!Truthy(Get(props, "usageHours")) && Truthy(Get(props, "usage_hours")) ==> e.usageHours == Get(props, "usage_hours"))
              && (!Truthy(Get(props, "usageHours")) && !Truthy(Get(props, "usage_hours")) ==> e.usageHours == Num(0))
              && (Truthy(Get(props, "status")) ==> e.status == Get(props, "status"))
              && (!Truthy(Get(props, "status")) ==> e.status == Str("active"))
  {
    match Props(resource)
    case Err(e) => Err(e)
    case Ok(props) => Ok(WithDefaults(EntityFields(props)))
  }

  /** Every entity `toEntity` builds has all its properties defined, `usageHours`
      included, and it is active whenever the resource's status is falsy. */
  lemma ToEntityDefined(resource: JsValue)
    requires !Nullish(resource)
    ensures Defined(ToEntity(resource).value)
    ensures !Truthy(Field(resource, "status")) ==> IsActive(ToEntity(resource).value)
  {
    var e := ToEntity(resource).value;
    forall p ensures !Value(e, p).Undef? {
      match p
      case Id =>
      case _ =>
    }
  }

  /** `toDTO(equipment)`: the fourteen properties under their own names, and `image`,
      which an `Equipment` does not have and so reads as undefined. */
  function ToDTO(e: Equipment): (dto: Bag)
    ensures dto.Keys == {"id", "name", "type", "model", "manufacturer", "serialNumber", "code",
                         "installationDate", "energyConsumption", "location", "address", "usageHours",
                         "status", "clientId", "image"}
    ensures Get(dto, "image").Undef?
  {
    map[
      "id" := e.id,
      "name" := e.name,
      "type" := e.kind,
      "model" := e.model,
      "manufacturer" := e.manufacturer,
      "serialNumber" := e.serialNumber,
      "code" := e.code,
      "installationDate" := e.installationDate,
      "energyConsumption" := e.energyConsumption,
      "location" := e.location,
      "address" := e.address,
      "usageHours" := e.usageHours,
      "status" := e.status,
      "clientId" := e.clientId,
      "image" := Undef
    ]
  }

  /** `toDTO` copies each property unchanged under its own name. */
  lemma ToDTOProperties(e: Equipment)
    ensures forall p :: Get(ToDTO(e), PropName(p)) == Value(e, p)
  {
    forall p ensures Get(ToDTO(e), PropName(p)) == Value(e, p) {
      match p
      case Id =>
      case _ =>
    }
  }

  /** A falsy value in a property with a fallback survives `toEntity(toDTO(e))` only when
      it is already what the fallback yields. */
  predicate FallbackStable(v: JsValue, fallback: JsValue) {
    Truthy(v) || v == fallback
  }

  /** The entities that survive `toEntity(toDTO(e))` unchanged. */
  predicate Stable(e: Equipment) {
    && Defined(e)
    && FallbackStable(e.serialNumber, Str(""))
    && FallbackStable(e.installationDate, Null)
    && FallbackStable(e.energyConsumption, Str(""))
    && FallbackStable(e.usageHours, Num(0))
    && Truthy(e.status)
    && FallbackStable(e.clientId, Null)
  }

  /** What `toEntity` reads back from a DTO: each property under its own name, and
      nothing under the snake_case spellings. */
  lemma DTOLookups(e: Equipment)
    ensures var dto := ToDTO(e);
            && Get(dto, "id") == e.id && Get(dto, "name") == e.name && Get(dto, "type") == e.kind
            && Get(dto, "model") == e.model && Get(dto, "manufacturer") == e.manufacturer
            && Get(dto, "serialNumber") == e.serialNumber && Get(dto, "code") == e.code
            && Get(dto, "installationDate") == e.installationDate
            && Get(dto, "energyConsumption") == e.energyConsumption
            && Get(dto, "location") == e.location && Get(dto, "address") == e.address
            && Get(dto, "usageHours") == e.usageHours && Get(dto, "status") == e.status
            && Get(dto, "clientId") == e.clientId
            && Get(dto, "serial_number").Undef? && Get(dto, "installation_date").Undef?
            && Get(dto, "energy_consumption").Undef? && Get(dto, "usage_hours").Undef?
            && Get(dto, "client_id").Undef?
  {
    DTOLookupsFirst(e);
    DTOLookupsSecond(e);
    DTOSnakeCaseAbsent(e);
  }

  lemma DTOLookupsFirst(e: Equipment)
    ensures var dto := ToDTO(e);
            && Get(dto, "id") == e.id && Get(dto, "name") == e.name && Get(dto, "type") == e.kind
            && Get(dto, "model") == e.model && Get(dto, "manufacturer") == e.manufacturer
            && Get(dto, "serialNumber") == e.serialNumber && Get(dto, "code") == e.code
  {
  }

  lemma DTOLookupsSecond(e: Equipment)
    ensures var dto := ToDTO(e);
            && Get(dto, "installationDate") == e.installationDate
            && Get(dto, "energyConsumption") == e.energyConsumption
            && Get(dto, "location") == e.location && Get(dto, "address") == e.address
            && Get(dto, "usageHours") == e.usageHours && Get(dto, "status") == e.status
            && Get(dto, "clientId") == e.clientId
  {
  }

  lemma DTOSnakeCaseAbsent(e: Equipment)
    ensures var dto := ToDTO(e);
            && Get(dto, "serial_number").Undef? && Get(dto, "installation_date").Undef?
            && Get(dto, "energy_consumption").Undef? && Get(dto, "usage_hours").Undef?
            && Get(dto, "client_id").Undef?
  {
  }

  /** The literal a DTO turns into, with the fallbacks applied to an absent snake_case
      spelling. */
  function Refilled(e: Equipment): Equipment {
    e.(serialNumber := Or(e.serialNumber, Undef),
       installationDate := Or(e.installationDate, Undef),
       energyConsumption := Or(e.energyConsumption, Undef),
       usageHours := Or(Or(e.usageHours, Undef), Num(0)),
       status := Or(e.status, Str("active")),
       clientId := Or(e.clientId, Undef))
  }

  /** The constructor's defaults restore `e` from that literal exactly on stable entities. */
  lemma RefilledFixpoint(e: Equipment)
    ensures WithDefaults(Refilled(e)) == e <==> Stable(e)
  {
    if WithDefaults(Refilled(e)) == e {
      forall p ensures !Value(e, p).Undef? {
        WithDefaultsAt(Refilled(e), p);
      }
    }
    if Stable(e) {
      assert !Value(e, Id).Undef? && !Value(e, Name).Undef? && !Value(e, Kind).Undef?;
      assert !Value(e, Model).Undef? && !Value(e, Manufacturer).Undef? && !Value(e, Code).Undef?;
      assert !Value(e, Location).Undef? && !Value(e, Address).Undef?;
    }
  }

  /** What `toEntity` reads back from a DTO, before the constructor's defaults. */
  lemma DTOFields(e: Equipment)
    ensures EntityFields(ToDTO(e)) == Refilled(e)
  {
    DTOLookups(e);
  }

  /** `toEntity(toDTO(e))` gives `e` back exactly when no property is undefined and each
      property with a fallback is truthy or already holds the value its fallback yields
      (a falsy status is always replaced by 'active'). `image` is dropped on the way:
      an `Equipment` never stores one. */
  lemma RoundTrip(e: Equipment)
    ensures ToEntity(Obj(ToDTO(e))) == Ok(e) <==> Stable(e)
  {
    DTOFields(e);
    assert ToEntity(Obj(ToDTO(e))) == Ok(WithDefaults(Refilled(e)));
    RefilledFixpoint(e);
  }

  /** `toEntity` ignores the resource's `image`. */
  lemma ImageIgnored(r: Bag, image: JsValue)
    ensures ToEntity(Obj(r["image" := image])) == ToEntity(Obj(r))
  {
    var r' := r["image" := image];
    assert forall k :: k != "image" ==> Get(r', k) == Get(r, k);
    assert EntityFields(r') == EntityFields(r);
  }

  /** `toEntityList(resources)`: `resources.map(toEntity)`. Anything but an array has no
      `map` and throws; an array converts element by element. */
  function ToEntityList(resources: JsValue): (r: Result<seq<Equipment>>)
    ensures r.Ok? <==> resources.Arr? && forall i :: 0 <= i < |resources.items| ==> !Nullish(resources.items[i])
    ensures r.Ok? ==> |r.value| == |resources.items|
                      && forall i :: 0 <= i < |r.value| ==> Ok(r.value[i]) == ToEntity(resources.items[i])
  {
    if resources.Arr? then MapResult(resources.items, ToEntity) else Err(TypeError)
  }
}
