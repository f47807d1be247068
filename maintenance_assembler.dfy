/** Conversion between maintenance resources, form data and `MaintenanceRequest` entities
    (src/contexts/maintenance/Domain/maintenance.assembler.js). */
module MaintenanceAssembler {
  import opened JsValues
  import opened MaintenanceEntity

  /** `toEntityFromResource(resource)`: the constructor applied to the resource itself. */
  function ToEntityFromResource(resource: JsValue): (r: Result<MaintenanceRequest>)
    ensures r.Err? <==> Nullish(resource)
    ensures r.Ok? ==> forall p :: !Get(Props(resource).value, PropName(p)).Undef?
                                  ==> Value(r.value, p) == Get(Props(resource).value, PropName(p))
    ensures r.Ok? ==> forall p :: Get(Props(resource).value, PropName(p)).Undef? ==> Value(r.value, p) == DefaultOf(p)
  {
    var r := NewMaintenanceRequest(resource);
    if r.Ok? then Construction(resource); r else r
  }

  /** `toEntityListFromResources(resources)`: `[]` for anything that is not an array;
      otherwise the entities of the elements, in order (a null or undefined element
      makes the constructor throw). */
  function ToEntityListFromResources(resources: JsValue): (r: Result<seq<MaintenanceRequest>>)
    ensures !resources.Arr? ==> r == Ok([])
    ensures resources.Arr? ==>
              (r.Ok? <==> forall i :: 0 <= i < |resources.items| ==> !Nullish(resources.items[i]))
    ensures resources.Arr? && r.Ok? ==>
              |r.value| == |resources.items|
              && forall i :: 0 <= i < |r.value| ==> Ok(r.value[i]) == ToEntityFromResource(resources.items[i])
  {
    if !resources.Arr? then Ok([]) else MapResult(resources.items, ToEntityFromResource)
  }

  /** `toCreateResource(formData)`: the request body for a new maintenance request.
      `now` stands for `new Date().toISOString()`. Reading a property of a null or
      undefined form throws. */
  function ToCreateResource(formData: JsValue, now: string): (r: Result<Bag>)
    ensures r.Err? <==> Nullish(formData)
    ensures r.Ok? ==> r.value.Keys == {"userId", "equipmentId", "type", "status", "costUSD", "selectedDate",
                                       "createdAt", "notes", "assignedTechnicianId"}
  {
    match Props(formData)
    case Err(e) => Err(e)
    case Ok(form) =>
      Ok(map[
        "userId" := Get(form, "userId"),
        "equipmentId" := Get(form, "equipmentId"),
        "type" := Or(Get(form, "type"), Str("corrective")),
        "status" := Str("pending"),
        "costUSD" := Get(form, "costUSD"),
        "selectedDate" := Get(form, "selectedDate"),
        "createdAt" := Str(now),
        "notes" := Or(Get(form, "notes"), Str("")),
        "assignedTechnicianId" := Null
      ])
  }

  /** Whatever the form holds, a new request is pending with no technician; its type is
      'corrective' and its notes empty when the form's are falsy; user, equipment, cost
      and date are the form's own values. */
  lemma CreateResourceContents(formData: JsValue, now: string)
    requires !Nullish(formData)
    ensures var form := Props(formData).value;
            var body := ToCreateResource(formData, now).value;
            && Get(body, "status") == Str("pending")
            && Get(body, "assignedTechnicianId") == Null
            && (Truthy(Get(form, "type")) ==> Get(body, "type") == Get(form, "type"))
            && (!Truthy(Get(form, "type")) ==> Get(body, "type") == Str("corrective"))
            && (Truthy(Get(form, "notes")) ==> Get(body, "notes") == Get(form, "notes"))
            && (!Truthy(Get(form, "notes")) ==> Get(body, "notes") == Str(""))
  {
  }

  lemma CreateResourceCopies(formData: JsValue, now: string)
    requires !Nullish(formData)
    ensures var form := Props(formData).value;
            var body := ToCreateResource(formData, now).value;
            && Get(body, "userId") == Get(form, "userId")
            && Get(body, "equipmentId") == Get(form, "equipmentId")
            && Get(body, "costUSD") == Get(form, "costUSD")
            && Get(body, "selectedDate") == Get(form, "selectedDate")
            && Get(body, "createdAt") == Str(now)
  {
  }

  /** A request built from a create payload is pending, not completed, and has no
      technician. */
  lemma CreatedRequestIsPending(formData: JsValue, now: string)
    requires !Nullish(formData)
    ensures var m := ToEntityFromResource(Obj(ToCreateResource(formData, now).value)).value;
            IsPending(m) && !IsCompleted(m) && !HasTechnician(m)
  {
    CreateResourceContents(formData, now);
    var body := ToCreateResource(formData, now).value;
    ConstructionAt(body, Status);
    ConstructionAt(body, AssignedTechnicianId);
  }

  /** `toEquipmentOption(equipment)`: `{id, label}`, the label being the equipment's name
      or 'Unknown Equipment' when the name is falsy. */
  function ToEquipmentOption(equipment: JsValue): (r: Result<Bag>)
    ensures r.Err? <==> Nullish(equipment)
    ensures r.Ok? ==> r.value.Keys == {"id", "label"}
    ensures r.Ok? ==> Get(r.value, "id") == Field(equipment, "id")
    ensures r.Ok? && Truthy(Field(equipment, "name")) ==> Get(r.value, "label") == Field(equipment, "name")
    ensures r.Ok? && !Truthy(Field(equipment, "name")) ==> Get(r.value, "label") == Str("Unknown Equipment")
  {
    match Props(equipment)
    case Err(e) => Err(e)
    case Ok(eq) => Ok(map["id" := Get(eq, "id"), "label" := Or(Get(eq, "name"), Str("Unknown Equipment"))])
  }

  /** `toEquipmentOptions(equipmentList)`: `[]` for anything that is not an array,
      otherwise one option per element, in order. */
  function ToEquipmentOptions(equipmentList: JsValue): (r: Result<seq<Bag>>)
    ensures !equipmentList.Arr? ==> r == Ok([])
    ensures equipmentList.Arr? ==>
              (r.Ok? <==> forall i :: 0 <= i < |equipmentList.items| ==> !Nullish(equipmentList.items[i]))
    ensures equipmentList.Arr? && r.Ok? ==>
              |r.value| == |equipmentList.items|
              && forall i :: 0 <= i < |r.value| ==> Ok(r.value[i]) == ToEquipmentOption(equipmentList.items[i])
  {
    if !equipmentList.Arr? then Ok([]) else MapResult(equipmentList.items, ToEquipmentOption)
  }
}
