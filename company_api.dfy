/** The company dashboard's service (src/contexts/company/services/company.api-service.js):
    it joins a company's machines with the equipment they point to, and the maintenance
    requests on that equipment with the users who made them. The server is a parameter;
    a failed user lookup is tolerated, every other failure is passed on. */
module CompanyApi {
  import opened JsValues
  import opened Http

  const MaintenanceRequests := GetRequest("/maintenanceRequests")

  /** The query for a company's active machines. */
  function CompanyMachinesRequest(companyId: JsValue): Request {
    Request(GET, "/companyMachines", map["companyId" := companyId, "active" := Bool(true)], Undef)
  }

  function EquipmentRequest(id: JsValue): Request {
    GetRequest("/equipment/" + ToStr(id))
  }

  function UserRequest(userId: JsValue): Request {
    GetRequest("/users/" + ToStr(userId))
  }

  /** `v.length` on a truthy value: an array's or a string's length, an object's own
      `length` property, and undefined for other values. */
  function Length(v: JsValue): JsValue {
    match v
    case Arr(xs) => Num(|xs|)
    case Str(s) => Num(|s|)
    case Obj(m) => Get(m, "length")
    case _ => Undef
  }

  /** A property read `v.k` as a callback, which throws on null or undefined. */
  function Read(k: string, v: JsValue): (r: Result<JsValue>)
    ensures r.Err? <==> Nullish(v)
    ensures r.Ok? ==> r.value == Field(v, k)
  {
    match Props(v)
    case Err(e) => Err(e)
    case Ok(m) => Ok(Get(m, k))
  }

  // ---------------------------------------------------------------------------
  // getCompanyEquipment

  /** The equipment ids of a list of company machines, read without throwing. */
  function EquipmentIds(machines: seq<JsValue>): (ids: seq<JsValue>)
    ensures |ids| == |machines| && forall i :: 0 <= i < |machines| ==> ids[i] == Field(machines[i], "equipmentId")
  {
    seq(|machines|, i requires 0 <= i < |machines| => Field(machines[i], "equipmentId"))
  }

  /** `getCompanyEquipment(companyId)`: the company's machines, then one equipment fetch
      per machine. A null, falsy or empty machine list gives `[]`; anything else that is
      not an array throws, as does a null machine or any failed fetch. */
  function GetCompanyEquipment(http: Client, companyId: JsValue): (r: Result<seq<JsValue>>)
    ensures http(CompanyMachinesRequest(companyId)).Err? ==> r == Err(http(CompanyMachinesRequest(companyId)).error)
    ensures http(CompanyMachinesRequest(companyId)).Ok? ==>
              var machines := http(CompanyMachinesRequest(companyId)).value;
              && (!Truthy(machines) || StrictEq(Length(machines), Num(0)) ==> r == Ok([]))
              && (Truthy(machines) && !StrictEq(Length(machines), Num(0)) && !machines.Arr? ==> r == Err(TypeError))
              && (Truthy(machines) && machines.Arr? && |machines.items| > 0 ==>
                    (r.Ok? <==> && (forall i :: 0 <= i < |machines.items| ==> !Nullish(machines.items[i]))
                                && (forall i :: 0 <= i < |machines.items| ==>
                                      http(EquipmentRequest(EquipmentIds(machines.items)[i])).Ok?)))
    ensures r.Ok? && |r.value| > 0 ==>
              var machines := http(CompanyMachinesRequest(companyId)).value;
              && machines.Arr? && |r.value| == |machines.items|
              && forall i :: 0 <= i < |r.value| ==> Ok(r.value[i]) == http(EquipmentRequest(EquipmentIds(machines.items)[i]))
  {
    match http(CompanyMachinesRequest(companyId))
    case Err(e) => Err(e)
    case Ok(machines) =>
      if !Truthy(machines) || StrictEq(Length(machines), Num(0)) then Ok([])
      else if !machines.Arr? then Err(TypeError)
      else
        match MapResult(machines.items, cm => Read("equipmentId", cm))
        case Err(e) => Err(e)
        case Ok(ids) =>
          assert ids == EquipmentIds(machines.items);
          MapResult(ids, id => http(EquipmentRequest(id)))
  }

  /** A company whose machine list is empty has no equipment, and no equipment is
      fetched. */
  lemma NoMachinesNoEquipment(http: Client, companyId: JsValue)
    requires http(CompanyMachinesRequest(companyId)) == Ok(Arr([]))
             || http(CompanyMachinesRequest(companyId)) == Ok(Null)
    ensures GetCompanyEquipment(http, companyId) == Ok([])
  {
  }

  // ---------------------------------------------------------------------------
  // getCompanyMaintenanceRequests

  /** The callback `req => equipmentIds.includes(req.equipmentId)`. */
  function OnEquipment(ids: seq<JsValue>, req: JsValue): (r: Result<bool>)
    ensures r.Err? <==> Nullish(req)
    ensures r == Ok(true) <==> !Nullish(req) && Includes(ids, Field(req, "equipmentId"))
  {
    match Props(req)
    case Err(e) => Err(e)
    case Ok(m) => Ok(Includes(ids, Get(m, "equipmentId")))
  }

  /** The filter step: the requests on one of the given equipment ids. It throws when
      the data is not an array or holds a null or undefined request. */
  function CompanyRequests(ids: seq<JsValue>, data: JsValue): (r: Result<seq<JsValue>>)
    ensures r.Ok? <==> data.Arr? && forall i :: 0 <= i < |data.items| ==> !Nullish(data.items[i])
    ensures r.Ok? ==> |r.value| <= |data.items|
    ensures r.Ok? ==> forall x :: x in r.value <==>
                        x in data.items && !Nullish(x) && Includes(ids, Field(x, "equipmentId"))
  {
    var r := FilterArray(data, req => OnEquipment(ids, req));
    if r.Ok? then FilterResultMembers(data.items, req => OnEquipment(ids, req)); r else r
  }

  /** The kept requests stay in their original order. */
  lemma CompanyRequestsOrder(ids: seq<JsValue>, xs: seq<JsValue>, ys: seq<JsValue>)
    requires CompanyRequests(ids, Arr(xs)).Ok? && CompanyRequests(ids, Arr(ys)).Ok?
    ensures CompanyRequests(ids, Arr(xs + ys)) == Ok(CompanyRequests(ids, Arr(xs)).value + CompanyRequests(ids, Arr(ys)).value)
  {
    FilterResultAppend(xs, ys, req => OnEquipment(ids, req));
  }

  /** The ids of the company's equipment, read without throwing. */
  function Ids(equipment: seq<JsValue>): (ids: seq<JsValue>)
    ensures |ids| == |equipment| && forall i :: 0 <= i < |equipment| ==> ids[i] == Field(equipment[i], "id")
  {
    seq(|equipment|, i requires 0 <= i < |equipment| => Field(equipment[i], "id"))
  }

  /** What the enrichment starts from: the company's equipment and the requests on it. */
  datatype Scope = Scope(equipment: seq<JsValue>, requests: seq<JsValue>)

  /** The steps of `getCompanyMaintenanceRequests` before the enrichment. With no
      equipment the maintenance list is not fetched and there is nothing to enrich; a
      null equipment record makes `e.id` throw. */
  function CompanyScope(http: Client, companyId: JsValue): (r: Result<Scope>)
    ensures GetCompanyEquipment(http, companyId).Err? ==> r == Err(GetCompanyEquipment(http, companyId).error)
    ensures GetCompanyEquipment(http, companyId) == Ok([]) ==> r == Ok(Scope([], []))
    ensures r.Ok? ==> Ok(r.value.equipment) == GetCompanyEquipment(http, companyId)
                      && forall i :: 0 <= i < |r.value.equipment| ==> !Nullish(r.value.equipment[i])
    ensures r.Ok? && |r.value.equipment| > 0 ==>
              && http(MaintenanceRequests).Ok?
              && Ok(r.value.requests) == CompanyRequests(Ids(r.value.equipment), http(MaintenanceRequests).value)
    ensures GetCompanyEquipment(http, companyId).Ok? ==>
              var equipment := GetCompanyEquipment(http, companyId).value;
              && ((exists i :: 0 <= i < |equipment| && Nullish(equipment[i])) ==> r == Err(TypeError))
              && (((forall i :: 0 <= i < |equipment| ==> !Nullish(equipment[i])) && |equipment| > 0
                   && http(MaintenanceRequests).Err?) ==> r == Err(http(MaintenanceRequests).error))
    ensures GetCompanyEquipment(http, companyId).Ok? && |GetCompanyEquipment(http, companyId).value| > 0
            && (forall i :: 0 <= i < |GetCompanyEquipment(http, companyId).value| ==>
                  !Nullish(GetCompanyEquipment(http, companyId).value[i]))
            && http(MaintenanceRequests).Ok?
            && CompanyRequests(Ids(GetCompanyEquipment(http, companyId).value), http(MaintenanceRequests).value).Ok?
            ==> r.Ok?
  {
    match GetCompanyEquipment(http, companyId)
    case Err(e) => Err(e)
    case Ok(equipment) =>
      match MapResult(equipment, e => Read("id", e))
      case Err(e) => Err(e)
      case Ok(ids) =>
        assert ids == Ids(equipment);
        if |ids| == 0 then Ok(Scope(equipment, []))
        else
          match http(MaintenanceRequests)
          case Err(e) => Err(e)
          case Ok(all) =>
            match CompanyRequests(ids, all)
            case Err(e) => Err(e)
            case Ok(requests) => Ok(Scope(equipment, requests))
  }

  /** `equipment.find(e => e.id === req.equipmentId)`: the first equipment record with
      that id, undefined when there is none. */
  function EquipmentFor(equipment: seq<JsValue>, req: JsValue): JsValue {
    match Find(equipment, e => StrictEq(Field(e, "id"), Field(req, "equipmentId")))
    case None => Undef
    case Some(e) => e
  }

  /** The equipment found is the first record whose id is strictly equal to the request's
      equipment id; among records that are not null or undefined, none matching means
      undefined. */
  lemma EquipmentForIsFirstMatch(equipment: seq<JsValue>, req: JsValue)
    ensures var r := EquipmentFor(equipment, req);
            && ((forall i :: 0 <= i < |equipment| ==> !Nullish(equipment[i])) ==>
                  (r.Undef? <==> forall i :: 0 <= i < |equipment| ==> !StrictEq(Field(equipment[i], "id"), Field(req, "equipmentId"))))
            && (!r.Undef? ==> exists i :: 0 <= i < |equipment| && equipment[i] == r
                                          && StrictEq(Field(r, "id"), Field(req, "equipmentId"))
                                          && forall j :: 0 <= j < i ==> !StrictEq(Field(equipment[j], "id"), Field(req, "equipmentId")))
  {
  }

  /** The user fetched for a request, or null when the lookup fails. */
  function ClientFor(http: Client, req: JsValue): (r: JsValue)
    ensures http(UserRequest(Field(req, "userId"))).Ok? ==> r == http(UserRequest(Field(req, "userId"))).value
    ensures http(UserRequest(Field(req, "userId"))).Err? ==> r == Null
  {
    BestEffortOr(http(UserRequest(Field(req, "userId"))), Null)
  }

  /** `{...req, equipment: equipmentData, client: userData}` */
  function Enrich(http: Client, equipment: seq<JsValue>, req: JsValue): JsValue {
    Obj(Spread(req)["equipment" := EquipmentFor(equipment, req)]["client" := ClientFor(http, req)])
  }

  /** An enriched record holds every property of the request, plus its equipment and its
      client (the fetched user, or null when the lookup failed). */
  lemma EnrichedRecord(http: Client, equipment: seq<JsValue>, req: JsValue)
    ensures var r := Enrich(http, equipment, req);
            && r.Obj? && r.props.Keys == Spread(req).Keys + {"equipment", "client"}
            && (forall k :: k in Spread(req) && k != "equipment" && k != "client" ==> r.props[k] == Spread(req)[k])
            && r.props["equipment"] == EquipmentFor(equipment, req)
            && (http(UserRequest(Field(req, "userId"))).Ok? ==> r.props["client"] == http(UserRequest(Field(req, "userId"))).value)
            && (http(UserRequest(Field(req, "userId"))).Err? ==> r.props["client"] == Null)
  {
  }

  /** The `Promise.all` over the kept requests: each request is enriched in turn, its
      user lookup caught so that a failure leaves `client` null. */
  method EnrichAll(http: Client, equipment: seq<JsValue>, requests: seq<JsValue>) returns (enriched: seq<JsValue>)
    ensures |enriched| == |requests|
    ensures forall i :: 0 <= i < |requests| ==> enriched[i] == Enrich(http, equipment, requests[i])
  {
    enriched := [];
    var i := 0;
    while i < |requests|
      invariant 0 <= i <= |requests| && |enriched| == i
      invariant forall j :: 0 <= j < i ==> enriched[j] == Enrich(http, equipment, requests[j])
    {
      var req := requests[i];
      var equipmentData := EquipmentFor(equipment, req);
      var userData := Null;
      var userResponse := http(UserRequest(Field(req, "userId")));
      if userResponse.Ok? {
        userData := userResponse.value;
      }
      var record := Obj(Spread(req)["equipment" := equipmentData]["client" := userData]);
      assert userData == ClientFor(http, req);
      assert record == Enrich(http, equipment, req);
      enriched := enriched + [record];
      i := i + 1;
    }
  }

  /** `getCompanyMaintenanceRequests(companyId)`: every request on the company's
      equipment, in order, with its equipment and its client. A failed user lookup
      leaves that one record's client null; every other failure is passed on. */
  method GetCompanyMaintenanceRequests(http: Client, companyId: JsValue) returns (r: Result<seq<JsValue>>)
    ensures CompanyScope(http, companyId).Err? ==> r == Err(CompanyScope(http, companyId).error)
    ensures CompanyScope(http, companyId).Ok? ==>
              var scope := CompanyScope(http, companyId).value;
              && r.Ok? && |r.value| == |scope.requests|
              && forall i :: 0 <= i < |scope.requests| ==> r.value[i] == Enrich(http, scope.equipment, scope.requests[i])
  {
    var scope := CompanyScope(http, companyId);
    if scope.Err? {
      return Err(scope.error);
    }
    var enriched := EnrichAll(http, scope.value.equipment, scope.value.requests);
    return Ok(enriched);
  }

  /** A record depends on its own user lookup only: two servers that answer that lookup
      alike give the same record, whatever they answer for other users. */
  lemma LookupIsolated(h1: Client, h2: Client, equipment: seq<JsValue>, req: JsValue)
    requires h1(UserRequest(Field(req, "userId"))) == h2(UserRequest(Field(req, "userId")))
    ensures Enrich(h1, equipment, req) == Enrich(h2, equipment, req)
  {
  }

  /** A kept request whose equipment id is not NaN finds its equipment: the record is
      one of the company's, with that id. (`includes` matches NaN, `===` does not.) */
  lemma KeptRequestFindsEquipment(equipment: seq<JsValue>, req: JsValue)
    requires forall i :: 0 <= i < |equipment| ==> !Nullish(equipment[i])
    requires OnEquipment(Ids(equipment), req) == Ok(true) && !Field(req, "equipmentId").NaN?
    ensures EquipmentFor(equipment, req) in equipment
    ensures StrictEq(Field(EquipmentFor(equipment, req), "id"), Field(req, "equipmentId"))
  {
    var ids := Ids(equipment);
    var j :| 0 <= j < |ids| && SameValueZero(ids[j], Field(req, "equipmentId"));
    assert StrictEq(Field(equipment[j], "id"), Field(req, "equipmentId"));
  }
}
