/** The provider dashboard's service
    (src/contexts/provider/infrastructure/provider-api.service.js): what it does to the
    lists the server sends back (filters, de-duplication of clients, the `clientId`
    mapping) and its failure policy: every read turns a failure into `[]`, every write
    hands the failure on. */
module ProviderApi {
  import opened JsValues
  import opened Http

  const RentalRequests := GetRequest("/rentalRequests")
  const MaintenanceRequests := GetRequest("/maintenanceRequests")

  /** The catch-all of a list read: the pipeline's result, or `[]` when a step threw. */
  function OrEmpty(r: Result<seq<JsValue>>): seq<JsValue> {
    match r
    case Ok(xs) => xs
    case Err(_) => []
  }

  // ---------------------------------------------------------------------------
  // getPendingRentalRequests

  /** The callback `request => request.status === 'pending'`. */
  function IsPendingRental(request: JsValue): (r: Result<bool>)
    ensures r.Err? <==> Nullish(request)
    ensures r == Ok(true) <==> Field(request, "status") == Str("pending")
  {
    match Props(request)
    case Err(e) => Err(e)
    case Ok(m) => Ok(StrictEq(Get(m, "status"), Str("pending")))
  }

  /** The filter step of `getPendingRentalRequests`: the requests whose status is exactly
      'pending'. It throws when the data is not an array or holds a null or undefined
      request. */
  function PendingRentals(data: JsValue): (r: Result<seq<JsValue>>)
    ensures r.Ok? <==> data.Arr? && forall i :: 0 <= i < |data.items| ==> !Nullish(data.items[i])
    ensures r.Ok? ==> |r.value| <= |data.items|
    ensures r.Ok? ==> forall x :: x in r.value <==> x in data.items && Field(x, "status") == Str("pending")
  {
    var r := FilterArray(data, IsPendingRental);
    if r.Ok? then FilterResultMembers(data.items, IsPendingRental); r else r
  }

  /** `getPendingRentalRequests()` */
  function GetPendingRentalRequests(http: Client): (r: seq<JsValue>)
    ensures http(RentalRequests).Err? ==> r == []
    ensures http(RentalRequests).Ok? && PendingRentals(http(RentalRequests).value).Err? ==> r == []
    ensures http(RentalRequests).Ok? && PendingRentals(http(RentalRequests).value).Ok? ==>
              r == PendingRentals(http(RentalRequests).value).value
    ensures forall x :: x in r ==> Field(x, "status") == Str("pending")
  {
    match http(RentalRequests)
    case Err(_) => []
    case Ok(data) => OrEmpty(PendingRentals(data))
  }

  /** The pending requests keep their order: filtering two runs of requests one after
      the other yields the pending ones of the first run, then those of the second. */
  lemma PendingRentalsOrder(xs: seq<JsValue>, ys: seq<JsValue>)
    requires PendingRentals(Arr(xs)).Ok? && PendingRentals(Arr(ys)).Ok?
    ensures PendingRentals(Arr(xs + ys)) == Ok(PendingRentals(Arr(xs)).value + PendingRentals(Arr(ys)).value)
  {
    FilterResultAppend(xs, ys, IsPendingRental);
  }

  /** Filtering again changes nothing: the result holds pending requests only. */
  lemma PendingRentalsIdempotent(data: JsValue)
    requires PendingRentals(data).Ok?
    ensures PendingRentals(Arr(PendingRentals(data).value)) == PendingRentals(data)
  {
    var kept := PendingRentals(data).value;
    assert forall i :: 0 <= i < |kept| ==> IsPendingRental(kept[i]) == Ok(true) by {
      forall i | 0 <= i < |kept| ensures IsPendingRental(kept[i]) == Ok(true) {
        assert kept[i] in kept;
      }
    }
    FilterResultAllKept(kept, IsPendingRental);
  }

  // ---------------------------------------------------------------------------
  // getMyClients

  /** `parseInt(localStorage.getItem('userId'))`: NaN when no id is stored, since the
      text "null" holds no digit. */
  function ProviderId(userId: Option<string>): (r: JsValue)
    ensures IsNumber(r)
    ensures userId.None? ==> r == NaN
  {
    var t := ToStr(Stored(userId));
    assert userId.None? ==> TrimStart(t) == t && DigitPrefix(t) == "";
    ParseInt(t)
  }

  /** An id stored as the decimal text of a number reads back as that number. */
  lemma StoredProviderId(n: int)
    ensures ProviderId(Some(IntToStr(n))) == Num(n)
  {
    ParseIntOfIntToStr(n);
  }

  /** The callback `req => req.status === 'approved' && req.providerId === providerId`. */
  function IsApprovedFor(providerId: JsValue, req: JsValue): (r: Result<bool>)
    ensures r.Err? <==> Nullish(req)
    ensures r == Ok(true) <==> Field(req, "status") == Str("approved") && StrictEq(Field(req, "providerId"), providerId)
  {
    match Props(req)
    case Err(e) => Err(e)
    case Ok(m) => Ok(StrictEq(Get(m, "status"), Str("approved")) && StrictEq(Get(m, "providerId"), providerId))
  }

  /** The filter step of `getMyClients`: the approved requests of this provider. */
  function Approved(data: JsValue, providerId: JsValue): (r: Result<seq<JsValue>>)
    ensures r.Ok? <==> data.Arr? && forall i :: 0 <= i < |data.items| ==> !Nullish(data.items[i])
    ensures r.Ok? ==> forall x :: x in r.value <==>
                        x in data.items && Field(x, "status") == Str("approved")
                        && StrictEq(Field(x, "providerId"), providerId)
  {
    var r := FilterArray(data, req => IsApprovedFor(providerId, req));
    if r.Ok? then FilterResultMembers(data.items, req => IsApprovedFor(providerId, req)); r else r
  }

  /** With no stored user id the provider id is NaN, which `===` never matches: no request
      is this provider's. */
  lemma NoStoredIdNoApprovals(data: JsValue)
    requires Approved(data, ProviderId(None)).Ok?
    ensures Approved(data, ProviderId(None)).value == []
  {
    assert ProviderId(None) == NaN;
    FilterResultNoneKept(data.items, req => IsApprovedFor(NaN, req));
  }

  /** The entry `{id, email, date}` recorded for a request's client. `dateText` stands for
      `new Date(v).toLocaleDateString('en-GB')`. */
  function ClientEntry(req: JsValue, dateText: JsValue -> string): (r: Bag)
    ensures r.Keys == {"id", "email", "date"}
    ensures r["id"] == Field(req, "clientId")
    ensures Truthy(Field(req, "clientEmail")) ==> r["email"] == Field(req, "clientEmail")
    ensures !Truthy(Field(req, "clientEmail")) ==> r["email"] == Str("Client #" + ToStr(Field(req, "clientId")))
    ensures r["date"] == Str(dateText(Field(req, "updatedDate")))
  {
    var clientId := Field(req, "clientId");
    map[
      "id" := clientId,
      "email" := Or(Field(req, "clientEmail"), Str("Client #" + ToStr(clientId))),
      "date" := Str(dateText(Field(req, "updatedDate")))
    ]
  }

  /** A JavaScript `Map`: its keys and its values, in insertion order. */
  datatype ClientMap = ClientMap(keys: seq<JsValue>, values: seq<Bag>)

  function ClientKey(req: JsValue): JsValue {
    Field(req, "clientId")
  }

  /** The map `clientsMap` after the `forEach` has visited `reqs`: a request whose client
      id the map already has (`has` compares with SameValueZero) adds nothing. */
  function ClientsMap(reqs: seq<JsValue>, dateText: JsValue -> string): (m: ClientMap)
    ensures |m.keys| == |m.values|
    decreases |reqs|
  {
    if |reqs| == 0 then ClientMap([], [])
    else
      var m := ClientsMap(reqs[..|reqs| - 1], dateText);
      var req := reqs[|reqs| - 1];
      if Includes(m.keys, ClientKey(req)) then m
      else ClientMap(m.keys + [ClientKey(req)], m.values + [ClientEntry(req, dateText)])
  }

  /** `getMyClients()`: the client entries of this provider's approved requests, one per
      client, or `[]` when anything fails. */
  method GetMyClients(http: Client, userId: Option<string>, dateText: JsValue -> string)
    returns (clients: seq<Bag>)
    ensures http(RentalRequests).Err? ==> clients == []
    ensures http(RentalRequests).Ok? ==>
              var approved := Approved(http(RentalRequests).value, ProviderId(userId));
              && (approved.Err? ==> clients == [])
              && (approved.Ok? ==> clients == ClientsMap(approved.value, dateText).values)
  {
    var providerId := ProviderId(userId);
    var response := http(RentalRequests);
    if response.Err? {
      return [];
    }
    var approved := Approved(response.value, providerId);
    if approved.Err? {
      return [];
    }
    var reqs := approved.value;
    var keys: seq<JsValue> := [];
    clients := [];
    var i := 0;
    while i < |reqs|
      invariant 0 <= i <= |reqs|
      invariant ClientMap(keys, clients) == ClientsMap(reqs[..i], dateText)
    {
      var req := reqs[i];
      if !Includes(keys, ClientKey(req)) {
        keys := keys + [ClientKey(req)];
        clients := clients + [ClientEntry(req, dateText)];
      }
      assert reqs[..i + 1][..i] == reqs[..i];
      i := i + 1;
    }
    assert reqs[..|reqs|] == reqs;
  }

  /** No two keys are SameValueZero-equal. */
  predicate DistinctKeys(keys: seq<JsValue>) {
    forall i, j :: 0 <= i < j < |keys| ==> !SameValueZero(keys[i], keys[j])
  }

  /** No two entries share a client id. */
  lemma {:induction false} ClientsDistinct(reqs: seq<JsValue>, dateText: JsValue -> string)
    ensures DistinctKeys(ClientsMap(reqs, dateText).keys)
    decreases |reqs|
  {
    if |reqs| > 0 {
      var init := reqs[..|reqs| - 1];
      ClientsDistinct(init, dateText);
      var m0 := ClientsMap(init, dateText);
      var m := ClientsMap(reqs, dateText);
      var k := ClientKey(reqs[|reqs| - 1]);
      if !Includes(m0.keys, k) {
        assert m.keys == m0.keys + [k];
        forall i, j | 0 <= i < j < |m.keys| ensures !SameValueZero(m.keys[i], m.keys[j]) {
          if j < |m0.keys| {
            assert m.keys[i] == m0.keys[i] && m.keys[j] == m0.keys[j];
          } else {
            assert m.keys[i] == m0.keys[i] && m.keys[j] == k;
          }
        }
      }
    }
  }

  /** Every request's client id is among the keys. */
  lemma {:induction false} ClientsCover(reqs: seq<JsValue>, dateText: JsValue -> string)
    ensures forall i :: 0 <= i < |reqs| ==> ClientKey(reqs[i]) in ClientsMap(reqs, dateText).keys
    decreases |reqs|
  {
    if |reqs| > 0 {
      var init := reqs[..|reqs| - 1];
      ClientsCover(init, dateText);
      var m := ClientsMap(init, dateText);
      var k := ClientKey(reqs[|reqs| - 1]);
      if Includes(m.keys, k) {
        var j :| 0 <= j < |m.keys| && SameValueZero(m.keys[j], k);
        assert m.keys[j] == k;
      }
      forall i | 0 <= i < |reqs| - 1 ensures ClientKey(reqs[i]) in ClientsMap(reqs, dateText).keys {
        assert reqs[i] == init[i];
      }
    }
  }

  /** No request before the `i`-th has a client id equal to its one. */
  predicate FirstOfClient(reqs: seq<JsValue>, i: nat)
    requires i < |reqs|
  {
    forall h :: 0 <= h < i ==> !SameValueZero(ClientKey(reqs[h]), ClientKey(reqs[i]))
  }

  /** Entry `j` of the map was built from request `i`. */
  predicate BuiltFrom(m: ClientMap, j: nat, reqs: seq<JsValue>, i: nat, dateText: JsValue -> string)
    requires j < |m.keys| == |m.values| && i < |reqs|
  {
    m.keys[j] == ClientKey(reqs[i]) && m.values[j] == ClientEntry(reqs[i], dateText)
  }

  /** The entry a request adds when its client is new was built from the first request of
      that client. */
  lemma NewClientIsFirst(reqs: seq<JsValue>, dateText: JsValue -> string)
    requires |reqs| > 0
    requires !Includes(ClientsMap(reqs[..|reqs| - 1], dateText).keys, ClientKey(reqs[|reqs| - 1]))
    ensures FirstOfClient(reqs, |reqs| - 1)
  {
    var n := |reqs| - 1;
    var init := reqs[..n];
    var m0 := ClientsMap(init, dateText);
    ClientsCover(init, dateText);
    forall h | 0 <= h < n ensures !SameValueZero(ClientKey(reqs[h]), ClientKey(reqs[n])) {
      assert reqs[h] == init[h];
      var jh :| 0 <= jh < |m0.keys| && m0.keys[jh] == ClientKey(init[h]);
    }
  }

  /** Entry `j` of the map was built from the first request of its client. */
  predicate FromFirstOfClient(m: ClientMap, j: nat, reqs: seq<JsValue>, dateText: JsValue -> string)
    requires j < |m.keys| == |m.values|
  {
    exists i :: 0 <= i < |reqs| && BuiltFrom(m, j, reqs, i, dateText) && FirstOfClient(reqs, i)
  }

  /** The first request of each client wins: every entry was built from a request whose
      client id no earlier request shares. */
  lemma {:induction false} FirstOccurrenceWins(reqs: seq<JsValue>, dateText: JsValue -> string)
    ensures forall j :: 0 <= j < |ClientsMap(reqs, dateText).keys| ==>
              FromFirstOfClient(ClientsMap(reqs, dateText), j, reqs, dateText)
    decreases |reqs|
  {
    if |reqs| > 0 {
      var n := |reqs| - 1;
      var init := reqs[..n];
      FirstOccurrenceWins(init, dateText);
      var m0 := ClientsMap(init, dateText);
      var m := ClientsMap(reqs, dateText);
      forall j | 0 <= j < |m.keys| ensures FromFirstOfClient(m, j, reqs, dateText) {
        if j < |m0.keys| {
          assert FromFirstOfClient(m0, j, init, dateText);
          var i :| 0 <= i < |init| && BuiltFrom(m0, j, init, i, dateText) && FirstOfClient(init, i);
          assert init[i] == reqs[i];
          assert forall h :: 0 <= h < i ==> init[h] == reqs[h];
          assert BuiltFrom(m, j, reqs, i, dateText);
        } else {
          NewClientIsFirst(reqs, dateText);
          assert BuiltFrom(m, j, reqs, n, dateText);
        }
      }
    }
  }

  /** Entries follow first-occurrence order: the map built from a run of requests is the
      start of the map built from that run followed by more requests. */
  lemma {:induction false} ClientsPrefix(xs: seq<JsValue>, ys: seq<JsValue>, dateText: JsValue -> string)
    ensures var m := ClientsMap(xs, dateText);
            var m' := ClientsMap(xs + ys, dateText);
            |m.keys| <= |m'.keys| && m'.keys[..|m.keys|] == m.keys && m'.values[..|m.values|] == m.values
    decreases |ys|
  {
    if |ys| == 0 {
      assert xs + ys == xs;
    } else {
      var ys0 := ys[..|ys| - 1];
      ClientsPrefix(xs, ys0, dateText);
      assert (xs + ys)[..|xs + ys| - 1] == xs + ys0;
      var m := ClientsMap(xs, dateText);
      var m0 := ClientsMap(xs + ys0, dateText);
      var m' := ClientsMap(xs + ys, dateText);
      assert m'.keys[..|m0.keys|] == m0.keys;
      assert m'.values[..|m0.values|] == m0.values;
      assert m'.keys[..|m.keys|] == m0.keys[..|m.keys|];
      assert m'.values[..|m.values|] == m0.values[..|m.values|];
    }
  }

  // ---------------------------------------------------------------------------
  // getPendingMaintenanceRequests

  /** The filter callback of `getPendingMaintenanceRequests`: a truthy status is
      lower-cased, which throws when it is not a string. */
  function IsOpenMaintenance(request: JsValue): (r: Result<bool>)
    ensures r.Err? <==> Nullish(request)
                        || (Truthy(Field(request, "status")) && !Field(request, "status").Str?)
    ensures r == Ok(true) <==> Field(request, "status").Str?
                               && Lower(Field(request, "status").s) == "pending"
                               && !Truthy(Field(request, "assignedToProviderId"))
  {
    match Props(request)
    case Err(e) => Err(e)
    case Ok(m) =>
      var status := Get(m, "status");
      if !Truthy(status) then Ok(false)
      else if !status.Str? then Err(TypeError)
      else Ok(Lower(status.s) == "pending" && !Truthy(Get(m, "assignedToProviderId")))
  }

  /** `{...req, clientId: req.requestedByUserId || req.clientId || null}`: every property
      of the request, with `clientId` the first truthy of the two ids, or null. */
  function WithClientId(req: JsValue): (r: JsValue)
    ensures r.Obj? && r.props.Keys == Spread(req).Keys + {"clientId"}
    ensures forall k :: k in Spread(req) && k != "clientId" ==> r.props[k] == Spread(req)[k]
    ensures Truthy(Field(req, "requestedByUserId")) ==> r.props["clientId"] == Field(req, "requestedByUserId")
    ensures !Truthy(Field(req, "requestedByUserId")) ==>
              && (Truthy(Field(req, "clientId")) ==> r.props["clientId"] == Field(req, "clientId"))
              && (!Truthy(Field(req, "clientId")) ==> r.props["clientId"] == Null)
  {
    Obj(Spread(req)["clientId" := Or(Or(Field(req, "requestedByUserId"), Field(req, "clientId")), Null)])
  }

  /** The filter and map steps of `getPendingMaintenanceRequests`. */
  function PendingMaintenance(data: JsValue): (r: Result<seq<JsValue>>)
    ensures r.Ok? <==> data.Arr? && forall i :: 0 <= i < |data.items| ==> IsOpenMaintenance(data.items[i]).Ok?
    ensures r.Ok? ==> |r.value| <= |data.items|
  {
    match FilterArray(data, IsOpenMaintenance)
    case Err(e) => Err(e)
    case Ok(kept) => Ok(MapClientId(kept))
  }

  /** `kept.map(req => ({...req, clientId: ...}))` */
  function MapClientId(kept: seq<JsValue>): (r: seq<JsValue>)
    ensures |r| == |kept| && forall i :: 0 <= i < |kept| ==> r[i] == WithClientId(kept[i])
  {
    seq(|kept|, i requires 0 <= i < |kept| => WithClientId(kept[i]))
  }

  /** The result holds exactly the mapped open, unassigned requests. */
  lemma PendingMaintenanceContents(data: JsValue)
    requires PendingMaintenance(data).Ok?
    ensures forall x :: x in data.items && IsOpenMaintenance(x) == Ok(true)
                        ==> WithClientId(x) in PendingMaintenance(data).value
    ensures forall y :: y in PendingMaintenance(data).value
                        ==> exists x :: x in data.items && IsOpenMaintenance(x) == Ok(true) && y == WithClientId(x)
  {
    var kept := FilterArray(data, IsOpenMaintenance).value;
    FilterResultMembers(data.items, IsOpenMaintenance);
    var r := PendingMaintenance(data).value;
    forall x | x in data.items && IsOpenMaintenance(x) == Ok(true) ensures WithClientId(x) in r {
      var i :| 0 <= i < |data.items| && data.items[i] == x;
      assert x in kept;
      var j :| 0 <= j < |kept| && kept[j] == x;
      assert r[j] == WithClientId(x);
    }
    forall y | y in r ensures exists x :: x in data.items && IsOpenMaintenance(x) == Ok(true) && y == WithClientId(x) {
      var j :| 0 <= j < |r| && r[j] == y;
      assert kept[j] in kept;
    }
  }

  /** The mapped requests keep their order across runs of requests. */
  lemma PendingMaintenanceOrder(xs: seq<JsValue>, ys: seq<JsValue>)
    requires PendingMaintenance(Arr(xs)).Ok? && PendingMaintenance(Arr(ys)).Ok?
    ensures PendingMaintenance(Arr(xs + ys)) == Ok(PendingMaintenance(Arr(xs)).value + PendingMaintenance(Arr(ys)).value)
  {
    FilterResultAppend(xs, ys, IsOpenMaintenance);
    MapClientIdAppend(FilterResult(xs, IsOpenMaintenance).value, FilterResult(ys, IsOpenMaintenance).value);
  }

  lemma MapClientIdAppend(a: seq<JsValue>, b: seq<JsValue>)
    ensures MapClientId(a + b) == MapClientId(a) + MapClientId(b)
  {
    assert forall i :: 0 <= i < |a + b| ==> MapClientId(a + b)[i] == (MapClientId(a) + MapClientId(b))[i];
  }

  /** `getPendingMaintenanceRequests()` */
  function GetPendingMaintenanceRequests(http: Client): (r: seq<JsValue>)
    ensures http(MaintenanceRequests).Err? ==> r == []
    ensures http(MaintenanceRequests).Ok? ==> r == OrEmpty(PendingMaintenance(http(MaintenanceRequests).value))
  {
    match http(MaintenanceRequests)
    case Err(_) => []
    case Ok(data) => OrEmpty(PendingMaintenance(data))
  }

  /** One request with a truthy status that is not a string makes the whole list empty,
      and the status check ignores case. */
  lemma PendingMaintenanceAllOrNothing(http: Client, bad: JsValue)
    requires http(MaintenanceRequests).Ok? && http(MaintenanceRequests).value.Arr?
    requires bad in http(MaintenanceRequests).value.items
    requires Truthy(Field(bad, "status")) && !Field(bad, "status").Str?
    ensures GetPendingMaintenanceRequests(http) == []
    ensures IsOpenMaintenance(Obj(map["status" := Str("PENDING")])) == Ok(true)
  {
    assert Lower("PENDING") == "pending";
  }

  // ---------------------------------------------------------------------------
  // Reads that pass the data through

  /** `getAllMaintenanceRequests()` */
  function GetAllMaintenanceRequests(http: Client): (r: JsValue)
    ensures http(MaintenanceRequests).Err? ==> r == Arr([])
    ensures http(MaintenanceRequests).Ok? ==> r == http(MaintenanceRequests).value
  {
    BestEffort(http(MaintenanceRequests))
  }

  /** `getProviderEquipment()` */
  function GetProviderEquipment(http: Client): (r: JsValue)
    ensures http(GetRequest("/equipments")).Err? ==> r == Arr([])
    ensures http(GetRequest("/equipments")).Ok? ==> r == http(GetRequest("/equipments")).value
  {
    BestEffort(http(GetRequest("/equipments")))
  }

  /** `getAllInvoices()` */
  function GetAllInvoices(http: Client): (r: JsValue)
    ensures http(GetRequest("/billing/invoices/all")).Err? ==> r == Arr([])
    ensures http(GetRequest("/billing/invoices/all")).Ok? ==> r == http(GetRequest("/billing/invoices/all")).value
  {
    BestEffort(http(GetRequest("/billing/invoices/all")))
  }

  /** `getAllRentalRequests()` */
  function GetAllRentalRequests(http: Client): (r: JsValue)
    ensures http(RentalRequests).Err? ==> r == Arr([])
    ensures http(RentalRequests).Ok? ==> r == http(RentalRequests).value
  {
    BestEffort(http(RentalRequests))
  }

  /** The path of `getMyMaintenanceRequests`, which embeds the provider id as text. */
  function MyMaintenancePath(userId: Option<string>): (path: string)
    ensures StartsWith(path, "/maintenanceRequests/provider/")
  {
    "/maintenanceRequests/provider/" + ToStr(ProviderId(userId))
  }

  /** A stored numeric id lands in the path as its decimal text; with none the path ends
      in "NaN". */
  lemma MyMaintenancePathOf(n: int)
    ensures MyMaintenancePath(Some(IntToStr(n))) == "/maintenanceRequests/provider/" + IntToStr(n)
    ensures MyMaintenancePath(None) == "/maintenanceRequests/provider/NaN"
  {
    StoredProviderId(n);
  }

  /** `getMyMaintenanceRequests()` */
  function GetMyMaintenanceRequests(http: Client, userId: Option<string>): (r: JsValue)
    ensures http(GetRequest(MyMaintenancePath(userId))).Err? ==> r == Arr([])
    ensures http(GetRequest(MyMaintenancePath(userId))).Ok? ==> r == http(GetRequest(MyMaintenancePath(userId))).value
  {
    BestEffort(http(GetRequest(MyMaintenancePath(userId))))
  }

  // ---------------------------------------------------------------------------
  // Writes

  /** The POST of `approveRentalRequest(requestId)`: no body. */
  function ApproveRequest(requestId: JsValue): (q: Request)
    ensures q.verb == POST && q.body == Undef
    ensures q.path == "/rentalRequests/" + ToStr(requestId) + "/approve"
  {
    Request(POST, "/rentalRequests/" + ToStr(requestId) + "/approve", map[], Undef)
  }

  /** The PUT of `rejectRentalRequest(requestId)`: the body is `{status: 'rejected'}`
      whatever the request. */
  function RejectRequest(requestId: JsValue): (q: Request)
    ensures q.verb == PUT && q.body == Obj(map["status" := Str("rejected")])
    ensures q.path == "/rentalRequests/" + ToStr(requestId)
  {
    Request(PUT, "/rentalRequests/" + ToStr(requestId), map[], Obj(map["status" := Str("rejected")]))
  }

  /** The PUT of `acceptMaintenanceRequest(requestId)`: no body. */
  function AssignRequest(requestId: JsValue): (q: Request)
    ensures q.verb == PUT && q.body == Undef
    ensures q.path == "/maintenanceRequests/" + ToStr(requestId) + "/assign"
  {
    Request(PUT, "/maintenanceRequests/" + ToStr(requestId) + "/assign", map[], Undef)
  }

  /** `approveRentalRequest(requestId)` */
  function ApproveRentalRequest(http: Client, requestId: JsValue): Result<JsValue> {
    http(ApproveRequest(requestId))
  }

  /** `rejectRentalRequest(requestId)` */
  function RejectRentalRequest(http: Client, requestId: JsValue): Result<JsValue> {
    http(RejectRequest(requestId))
  }

  /** `acceptMaintenanceRequest(requestId)` */
  function AcceptMaintenanceRequest(http: Client, requestId: JsValue): Result<JsValue> {
    http(AssignRequest(requestId))
  }

  /** Against a server that rejects everything, the writes fail with its error while the
      reads hand back empty lists. */
  lemma FailurePolicy(http: Client, requestId: JsValue, userId: Option<string>)
    requires forall q :: http(q) == Err(RequestFailed)
    ensures ApproveRentalRequest(http, requestId) == Err(RequestFailed)
    ensures RejectRentalRequest(http, requestId) == Err(RequestFailed)
    ensures AcceptMaintenanceRequest(http, requestId) == Err(RequestFailed)
    ensures GetPendingRentalRequests(http) == [] && GetPendingMaintenanceRequests(http) == []
    ensures GetAllMaintenanceRequests(http) == Arr([]) && GetProviderEquipment(http) == Arr([])
    ensures GetAllInvoices(http) == Arr([]) && GetAllRentalRequests(http) == Arr([])
    ensures GetMyMaintenanceRequests(http, userId) == Arr([])
  {
  }
}
