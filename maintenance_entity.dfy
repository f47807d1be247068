/** A client's maintenance request
    (src/contexts/maintenance/Domain/maintenance-request.entity.js). */
module MaintenanceEntity {
  import opened JsValues

  /** A `MaintenanceRequest` instance: the ten properties its constructor assigns (`type`
      is `kind` here). */
  datatype MaintenanceRequest = MaintenanceRequest(
    id: JsValue,
    userId: JsValue,
    equipmentId: JsValue,
    kind: JsValue,
    status: JsValue,
    costUSD: JsValue,
    selectedDate: JsValue,
    createdAt: JsValue,
    notes: JsValue,
    assignedTechnicianId: JsValue)

  datatype Prop =
    | Id | UserId | EquipmentId | Kind | Status | CostUSD | SelectedDate | CreatedAt | Notes
    | AssignedTechnicianId

  function PropName(p: Prop): string {
    match p
    case Id => "id"
    case UserId => "userId"
    case EquipmentId => "equipmentId"
    case Kind => "type"
    case Status => "status"
    case CostUSD => "costUSD"
    case SelectedDate => "selectedDate"
    case CreatedAt => "createdAt"
    case Notes => "notes"
    case AssignedTechnicianId => "assignedTechnicianId"
  }

  /** The constructor's destructuring default for the property. */
  function DefaultOf(p: Prop): JsValue {
    match p
    case Id => Null
    case UserId => Num(0)
    case EquipmentId => Num(0)
    case Kind => Str("corrective")
    case Status => Str("pending")
    case CostUSD => Num(0)
    case AssignedTechnicianId => Null
    case _ => Str("")
  }

  function Value(m: MaintenanceRequest, p: Prop): JsValue {
    match p
    case Id => m.id
    case UserId => m.userId
    case EquipmentId => m.equipmentId
    case Kind => m.kind
    case Status => m.status
    case CostUSD => m.costUSD
    case SelectedDate => m.selectedDate
    case CreatedAt => m.createdAt
    case Notes => m.notes
    case AssignedTechnicianId => m.assignedTechnicianId
  }

  /** The values the constructor's destructuring pattern reads, before any default. */
  function Destructure(args: Bag): MaintenanceRequest {
    MaintenanceRequest(
      Get(args, "id"), Get(args, "userId"), Get(args, "equipmentId"), Get(args, "type"),
      Get(args, "status"), Get(args, "costUSD"), Get(args, "selectedDate"),
      Get(args, "createdAt"), Get(args, "notes"), Get(args, "assignedTechnicianId"))
  }

  /** The constructor's defaults: each replaces an undefined value only. */
  function WithDefaults(x: MaintenanceRequest): MaintenanceRequest {
    MaintenanceRequest(
      Default(x.id, Null),
      Default(x.userId, Num(0)),
      Default(x.equipmentId, Num(0)),
      Default(x.kind, Str("corrective")),
      Default(x.status, Str("pending")),
      Default(x.costUSD, Num(0)),
      Default(x.selectedDate, Str("")),
      Default(x.createdAt, Str("")),
      Default(x.notes, Str("")),
      Default(x.assignedTechnicianId, Null))
  }

  /** `new MaintenanceRequest(arg)`: the parameter has no default of its own, so
      destructuring a null or undefined argument throws. */
  function NewMaintenanceRequest(arg: JsValue): (r: Result<MaintenanceRequest>)
    ensures r.Err? <==> Nullish(arg)
  {
    match Props(arg)
    case Err(e) => Err(e)
    case Ok(args) => Ok(WithDefaults(Destructure(args)))
  }

  predicate Defined(m: MaintenanceRequest) {
    forall p :: !Value(m, p).Undef?
  }

  lemma ConstructionAt(args: Bag, p: Prop)
    ensures Value(WithDefaults(Destructure(args)), p) == Default(Get(args, PropName(p)), DefaultOf(p))
  {
    match p
    case Id =>
    case _ =>
  }

  /** Construction: a property the argument defines (null included) is kept, an undefined
      or missing one takes its default; no property is left undefined. */
  lemma Construction(arg: JsValue)
    requires !Nullish(arg)
    ensures var args := Props(arg).value;
            var m := NewMaintenanceRequest(arg).value;
            && (forall p :: !Get(args, PropName(p)).Undef? ==> Value(m, p) == Get(args, PropName(p)))
            && (forall p :: Get(args, PropName(p)).Undef? ==> Value(m, p) == DefaultOf(p))
            && Defined(m)
  {
    var args := Props(arg).value;
    forall p ensures Value(NewMaintenanceRequest(arg).value, p) == Default(Get(args, PropName(p)), DefaultOf(p)) {
      ConstructionAt(args, p);
    }
  }

  /** `isPending()`: case-sensitive. */
  predicate IsPending(m: MaintenanceRequest) {
    StrictEq(m.status, Str("pending"))
  }

  /** `isCompleted()`: case-sensitive. */
  predicate IsCompleted(m: MaintenanceRequest) {
    StrictEq(m.status, Str("completed"))
  }

  /** `hasTechnician()`: a strict comparison with null. */
  predicate HasTechnician(m: MaintenanceRequest) {
    !StrictEq(m.assignedTechnicianId, Null)
  }

  /** The status predicates hold for exactly the texts 'pending' and 'completed', and
      never together. */
  lemma StatusPredicates(m: MaintenanceRequest)
    ensures IsPending(m) <==> m.status == Str("pending")
    ensures IsCompleted(m) <==> m.status == Str("completed")
    ensures !(IsPending(m) && IsCompleted(m))
    ensures !IsPending(m.(status := Str("Pending")))
  {
  }

  /** A technician is assigned unless the property is exactly null; an argument that omits
      it, or leaves it undefined, yields no technician. */
  lemma TechnicianAssignment(arg: JsValue)
    requires !Nullish(arg)
    ensures HasTechnician(NewMaintenanceRequest(arg).value)
            <==> !Nullish(Get(Props(arg).value, "assignedTechnicianId"))
  {
    ConstructionAt(Props(arg).value, AssignedTechnicianId);
  }

  /** A request built from an empty object is pending, not completed, has no technician
      and costs 0. */
  lemma EmptyRequest()
    ensures var m := NewMaintenanceRequest(Obj(map[])).value;
            IsPending(m) && !IsCompleted(m) && !HasTechnician(m) && m.costUSD == Num(0)
            && m.id == Null && m.kind == Str("corrective")
  {
  }

  /** `getFormattedCost()`: "$" and the cost with two decimals. Only a number has
      `toFixed`; on anything else the call throws. `fixed2` stands for `n.toFixed(2)` and
      "NaN" is what `NaN.toFixed(2)` gives. */
  function FormattedCost(m: MaintenanceRequest, fixed2: int -> string): (r: Result<string>)
    ensures r.Ok? <==> IsNumber(m.costUSD)
    ensures r.Ok? ==> |r.value| > 0 && r.value[0] == '$'
    ensures m.costUSD.Num? ==> r == Ok("$" + fixed2(m.costUSD.n))
  {
    match m.costUSD
    case Num(n) => Ok("$" + fixed2(n))
    case NaN => Ok("$NaN")
    case _ => Err(TypeError)
  }
}
