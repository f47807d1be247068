/** The client's gym equipment (src/contexts/equipment/Domain/equipment.entity.js). */
module EquipmentEntity {
  import opened JsValues

  /** An `Equipment` instance: the fourteen properties its constructor assigns. The
      source's `type` property is `kind` here, `type` being a Dafny keyword. */
  datatype Equipment = Equipment(
    id: JsValue,
    name: JsValue,
    kind: JsValue,
    model: JsValue,
    manufacturer: JsValue,
    serialNumber: JsValue,
    code: JsValue,
    installationDate: JsValue,
    energyConsumption: JsValue,
    location: JsValue,
    address: JsValue,
    usageHours: JsValue,
    status: JsValue,
    clientId: JsValue)

  /** The properties an instance owns. */
  datatype Prop =
    | Id | Name | Kind | Model | Manufacturer | SerialNumber | Code | InstallationDate
    | EnergyConsumption | Location | Address | UsageHours | Status | ClientId

  /** The property's name in the source. */
  function PropName(p: Prop): string {
    match p
    case Id => "id"
    case Name => "name"
    case Kind => "type"
    case Model => "model"
    case Manufacturer => "manufacturer"
    case SerialNumber => "serialNumber"
    case Code => "code"
    case InstallationDate => "installationDate"
    case EnergyConsumption => "energyConsumption"
    case Location => "location"
    case Address => "address"
    case UsageHours => "usageHours"
    case Status => "status"
    case ClientId => "clientId"
  }

  /** The constructor's destructuring default for the property. */
  function DefaultOf(p: Prop): JsValue {
    match p
    case InstallationDate => Null
    case ClientId => Null
    case Id => Num(0)
    case UsageHours => Num(0)
    case Status => Str("active")
    case _ => Str("")
  }

  function Value(e: Equipment, p: Prop): JsValue {
    match p
    case Id => e.id
    case Name => e.name
    case Kind => e.kind
    case Model => e.model
    case Manufacturer => e.manufacturer
    case SerialNumber => e.serialNumber
    case Code => e.code
    case InstallationDate => e.installationDate
    case EnergyConsumption => e.energyConsumption
    case Location => e.location
    case Address => e.address
    case UsageHours => e.usageHours
    case Status => e.status
    case ClientId => e.clientId
  }

  /** The values the constructor's destructuring pattern reads from its argument, before
      any default applies (undefined where the argument lacks the key). */
  function Destructure(args: Bag): Equipment {
    Equipment(
      Get(args, "id"), Get(args, "name"), Get(args, "type"), Get(args, "model"),
      Get(args, "manufacturer"), Get(args, "serialNumber"), Get(args, "code"),
      Get(args, "installationDate"), Get(args, "energyConsumption"), Get(args, "location"),
      Get(args, "address"), Get(args, "usageHours"), Get(args, "status"), Get(args, "clientId"))
  }

  /** The constructor's defaults applied to destructured values: each default replaces an
      undefined value only (null is kept). */
  function WithDefaults(x: Equipment): Equipment {
    Equipment(
      Default(x.id, Num(0)),
      Default(x.name, Str("")),
      Default(x.kind, Str("")),
      Default(x.model, Str("")),
      Default(x.manufacturer, Str("")),
      Default(x.serialNumber, Str("")),
      Default(x.code, Str("")),
      Default(x.installationDate, Null),
      Default(x.energyConsumption, Str("")),
      Default(x.location, Str("")),
      Default(x.address, Str("")),
      Default(x.usageHours, Num(0)),
      Default(x.status, Str("active")),
      Default(x.clientId, Null))
  }

  /** `new Equipment(args)` */
  function NewEquipment(args: Bag): Equipment {
    WithDefaults(Destructure(args))
  }

  /** Each property of `WithDefaults(x)` is `x`'s, or the default when `x`'s is undefined. */
  lemma WithDefaultsAt(x: Equipment, p: Prop)
    ensures Value(WithDefaults(x), p) == Default(Value(x, p), DefaultOf(p))
  {
    match p
    case Id =>
    case _ =>
  }

  /** No property of an instance is undefined. */
  predicate Defined(e: Equipment) {
    forall p :: !Value(e, p).Undef?
  }

  /** Construction, one property at a time. */
  lemma ConstructionAt(args: Bag, p: Prop)
    ensures Value(NewEquipment(args), p) == Default(Get(args, PropName(p)), DefaultOf(p))
  {
    WithDefaultsAt(Destructure(args), p);
    match p
    case Id =>
    case _ =>
  }

  /** Construction: a property the argument defines (null included) is kept as given, an
      undefined or missing one takes its default, so no property is left undefined;
      keys of the argument other than the fourteen are ignored. */
  lemma Construction(args: Bag)
    ensures forall p :: !Get(args, PropName(p)).Undef? ==> Value(NewEquipment(args), p) == Get(args, PropName(p))
    ensures forall p :: Get(args, PropName(p)).Undef? ==> Value(NewEquipment(args), p) == DefaultOf(p)
    ensures Defined(NewEquipment(args))
  {
    forall p ensures Value(NewEquipment(args), p) == Default(Get(args, PropName(p)), DefaultOf(p)) {
      ConstructionAt(args, p);
    }
  }

  /** Building from an instance's own properties gives the instance back. */
  lemma ConstructionFromOwnProperties(e: Equipment, args: Bag)
    requires Defined(e)
    requires forall p :: Get(args, PropName(p)) == Value(e, p)
    ensures NewEquipment(args) == e
  {
    forall p ensures Value(NewEquipment(args), p) == Value(e, p) {
      ConstructionAt(args, p);
    }
    SameValuesSameEquipment(NewEquipment(args), e);
  }

  /** Two equipment values with the same value in every property are equal. */
  lemma SameValuesSameEquipment(a: Equipment, b: Equipment)
    requires forall p :: Value(a, p) == Value(b, p)
    ensures a == b
  {
    assert a.id == b.id by { assert Value(a, Id) == Value(b, Id); }
    assert a.name == b.name by { assert Value(a, Name) == Value(b, Name); }
    assert a.kind == b.kind by { assert Value(a, Kind) == Value(b, Kind); }
    assert a.model == b.model by { assert Value(a, Model) == Value(b, Model); }
    assert a.manufacturer == b.manufacturer by { assert Value(a, Manufacturer) == Value(b, Manufacturer); }
    assert a.serialNumber == b.serialNumber by { assert Value(a, SerialNumber) == Value(b, SerialNumber); }
    assert a.code == b.code by { assert Value(a, Code) == Value(b, Code); }
    assert a.installationDate == b.installationDate by { assert Value(a, InstallationDate) == Value(b, InstallationDate); }
    assert a.energyConsumption == b.energyConsumption by { assert Value(a, EnergyConsumption) == Value(b, EnergyConsumption); }
    assert a.location == b.location by { assert Value(a, Location) == Value(b, Location); }
    assert a.address == b.address by { assert Value(a, Address) == Value(b, Address); }
    assert a.usageHours == b.usageHours by { assert Value(a, UsageHours) == Value(b, UsageHours); }
    assert a.status == b.status by { assert Value(a, Status) == Value(b, Status); }
    assert a.clientId == b.clientId by { assert Value(a, ClientId) == Value(b, ClientId); }
  }

  /** `getFullIdentifier()`: "<name> - <model> (<code>)". */
  function FullIdentifier(e: Equipment): string {
    ToStr(e.name) + " - " + ToStr(e.model) + " (" + ToStr(e.code) + ")"
  }

  /** `isActive()`: a case-sensitive comparison with 'active'. */
  predicate IsActive(e: Equipment) {
    StrictEq(e.status, Str("active"))
  }

  /** `getFormattedInstallationDate()`; `localeDate` stands for
      `new Date(d).toLocaleDateString()`. */
  function FormattedInstallationDate(e: Equipment, localeDate: JsValue -> string): (r: string)
    ensures !Truthy(e.installationDate) ==> r == "N/A"
    ensures Truthy(e.installationDate) ==> r == localeDate(e.installationDate)
  {
    if !Truthy(e.installationDate) then "N/A" else localeDate(e.installationDate)
  }

  /** The properties `isComplete()` requires to be truthy. */
  const Identifying: set<Prop> := {Name, Kind, Model, Manufacturer, SerialNumber, Code}

  /** `isComplete()` */
  predicate IsComplete(e: Equipment) {
    Truthy(e.name) && Truthy(e.kind) && Truthy(e.model) && Truthy(e.manufacturer)
    && Truthy(e.serialNumber) && Truthy(e.code)
  }

  /** Complete means: each of the six identifying properties is truthy. */
  lemma CompleteMeansIdentified(e: Equipment)
    ensures IsComplete(e) <==> forall p :: p in Identifying ==> Truthy(Value(e, p))
  {
    if forall p :: p in Identifying ==> Truthy(Value(e, p)) {
      assert Truthy(Value(e, Name)) && Truthy(Value(e, Kind)) && Truthy(Value(e, Model));
      assert Truthy(Value(e, Manufacturer)) && Truthy(Value(e, SerialNumber));
      assert Truthy(Value(e, Code));
    }
  }

  /** Status comparison is exact: 'Active' or 'ACTIVE' is not active. */
  lemma ActiveIsCaseSensitive(e: Equipment)
    ensures IsActive(e) <==> e.status == Str("active")
    ensures !IsActive(e.(status := Str("Active")))
  {
  }

  /** An Equipment built from no data is active, installed on no date, and incomplete. */
  lemma EmptyEquipment()
    ensures var e := NewEquipment(map[]);
            IsActive(e) && !IsComplete(e) && e.id == Num(0) && e.usageHours == Num(0)
            && e.installationDate == Null && e.clientId == Null
            && FullIdentifier(e) == " -  ()"
  {
  }

  /** For text fields, the identifier is the plain concatenation. */
  lemma FullIdentifierOfText(e: Equipment, name: string, model: string, code: string)
    requires e.name == Str(name) && e.model == Str(model) && e.code == Str(code)
    ensures FullIdentifier(e) == name + " - " + model + " (" + code + ")"
  {
  }
}
