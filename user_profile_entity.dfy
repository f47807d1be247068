/** A user's profile with the plan they hold
    (src/contexts/profile/Domain/user-profile.entity.js). */
module UserProfileEntity {
  import opened JsValues
  import opened ClientPlanEntity

  /** A `UserProfile` instance. `currentPlan` holds a `ClientPlan` instance or null, the
      only two things the code ever stores there. */
  datatype UserProfile = UserProfile(
    id: JsValue,
    name: JsValue,
    email: JsValue,
    username: JsValue,
    phone: JsValue,
    kind: JsValue,
    clientPlanId: JsValue,
    currentPlan: Option<ClientPlan>,
    profilePhoto: JsValue)

  /** The properties holding plain values. */
  datatype Prop = Id | Name | Email | Username | Phone | Kind | ClientPlanId | ProfilePhoto

  function PropName(p: Prop): string {
    match p
    case Id => "id"
    case Name => "name"
    case Email => "email"
    case Username => "username"
    case Phone => "phone"
    case Kind => "type"
    case ClientPlanId => "clientPlanId"
    case ProfilePhoto => "profilePhoto"
  }

  /** The constructor's destructuring default for the property. */
  function DefaultOf(p: Prop): JsValue {
    match p
    case Id => Num(0)
    case Kind => Str("individual")
    case ClientPlanId => Null
    case ProfilePhoto => Null
    case _ => Str("")
  }

  function Value(u: UserProfile, p: Prop): JsValue {
    match p
    case Id => u.id
    case Name => u.name
    case Email => u.email
    case Username => u.username
    case Phone => u.phone
    case Kind => u.kind
    case ClientPlanId => u.clientPlanId
    case ProfilePhoto => u.profilePhoto
  }

  /** `new UserProfile(args)`, where `args` holds the plain properties and
      `currentPlan` the argument's `currentPlan` (absent reads as null, the default). */
  function NewUserProfile(args: Bag, currentPlan: Option<ClientPlan>): UserProfile {
    UserProfile(
      Default(Get(args, "id"), Num(0)),
      Default(Get(args, "name"), Str("")),
      Default(Get(args, "email"), Str("")),
      Default(Get(args, "username"), Str("")),
      Default(Get(args, "phone"), Str("")),
      Default(Get(args, "type"), Str("individual")),
      Default(Get(args, "clientPlanId"), Null),
      currentPlan,
      Default(Get(args, "profilePhoto"), Null))
  }

  predicate Defined(u: UserProfile) {
    forall p :: !Value(u, p).Undef?
  }

  /** Construction: a property the argument defines (null included) is kept, an undefined
      or missing one takes its default; no property is left undefined. */
  lemma Construction(args: Bag, currentPlan: Option<ClientPlan>)
    ensures var u := NewUserProfile(args, currentPlan);
            && (forall p :: !Get(args, PropName(p)).Undef? ==> Value(u, p) == Get(args, PropName(p)))
            && (forall p :: Get(args, PropName(p)).Undef? ==> Value(u, p) == DefaultOf(p))
            && Defined(u) && u.currentPlan == currentPlan
  {
    forall p ensures Value(NewUserProfile(args, currentPlan), p) == Default(Get(args, PropName(p)), DefaultOf(p)) {
      match p
      case Id =>
      case _ =>
    }
  }

  /** `getDisplayName()`: `name || username || email`. */
  function DisplayName(u: UserProfile): (r: JsValue)
    ensures Truthy(u.name) ==> r == u.name
    ensures !Truthy(u.name) && Truthy(u.username) ==> r == u.username
    ensures !Truthy(u.name) && !Truthy(u.username) ==> r == u.email
    ensures Truthy(r) <==> Truthy(u.name) || Truthy(u.username) || Truthy(u.email)
  {
    Or(Or(u.name, u.username), u.email)
  }

  /** `getCurrentPlanType()`: 'No plan' without a plan, otherwise "<plan name> (<the
      plan's max-machines text>)". A plan instance is an object and so always truthy. */
  function CurrentPlanType(u: UserProfile): (r: string)
    ensures u.currentPlan.None? ==> r == "No plan"
    ensures u.currentPlan.Some? ==>
              && StartsWith(r, ToStr(u.currentPlan.value.name) + " (")
              && EndsWith(r, MaxMachinesText(u.currentPlan.value) + ")")
              && |r| == |ToStr(u.currentPlan.value.name)| + 2 + |MaxMachinesText(u.currentPlan.value)| + 1
  {
    match u.currentPlan
    case None => "No plan"
    case Some(plan) =>
      var prefix := ToStr(plan.name) + " (";
      var suffix := MaxMachinesText(plan) + ")";
      assert (prefix + suffix)[..|prefix|] == prefix;
      assert (prefix + suffix)[|prefix|..] == suffix;
      prefix + suffix
  }

  /** `hasActivePlan()` */
  predicate HasActivePlan(u: UserProfile) {
    u.currentPlan.Some?
  }

  /** `isOnPlan(planId)`: a strict comparison, so the text "1" is not plan 1. */
  predicate IsOnPlan(u: UserProfile, planId: JsValue) {
    StrictEq(u.clientPlanId, planId)
  }

  /** `hasProfilePhoto()` */
  predicate HasProfilePhoto(u: UserProfile) {
    Truthy(u.profilePhoto)
  }

  /** A profile has an active plan exactly when its plan type is not 'No plan' (a plan's
      type text always ends with the closing parenthesis). */
  lemma ActivePlanIffPlanType(u: UserProfile)
    ensures HasActivePlan(u) <==> CurrentPlanType(u) != "No plan"
  {
    if u.currentPlan.Some? {
      var r := CurrentPlanType(u);
      assert r[|r| - 1] == ')' by {
        var t := MaxMachinesText(u.currentPlan.value) + ")";
        assert r[|r| - |t|..][|t| - 1] == t[|t| - 1];
      }
    }
  }

  /** `isOnPlan` matches only a plan id of the same type and value, and never holds for a
      profile without a plan id. */
  lemma OnPlanIsStrict(u: UserProfile, planId: int)
    ensures IsOnPlan(u, Num(planId)) <==> u.clientPlanId == Num(planId)
    ensures !IsOnPlan(u.(clientPlanId := Str(IntToStr(planId))), Num(planId))
    ensures !IsOnPlan(u.(clientPlanId := Null), Num(planId))
  {
  }

  /** A profile built from no data: no plan, no photo, an individual. */
  lemma EmptyProfile()
    ensures var u := NewUserProfile(map[], None);
            && !HasActivePlan(u) && !HasProfilePhoto(u) && CurrentPlanType(u) == "No plan"
            && u.kind == Str("individual") && u.clientPlanId == Null && u.profilePhoto == Null
  {
  }
}
