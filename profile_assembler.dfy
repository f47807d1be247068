/** Conversion from the profile API's user and plan resources to entities
    (src/contexts/profile/Domain/profile.assembler.js). */
module ProfileAssembler {
  import opened JsValues
  import CP = ClientPlanEntity
  import UP = UserProfileEntity

  /** The object literal `toPlanEntity` passes to the `ClientPlan` constructor. */
  function PlanArgs(res: Bag): Bag {
    map[
      "id" := Get(res, "id"),
      "name" := Get(res, "name"),
      "price" := Get(res, "price"),
      "billingCycle" := Get(res, "billingCycle"),
      "maxMachines" := Get(res, "maxMachines")
    ]
  }

  /** The literal holds the resource's values under the names the constructor reads, so
      the plan is the one the resource itself would construct. */
  lemma PlanArgsRead(res: Bag)
    ensures CP.NewClientPlan(PlanArgs(res)) == CP.NewClientPlan(res)
  {
  }

  /** `toPlanEntity(resource)`: the five plan properties of the resource, each defaulted
      by the constructor when undefined. It throws for a null or undefined resource. */
  function ToPlanEntity(resource: JsValue): (r: Result<CP.ClientPlan>)
    ensures r.Err? <==> Nullish(resource)
    ensures r.Ok? ==> forall p :: !Field(resource, CP.PropName(p)).Undef?
                                  ==> CP.Value(r.value, p) == Field(resource, CP.PropName(p))
    ensures r.Ok? ==> forall p :: Field(resource, CP.PropName(p)).Undef? ==> CP.Value(r.value, p) == CP.DefaultOf(p)
    ensures r.Ok? ==> CP.Defined(r.value)
  {
    match Props(resource)
    case Err(e) => Err(e)
    case Ok(res) =>
      PlanArgsRead(res);
      CP.Construction(res);
      Ok(CP.NewClientPlan(PlanArgs(res)))
  }

  /** The plain properties of the object literal `toUserProfileEntity` passes: the seven
      user fields read from the resource (no `profilePhoto`). */
  function ProfileArgs(res: Bag): Bag {
    map[
      "id" := Get(res, "id"),
      "name" := Get(res, "name"),
      "email" := Get(res, "email"),
      "username" := Get(res, "username"),
      "phone" := Get(res, "phone"),
      "type" := Get(res, "type"),
      "clientPlanId" := Get(res, "clientPlanId")
    ]
  }

  /** `toUserProfileEntity(resource, planResource = null)`: a plan entity when the plan
      resource is truthy, null otherwise. */
  function ToUserProfileEntity(resource: JsValue, planResource: JsValue): (r: Result<UP.UserProfile>)
    ensures r.Err? <==> Nullish(resource)
    ensures r.Ok? ==> (r.value.currentPlan.None? <==> !Truthy(planResource))
    ensures r.Ok? && Truthy(planResource) ==> Ok(r.value.currentPlan.value) == ToPlanEntity(planResource)
  {
    match Props(resource)
    case Err(e) => Err(e)
    case Ok(res) =>
      var plan := Default(planResource, Null);
      var currentPlan := if Truthy(plan) then Some(ToPlanEntity(plan).value) else None;
      Ok(UP.NewUserProfile(ProfileArgs(res), currentPlan))
  }

  /** The user fields come from the resource (each defaulted when undefined), and the
      profile photo, which the assembler never passes, is always null. */
  lemma UserProfileFields(resource: JsValue, planResource: JsValue)
    requires !Nullish(resource)
    ensures var u := ToUserProfileEntity(resource, planResource).value;
            && (forall p :: p != UP.ProfilePhoto ==>
                  UP.Value(u, p) == Default(Field(resource, UP.PropName(p)), UP.DefaultOf(p)))
            && u.profilePhoto == Null && !UP.HasProfilePhoto(u)
  {
    var res := Props(resource).value;
    var args := ProfileArgs(res);
    forall p: UP.Prop | p != UP.ProfilePhoto
      ensures Get(args, UP.PropName(p)) == Get(res, UP.PropName(p))
    {
      ProfileArgsRead(res, p);
    }
    ProfileArgsRead(res, UP.ProfilePhoto);
    UP.Construction(args, ToUserProfileEntity(resource, planResource).value.currentPlan);
  }

  /** The literal carries each user property under its own name, and no photo. */
  lemma ProfileArgsRead(res: Bag, p: UP.Prop)
    ensures p != UP.ProfilePhoto ==> Get(ProfileArgs(res), UP.PropName(p)) == Get(res, UP.PropName(p))
    ensures Get(ProfileArgs(res), "profilePhoto").Undef?
  {
    match p
    case Id =>
    case _ =>
  }

  /** `toPlansArray(resources)`: `resources.map(toPlanEntity)`, with no guard: anything
      but an array throws. */
  function ToPlansArray(resources: JsValue): (r: Result<seq<CP.ClientPlan>>)
    ensures r.Ok? <==> resources.Arr? && forall i :: 0 <= i < |resources.items| ==> !Nullish(resources.items[i])
    ensures r.Ok? ==> |r.value| == |resources.items|
                      && forall i :: 0 <= i < |r.value| ==> Ok(r.value[i]) == ToPlanEntity(resources.items[i])
  {
    if resources.Arr? then MapResult(resources.items, ToPlanEntity) else Err(TypeError)
  }
}
