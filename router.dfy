/** The navigation guard of the single-page application, the `/home` redirect and the
    route metadata they read (src/shared-kernel/infrastructure/router/index.js). */
module Router {
  import opened JsValues

  /** A route's `meta`: `requiresAuth` is undefined when the route omits it, and so is
      `role` on routes open to every role. */
  datatype Meta = Meta(requiresAuth: JsValue, role: JsValue)

  datatype Route = Route(path: string, name: string, meta: Meta)

  /** What the guard passes to `next`: nothing, or the name of the route to go to. */
  datatype Decision = Proceed | Redirect(target: string)

  /** The two items of the browser's storage that the guard reads. */
  datatype Session = Session(isAuthenticated: Option<string>, userRole: Option<string>)

  const Public := Meta(Bool(false), Undef)
  const ClientOnly := Meta(Bool(true), Str("client"))
  const ProviderOnly := Meta(Bool(true), Str("provider"))

  /** The routes that render a page; `/`, `/home` and the catch-all are redirects. */
  const Routes: seq<Route> := [
    Route("/landing", "landing", Public),
    Route("/login/:role?", "login", Public),
    Route("/register/:role?", "register", Public),
    Route("/rent", "rent", Public),
    Route("/contact", "contact", Public),
    Route("/client/home", "client-home", ClientOnly),
    Route("/my-machines", "my-machines", ClientOnly),
    Route("/machines/:id", "MachineControls", ClientOnly),
    Route("/add-equipment", "add-equipment", ClientOnly),
    Route("/maintenance", "maintenance", ClientOnly),
    Route("/account-statement", "account-statement", ClientOnly),
    Route("/notifications", "notifications", ClientOnly),
    Route("/provider/home", "provider-home", ProviderOnly),
    Route("/provider/requests", "provider-requests", ProviderOnly),
    Route("/my-teams", "my-teams", ProviderOnly),
    Route("/work-orders", "work-orders", ProviderOnly),
    Route("/profile", "profile", Meta(Bool(true), Undef)),
    Route("/:pathMatch(.*)*", "not-found", Public)
  ]

  /** The index of a page of the table called `name`. */
  predicate NamedAt(name: string, i: int) {
    0 <= i < |Routes| && Routes[i].name == name
  }

  /** `localStorage.getItem('isAuthenticated') === 'true'` */
  predicate IsAuthenticated(s: Session) {
    StrictEq(Stored(s.isAuthenticated), Str("true"))
  }

  /** `to.meta.requiresAuth ?? true`, read as a condition. */
  predicate RequiresAuth(m: Meta) {
    Truthy(Coalesce(m.requiresAuth, Bool(true)))
  }

  predicate IsAuthPage(name: string) {
    name == "login" || name == "landing" || name == "register"
  }

  /** `to.meta.role && to.meta.role !== userRole` */
  predicate WrongRole(s: Session, m: Meta) {
    Truthy(m.role) && !StrictEq(m.role, Stored(s.userRole))
  }

  /** The `/home` redirect: the provider home for a stored role of exactly 'provider',
      the client home for anything else, a missing role included. */
  function HomeRedirect(s: Session): (target: string)
    ensures target == "provider-home" <==> s.userRole == Some("provider")
    ensures target == "client-home" <==> s.userRole != Some("provider")
  {
    if StrictEq(Stored(s.userRole), Str("provider")) then "provider-home" else "client-home"
  }

  /** The `router.beforeEach` guard: the three checks run in this order and the first
      that applies decides. */
  function Guard(s: Session, to: Route): (d: Decision)
    ensures RequiresAuth(to.meta) && !IsAuthenticated(s) ==> d == Redirect("landing")
    ensures d == Redirect("home") <==>
              IsAuthenticated(s) && !RequiresAuth(to.meta) && IsAuthPage(to.name)
    ensures d == Proceed <==>
              (IsAuthenticated(s) || !RequiresAuth(to.meta))
              && !(IsAuthenticated(s) && !RequiresAuth(to.meta) && IsAuthPage(to.name))
              && !WrongRole(s, to.meta)
  {
    var isAuthenticated := IsAuthenticated(s);
    var requiresAuth := Coalesce(to.meta.requiresAuth, Bool(true));
    if Truthy(requiresAuth) && !isAuthenticated then
      Redirect("landing")
    else if !Truthy(requiresAuth) && isAuthenticated && IsAuthPage(to.name) then
      Redirect("home")
    else if WrongRole(s, to.meta) then
      Redirect(ToStr(Stored(s.userRole)) + "-home")
    else
      Proceed
  }

  /** Where a redirect finally lands: `home` is itself a redirect route. */
  function Resolve(s: Session, target: string): string {
    if target == "home" then HomeRedirect(s) else target
  }

  /** The guard counts the user as signed in only for the exact stored text 'true'. */
  lemma AuthenticatedOnlyByExactTrue(s: Session)
    ensures IsAuthenticated(s) <==> s.isAuthenticated == Some("true")
    ensures !IsAuthenticated(Session(Some("True"), s.userRole))
    ensures !IsAuthenticated(Session(None, s.userRole))
  {
  }

  /** A route whose meta omits `requiresAuth` is protected: only a stored flag of
      'true' gets past the guard, and everyone else goes to the landing page. */
  lemma OmittedRequiresAuthProtects(s: Session, to: Route)
    requires to.meta.requiresAuth.Undef?
    ensures !IsAuthenticated(s) ==> Guard(s, to) == Redirect("landing")
  {
  }

  /** A role mismatch sends the user to `<stored role>-home`, built from the stored
      text; when no role is stored that is the name "null-home", which no route has. */
  lemma RoleMismatchTarget(s: Session, to: Route)
    requires IsAuthenticated(s) && RequiresAuth(to.meta) && WrongRole(s, to.meta)
    ensures Guard(s, to) == Redirect(ToStr(Stored(s.userRole)) + "-home")
    ensures s.userRole.None? ==> Guard(s, to) == Redirect("null-home")
                                 && forall i :: !NamedAt("null-home", i)
  {
  }

  /** The authentication check comes before the role check: a visitor who is not signed
      in and asks for any role-restricted page of the table goes to the landing page. */
  lemma UnauthenticatedNeverReachesRoleHome(s: Session, i: nat)
    requires !IsAuthenticated(s)
    requires i < |Routes| && Truthy(Routes[i].meta.role)
    ensures Guard(s, Routes[i]) == Redirect("landing")
  {
  }

  /** The profile page declares no role, so every signed-in user reaches it. */
  lemma ProfileAdmitsEverySignedInUser(s: Session)
    requires IsAuthenticated(s)
    ensures NamedAt("profile", 16) && Guard(s, Routes[16]) == Proceed
  {
  }

  /** A signed-in user asking for the landing, login or register page is sent to `/home`. */
  lemma SignedInUserLeavesAuthPages(s: Session, name: string)
    requires IsAuthenticated(s) && IsAuthPage(name)
    ensures exists i :: NamedAt(name, i) && Guard(s, Routes[i]) == Redirect("home")
  {
    var i := if name == "landing" then 0 else if name == "login" then 1 else 2;
    assert NamedAt(name, i);
  }

  /** For a visitor who is not signed in, and for a signed-in client or provider, every
      redirect the guard makes on a page of the table (after following `/home`) lands on
      a page of the table that the guard lets through: no navigation loops. */
  lemma {:induction false} RedirectsSettleInOneStep(s: Session, i: nat)
    requires !IsAuthenticated(s)
             || s.userRole == Some("client") || s.userRole == Some("provider")
    requires i < |Routes|
    ensures Guard(s, Routes[i]).Redirect? ==>
              var target := Resolve(s, Guard(s, Routes[i]).target);
              exists j :: NamedAt(target, j) && Guard(s, Routes[j]) == Proceed
  {
    if Guard(s, Routes[i]).Redirect? {
      if !IsAuthenticated(s) {
        SignedOutSettles(s, i);
      } else if s.userRole == Some("client") {
        ClientSettles(s, i);
      } else {
        ProviderSettles(s, i);
      }
    }
  }

  lemma SignedOutSettles(s: Session, i: nat)
    requires !IsAuthenticated(s) && i < |Routes| && Guard(s, Routes[i]).Redirect?
    ensures Resolve(s, Guard(s, Routes[i]).target) == "landing"
    ensures NamedAt("landing", 0) && Guard(s, Routes[0]) == Proceed
  {
  }

  lemma ClientSettles(s: Session, i: nat)
    requires IsAuthenticated(s) && s.userRole == Some("client")
    requires i < |Routes| && Guard(s, Routes[i]).Redirect?
    ensures Resolve(s, Guard(s, Routes[i]).target) == "client-home"
    ensures NamedAt("client-home", 5) && Guard(s, Routes[5]) == Proceed
  {
  }

  lemma ProviderSettles(s: Session, i: nat)
    requires IsAuthenticated(s) && s.userRole == Some("provider")
    requires i < |Routes| && Guard(s, Routes[i]).Redirect?
    ensures Resolve(s, Guard(s, Routes[i]).target) == "provider-home"
    ensures NamedAt("provider-home", 12) && Guard(s, Routes[12]) == Proceed
  {
  }
}
