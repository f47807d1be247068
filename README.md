# CoolGym frontend core in Dafny

CoolGym's web client sits on top of a REST backend. Its only logic lies between the
responses and the screens. This project models that logic in Dafny and proves what it
guarantees:

- **The navigation guard.** The `router.beforeEach` check, the `/home` redirect and the
  route table with its `requiresAuth`/`role` metadata. The guard is a function from the
  stored session and the target route to "proceed" or "redirect to X".
- **The assemblers.** These cover equipment, maintenance, profile, auth, invoice, rent and
  company. Each maps a loosely typed resource to an entity, or form data to a request
  body. They follow JavaScript's `||`, `??` and `Array.isArray` rules.
- **The entities.** Each has its constructor defaults, predicates and text builders.
- **The list steps of the two API services.** Both run once a response has arrived:
  - the provider service filters pending and approved requests, de-duplicates clients and
    falls back to `[]` whenever a read fails;
  - the company service joins equipment, maintenance requests and users, and tolerates a
    failed user lookup.

Loosely typed data is a `JsValues.JsValue`: undefined, null, booleans, integers, NaN,
strings, arrays and objects (string-keyed maps). The module defines truthiness, `||`,
`??`, `===`, the `SameValueZero` comparison of `includes` and `Map`, `Number`,
`parseInt`, template-literal text and object spread. It also provides `filter`, `map` and
`find` over callbacks that may throw. Reading a property of `null` or `undefined`,
calling a method a value lacks, and `map` or `filter` on a non-array all throw in
JavaScript. Here they yield `Err(TypeError)`.

The HTTP layer is a parameter `Http.Client`: a function from a request (verb, path, query
parameters, body) to the response's `data` or a failure. `getMyClients` fills a `Map`
inside a `forEach`, so `ProviderApi.GetMyClients` is a method with a loop. The loop is
proved against the specification function `ProviderApi.ClientsMap`. The user lookup of the
company join reassigns `userData` inside a try/catch. `CompanyApi.EnrichAll` has the same
loop shape.

Where the code and the repository's design notes disagree, the model follows the code:

- The maintenance entity has no `observation`/`notes` aliasing.
- A plan's machine text has no "Unlimited" sentinel.
- An invoice's default currency is `'PEN'`.

## Model

| member | source | states |
|---|---|---|
| Router.HomeRedirect | src/shared-kernel/infrastructure/router/index.js:27-34 | `/home` goes to `provider-home` exactly when the stored role is 'provider', to `client-home` otherwise |
| Router.Guard | src/shared-kernel/infrastructure/router/index.js:129-158 | a protected route without the auth flag redirects to `landing`; `home` exactly for a signed-in user on an auth page that does not require auth; proceed exactly when none of the three checks applies |
| Router.AuthenticatedOnlyByExactTrue | src/shared-kernel/infrastructure/router/index.js:130 | signed in exactly when the stored flag is the text 'true'; 'True' or no flag is signed out |
| Router.OmittedRequiresAuthProtects | src/shared-kernel/infrastructure/router/index.js:132-138 | a route whose meta omits `requiresAuth` sends a signed-out visitor to `landing` |
| Router.RoleMismatchTarget | src/shared-kernel/infrastructure/router/index.js:151-155 | a role mismatch redirects to "<stored role>-home"; with no stored role that is "null-home", which no route has |
| Router.UnauthenticatedNeverReachesRoleHome | src/shared-kernel/infrastructure/router/index.js:135-155 | the auth check runs first: a signed-out visitor on any role-restricted route of the table goes to `landing` |
| Router.ProfileAdmitsEverySignedInUser | src/shared-kernel/infrastructure/router/index.js:105-110 | `profile` has no role, and the guard lets every signed-in user through |
| Router.SignedInUserLeavesAuthPages | src/shared-kernel/infrastructure/router/index.js:141-148 | a signed-in user on `login`, `landing` or `register` is redirected to `home` |
| Router.RedirectsSettleInOneStep | src/shared-kernel/infrastructure/router/index.js:13-158 | for a signed-out visitor, a client or a provider, every redirect (after following `/home`) lands on a route of the table that the guard lets through |
| Router.SignedOutSettles | src/shared-kernel/infrastructure/router/index.js:135-138 | every redirect of a signed-out visitor resolves to `landing`, which admits them |
| Router.ClientSettles | src/shared-kernel/infrastructure/router/index.js:141-155 | every redirect of a signed-in client resolves to `client-home`, which admits them |
| Router.ProviderSettles | src/shared-kernel/infrastructure/router/index.js:141-155 | every redirect of a signed-in provider resolves to `provider-home`, which admits them |
| EquipmentEntity.Construction | src/contexts/equipment/Domain/equipment.entity.js:7-37 | a defined argument property (null included) is kept, an undefined one takes its default, no property is left undefined |
| EquipmentEntity.ConstructionFromOwnProperties | src/contexts/equipment/Domain/equipment.entity.js:7-37 | constructing from an instance's own properties gives the instance back |
| EquipmentEntity.FullIdentifierOfText | src/contexts/equipment/Domain/equipment.entity.js:43-45 | for text fields the identifier is "<name> - <model> (<code>)" |
| EquipmentEntity.ActiveIsCaseSensitive | src/contexts/equipment/Domain/equipment.entity.js:51-53 | active exactly when the status is 'active'; 'Active' is not |
| EquipmentEntity.FormattedInstallationDate | src/contexts/equipment/Domain/equipment.entity.js:59-62 | 'N/A' for a falsy date, otherwise the locale text of the date |
| EquipmentEntity.CompleteMeansIdentified | src/contexts/equipment/Domain/equipment.entity.js:68-77 | complete exactly when each of the six identifying properties is truthy |
| EquipmentEntity.EmptyEquipment | src/contexts/equipment/Domain/equipment.entity.js:7-77 | built from `{}`: active, incomplete, id 0, no date, no client, identifier " -  ()" |
| EquipmentAssembler.ToEntity | src/contexts/equipment/Domain/equipment.assembler.js:13-31 | throws exactly on a nullish resource; camelCase wins when truthy, else snake_case; `usageHours` falls back to 0; a falsy status becomes 'active' |
| EquipmentAssembler.ToEntityDefined | src/contexts/equipment/Domain/equipment.assembler.js:20-28 | no property of the built entity is undefined, and a falsy resource status gives an active entity |
| EquipmentAssembler.ImageIgnored | src/contexts/equipment/Domain/equipment.assembler.js:14-30 | the resource's `image` never changes the entity |
| EquipmentAssembler.ToDTO | src/contexts/equipment/Domain/equipment.assembler.js:38-56 | the DTO has exactly the entity's fourteen properties plus `image`, which is undefined since an entity has none |
| EquipmentAssembler.ToDTOProperties | src/contexts/equipment/Domain/equipment.assembler.js:38-56 | every property is copied unchanged under its own name |
| EquipmentAssembler.DTOLookups | src/contexts/equipment/Domain/equipment.assembler.js:38-56 | the DTO has each property under its camelCase name and nothing under the snake_case spellings |
| EquipmentAssembler.DTOFields | src/contexts/equipment/Domain/equipment.assembler.js:13-56 | what `toEntity` reads back from a DTO is the entity with the fallbacks applied |
| EquipmentAssembler.RefilledFixpoint | src/contexts/equipment/Domain/equipment.assembler.js:20-28 | the constructor restores an entity after the fallbacks exactly when the entity is stable |
| EquipmentAssembler.RoundTrip | src/contexts/equipment/Domain/equipment.assembler.js:13-56 | `toEntity(toDTO(e)) == e` exactly when no property is undefined and each fallback property is truthy or already its fallback's value |
| EquipmentAssembler.ToEntityList | src/contexts/equipment/Domain/equipment.assembler.js:63-65 | throws on a non-array; otherwise same length and order, element by element |
| MaintenanceEntity.NewMaintenanceRequest | src/contexts/maintenance/Domain/maintenance-request.entity.js:6-17 | the constructor throws exactly for a null or undefined argument |
| MaintenanceEntity.Construction | src/contexts/maintenance/Domain/maintenance-request.entity.js:6-28 | defined properties kept (null included), undefined ones defaulted, none left undefined |
| MaintenanceEntity.StatusPredicates | src/contexts/maintenance/Domain/maintenance-request.entity.js:34-44 | pending/completed exactly for the texts 'pending'/'completed', case-sensitive, never both |
| MaintenanceEntity.TechnicianAssignment | src/contexts/maintenance/Domain/maintenance-request.entity.js:50-52 | a technician exactly when the argument's id is neither null nor undefined |
| MaintenanceEntity.EmptyRequest | src/contexts/maintenance/Domain/maintenance-request.entity.js:6-52 | built from `{}`: pending, not completed, no technician, cost 0, id null, type 'corrective' |
| MaintenanceEntity.FormattedCost | src/contexts/maintenance/Domain/maintenance-request.entity.js:58-60 | throws exactly for a non-number cost; otherwise "$" and the two-decimal text |
| MaintenanceAssembler.ToEntityFromResource | src/contexts/maintenance/Domain/maintenance.assembler.js:13-15 | throws exactly on a nullish resource; the resource's defined properties are kept, the undefined ones take the constructor's defaults |
| MaintenanceAssembler.ToEntityListFromResources | src/contexts/maintenance/Domain/maintenance.assembler.js:22-28 | `[]` for a non-array; otherwise same length and order, failing exactly on a nullish element |
| MaintenanceAssembler.ToCreateResource | src/contexts/maintenance/Domain/maintenance.assembler.js:35-47 | throws exactly for a nullish form; the payload has exactly the nine request fields |
| MaintenanceAssembler.CreateResourceContents | src/contexts/maintenance/Domain/maintenance.assembler.js:39-45 | status 'pending', technician null, type 'corrective' and notes '' when the form's are falsy |
| MaintenanceAssembler.CreateResourceCopies | src/contexts/maintenance/Domain/maintenance.assembler.js:37-43 | user, equipment, cost and date are the form's own values, and `createdAt` is the clock's text |
| MaintenanceAssembler.CreatedRequestIsPending | src/contexts/maintenance/Domain/maintenance.assembler.js:35-47 | a request built from a create body is pending, not completed, and has no technician |
| MaintenanceAssembler.ToEquipmentOption | src/contexts/maintenance/Domain/maintenance.assembler.js:54-59 | exactly `{id, label}`; label is the name, or 'Unknown Equipment' when falsy; throws on nullish input |
| MaintenanceAssembler.ToEquipmentOptions | src/contexts/maintenance/Domain/maintenance.assembler.js:66-72 | `[]` for a non-array; otherwise one option per element in order |
| ClientPlanEntity.Construction | src/contexts/profile/Domain/client-plan.entity.js:6-12 | defined properties kept, undefined ones defaulted (billing cycle 'monthly'), none left undefined |
| ClientPlanEntity.FormattedPrice | src/contexts/profile/Domain/client-plan.entity.js:19-21 | throws exactly for a non-number price; starts with "$" and ends with " <currency or USD> / <cycle>" |
| ClientPlanEntity.MaxMachinesTextShape | src/contexts/profile/Domain/client-plan.entity.js:27-29 | "Up to <n> machines" for every value, 0 included; the count reads back as the integer |
| ClientPlanEntity.LowerName | src/contexts/profile/Domain/client-plan.entity.js:36 | `toLowerCase` succeeds exactly on a string name |
| ClientPlanEntity.TierPredicates | src/contexts/profile/Domain/client-plan.entity.js:35-53 | each tier holds exactly when the lower-cased name is its word; they throw on a non-string name; at most one holds |
| ClientPlanEntity.TierIgnoresCase | src/contexts/profile/Domain/client-plan.entity.js:35-53 | changing the case of the name never changes a tier answer; 'BASIC' is basic |
| UserProfileEntity.Construction | src/contexts/profile/Domain/user-profile.entity.js:6-26 | defined properties kept, undefined ones defaulted, none left undefined, the plan as passed |
| UserProfileEntity.DisplayName | src/contexts/profile/Domain/user-profile.entity.js:32-34 | the first truthy of name, username, email (else the email); truthy exactly when one of them is |
| UserProfileEntity.CurrentPlanType | src/contexts/profile/Domain/user-profile.entity.js:40-43 | 'No plan' without a plan; otherwise exactly "<name> (" followed by the plan's machine text and ")", nothing between |
| UserProfileEntity.ActivePlanIffPlanType | src/contexts/profile/Domain/user-profile.entity.js:40-51 | an active plan exactly when the plan type is not 'No plan' |
| UserProfileEntity.OnPlanIsStrict | src/contexts/profile/Domain/user-profile.entity.js:58-60 | on plan n exactly when the plan id is the number n; the text "n" and null never match |
| UserProfileEntity.EmptyProfile | src/contexts/profile/Domain/user-profile.entity.js:6-68 | built from `{}`: no plan, no photo, 'No plan', an individual |
| ProfileAssembler.PlanArgsRead | src/contexts/profile/Domain/profile.assembler.js:14-22 | the plan literal builds the same plan as the resource itself |
| ProfileAssembler.ToPlanEntity | src/contexts/profile/Domain/profile.assembler.js:14-22 | throws exactly on a nullish resource; defined properties kept, undefined ones defaulted, plan fully defined |
| ProfileAssembler.ToUserProfileEntity | src/contexts/profile/Domain/profile.assembler.js:30-41 | throws exactly on a nullish resource; a plan exactly when the plan resource is truthy, and then the assembled plan |
| ProfileAssembler.UserProfileFields | src/contexts/profile/Domain/profile.assembler.js:31-40 | each user field is the resource's (defaulted when undefined); the photo is always null |
| ProfileAssembler.ToPlansArray | src/contexts/profile/Domain/profile.assembler.js:48-50 | throws on a non-array or a nullish element; otherwise one plan per element in order |
| UserEntity.NewUser | src/contexts/auth/Domain/user.entity.js:6-14 | the constructor throws exactly for a null or undefined argument |
| UserEntity.Construction | src/contexts/auth/Domain/user.entity.js:6-22 | defined properties kept, undefined ones defaulted, none left undefined |
| UserEntity.AuthenticatedMeansIdAndUsername | src/contexts/auth/Domain/user.entity.js:28-30 | signed in exactly when id and username are both truthy |
| UserEntity.DisplayName | src/contexts/auth/Domain/user.entity.js:36-38 | the first truthy of name, username, email (else the email) |
| UserEntity.AccountTypes | src/contexts/auth/Domain/user.entity.js:44-54 | individual/company exactly for those texts, never both |
| UserEntity.EmptyUser | src/contexts/auth/Domain/user.entity.js:6-54 | built from `{}`: an individual, not a company, not signed in, id 0 |
| AuthAssembler.ToEntityFromResource | src/contexts/auth/Domain/auth.assembler.js:13-15 | throws exactly on a nullish resource; the resource's defined properties are kept, the undefined ones take the constructor's defaults |
| AuthAssembler.ToLoginResource | src/contexts/auth/Domain/auth.assembler.js:23-28 | exactly the keys email and password, holding the arguments |
| AuthAssembler.ToSignupResource | src/contexts/auth/Domain/auth.assembler.js:35-44 | throws exactly on a nullish form; exactly the six sign-up keys |
| AuthAssembler.SignupContents | src/contexts/auth/Domain/auth.assembler.js:36-43 | credentials and name copied; phone '' and type 'individual' when falsy; no id |
| AuthAssembler.SignupUserIsSignedOut | src/contexts/auth/Domain/auth.assembler.js:35-44 | a user built from a sign-up body has id 0, is signed out, and is an individual when the form has no type |
| InvoiceEntity.Construction | src/contexts/account-statement/Domain/invoice.entity.js:2-20 | defined properties kept, undefined ones defaulted ('PEN', 'pending'); the amount is always a number |
| InvoiceEntity.LowerStatus | src/contexts/account-statement/Domain/invoice.entity.js:34 | `toLowerCase` succeeds exactly on a string status |
| InvoiceEntity.StatusChecks | src/contexts/account-statement/Domain/invoice.entity.js:33-39 | paid/pending exactly by the lower-cased status; throw on a non-string status; never both |
| InvoiceEntity.StatusIgnoresCase | src/contexts/account-statement/Domain/invoice.entity.js:33-39 | the case of the status never changes either check; 'PAID' is paid |
| InvoiceEntity.EmptyInvoice | src/contexts/account-statement/Domain/invoice.entity.js:2-39 | built from `{}`: pending, unpaid, 'PEN', amount 0 |
| InvoiceAssembler.InvoiceArgsRead | src/contexts/account-statement/Domain/invoice.assembler.js:4-15 | the literal builds the same invoice as the resource itself |
| InvoiceAssembler.ToEntity | src/contexts/account-statement/Domain/invoice.assembler.js:4-15 | throws exactly on a nullish resource; properties kept or defaulted, the amount numeric, 'PEN' when no currency |
| InvoiceAssembler.OtherKeysDropped | src/contexts/account-statement/Domain/invoice.assembler.js:5-14 | keys other than the eight never change the invoice |
| InvoiceAssembler.ToEntityList | src/contexts/account-statement/Domain/invoice.assembler.js:17-20 | `[]` for a non-array; otherwise same length and order |
| InvoiceFormat.FormatCurrencyByRole | src/contexts/account-statement/model/invoice.entity.js:1-6 | a non-number is returned unchanged (nullish becomes ''); a number gives "$ " and its two-decimal text |
| InvoiceFormat.FormatCurrencyPEN | src/contexts/account-statement/model/invoice.entity.js:9-11 | equals `formatCurrencyByRole` on every value, so it formats in dollars |
| InvoiceFormat.FormatIdempotentOnText | src/contexts/account-statement/model/invoice.entity.js:1-2 | formatting a formatted non-number changes nothing |
| InvoiceFormat.StatusChecks | src/contexts/account-statement/model/invoice.entity.js:13-14 | paid/pending exactly for the exact texts, case-sensitive; false for a missing invoice; never both |
| RentEntity.Construction | src/contexts/rent/Domain/rent-machine.entity.js:2-20 | every property but the price kept as passed (false and null included) or defaulted; the price is a number |
| RentEntity.FormattedPrice | src/contexts/rent/Domain/rent-machine.entity.js:22-30 | succeeds exactly when the currency formatting does, and always ends with " / month" |
| RentAssembler.ToEntity | src/contexts/rent/Domain/rent.assembler.js:4-15 | throws exactly on a nullish resource; `equipmentName \|\| name`, `monthlyPriceUSD \|\| price`, currency 'USD' when falsy, `imageUrl \|\| image`; `type` and `model` kept or defaulted to '' |
| RentAssembler.AvailabilityKeepsFalse | src/contexts/rent/Domain/rent.assembler.js:13 | an explicit false stays false; null becomes true |
| RentAssembler.ToEntityList | src/contexts/rent/Domain/rent.assembler.js:17-20 | `[]` for a non-array; otherwise same length and order |
| CompanyEntity.NewCompanyMachine | src/contexts/company/Domain/company-machine.entity.js:7 | the constructor throws exactly for a null or undefined argument |
| CompanyEntity.Construction | src/contexts/company/Domain/company-machine.entity.js:7-12 | defined properties kept, undefined ones defaulted, other keys ignored |
| CompanyEntity.DisplayName | src/contexts/company/Domain/company-machine.entity.js:26-28 | "<name> (" then "<model>)", and nothing else |
| CompanyEntity.EmptyMachine | src/contexts/company/Domain/company-machine.entity.js:7-28 | built from `{}`: no image, display name " ()", id 0 |
| CompanyAssembler.ToEntityFromResource | src/contexts/company/Domain/company.assembler.js:13-15 | throws exactly on a nullish resource; the four properties kept or defaulted |
| CompanyAssembler.OtherKeysDropped | src/contexts/company/Domain/company.assembler.js:13-15 | keys other than id, name, model and image never change the machine |
| CompanyAssembler.ToEntityListFromResources | src/contexts/company/Domain/company.assembler.js:22-28 | `[]` for a non-array; otherwise same length and order |
| ProviderApi.IsPendingRental | src/contexts/provider/infrastructure/provider-api.service.js:16 | true exactly for status 'pending'; throws on a nullish request |
| ProviderApi.PendingRentals | src/contexts/provider/infrastructure/provider-api.service.js:16 | fails exactly on a non-array or a nullish element; keeps exactly the pending requests |
| ProviderApi.GetPendingRentalRequests | src/contexts/provider/infrastructure/provider-api.service.js:12-21 | exactly the pending requests of the read, in order (`PendingRentals`); `[]` when the read or the filter fails |
| ProviderApi.PendingRentalsOrder | src/contexts/provider/infrastructure/provider-api.service.js:16 | the kept requests keep their order across concatenation |
| ProviderApi.PendingRentalsIdempotent | src/contexts/provider/infrastructure/provider-api.service.js:16 | filtering the result again changes nothing |
| ProviderApi.ProviderId | src/contexts/provider/infrastructure/provider-api.service.js:107 | always a number; NaN when no id is stored |
| ProviderApi.StoredProviderId | src/contexts/provider/infrastructure/provider-api.service.js:107 | a stored decimal id reads back as that integer |
| ProviderApi.IsApprovedFor | src/contexts/provider/infrastructure/provider-api.service.js:112 | true exactly for status 'approved' with `providerId` strictly equal to the provider's |
| ProviderApi.Approved | src/contexts/provider/infrastructure/provider-api.service.js:111-113 | keeps exactly this provider's approved requests; fails on a non-array or a nullish element |
| ProviderApi.NoStoredIdNoApprovals | src/contexts/provider/infrastructure/provider-api.service.js:107-113 | without a stored id (NaN), no request is approved for the provider |
| ProviderApi.ClientEntry | src/contexts/provider/infrastructure/provider-api.service.js:119-123 | exactly id, email, date; email is `clientEmail`, else "Client #<clientId>" |
| ProviderApi.ClientsMap | src/contexts/provider/infrastructure/provider-api.service.js:116-125 | as many keys as entries |
| ProviderApi.GetMyClients | src/contexts/provider/infrastructure/provider-api.service.js:105-132 | the loop yields the entries of the map built over this provider's approved requests; `[]` on any failure |
| ProviderApi.ClientsDistinct | src/contexts/provider/infrastructure/provider-api.service.js:116-127 | no two entries have SameValueZero-equal client ids |
| ProviderApi.ClientsCover | src/contexts/provider/infrastructure/provider-api.service.js:117-125 | every approved request's client id is among the keys |
| ProviderApi.NewClientIsFirst | src/contexts/provider/infrastructure/provider-api.service.js:118-119 | a request that adds an entry is the first of its client |
| ProviderApi.FirstOccurrenceWins | src/contexts/provider/infrastructure/provider-api.service.js:117-125 | every entry was built from the first request of its client |
| ProviderApi.ClientsPrefix | src/contexts/provider/infrastructure/provider-api.service.js:117-127 | entries follow first-occurrence order: more requests only append entries |
| ProviderApi.IsOpenMaintenance | src/contexts/provider/infrastructure/provider-api.service.js:144-148 | kept exactly when the status lower-cases to 'pending' and no provider is assigned; throws on a truthy non-string status |
| ProviderApi.WithClientId | src/contexts/provider/infrastructure/provider-api.service.js:151-157 | every request property kept; `clientId` is `requestedByUserId \|\| clientId \|\| null` |
| ProviderApi.PendingMaintenance | src/contexts/provider/infrastructure/provider-api.service.js:144-157 | fails exactly when the data is not an array or a callback throws; never longer than the input |
| ProviderApi.MapClientId | src/contexts/provider/infrastructure/provider-api.service.js:151-157 | one mapped record per kept request, in order |
| ProviderApi.PendingMaintenanceContents | src/contexts/provider/infrastructure/provider-api.service.js:144-159 | the result is exactly the mapped open, unassigned requests |
| ProviderApi.PendingMaintenanceOrder | src/contexts/provider/infrastructure/provider-api.service.js:144-159 | the mapped requests keep their order across concatenation |
| ProviderApi.GetPendingMaintenanceRequests | src/contexts/provider/infrastructure/provider-api.service.js:138-164 | `[]` when the read fails, else the filter and map steps or `[]` when they throw |
| ProviderApi.PendingMaintenanceAllOrNothing | src/contexts/provider/infrastructure/provider-api.service.js:144-163 | one truthy non-string status empties the whole list; 'PENDING' counts as pending |
| ProviderApi.GetAllMaintenanceRequests | src/contexts/provider/infrastructure/provider-api.service.js:49-57 | the response data, `[]` when the read fails |
| ProviderApi.GetProviderEquipment | src/contexts/provider/infrastructure/provider-api.service.js:63-71 | the `/equipments` data, `[]` when the read fails |
| ProviderApi.GetAllInvoices | src/contexts/provider/infrastructure/provider-api.service.js:77-85 | the `/billing/invoices/all` data, `[]` when the read fails |
| ProviderApi.GetAllRentalRequests | src/contexts/provider/infrastructure/provider-api.service.js:91-99 | the `/rentalRequests` data, `[]` when the read fails |
| ProviderApi.MyMaintenancePath | src/contexts/provider/infrastructure/provider-api.service.js:182-183 | the path starts with "/maintenanceRequests/provider/" |
| ProviderApi.MyMaintenancePathOf | src/contexts/provider/infrastructure/provider-api.service.js:182-183 | a stored id appears as its decimal text; with none the path ends in "NaN" |
| ProviderApi.GetMyMaintenanceRequests | src/contexts/provider/infrastructure/provider-api.service.js:180-189 | the provider's data, `[]` when the read fails |
| ProviderApi.ApproveRequest | src/contexts/provider/infrastructure/provider-api.service.js:29 | POST to "/rentalRequests/<id>/approve" with no body |
| ProviderApi.RejectRequest | src/contexts/provider/infrastructure/provider-api.service.js:39-41 | PUT to "/rentalRequests/<id>" with body `{status: 'rejected'}` |
| ProviderApi.AssignRequest | src/contexts/provider/infrastructure/provider-api.service.js:172 | PUT to "/maintenanceRequests/<id>/assign" with no body |
| ProviderApi.FailurePolicy | src/contexts/provider/infrastructure/provider-api.service.js:12-189 | against a failing server the three writes fail with its error, while every read gives `[]` |
| CompanyApi.Read | src/contexts/company/services/company.api-service.js:22 | `cm.equipmentId` throws exactly on a nullish machine |
| CompanyApi.EquipmentIds | src/contexts/company/services/company.api-service.js:22 | one id per machine, in order |
| CompanyApi.GetCompanyEquipment | src/contexts/company/services/company.api-service.js:9-33 | the machines read fails through; falsy or zero-length machines give `[]`; a truthy non-array throws; otherwise one fetched record per machine in order, failing exactly on a nullish machine or a failed fetch |
| CompanyApi.NoMachinesNoEquipment | src/contexts/company/services/company.api-service.js:17-19 | an empty or null machine list gives no equipment |
| CompanyApi.OnEquipment | src/contexts/company/services/company.api-service.js:55-57 | true exactly when the request's equipment id is among the ids (SameValueZero) |
| CompanyApi.CompanyRequests | src/contexts/company/services/company.api-service.js:55-57 | keeps exactly the requests on the company's equipment; fails on a non-array or a nullish element |
| CompanyApi.CompanyRequestsOrder | src/contexts/company/services/company.api-service.js:55-57 | the kept requests keep their original order |
| CompanyApi.Ids | src/contexts/company/services/company.api-service.js:44 | one id per equipment record, in order |
| CompanyApi.CompanyScope | src/contexts/company/services/company.api-service.js:40-57 | equipment errors pass through; no equipment means `[]` and no further read; a nullish record throws; a failed maintenance read fails through; succeeds exactly when every step does, with the filtered requests |
| CompanyApi.EquipmentForIsFirstMatch | src/contexts/company/services/company.api-service.js:62 | the first record whose id is strictly equal to the request's, undefined when none matches |
| CompanyApi.KeptRequestFindsEquipment | src/contexts/company/services/company.api-service.js:55-62 | a kept request whose id is not NaN finds one of the company's records with that id |
| CompanyApi.ClientFor | src/contexts/company/services/company.api-service.js:64-71 | the fetched user, or null when the lookup fails |
| CompanyApi.EnrichedRecord | src/contexts/company/services/company.api-service.js:73-77 | every request property kept, plus `equipment` and `client` |
| CompanyApi.LookupIsolated | src/contexts/company/services/company.api-service.js:64-77 | a record depends only on its own user lookup |
| CompanyApi.EnrichAll | src/contexts/company/services/company.api-service.js:60-79 | one enriched record per kept request, in order |
| CompanyApi.GetCompanyMaintenanceRequests | src/contexts/company/services/company.api-service.js:40-86 | scope failures pass through; otherwise exactly one enriched record per kept request, in order, never failing on a user lookup |

## Left out

- The HTTP layer (`src/shared-kernel/infrastructure/http.js`, axios, interceptors, token
  handling) is not part of this model. Requests go to a deterministic `Http.Client`
  parameter, so two identical requests get the same answer.
- Asynchrony: `Promise.all` is modelled as a pass in index order. When several fetches
  fail, the model reports the first failure by index, while JavaScript reports the first
  to reject in time.
- Console logging in the catch blocks is not modelled.
- The thin API services, `user.api-service.js`, the locale files, the UI framework
  registration and the router's lazy imports and history settings are not part of this
  model. They hold I/O or static data only.
- Numbers are integers plus NaN. `toFixed`, `Intl.NumberFormat`, `toLocaleDateString` and
  `new Date().toISOString()` are function parameters, and only the structure around them
  (prefixes, suffixes, which branch applies) is stated. `Number` and `parseInt` on text
  read decimal integers only.
- `localStorage` reads are `Option<string>` parameters: the stored text, or none.
- Object identity is not modelled. `===`, `includes` and the `Map` of `getMyClients`
  treat two objects or arrays as never equal. Responses are freshly parsed JSON, so
  object-valued ids never coincide there anyway.
- Property order of objects is not modelled (objects are maps), so spread is a map
  update.
- `toLowerCase` lower-cases ASCII letters only.
- ProviderApi.ApproveRentalRequest, ProviderApi.RejectRentalRequest and
  ProviderApi.AcceptMaintenanceRequest have no contract of their own. Each passes
  the client's answer through unchanged. Their requests are stated by
  `ApproveRequest`, `RejectRequest` and `AssignRequest`, and their failure
  propagation by `FailurePolicy`.
- ProviderApi.ClientsMap: its own contract states only the size match. Distinctness,
  coverage, first-occurrence and order are the lemmas beside it.
- ProviderApi.PendingMaintenance: its own contract states when it fails and a length
  bound. Its contents and order are `PendingMaintenanceContents` and
  `PendingMaintenanceOrder`.
- CompanyApi.EquipmentFor and CompanyApi.Enrich have no contract of their own. Their
  meaning is `EquipmentForIsFirstMatch` and `EnrichedRecord`.
