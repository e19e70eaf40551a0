# Repair-shop front end: a verified model of its screen logic

The application is a Next.js front end for a car repair shop. Clients register
cars and request repairs. Administrators see every order, car and client,
change order status and cost, add notes, and delete records. All of its logic
sits inside React components: joins of backend records, search filters, the
guards that decide whether a change is sent, and small validators. This
project models that logic in Dafny and proves what each piece promises.

The modules follow the source files:

| module | source file |
|---|---|
| `Js` | JavaScript values and operators: `??`, `?.`, truthiness, `===`, `String()`, `Number()`, `toLowerCase`, `trim`, `includes`, `split("@")[0]` |
| `Lists` | `Array.prototype.filter`, `slice(0, n)`, and a `Map` filled by a loop, last write wins |
| `Io` | backend calls, alerts, navigation and the session store, appended to a ghost trace |
| `Records` | conventions shared by several screens: the user indices, the client role, the name shown for a user, the status list |
| `AdminRepairs` | app/admin/repairs/page.tsx |
| `AdminCars` | app/admin/cars/page.tsx |
| `AdminClients` | app/admin/clients/page.tsx |
| `RepairDetails` | components/repair-details-admin.tsx |
| `AdminDashboard` | components/admin-dashboard.tsx |
| `RegisterCar` | app/client/register-car/page.tsx |
| `RequestRepair` | app/client/request-repair/page.tsx |
| `CarsApi` | api/cars.ts |
| `Login` | app/login/page.tsx |
| `ManageRepairs`, `ManageCars`, `ManageClients` | components/manage-repairs.tsx, components/manage-cars.tsx, components/manage-clients.tsx |

Modelling conventions:

- **Values.** A backend value is a `JsValue`:
  - `Undefined`, `Null`, `Bool`, `Num` (an integer), `NaN`, `Str`, `Arr` or `Obj`;
  - a record is a `map<string, JsValue>`, and an absent key reads as `Undefined`;
  - "nullish" (what `??` and `?.` skip) and "truthy" (what `if (x)` and `||` accept) are separate predicates, so `0` and `""` are present for `??` but falsy for a guard.
- **Screens with state.** A screen whose handlers change state is a class:
  - its fields are the component's `useState` variables;
  - each handler is a method;
  - the backend's answers are method parameters (`Response<T>` is `Ok(value)` or `Failed`);
  - the outcome of `confirm()` is a boolean parameter;
  - every effect is appended to the ghost trace of the `World` object: a remote call, an alert, a navigation, or storing the session.
- **Pure logic.** Joins, filters and guards are functions. Each handler's contract is stated through them, and the lemmas beside them state the properties.

## Model

| member | source | states |
|---|---|---|
| `Js.Chain` | app/admin/cars/page.tsx:37-42 | a `??` chain yields one of its candidates or its default, and a candidate only when it is present; `Js.ChainIsFirstPresent` states which one |
| `Js.ChainIsFirstPresent` | app/admin/cars/page.tsx:37-42 | a `??` chain yields the first candidate that is neither null nor undefined, or the default when all are |
| `Js.ChainPair` | app/admin/repairs/page.tsx:158 | `a ?? b ?? d` groups either way |
| `Js.ChainPresent` | app/admin/cars/page.tsx:44 | a chain with a present default is never nullish |
| `Js.Lower` | app/admin/cars/page.tsx:111 | lowercasing keeps the length and maps each character through the ASCII lowercase |
| `Js.LowerIdempotent` | components/manage-clients.tsx:26-27 | lowercasing twice is lowercasing once |
| `Js.LowerConcat` | components/manage-cars.tsx:51 | lowercasing distributes over concatenation |
| `Js.Trim` | app/admin/clients/page.tsx:72 | the trimmed text neither starts nor ends with white space |
| `Js.TrimBlank` | app/admin/cars/page.tsx:111-112 | the trimmed text is empty exactly when the text is all white space |
| `Js.TrimSlice` | app/admin/clients/page.tsx:48 | trimming removes only white space, from the two ends |
| `Js.TrimUntouched` | components/repair-details-admin.tsx:115 | text without surrounding white space is unchanged by trimming |
| `Js.IncludesIffOccurs` | app/admin/repairs/page.tsx:119-127 | `includes` holds exactly when the query occurs at some position |
| `Js.Includes` | app/admin/repairs/page.tsx:119-127 | a query longer than the text is never included, and a query as long as the text is included exactly when it is the text |
| `Js.IncludesTrivial` | components/manage-clients.tsx:24-28 | every text includes the empty text and itself |
| `Js.IncludesParts` | components/manage-cars.tsx:51 | both halves of a concatenation are included in it |
| `Js.LocalPart` | app/admin/repairs/page.tsx:109 | `split("@")[0]` is a prefix without '@' that stops at the first '@' |
| `Js.DigitsRoundTrip` | app/admin/repairs/page.tsx:159 | reading back the decimal digits of a natural number gives the number |
| `Js.NumberToString` | app/client/register-car/page.tsx:26 | the decimal text of an integer is non-empty and has no surrounding space |
| `Js.ParseNumber` | app/client/register-car/page.tsx:22 | `Number(text)` is a number or NaN |
| `Js.NumberStringRoundTrip` | app/admin/repairs/page.tsx:159 | `Number(String(n))` is `n` for every integer |
| `Js.ToNumber` | app/admin/repairs/page.tsx:159 | `Number(v)` is a number or NaN for every value |
| `Js.StrictEquals` | app/admin/repairs/page.tsx:163 | `===` holds only between equal values, and a value is `===` to itself unless it is NaN |
| `Js.ToString` | app/admin/clients/page.tsx:52 | `String(v)` of a text is the text, of an integer the text `Number` reads back as that integer, and never "" for a value that is not a text or an array |
| `Js.IncludesValue` | app/admin/clients/page.tsx:30-32 | `x?.includes(v)` is false for anything but an array or a text, and on a text it is substring occurrence |
| `Js.ParseNumberStray` | app/client/register-car/page.tsx:22 | `Number` of a text holding a character that is not a digit, a sign or white space is NaN |
| `Lists.Filter` | app/admin/clients/page.tsx:30-32 | the filtered list is an in-order subsequence; it has exactly the elements that pass |
| `Lists.FilterMembers` | app/admin/clients/page.tsx:51-55 | an element is kept exactly when it is in the list and passes |
| `Lists.FilterCounts` | app/admin/clients/page.tsx:64 | every passing element is kept as often as it occurs; every other one is dropped |
| `Lists.FilterLength` | components/admin-dashboard.tsx:61 | filtering never lengthens, and keeps the length exactly when all pass |
| `Lists.FilterAll` | app/admin/cars/page.tsx:112 | when all pass, filtering returns the list itself |
| `Lists.FilterNone` | components/manage-repairs.tsx:63-72 | when none pass, filtering returns the empty list |
| `Lists.FilterSameTest` | components/manage-repairs.tsx:64-71 | tests that agree on every element filter alike |
| `Lists.FilterBoth` | components/manage-repairs.tsx:71 | filtering by a conjunction is filtering twice |
| `Lists.FilterStronger` | components/admin-dashboard.tsx:61-63 | a stronger test keeps no more elements |
| `Lists.Take` | components/admin-dashboard.tsx:74 | `slice(0, n)` is a prefix of length min(n, length) |
| `Lists.IndexDomain` | app/admin/repairs/page.tsx:62-76 | a key is in a loop-built map exactly when it is admitted and some element carries it |
| `Lists.IndexLastWins` | app/admin/repairs/page.tsx:62-76 | the map holds, per key, the last element carrying that key |
| `Lists.Index` | app/admin/repairs/page.tsx:62-76 | the `Map` a `set` loop builds holds only admitted keys, each with an element carrying that key; `Lists.IndexDomain` and `Lists.IndexLastWins` state which element |
| `Lists.IndexValues` | app/admin/repairs/page.tsx:74 | only elements of the list are stored, under their own key |
| `Records.UsersByCustomerId` | app/admin/repairs/page.tsx:62-70 | every key of the customer-id index is neither null nor undefined and holds a user with that customer id; `Records.UsersByCustomerIdSpec` states which one |
| `Records.UsersById` | app/admin/cars/page.tsx:74-79 | every key of the user-id index is truthy and holds a user with that id; `Records.UsersByIdSpec` states which one |
| `Records.UsersByCustomerIdSpec` | app/admin/repairs/page.tsx:62-70 | the customer-id index holds exactly the users whose customerId is neither null nor undefined, the last such user per id |
| `Records.UsersByIdSpec` | app/admin/cars/page.tsx:74-75 | the user-id index holds exactly the users with a truthy id, the last such user per id |
| `Records.UsersByIdSkipsFalsy` | app/admin/cars/page.tsx:75 | a user with id 0 (any falsy id) never enters the user-id index |
| `Records.IsClient` | app/admin/clients/page.tsx:30-32 | a user is a client only when `roles` is an array or a text, and with an array exactly when it holds ROLE_USER |
| `Records.OnlyClients` | app/admin/clients/page.tsx:30-32 | the clients are the in-order users whose roles include ROLE_USER, and only they |
| `Records.UserName` | app/admin/repairs/page.tsx:106-110 | the shown name is never nullish and is the user's name, username or a text; `Records.UserNameFallback` states the order |
| `Records.UserNameFallback` | app/admin/repairs/page.tsx:106-110 | the name is name, else username, else the e-mail local part, else ""; it is never nullish |
| `AdminRepairs.CarsById` | app/admin/repairs/page.tsx:72-76 | every car in the car index sits under its own id |
| `AdminRepairs.CarsByIdSpec` | app/admin/repairs/page.tsx:72-76 | carsById maps each car id to the last car in the list with that id |
| `AdminRepairs.BuildUsersByCustomerId` | app/admin/repairs/page.tsx:62-70 | the loop builds exactly the customer-id index |
| `AdminRepairs.BuildCarsById` | app/admin/repairs/page.tsx:72-76 | the loop builds exactly the car index |
| `AdminRepairs.OrderCarId` | app/admin/repairs/page.tsx:80 | the car id is `o.car.id`, `o.carId` or null, and never undefined |
| `AdminRepairs.OrderCarIdSpec` | app/admin/repairs/page.tsx:80 | an order's car id is `o.car.id`, else `o.carId`, else null |
| `AdminRepairs.ResolveCar` | app/admin/repairs/page.tsx:81 | the car is the embedded one unless the truthy car id is indexed, and then the indexed one |
| `AdminRepairs.ResolveCarSpec` | app/admin/repairs/page.tsx:81 | the indexed car is used only when the car id is truthy and indexed; otherwise the embedded car |
| `AdminRepairs.OrderCustomerId` | app/admin/repairs/page.tsx:83-88 | the customer id is null or present, and the resolved car's own `customerId` wins when it is present |
| `AdminRepairs.OrderCustomerIdSpec` | app/admin/repairs/page.tsx:83-88 | the customer id is the first present of the resolved car's and the embedded car's two candidates, else null, never undefined |
| `AdminRepairs.OrderUser` | app/admin/repairs/page.tsx:90 | a user is attached exactly when the customer id is truthy and indexed, and it is the indexed user |
| `AdminRepairs.OrderUserSpec` | app/admin/repairs/page.tsx:90 | the user is the last user with that customer id when the id is truthy and known, else undefined |
| `AdminRepairs.EnrichOrder` | app/admin/repairs/page.tsx:92-97 | the enriched order has the order's keys plus car, customerId and user, the user looked up from the customer id of the attached car |
| `AdminRepairs.EnrichOrderKeepsFields` | app/admin/repairs/page.tsx:92-97 | enrichment keeps every order field except car, customerId and user |
| `AdminRepairs.NormalizeOrders` | app/admin/repairs/page.tsx:78-99 | the join is one output per order, same length, same order |
| `AdminRepairs.FilterOrders` | app/admin/repairs/page.tsx:101-134 | the shown orders are an in-order subsequence of the joined ones |
| `AdminRepairs.MatchesSearch` | app/admin/repairs/page.tsx:119-127 | an order matches exactly when the query is empty or one of its seven searched fields includes it |
| `AdminRepairs.MatchesStatus` | app/admin/repairs/page.tsx:129-130 | under a status other than ALL a matching order has that status (missing as ""), and an order with the chosen status always matches |
| `AdminRepairs.FilterOrdersMembers` | app/admin/repairs/page.tsx:119-132 | an order is shown exactly when it matches both search and status |
| `AdminRepairs.FilterOrdersShowsAll` | app/admin/repairs/page.tsx:120 | a blank query with status ALL shows the joined list unchanged |
| `AdminRepairs.FilterOrdersStatusExact` | app/admin/repairs/page.tsx:129-130 | under a status other than ALL, a shown order has exactly that status; a missing status passes only the filter "" |
| `AdminRepairs.ListedStatusFilter` | app/admin/repairs/page.tsx:214-225 | choosing one of the four listed statuses in the filter lists only orders stored with exactly that status |
| `AdminRepairs.MatchedBrandIsListed` | app/admin/repairs/page.tsx:112-123 | a query the car brand contains shows the order under ALL |
| `AdminRepairs.NewStatus` | app/admin/repairs/page.tsx:156 | the status sent is the one picked in the row's selector when there is one, else the stored status |
| `AdminRepairs.NewCost` | app/admin/repairs/page.tsx:158-160 | the cost sent is a number, never NaN |
| `AdminRepairs.UpdatePayload` | app/admin/repairs/page.tsx:155-170 | an update carries the order's keys plus status and cost; it is skipped exactly when the status sent equals the stored one (not NaN) and the cost sent equals `order.cost ?? 0`, whether or not the admin touched the row |
| `AdminRepairs.UpdatePayloadShape` | app/admin/repairs/page.tsx:166-170 | the update carries every order field, with only status and cost replaced |
| `AdminRepairs.NoEditsNoUpdate` | app/admin/repairs/page.tsx:163 | an unedited order with a numeric cost issues no update |
| `AdminRepairs.StatusChangeUpdates` | app/admin/repairs/page.tsx:156-170 | a selected status different from the stored one issues an update carrying that status |
| `AdminRepairs.TypedCostIsSent` | app/admin/repairs/page.tsx:158-160 | a cost typed as a decimal integer is the cost sent |
| `AdminRepairs.UnparsableCostIsZero` | app/admin/repairs/page.tsx:160 | a cost that does not parse is sent as 0 |
| `AdminRepairs.AdminRepairsPage.constructor` | app/admin/repairs/page.tsx:27-36 | empty lists, loading, no query, status ALL, no pending edits |
| `AdminRepairs.AdminRepairsPage.Rows` | app/admin/repairs/page.tsx:101-134 | no more rows than orders |
| `AdminRepairs.AdminRepairsPage.SetSearch` | app/admin/repairs/page.tsx:207-209 | the query becomes the typed text |
| `AdminRepairs.AdminRepairsPage.SetStatusFilter` | app/admin/repairs/page.tsx:214-224 | the filter becomes ALL or a listed status; with a listed one every row shown is stored with exactly that status |
| `AdminRepairs.AdminRepairsPage.SelectStatus` | app/admin/repairs/page.tsx:327-338 | the pick is pending for that order id only: that order's new status is the pick, every other order's is unchanged |
| `AdminRepairs.AdminRepairsPage.EditCost` | app/admin/repairs/page.tsx:299-309 | the typed text is kept for that order id only: that order's cost to send is `Number` of the text with NaN as 0, every other order's is unchanged |
| `AdminRepairs.AdminRepairsPage.LoadData` | app/admin/repairs/page.tsx:38-56 | three fetches; the lists are replaced together on success and kept on failure; loading ends false |
| `AdminRepairs.AdminRepairsPage.HandleDelete` | app/admin/repairs/page.tsx:143-153 | nothing without confirmation; one delete; a reload on success; an alert and unchanged lists on failure |
| `AdminRepairs.AdminRepairsPage.HandleUpdate` | app/admin/repairs/page.tsx:155-177 | no call when status and cost are unchanged; otherwise exactly one update with the payload above, then a reload or an alert |
| `AdminCars.NormalizeCar` | app/admin/cars/page.tsx:36-60 | the normalised car keeps id and year, has no owner yet, and its brand, model and status are never nullish |
| `AdminCars.NormalizeCarPlate` | app/admin/cars/page.tsx:37-42 | the plate is the first present of plateNumber, plate, licensePlate, plate_number, else "" |
| `AdminCars.NormalizeCarFields` | app/admin/cars/page.tsx:44-53 | status is status, state, carStatus, else ""; brand is brand, make, else ""; model is model, else "" |
| `AdminCars.NormalizeCarOwnerRefs` | app/admin/cars/page.tsx:46-57 | customerId is customerId then customer.id, userId is userId then user.id, else undefined; id and year are copied |
| `AdminCars.BuildUserIndices` | app/admin/cars/page.tsx:71-79 | the single loop builds exactly the customer-id and the user-id index |
| `AdminCars.OwnerOf` | app/admin/cars/page.tsx:84-90 | a truthy, indexed customer id decides the owner, and any owner found is one of the indexed users |
| `AdminCars.OwnerOfSpec` | app/admin/cars/page.tsx:84-90 | the owner is found by truthy customer id; only if none, by truthy user id; else none |
| `AdminCars.MergeCars` | app/admin/cars/page.tsx:81-96 | the merged list has the fetched cars' length and order; each is the normalised car plus its owner |
| `AdminCars.Merge` | app/admin/cars/page.tsx:81-96 | the map with its reassigned `user` computes exactly the merged list |
| `AdminCars.FilterCars` | app/admin/cars/page.tsx:110-134 | the shown cars are an in-order subsequence |
| `AdminCars.FilterCarsBlank` | app/admin/cars/page.tsx:111-112 | a blank query returns the car list unchanged |
| `AdminCars.FilterCarsMembers` | app/admin/cars/page.tsx:114-133 | otherwise a car is shown exactly when email, name, plate, brand, model or status contains the query |
| `AdminCars.AdminCarsPage.constructor` | app/admin/cars/page.tsx:32-34 | no cars, loading, no query |
| `AdminCars.AdminCarsPage.Rows` | app/admin/cars/page.tsx:110-134 | the rows are a subsequence of the cars |
| `AdminCars.AdminCarsPage.SetSearch` | app/admin/cars/page.tsx:172-174 | the query becomes the typed text; a blank one lists every car |
| `AdminCars.AdminCarsPage.LoadCars` | app/admin/cars/page.tsx:62-104 | two fetches; the merged list on success, the old list on failure; loading ends false |
| `AdminCars.AdminCarsPage.HandleDelete` | app/admin/cars/page.tsx:136-145 | nothing without confirmation; one delete; a full reload on success; an alert and the unchanged list on failure |
| `AdminClients.FullName` | app/admin/clients/page.tsx:52 | `"${first ?? ""} ${last ?? ""}"` is " " without both names and "first last" with two texts |
| `AdminClients.FilterClients` | app/admin/clients/page.tsx:47-56 | the shown clients are an in-order subsequence |
| `AdminClients.FilterClientsBlank` | app/admin/clients/page.tsx:48-49 | a blank query shows every client |
| `AdminClients.FilterClientsMembers` | app/admin/clients/page.tsx:51-55 | otherwise a client is shown exactly when "first last" or the e-mail contains the query |
| `AdminClients.DisplayName` | app/admin/clients/page.tsx:71-78 | the shown name is never nullish; it is empty only for a client with a truthy e-mail, and when that e-mail is text it starts with '@' |
| `AdminClients.DisplayNameWithoutFullName` | app/admin/clients/page.tsx:71-78 | with no first and last name the blank " " is skipped for name, username, e-mail local part, "Unnamed" |
| `AdminClients.DisplayNamePrefersFullName` | app/admin/clients/page.tsx:72-73 | a full name with a visible character is shown, trimmed |
| `AdminClients.DisplayNameUnnamed` | app/admin/clients/page.tsx:77 | with nothing to show, the name is "Unnamed" |
| `AdminClients.CarCounts` | app/admin/clients/page.tsx:80-91 | every key of the counting map is truthy and counts at least one car; `AdminClients.CarCountsExact` states how many |
| `AdminClients.CountCarsByOwner` | app/admin/clients/page.tsx:80-91 | the loop computes exactly the counting map |
| `AdminClients.CarCountsExact` | app/admin/clients/page.tsx:84-87 | each truthy owner key counts exactly its cars; no other key is present |
| `AdminClients.TotalRemove` | app/admin/clients/page.tsx:87 | the sum of a map's values is any one value plus the sum of the rest |
| `AdminClients.TotalIncrement` | app/admin/clients/page.tsx:87 | incrementing one entry adds one to the sum |
| `AdminClients.CarCountsTotal` | app/admin/clients/page.tsx:80-91 | the counts sum to the number of cars with a truthy owner key |
| `AdminClients.ClientCarCount` | app/admin/clients/page.tsx:167 | a non-zero count is the one stored under `customerId ?? id` |
| `AdminClients.ClientCarCountSpec` | app/admin/clients/page.tsx:167 | the count shown under `customerId ?? id` is that key's number of cars, 0 when absent |
| `AdminClients.WithoutId` | app/admin/clients/page.tsx:64 | removal keeps, in order, exactly the clients whose id is not the deleted one |
| `AdminClients.WithoutIdCounts` | app/admin/clients/page.tsx:64 | every other client is kept as often as before |
| `AdminClients.AdminClientsPage.constructor` | app/admin/clients/page.tsx:12-17 | no clients, no cars, loading, no error, no query |
| `AdminClients.AdminClientsPage.Rows` | app/admin/clients/page.tsx:47-56 | the rows are a subsequence of the clients |
| `AdminClients.AdminClientsPage.SetQuery` | app/admin/clients/page.tsx:121-123 | the query becomes the typed text; a blank one lists every client |
| `AdminClients.AdminClientsPage.Load` | app/admin/clients/page.tsx:19-45 | two fetches; clients are the ROLE_USER users on success; on failure "Failed to load clients"; loading ends false |
| `AdminClients.AdminClientsPage.HandleDelete` | app/admin/clients/page.tsx:58-69 | nothing without confirmation; a successful delete removes the id locally with no refetch; a failure alerts and keeps the list |
| `RepairDetails.NotePayload` | components/repair-details-admin.tsx:110-115 | no note for blank text; otherwise the note text is the trimmed, non-empty input |
| `RepairDetails.NotePayloadKeepsText` | components/repair-details-admin.tsx:115 | text without surrounding space is sent as typed |
| `RepairDetails.SavePayload` | components/repair-details-admin.tsx:125-135 | a save is sent only with a loaded repair and a truthy selected status that differs from the stored one, and carries that status |
| `RepairDetails.SavePayloadGate` | components/repair-details-admin.tsx:125-127 | save sends nothing exactly without a repair, without a status, or when the status is unchanged |
| `RepairDetails.SavePayloadOnlyStatus` | components/repair-details-admin.tsx:132-135 | the saved order is the loaded one with only status replaced; cost and the rest go back as loaded |
| `RepairDetails.ContactField` | components/repair-details-admin.tsx:92-98 | the shown name or e-mail is never empty |
| `RepairDetails.ContactFieldSpec` | components/repair-details-admin.tsx:92-98 | "Unknown" exactly when the value is missing or blank; otherwise the trimmed value |
| `RepairDetails.RepairDetailsAdmin.constructor` | components/repair-details-admin.tsx:45-52 | loading, no repair, no notes, empty input, PENDING, not saving |
| `RepairDetails.RepairDetailsAdmin.LoadRepair` | components/repair-details-admin.tsx:54-65 | the loaded order and its status, else PENDING; a failure sets the repair to null |
| `RepairDetails.RepairDetailsAdmin.LoadNotes` | components/repair-details-admin.tsx:67-75 | a missing answer and a failure both give `[]` |
| `RepairDetails.RepairDetailsAdmin.LoadAll` | components/repair-details-admin.tsx:77-84 | both loads; loading ends false |
| `RepairDetails.RepairDetailsAdmin.Select` | components/repair-details-admin.tsx:371-390 | the admin selects one of the four listed statuses; afterwards a save goes out exactly when a repair is loaded whose stored status differs |
| `RepairDetails.RepairDetailsAdmin.HandleAddNote` | components/repair-details-admin.tsx:110-123 | a blank note issues nothing; otherwise one add with the trimmed text, then the input is cleared and the notes reloaded, or an alert |
| `RepairDetails.RepairDetailsAdmin.HandleSaveChanges` | components/repair-details-admin.tsx:125-145 | at most one update with only status replaced, then a reload and a confirmation, or an alert; saving ends false on both paths |
| `AdminDashboard.Load` | components/admin-dashboard.tsx:27-55 | an error exactly on failure; the client-role users, cars and orders on success; loading ends false |
| `AdminDashboard.StatsOf` | components/admin-dashboard.tsx:57-71 | the counters are the numbers of clients and cars, active orders never exceed orders, and every urgent case is a PENDING order of the list |
| `AdminDashboard.ActiveCount` | components/admin-dashboard.tsx:61 | the active counter is the number of orders whose status is not "CLOSED": active and closed orders together are all orders |
| `AdminDashboard.StatsBounds` | components/admin-dashboard.tsx:57-71 | active orders never exceed orders; pending never exceed active; pending are exactly the PENDING orders, in order |
| `AdminDashboard.AllActive` | components/admin-dashboard.tsx:61 | with no CLOSED order every order is active |
| `AdminDashboard.LoadedCounters` | components/admin-dashboard.tsx:39-59 | the client count is the number of ROLE_USER users; the car count is the number of cars |
| `AdminDashboard.UrgentList` | components/admin-dashboard.tsx:73-75 | at most five orders, each a PENDING order of the list |
| `AdminDashboard.UrgentListSpec` | components/admin-dashboard.tsx:73-75 | the short list is a prefix of the pending orders of length min(5, pending) |
| `CarsApi.CarPayload` | api/cars.ts:20-21 | the posted body has plateNumber equal to the input plate, no plate key, and every other field copied |
| `CarsApi.CreateCar` | api/cars.ts:14-25 | exactly one POST to /cars with that body; its answer is returned |
| `RegisterCar.YearRejected` | app/client/register-car/page.tsx:25 | a number or NaN is accepted exactly when it is a number between 1950 and the maximum year, both included |
| `RegisterCar.YearCheck` | app/client/register-car/page.tsx:22-28 | accepted exactly when the year parses to a number in [1950, current year + 1]; otherwise the error names the upper bound |
| `RegisterCar.YearBoundsInclusive` | app/client/register-car/page.tsx:25 | 1950 and the current year + 1 are accepted |
| `RegisterCar.YearOutsideRejected` | app/client/register-car/page.tsx:25 | 1949 and the current year + 2 are rejected |
| `RegisterCar.BlankYearRejected` | app/client/register-car/page.tsx:22-25 | a blank year reads as 0 and is rejected |
| `RegisterCar.TextYearRejected` | app/client/register-car/page.tsx:22-25 | every entry that `Number` reads as NaN is rejected |
| `RegisterCar.StrayCharacterYearRejected` | app/client/register-car/page.tsx:22-25 | an entry holding a character that is not a digit, a sign or white space reads as NaN in the model's integer-only `Number` and is rejected (JavaScript accepts some of these, such as "2e3"; see Left out) |
| `RegisterCar.SubmittedCar` | app/client/register-car/page.tsx:31-36 | the form hands over exactly brand, model, year and plate, with the typed plate and the parsed year |
| `RegisterCar.PostedCar` | app/client/register-car/page.tsx:31-36 | the backend receives brand, model, the numeric year and the plate input under plateNumber |
| `RegisterCar.RegisterCarPage.constructor` | app/client/register-car/page.tsx:12-16 | all inputs and the error empty |
| `RegisterCar.RegisterCarPage.HandleSubmit` | app/client/register-car/page.tsx:18-42 | the error is cleared; a rejected year sends nothing; otherwise one createCar, then the dashboard or "Error registering the car." |
| `RequestRepair.RepairRequest` | app/client/request-repair/page.tsx:30-39 | no request exactly when a field is empty; otherwise createOrder(Number(carId), {description, creationDate}) |
| `RequestRepair.RequestCarIdRoundTrip` | app/client/request-repair/page.tsx:36 | the car id sent is the selected car's numeric id |
| `RequestRepair.RequestRepairPage.constructor` | app/client/request-repair/page.tsx:14-18 | no cars, empty inputs, no error |
| `RequestRepair.RequestRepairPage.LoadCars` | app/client/request-repair/page.tsx:20-24 | the client's cars, or "Failed to load cars" |
| `RequestRepair.RequestRepairPage.HandleSubmit` | app/client/request-repair/page.tsx:26-45 | the error is cleared; an empty field sets "All fields are required" and sends nothing; otherwise one createOrder, then the dashboard or "Failed to submit repair request" |
| `Login.Roles` | app/login/page.tsx:16-24 | a failed decode gives no roles |
| `Login.RolesSpec` | app/login/page.tsx:19-20 | roles come from roles, authorities, role, else []; an array is taken as is, anything else wrapped |
| `Login.SingleRoleWrapped` | app/login/page.tsx:20 | a single text role becomes a one-element list |
| `Login.NullPayloadNoRoles` | app/login/page.tsx:21-23 | a null payload gives no roles, like a failed decode |
| `Login.Destination` | app/login/page.tsx:38-42 | the admin dashboard exactly when the roles contain ROLE_ADMIN or the answer's role is ADMIN; else the client dashboard |
| `Login.AdminEitherWay` | app/login/page.tsx:19-42 | a response role "ADMIN" alone, or ROLE_ADMIN in whichever of `roles`, `authorities`, `role` the token carries first, leads to the admin dashboard; without either, the client dashboard |
| `Login.LoginPage.constructor` | app/login/page.tsx:11-13 | empty inputs and no error |
| `Login.LoginPage.HandleLogin` | app/login/page.tsx:27-46 | one login; failure sets "Credenciales incorrectas." with no navigation; otherwise the token and role are stored before the one navigation |
| `ManageRepairs.FilteredRepairs` | components/manage-repairs.tsx:63-72 | an in-order subsequence of exactly the rows passing the untrimmed search and the status test |
| `ManageRepairs.EmptyTermFiltersByStatus` | components/manage-repairs.tsx:64-71 | an empty term leaves only the status filter |
| `ManageRepairs.EmptyTermAllStatuses` | components/manage-repairs.tsx:69 | an empty term with "all" shows every row |
| `ManageRepairs.SearchAfterStatus` | components/manage-repairs.tsx:71 | the result is the search applied to the status-filtered list |
| `ManageCars.FilteredCars` | components/manage-cars.tsx:47-52 | an in-order subsequence of exactly the cars whose client, plate or "brand model" contains the term |
| `ManageCars.EmptyTermShowsAll` | components/manage-cars.tsx:47-52 | an empty term shows every car |
| `ManageCars.BrandOrModelFinds` | components/manage-cars.tsx:51 | the brand alone, the model alone and "brand model" each find the car |
| `ManageClients.FilteredClients` | components/manage-clients.tsx:24-28 | an in-order subsequence of exactly the clients whose name or e-mail contains the term |
| `ManageClients.EmptyTermShowsAll` | components/manage-clients.tsx:24-28 | an empty term shows every client |
| `ManageClients.SearchIgnoresCase` | components/manage-clients.tsx:26-27 | a term and its lowercase form find the same clients |

## Left out

- Numbers are integers. Fractional costs and years and `toFixed(2)` are not modelled.
- The model's `Number()` of a text accepts surrounding white space, an optional sign and decimal digits, and reads anything else as NaN. JavaScript's `Number()` also reads decimal and exponent text ("12.5", "2e3"), hexadecimal, binary and octal literals ("0x1F", "0b1", "0o7") and "Infinity". Such input does reach the model: the cost box is `<input type="number" min="0" step="0.01">` (app/admin/repairs/page.tsx:299-302) and the year box is `<input type="number">` (app/client/register-car/page.tsx:99-104). On them the model departs from the source: for a cost typed as "12.5" the source sends 12.5, while `AdminRepairs.NewCost` sends 0; for a year typed as "2e3" the source accepts 2000, while `RegisterCar.YearCheck` rejects it.
- AdminRepairs.NewCost: sends 0 for a fractional or exponent cost text, where the source sends the parsed number, because numbers are integers here.
- RegisterCar.YearCheck: rejects a year typed in exponent form ("2e3"), which the source accepts, for the same reason.
- `toLowerCase` is ASCII lowercasing. `trim` removes ASCII white space, vertical tab, form feed, U+00A0 and U+FEFF, not every Unicode space.
- A field that the source uses as a string but holds another value (a number, an object) is read as "". JavaScript would either throw a TypeError there or call a method of that type.
- Arrays and objects are compared by value. The `Map` lookups and `===` compare objects by identity instead.
- Every element of a fetched list is assumed to be an object. A `null` element would make the source throw.
- `selectedStatus` and `editedCost` are keyed by the order id as a value. JavaScript converts object keys to strings, so ids 1 and "1" are one key in the source and two in the model.
- Async suspension, `Promise.all` fan-out and React re-render timing are left out. Each load is one atomic replacement of the state fields. The backend calls of one `Promise.all` are traced in the order they are started.
- JSX rendering, styling, date parsing and locale formatting, and `console` output are left out.
- The axios wrappers (api/repairs.ts, api/customer.ts, api/auth.ts) are not part of this model. Their calls appear only as trace entries; `saveAuth`'s writes to localStorage appear as one `SaveAuth` entry.
- Decoding the token's payload (`atob` and `JSON.parse`) is foreign code. Its result is a parameter, None when it throws. A token that is not a string counts as a failed decode. `atob` is plain base64, not the base64url of section 7.1 of RFC 7515; that difference lies inside the decoding and is not visible to the model.
- The current year is a parameter of the year check.
- The mock screens' `handleDelete` (components/manage-cars.tsx:54-59, components/manage-clients.tsx:30-35) opens a `confirm()` dialog and, when confirmed, only writes to the console. Their lists have no setter (`useState(mock…)` without an update function), so the lists are immutable values; the handlers are not modelled.
- AdminDashboard.Load is a function on the dashboard state; it does not record its three fetches in the trace.
- The repair-details view's plate, repair type, requested date and status badge (components/repair-details-admin.tsx:100-108) are display-only fallbacks and are not modelled.
- The code has no status timeline and no forward-only status transitions; any of the four statuses can be selected.
- On the admin repairs, cars, clients and dashboard screens a failed fetch keeps the previous lists rather than clearing them, and the model does the same. The repair-details view instead clears the order to null and the notes to [] on a failed fetch (components/repair-details-admin.tsx:63, :73), which `RepairDetails.RepairDetailsAdmin.LoadRepair` and `LoadNotes` model.
