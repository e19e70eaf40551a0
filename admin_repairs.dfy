/**
 * The admin repairs screen (app/admin/repairs/page.tsx): it fetches all
 * orders, cars and users, indexes users by customer id and cars by id, joins
 * every order to its car and that car's owner, filters the joined list by a
 * free-text query and a status, and lets the admin change an order's status
 * and cost or delete it.
 */
module AdminRepairs {
  import opened Js
  import opened Lists
  import opened Io
  import opened Records

  // ---------------------------------------------------------------------------
  // Indices (lines 62-76)

  function CarIdOf(c: Record): JsValue {
    Prop(c, "id")
  }

  predicate AnyKey(k: JsValue) {
    true
  }

  /** `carsById`: every car under its `id`, whatever that id is. */
  function CarsById(cars: seq<Record>): (index: map<JsValue, Record>)
    ensures forall k :: k in index ==> CarIdOf(index[k]) == k
  {
    Index(cars, CarIdOf, AnyKey)
  }

  lemma CarsByIdSpec(cars: seq<Record>, k: JsValue)
    ensures k in CarsById(cars) <==> exists i :: 0 <= i < |cars| && CarIdOf(cars[i]) == k
    ensures k in CarsById(cars) ==>
            exists i :: IsLastWithKey(cars, CarIdOf, k, i) && CarsById(cars)[k] == cars[i]
  {
    IndexDomain(cars, CarIdOf, AnyKey, k);
    if k in CarsById(cars) {
      IndexLastWins(cars, CarIdOf, AnyKey, k);
    }
  }

  /** The `for (const u of users)` loop of `usersByCustomerId`. */
  method BuildUsersByCustomerId(users: seq<Record>) returns (index: map<JsValue, Record>)
    ensures index == UsersByCustomerId(users)
  {
    index := map[];
    for i := 0 to |users|
      invariant index == UsersByCustomerId(users[..i])
    {
      var u := users[i];
      if Prop(u, "customerId") != Null && Prop(u, "customerId") != Undefined {
        index := index[Prop(u, "customerId") := u];
      }
      assert users[..i + 1][..i] == users[..i];
    }
    assert users[..|users|] == users;
  }

  /** The `for (const c of cars)` loop of `carsById`. */
  method BuildCarsById(cars: seq<Record>) returns (index: map<JsValue, Record>)
    ensures index == CarsById(cars)
  {
    index := map[];
    for i := 0 to |cars|
      invariant index == CarsById(cars[..i])
    {
      var c := cars[i];
      index := index[Prop(c, "id") := c];
      assert cars[..i + 1][..i] == cars[..i];
    }
    assert cars[..|cars|] == cars;
  }

  // ---------------------------------------------------------------------------
  // The order -> car -> user join (lines 78-99)

  /** `o.car?.id ?? o.carId ?? null` */
  function OrderCarId(o: Record): (carId: JsValue)
    ensures carId == Null || carId == Field(Prop(o, "car"), "id") || carId == Prop(o, "carId")
    ensures carId != Null ==> !Nullish(carId)
  {
    Chain([Field(Prop(o, "car"), "id"), Prop(o, "carId")], Null)
  }

  /** `carId ? carsById.get(carId) ?? o.car : o.car` */
  function ResolveCar(o: Record, carsById: map<JsValue, Record>): (car: JsValue)
    ensures car == Prop(o, "car") ||
            (Truthy(OrderCarId(o)) && OrderCarId(o) in carsById && car == Obj(carsById[OrderCarId(o)]))
    ensures Truthy(OrderCarId(o)) && OrderCarId(o) in carsById ==> car == Obj(carsById[OrderCarId(o)])
  {
    var carId := OrderCarId(o);
    if Truthy(carId) then
      Coalesce(if carId in carsById then Obj(carsById[carId]) else Undefined, Prop(o, "car"))
    else Prop(o, "car")
  }

  /** The order's resolved customer id: the resolved car's `customerId`, then its
      `customer.id`, then the same two on the embedded car, then null. */
  function OrderCustomerId(o: Record, car: JsValue): (customerId: JsValue)
    ensures customerId == Null || !Nullish(customerId)
    ensures !Nullish(Field(car, "customerId")) ==> customerId == Field(car, "customerId")
  {
    Chain([Field(car, "customerId"), Field(Field(car, "customer"), "id"),
           Field(Prop(o, "car"), "customerId"), Field(Field(Prop(o, "car"), "customer"), "id")],
          Null)
  }

  /** `customerId ? usersByCustomerId.get(customerId) : undefined` */
  function OrderUser(customerId: JsValue, usersByCustomerId: map<JsValue, Record>): (user: JsValue)
    ensures user == Undefined || (customerId in usersByCustomerId && user == Obj(usersByCustomerId[customerId]))
    ensures user != Undefined <==> Truthy(customerId) && customerId in usersByCustomerId
  {
    if Truthy(customerId) && customerId in usersByCustomerId then Obj(usersByCustomerId[customerId])
    else Undefined
  }

  /** `{ ...o, car, customerId, user }` */
  function EnrichOrder(o: Record, carsById: map<JsValue, Record>,
                       usersByCustomerId: map<JsValue, Record>): (r: Record)
    ensures r.Keys == o.Keys + {"car", "customerId", "user"}
    ensures Prop(r, "car") == ResolveCar(o, carsById)
    ensures Prop(r, "user") == OrderUser(Prop(r, "customerId"), usersByCustomerId)
    ensures Prop(r, "customerId") == OrderCustomerId(o, Prop(r, "car"))
  {
    var car := ResolveCar(o, carsById);
    var customerId := OrderCustomerId(o, car);
    o["car" := car]["customerId" := customerId]["user" := OrderUser(customerId, usersByCustomerId)]
  }

  /** `normalizedOrders`: the join applied to every order, one output per order, in order. */
  function NormalizeOrders(orders: seq<Record>, carsById: map<JsValue, Record>,
                           usersByCustomerId: map<JsValue, Record>): (r: seq<Record>)
    ensures |r| == |orders|
    ensures forall i :: 0 <= i < |orders| ==> r[i] == EnrichOrder(orders[i], carsById, usersByCustomerId)
  {
    if orders == [] then []
    else [EnrichOrder(orders[0], carsById, usersByCustomerId)] +
         NormalizeOrders(orders[1..], carsById, usersByCustomerId)
  }

  /** The indexed car is used only when the order's car id is truthy and indexed;
      it is then the last fetched car with that id. Otherwise the embedded `o.car` is kept. */
  lemma ResolveCarSpec(o: Record, cars: seq<Record>)
    ensures var carId := OrderCarId(o);
            if Truthy(carId) && exists i :: 0 <= i < |cars| && CarIdOf(cars[i]) == carId
            then exists i :: IsLastWithKey(cars, CarIdOf, carId, i) && ResolveCar(o, CarsById(cars)) == Obj(cars[i])
            else ResolveCar(o, CarsById(cars)) == Prop(o, "car")
  {
    CarsByIdSpec(cars, OrderCarId(o));
  }

  /** The order's car id is `o.car.id`, else `o.carId`, else null. */
  lemma OrderCarIdSpec(o: Record)
    ensures IsFirstPresent([Field(Prop(o, "car"), "id"), Prop(o, "carId")], Null, OrderCarId(o))
  {
    ChainIsFirstPresent([Field(Prop(o, "car"), "id"), Prop(o, "carId")], Null);
  }

  /** The customer id is the first present of the four candidates, or null; never undefined. */
  lemma OrderCustomerIdSpec(o: Record, car: JsValue)
    ensures IsFirstPresent([Field(car, "customerId"), Field(Field(car, "customer"), "id"),
                            Field(Prop(o, "car"), "customerId"),
                            Field(Field(Prop(o, "car"), "customer"), "id")],
                           Null, OrderCustomerId(o, car))
    ensures OrderCustomerId(o, car) != Undefined
  {
    var vs := [Field(car, "customerId"), Field(Field(car, "customer"), "id"),
               Field(Prop(o, "car"), "customerId"), Field(Field(Prop(o, "car"), "customer"), "id")];
    ChainIsFirstPresent(vs, Null);
  }

  /** The owner attached to an order: undefined when the resolved customer id is
      falsy or no user carries it, else the last fetched user with that customer id. */
  lemma OrderUserSpec(customerId: JsValue, users: seq<Record>)
    ensures if Truthy(customerId) && exists i :: 0 <= i < |users| && CustomerIdOf(users[i]) == customerId
            then exists i :: IsLastWithKey(users, CustomerIdOf, customerId, i) &&
                             OrderUser(customerId, UsersByCustomerId(users)) == Obj(users[i])
            else OrderUser(customerId, UsersByCustomerId(users)) == Undefined
  {
    UsersByCustomerIdSpec(users, customerId);
  }

  /** Enrichment keeps every field of the order and overrides only `car`, `customerId` and `user`. */
  lemma EnrichOrderKeepsFields(o: Record, carsById: map<JsValue, Record>,
                               usersByCustomerId: map<JsValue, Record>, k: string)
    requires k != "car" && k != "customerId" && k != "user"
    ensures Prop(EnrichOrder(o, carsById, usersByCustomerId), k) == Prop(o, k)
  {
  }

  // ---------------------------------------------------------------------------
  // Search and status filter (lines 101-134)

  /** `search.toLowerCase().trim()` */
  function SearchQuery(search: string): string {
    Trim(Lower(search))
  }

  /** The lowercased fields an enriched order is searched on. */
  function SearchFields(o: Record): seq<string> {
    var user := Prop(o, "user");
    var car := Prop(o, "car");
    [ Lower(Text(Coalesce(Field(user, "email"), Str("")))),
      Lower(Text(UserName(user))),
      Lower(Text(Coalesce(Field(car, "brand"), Str("")))),
      Lower(Text(Coalesce(Field(car, "model"), Str("")))),
      Lower(Text(Chain([Field(car, "plateNumber"), Field(car, "plate")], Str("")))),
      Lower(Text(Coalesce(Prop(o, "status"), Str("")))),
      Lower(Text(Coalesce(Prop(o, "description"), Str("")))) ]
  }

  /** `!q || email.includes(q) || name.includes(q) || …` */
  predicate MatchesSearch(o: Record, q: string)
    ensures MatchesSearch(o, q) <==> q == "" || exists i :: 0 <= i < |SearchFields(o)| && Includes(SearchFields(o)[i], q)
  {
    var f := SearchFields(o);
    q == "" || Includes(f[0], q) || Includes(f[1], q) || Includes(f[2], q) || Includes(f[3], q) ||
    Includes(f[4], q) || Includes(f[5], q) || Includes(f[6], q)
  }

  /** `statusFilter === "ALL" ? true : (o.status ?? "") === statusFilter` */
  predicate MatchesStatus(o: Record, statusFilter: string)
    ensures MatchesStatus(o, statusFilter) && statusFilter != "ALL" ==>
            Coalesce(Prop(o, "status"), Str("")) == Str(statusFilter)
    ensures Prop(o, "status") == Str(statusFilter) ==> MatchesStatus(o, statusFilter)
  {
    statusFilter == "ALL" || StrictEquals(Coalesce(Prop(o, "status"), Str("")), Str(statusFilter))
  }

  predicate OrderVisible(o: Record, search: string, statusFilter: string) {
    MatchesSearch(o, SearchQuery(search)) && MatchesStatus(o, statusFilter)
  }

  /** `filteredOrders` */
  function FilterOrders(enriched: seq<Record>, search: string, statusFilter: string): (r: seq<Record>)
    ensures Sublist(r, enriched)
    ensures |r| <= |enriched|
  {
    FilterLength(enriched, o => OrderVisible(o, search, statusFilter));
    Filter(enriched, o => OrderVisible(o, search, statusFilter))
  }

  /** An order is listed exactly when it is in the joined list and passes both tests. */
  lemma FilterOrdersMembers(enriched: seq<Record>, search: string, statusFilter: string, o: Record)
    ensures o in FilterOrders(enriched, search, statusFilter) <==>
            o in enriched && MatchesSearch(o, SearchQuery(search)) && MatchesStatus(o, statusFilter)
  {
    FilterMembers(enriched, o => OrderVisible(o, search, statusFilter), o);
  }

  /** A blank query and the status "ALL" list every order, in order. */
  lemma FilterOrdersShowsAll(enriched: seq<Record>, search: string)
    requires forall k :: 0 <= k < |search| ==> IsSpace(search[k])
    ensures FilterOrders(enriched, search, "ALL") == enriched
  {
    assert forall k :: 0 <= k < |Lower(search)| ==> IsSpace(Lower(search)[k]);
    TrimBlank(Lower(search));
    FilterAll(enriched, o => OrderVisible(o, search, "ALL"));
  }

  /** With a status other than "ALL", every listed order has exactly that status
      (a missing status counting as ""). */
  lemma FilterOrdersStatusExact(enriched: seq<Record>, search: string, statusFilter: string, o: Record)
    requires statusFilter != "ALL"
    requires o in FilterOrders(enriched, search, statusFilter)
    ensures Prop(o, "status") == Str(statusFilter) ||
            (Nullish(Prop(o, "status")) && statusFilter == "")
  {
    FilterOrdersMembers(enriched, search, statusFilter, o);
  }

  /** Filtering by one of the selectable statuses lists only orders stored with
      exactly that status: none of them is "" or "ALL". */
  lemma ListedStatusFilter(enriched: seq<Record>, search: string, status: string, o: Record)
    requires status in StatusOptions
    requires o in FilterOrders(enriched, search, status)
    ensures Prop(o, "status") == Str(status)
  {
    StatusOptionsPlain(status);
    FilterOrdersStatusExact(enriched, search, status, o);
  }

  /** A query that the car's brand contains shows that order under "ALL",
      whatever the case of its letters. */
  lemma MatchedBrandIsListed(enriched: seq<Record>, search: string, o: Record)
    requires o in enriched
    requires Field(Prop(o, "car"), "brand").Str?
    requires Includes(Lower(Field(Prop(o, "car"), "brand").s), SearchQuery(search))
    ensures o in FilterOrders(enriched, search, "ALL")
  {
    var q := SearchQuery(search);
    assert SearchFields(o)[2] == Lower(Field(Prop(o, "car"), "brand").s);
    assert MatchesSearch(o, q);
    FilterOrdersMembers(enriched, search, "ALL", o);
  }

  // ---------------------------------------------------------------------------
  // The change-gated update (lines 155-177)

  /** `selectedStatus[order.id] ?? order.status` */
  function NewStatus(order: Record, selectedStatus: map<JsValue, string>): (status: JsValue)
    ensures Prop(order, "id") in selectedStatus ==> status == Str(selectedStatus[Prop(order, "id")])
    ensures Prop(order, "id") !in selectedStatus ==> status == Prop(order, "status")
  {
    var id := Prop(order, "id");
    Coalesce(if id in selectedStatus then Str(selectedStatus[id]) else Undefined, Prop(order, "status"))
  }

  /** `Number(editedCost[order.id] ?? order.cost ?? 0)`, with NaN replaced by 0. */
  function NewCost(order: Record, editedCost: map<JsValue, JsValue>): (c: JsValue)
    ensures c.Num?
  {
    var id := Prop(order, "id");
    var parsed := ToNumber(Chain([if id in editedCost then editedCost[id] else Undefined,
                                  Prop(order, "cost")], Num(0)));
    if parsed.NaN? then Num(0) else parsed
  }

  /** The body of the one `updateOrder` call, or None when nothing changed. */
  function UpdatePayload(order: Record, selectedStatus: map<JsValue, string>,
                         editedCost: map<JsValue, JsValue>): (r: Option<Record>)
    ensures r.Some? ==> r.value.Keys == order.Keys + {"status", "cost"}
    ensures r.None? ==> NewStatus(order, selectedStatus) == Prop(order, "status") &&
                        NewCost(order, editedCost) == Coalesce(Prop(order, "cost"), Num(0))
    ensures (NewStatus(order, selectedStatus) == Prop(order, "status") && !Prop(order, "status").NaN? &&
             NewCost(order, editedCost) == Coalesce(Prop(order, "cost"), Num(0))) ==> r.None?
  {
    var newStatus := NewStatus(order, selectedStatus);
    var newCost := NewCost(order, editedCost);
    if StrictEquals(newStatus, Prop(order, "status")) &&
       StrictEquals(newCost, Coalesce(Prop(order, "cost"), Num(0)))
    then None
    else Some(order["status" := newStatus]["cost" := newCost])
  }

  /** The request carries every field of the order, with status and cost replaced;
      the cost is always a number. */
  lemma UpdatePayloadShape(order: Record, selectedStatus: map<JsValue, string>,
                           editedCost: map<JsValue, JsValue>, k: string)
    requires UpdatePayload(order, selectedStatus, editedCost).Some?
    ensures var p := UpdatePayload(order, selectedStatus, editedCost).value;
            Prop(p, "status") == NewStatus(order, selectedStatus) &&
            Prop(p, "cost") == NewCost(order, editedCost) && Prop(p, "cost").Num? &&
            (k != "status" && k != "cost" ==> Prop(p, k) == Prop(order, k))
  {
  }

  /** An order nobody edited issues no request, as long as its stored status is
      not NaN and its stored cost is a number or missing. */
  lemma NoEditsNoUpdate(order: Record, selectedStatus: map<JsValue, string>,
                        editedCost: map<JsValue, JsValue>)
    requires Prop(order, "id") !in selectedStatus && Prop(order, "id") !in editedCost
    requires !Prop(order, "status").NaN?
    requires Prop(order, "cost").Num? || Nullish(Prop(order, "cost"))
    ensures UpdatePayload(order, selectedStatus, editedCost) == None
  {
    ChainPair(Undefined, Prop(order, "cost"), Num(0));
  }

  /** Selecting a status different from the stored one always issues a request. */
  lemma StatusChangeUpdates(order: Record, selectedStatus: map<JsValue, string>,
                            editedCost: map<JsValue, JsValue>)
    requires Prop(order, "id") in selectedStatus
    requires Str(selectedStatus[Prop(order, "id")]) != Prop(order, "status")
    ensures UpdatePayload(order, selectedStatus, editedCost).Some?
    ensures Prop(UpdatePayload(order, selectedStatus, editedCost).value, "status") ==
            Str(selectedStatus[Prop(order, "id")])
  {
  }

  /** A cost typed into the cost box as a decimal integer is the cost sent. */
  lemma TypedCostIsSent(order: Record, editedCost: map<JsValue, JsValue>, n: int)
    requires Prop(order, "id") in editedCost
    requires editedCost[Prop(order, "id")] == Str(NumberToString(n))
    ensures NewCost(order, editedCost) == Num(n)
  {
    NumberStringRoundTrip(n);
  }

  /** A cost box holding something that is not a number sends cost 0. */
  lemma UnparsableCostIsZero(order: Record, editedCost: map<JsValue, JsValue>, s: string)
    requires Prop(order, "id") in editedCost
    requires editedCost[Prop(order, "id")] == Str(s)
    requires ParseNumber(s).NaN?
    ensures NewCost(order, editedCost) == Num(0)
  {
  }

  // ---------------------------------------------------------------------------
  // The screen's state and handlers

  /** The calls `loadData` issues: the three fetches of its `Promise.all`. */
  const LoadCalls: seq<Event> := [Remote(GetAllOrders), Remote(GetAllCars), Remote(GetAllCustomers)]

  /** What the three fetches gave back: orders, cars and users. */
  type Snapshot = (seq<Record>, seq<Record>, seq<Record>)

  class AdminRepairsPage {
    const world: World
    var orders: seq<Record>
    var cars: seq<Record>
    var users: seq<Record>
    var loading: bool
    var search: string
    var statusFilter: string
    var selectedStatus: map<JsValue, string>
    var editedCost: map<JsValue, JsValue>

    /** The state of a freshly mounted screen, before `loadData` resolves. */
    constructor (world: World)
      ensures this.world == world
      ensures orders == [] && cars == [] && users == [] && loading
      ensures search == "" && statusFilter == "ALL"
      ensures selectedStatus == map[] && editedCost == map[]
    {
      this.world := world;
      orders, cars, users := [], [], [];
      loading := true;
      search, statusFilter := "", "ALL";
      selectedStatus, editedCost := map[], map[];
    }

    /** The rows on screen: the joined orders after search and status filter. */
    function Rows(): (r: seq<Record>)
      reads this
      ensures |r| <= |orders|
    {
      FilterOrders(NormalizeOrders(orders, CarsById(cars), UsersByCustomerId(users)), search, statusFilter)
    }

    /** The search box's `onChange`: the query is what was typed. */
    method SetSearch(q: string)
      modifies this`search
      ensures search == q
    {
      search := q;
    }

    /** The status filter's `onChange`: "ALL" or one of the listed statuses;
        a listed one leaves only orders stored with exactly that status. */
    method SetStatusFilter(f: string)
      requires f == "ALL" || f in StatusOptions
      modifies this`statusFilter
      ensures statusFilter == f
      ensures f != "ALL" ==> forall o :: o in Rows() ==> Prop(o, "status") == Str(f)
    {
      statusFilter := f;
      if f != "ALL" {
        forall o | o in Rows()
          ensures Prop(o, "status") == Str(f)
        {
          ListedStatusFilter(NormalizeOrders(orders, CarsById(cars), UsersByCustomerId(users)), search, f, o);
        }
      }
    }

    /** A row's status select: its pick is pending for that order id only. */
    method SelectStatus(id: JsValue, s: string)
      requires s in StatusOptions
      modifies this`selectedStatus
      ensures selectedStatus == old(selectedStatus)[id := s]
      ensures forall o :: Prop(o, "id") == id ==> NewStatus(o, selectedStatus) == Str(s)
      ensures forall o :: Prop(o, "id") != id ==> NewStatus(o, selectedStatus) == NewStatus(o, old(selectedStatus))
    {
      selectedStatus := selectedStatus[id := s];
    }

    /** A row's cost box: the typed text is kept for that order id only, and is
        what that order's update will send, read by `Number` with NaN as 0. */
    method EditCost(id: JsValue, v: string)
      modifies this`editedCost
      ensures editedCost == old(editedCost)[id := Str(v)]
      ensures forall o :: Prop(o, "id") == id ==>
                NewCost(o, editedCost) == (if ParseNumber(v).NaN? then Num(0) else ParseNumber(v))
      ensures forall o :: Prop(o, "id") != id ==> NewCost(o, editedCost) == NewCost(o, old(editedCost))
    {
      editedCost := editedCost[id := Str(v)];
    }

    /** `loadData`: the three lists are replaced together, or left as they were
        if any fetch fails. */
    method LoadData(fetched: Response<Snapshot>)
      modifies this`orders, this`cars, this`users, this`loading, world`trace
      ensures world.trace == old(world.trace) + LoadCalls
      ensures fetched.Ok? ==> orders == fetched.value.0 && cars == fetched.value.1 && users == fetched.value.2
      ensures fetched.Failed? ==> orders == old(orders) && cars == old(cars) && users == old(users)
      ensures !loading
    {
      loading := true;
      world.trace := world.trace + LoadCalls;
      if fetched.Ok? {
        orders := fetched.value.0;
        cars := fetched.value.1;
        users := fetched.value.2;
      }
      loading := false;
    }

    /** `handleDelete`: after confirmation, one `deleteOrder`; on success a reload,
        on failure an alert and nothing else. */
    method HandleDelete(id: JsValue, confirmed: bool, deleted: bool, reload: Response<Snapshot>)
      modifies this`orders, this`cars, this`users, this`loading, world`trace
      ensures !confirmed ==> world.trace == old(world.trace) &&
                             orders == old(orders) && cars == old(cars) && users == old(users) &&
                             loading == old(loading)
      ensures confirmed && !deleted ==>
                world.trace == old(world.trace) + [Remote(DeleteOrder(id)), Alert("Failed to delete order")] &&
                orders == old(orders) && cars == old(cars) && users == old(users) &&
                loading == old(loading)
      ensures confirmed && deleted ==>
                world.trace == old(world.trace) + [Remote(DeleteOrder(id))] + LoadCalls && !loading &&
                (reload.Ok? ==> orders == reload.value.0 && cars == reload.value.1 && users == reload.value.2) &&
                (reload.Failed? ==> orders == old(orders) && cars == old(cars) && users == old(users))
    {
      if !confirmed {
        return;
      }
      world.trace := world.trace + [Remote(DeleteOrder(id))];
      if deleted {
        LoadData(reload);
      } else {
        world.trace := world.trace + [Alert("Failed to delete order")];
      }
    }

    /** `handleUpdate`: at most one `updateOrder`, carrying the whole order with
        status and cost replaced, issued only when one of them changed. */
    method HandleUpdate(order: Record, updated: bool, reload: Response<Snapshot>)
      modifies this`orders, this`cars, this`users, this`loading, world`trace
      ensures var payload := UpdatePayload(order, old(selectedStatus), old(editedCost));
              if payload.None? then
                world.trace == old(world.trace) &&
                orders == old(orders) && cars == old(cars) && users == old(users) && loading == old(loading)
              else if updated then
                world.trace == old(world.trace) + [Remote(UpdateOrder(Prop(order, "id"), payload.value))] + LoadCalls &&
                !loading &&
                (reload.Ok? ==> orders == reload.value.0 && cars == reload.value.1 && users == reload.value.2) &&
                (reload.Failed? ==> orders == old(orders) && cars == old(cars) && users == old(users))
              else
                world.trace == old(world.trace) + [Remote(UpdateOrder(Prop(order, "id"), payload.value)),
                                                   Alert("Failed to update order")] &&
                orders == old(orders) && cars == old(cars) && users == old(users) && loading == old(loading)
    {
      var id := Prop(order, "id");
      var newStatus := Coalesce(if id in selectedStatus then Str(selectedStatus[id]) else Undefined,
                                Prop(order, "status"));
      var rawCost := Coalesce(Coalesce(if id in editedCost then editedCost[id] else Undefined,
                                       Prop(order, "cost")), Num(0));
      var parsedCost := ToNumber(rawCost);
      var newCost := if parsedCost.NaN? then Num(0) else parsedCost;
      ChainPair(if id in editedCost then editedCost[id] else Undefined, Prop(order, "cost"), Num(0));
      assert newCost == NewCost(order, editedCost);

      if StrictEquals(newStatus, Prop(order, "status")) &&
         StrictEquals(newCost, Coalesce(Prop(order, "cost"), Num(0))) {
        return;
      }

      world.trace := world.trace + [Remote(UpdateOrder(id, order["status" := newStatus]["cost" := newCost]))];
      if updated {
        LoadData(reload);
      } else {
        world.trace := world.trace + [Alert("Failed to update order")];
      }
    }
  }
}
