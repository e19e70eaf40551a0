/**
 * The admin cars screen (app/admin/cars/page.tsx): every fetched car is
 * normalised from whichever field names the backend used, joined to its owner
 * through the customer-id index and, failing that, the user-id index, and the
 * joined list is searched by a free-text query.
 */
module AdminCars {
  import opened Js
  import opened Lists
  import opened Io
  import opened Records

  /** `CarRow`: a car in canonical shape, with its owner once resolved. */
  datatype CarRow = CarRow(
    id: JsValue,
    brand: JsValue,
    model: JsValue,
    year: JsValue,
    plate: JsValue,
    status: JsValue,
    customerId: JsValue,
    userId: JsValue,
    user: Option<Record>)

  // ---------------------------------------------------------------------------
  // normalizeCar (lines 36-60)

  const PlateKeys: seq<string> := ["plateNumber", "plate", "licensePlate", "plate_number"]
  const StatusKeys: seq<string> := ["status", "state", "carStatus"]

  function NormalizeCar(raw: Record): (car: CarRow)
    ensures car.id == Prop(raw, "id") && car.year == Prop(raw, "year") && car.user.None?
    ensures !Nullish(car.brand) && !Nullish(car.model) && !Nullish(car.status)
  {
    CarRow(
      id := Prop(raw, "id"),
      brand := Chain([Prop(raw, "brand"), Prop(raw, "make")], Str("")),
      model := Coalesce(Prop(raw, "model"), Str("")),
      year := Prop(raw, "year"),
      plate := Chain([Prop(raw, "plateNumber"), Prop(raw, "plate"), Prop(raw, "licensePlate"),
                      Prop(raw, "plate_number")], Str("")),
      status := Chain([Prop(raw, "status"), Prop(raw, "state"), Prop(raw, "carStatus")], Str("")),
      customerId := Chain([Prop(raw, "customerId"), Field(Prop(raw, "customer"), "id")], Undefined),
      userId := Chain([Prop(raw, "userId"), Field(Prop(raw, "user"), "id")], Undefined),
      user := None)
  }

  /** The values of `keys` in `raw`, in order. */
  function Values(raw: Record, keys: seq<string>): (vs: seq<JsValue>)
    ensures |vs| == |keys|
    ensures forall i :: 0 <= i < |keys| ==> vs[i] == Prop(raw, keys[i])
  {
    if keys == [] then [] else [Prop(raw, keys[0])] + Values(raw, keys[1..])
  }

  /** The plate is the first of `plateNumber`, `plate`, `licensePlate`,
      `plate_number` that is neither null nor undefined, else "". */
  lemma NormalizeCarPlate(raw: Record)
    ensures IsFirstPresent(Values(raw, PlateKeys), Str(""), NormalizeCar(raw).plate)
    ensures !Nullish(NormalizeCar(raw).plate)
  {
    assert Values(raw, PlateKeys) == [Prop(raw, "plateNumber"), Prop(raw, "plate"),
                                      Prop(raw, "licensePlate"), Prop(raw, "plate_number")];
    ChainIsFirstPresent(Values(raw, PlateKeys), Str(""));
    ChainPresent(Values(raw, PlateKeys), Str(""));
  }

  /** Status is `status`, `state`, `carStatus`, else ""; brand is `brand`,
      `make`, else ""; model is `model`, else "". */
  lemma NormalizeCarFields(raw: Record)
    ensures var c := NormalizeCar(raw);
            && IsFirstPresent(Values(raw, StatusKeys), Str(""), c.status)
            && IsFirstPresent(Values(raw, ["brand", "make"]), Str(""), c.brand)
            && IsFirstPresent(Values(raw, ["model"]), Str(""), c.model)
            && !Nullish(c.status) && !Nullish(c.brand) && !Nullish(c.model)
  {
    var c := NormalizeCar(raw);
    assert Values(raw, StatusKeys) == [Prop(raw, "status"), Prop(raw, "state"), Prop(raw, "carStatus")];
    assert Values(raw, ["brand", "make"]) == [Prop(raw, "brand"), Prop(raw, "make")];
    assert Values(raw, ["model"]) == [Prop(raw, "model")];
    ChainIsFirstPresent(Values(raw, StatusKeys), Str(""));
    ChainIsFirstPresent(Values(raw, ["brand", "make"]), Str(""));
    ChainIsFirstPresent(Values(raw, ["model"]), Str(""));
    assert Chain([Prop(raw, "model")], Str("")) == c.model;
    ChainPresent(Values(raw, StatusKeys), Str(""));
    ChainPresent(Values(raw, ["brand", "make"]), Str(""));
  }

  /** The owner references come from `customerId` then `customer.id`, and from
      `userId` then `user.id`, else undefined; `id` and `year` are copied and no
      owner is attached yet. */
  lemma NormalizeCarOwnerRefs(raw: Record)
    ensures var c := NormalizeCar(raw);
            && IsFirstPresent([Prop(raw, "customerId"), Field(Prop(raw, "customer"), "id")], Undefined, c.customerId)
            && IsFirstPresent([Prop(raw, "userId"), Field(Prop(raw, "user"), "id")], Undefined, c.userId)
            && c.id == Prop(raw, "id") && c.year == Prop(raw, "year") && c.user == None
  {
    ChainIsFirstPresent([Prop(raw, "customerId"), Field(Prop(raw, "customer"), "id")], Undefined);
    ChainIsFirstPresent([Prop(raw, "userId"), Field(Prop(raw, "user"), "id")], Undefined);
  }

  // ---------------------------------------------------------------------------
  // loadCars (lines 62-104)

  /** The `forEach` that fills both user indices in one pass. */
  method BuildUserIndices(users: seq<Record>)
    returns (byCustomerId: map<JsValue, Record>, byUserId: map<JsValue, Record>)
    ensures byCustomerId == UsersByCustomerId(users)
    ensures byUserId == UsersById(users)
  {
    byCustomerId, byUserId := map[], map[];
    for i := 0 to |users|
      invariant byCustomerId == UsersByCustomerId(users[..i])
      invariant byUserId == UsersById(users[..i])
    {
      var u := users[i];
      if Truthy(Prop(u, "id")) {
        byUserId := byUserId[Prop(u, "id") := u];
      }
      if Prop(u, "customerId") != Null && Prop(u, "customerId") != Undefined {
        byCustomerId := byCustomerId[Prop(u, "customerId") := u];
      }
      assert users[..i + 1][..i] == users[..i];
    }
    assert users[..|users|] == users;
  }

  /** The owner of a normalised car: looked up by customer id when that is truthy;
      only if that finds nobody, by user id when that is truthy. */
  function OwnerOf(car: CarRow, byCustomerId: map<JsValue, Record>,
                   byUserId: map<JsValue, Record>): (owner: Option<Record>)
    ensures Truthy(car.customerId) && car.customerId in byCustomerId ==>
            owner == Some(byCustomerId[car.customerId])
    ensures owner.Some? ==> owner.value in byCustomerId.Values || owner.value in byUserId.Values
  {
    var user := if Truthy(car.customerId) && car.customerId in byCustomerId
                then Some(byCustomerId[car.customerId]) else None;
    if user.None? && Truthy(car.userId) && car.userId in byUserId then Some(byUserId[car.userId])
    else user
  }

  /** One fetched car, normalised, with its owner looked up in the two indices. */
  function Joined(raw: Record, byCustomerId: map<JsValue, Record>, byUserId: map<JsValue, Record>): CarRow {
    var car := NormalizeCar(raw);
    car.(user := OwnerOf(car, byCustomerId, byUserId))
  }

  /** The merged list `setCars` receives: every fetched car, in fetched order,
      normalised and joined to its owner in the indices of `users`. */
  function MergeCars(raws: seq<Record>, users: seq<Record>): (r: seq<CarRow>)
    ensures |r| == |raws|
    ensures forall i :: 0 <= i < |raws| ==> r[i] == Joined(raws[i], UsersByCustomerId(users), UsersById(users))
  {
    if raws == [] then []
    else
      var init := raws[..|raws| - 1];
      assert forall i :: 0 <= i < |init| ==> init[i] == raws[i];
      MergeCars(init, users) + [Joined(raws[|raws| - 1], UsersByCustomerId(users), UsersById(users))]
  }

  /** Owner resolution, stated against the fetched user list: the last user whose
      customer id is the car's (truthy) customer id; failing that, the last user
      whose (truthy) id is the car's user id; failing that, no owner. */
  lemma OwnerOfSpec(car: CarRow, users: seq<Record>)
    ensures var owner := OwnerOf(car, UsersByCustomerId(users), UsersById(users));
            if Truthy(car.customerId) && exists i :: 0 <= i < |users| && CustomerIdOf(users[i]) == car.customerId then
              exists i :: IsLastWithKey(users, CustomerIdOf, car.customerId, i) && owner == Some(users[i])
            else if Truthy(car.userId) && exists i :: 0 <= i < |users| && IdOf(users[i]) == car.userId then
              exists i :: IsLastWithKey(users, IdOf, car.userId, i) && owner == Some(users[i])
            else owner == None
  {
    UsersByCustomerIdSpec(users, car.customerId);
    UsersByIdSpec(users, car.userId);
  }

  lemma MergeCarsStep(raws: seq<Record>, i: nat, users: seq<Record>)
    requires i < |raws|
    ensures MergeCars(raws[..i + 1], users) ==
            MergeCars(raws[..i], users) + [Joined(raws[i], UsersByCustomerId(users), UsersById(users))]
  {
    assert raws[..i + 1][..i] == raws[..i];
  }

  /** The `map` over the fetched cars, with its reassigned local `user`. */
  method Merge(raws: seq<Record>, users: seq<Record>) returns (merged: seq<CarRow>)
    ensures merged == MergeCars(raws, users)
  {
    var byCustomerId, byUserId := BuildUserIndices(users);
    merged := [];
    for i := 0 to |raws|
      invariant merged == MergeCars(raws[..i], users)
    {
      var car := NormalizeCar(raws[i]);
      var user := if Truthy(car.customerId) && car.customerId in byCustomerId
                  then Some(byCustomerId[car.customerId]) else None;
      if user.None? && Truthy(car.userId) && car.userId in byUserId {
        user := Some(byUserId[car.userId]);
      }
      assert user == OwnerOf(car, byCustomerId, byUserId);
      merged := merged + [car.(user := user)];
      MergeCarsStep(raws, i, users);
    }
    assert raws[..|raws|] == raws;
  }

  // ---------------------------------------------------------------------------
  // Search (lines 110-134)

  /** The owner as the JavaScript value `car.user`. */
  function UserValue(car: CarRow): JsValue {
    if car.user.Some? then Obj(car.user.value) else Undefined
  }

  predicate CarMatches(car: CarRow, q: string) {
    var user := UserValue(car);
    Includes(Lower(Text(Coalesce(Field(user, "email"), Str("")))), q) ||
    Includes(Lower(Text(UserName(user))), q) ||
    Includes(Lower(Text(Coalesce(car.plate, Str("")))), q) ||
    Includes(Lower(Text(Coalesce(car.brand, Str("")))), q) ||
    Includes(Lower(Text(Coalesce(car.model, Str("")))), q) ||
    Includes(Lower(Text(Coalesce(car.status, Str("")))), q)
  }

  /** `filteredCars` */
  function FilterCars(cars: seq<CarRow>, search: string): (r: seq<CarRow>)
    ensures Sublist(r, cars)
  {
    var q := Trim(Lower(search));
    if q == "" then
      SublistReflexive(cars);
      cars
    else Filter(cars, car => CarMatches(car, q))
  }

  /** A blank query returns the car list itself. */
  lemma FilterCarsBlank(cars: seq<CarRow>, search: string)
    requires forall k :: 0 <= k < |search| ==> IsSpace(search[k])
    ensures FilterCars(cars, search) == cars
  {
    assert forall k :: 0 <= k < |Lower(search)| ==> IsSpace(Lower(search)[k]);
    TrimBlank(Lower(search));
  }

  /** Otherwise a car is listed exactly when one of its six searched fields contains the query. */
  lemma FilterCarsMembers(cars: seq<CarRow>, search: string, car: CarRow)
    requires Trim(Lower(search)) != ""
    ensures car in FilterCars(cars, search) <==> car in cars && CarMatches(car, Trim(Lower(search)))
  {
    FilterMembers(cars, c => CarMatches(c, Trim(Lower(search))), car);
  }

  // ---------------------------------------------------------------------------
  // The screen's state and handlers

  const LoadCalls: seq<Event> := [Remote(GetAllCars), Remote(GetAllCustomers)]

  class AdminCarsPage {
    const world: World
    var cars: seq<CarRow>
    var loading: bool
    var search: string

    constructor (world: World)
      ensures this.world == world && cars == [] && loading && search == ""
    {
      this.world := world;
      cars := [];
      loading := true;
      search := "";
    }

    function Rows(): (r: seq<CarRow>)
      reads this
      ensures Sublist(r, cars)
    {
      FilterCars(cars, search)
    }

    /** The search box's `onChange`: the query is what was typed, and a blank
        one lists every car. */
    method SetSearch(q: string)
      modifies this`search
      ensures search == q
      ensures (forall k :: 0 <= k < |q| ==> IsSpace(q[k])) ==> Rows() == cars
    {
      search := q;
      if forall k :: 0 <= k < |q| ==> IsSpace(q[k]) {
        FilterCarsBlank(cars, q);
      }
    }

    /** `loadCars`: fetch cars and users, build both indices, merge; a failed
        fetch leaves the list as it was. */
    method LoadCars(fetched: Response<(seq<Record>, seq<Record>)>)
      modifies this`cars, this`loading, world`trace
      ensures world.trace == old(world.trace) + LoadCalls
      ensures fetched.Ok? ==> cars == MergeCars(fetched.value.0, fetched.value.1)
      ensures fetched.Failed? ==> cars == old(cars)
      ensures !loading
    {
      loading := true;
      world.trace := world.trace + LoadCalls;
      if fetched.Ok? {
        cars := Merge(fetched.value.0, fetched.value.1);
      }
      loading := false;
    }

    /** `handleDelete`: after confirmation, one `deleteCar`; on success the whole
        list is fetched again, on failure an alert and the list is kept. */
    method HandleDelete(id: JsValue, confirmed: bool, deleted: bool,
                        reload: Response<(seq<Record>, seq<Record>)>)
      modifies this`cars, this`loading, world`trace
      ensures !confirmed ==> world.trace == old(world.trace) && cars == old(cars) && loading == old(loading)
      ensures confirmed && !deleted ==>
                world.trace == old(world.trace) + [Remote(DeleteCar(id)), Alert("Error deleting car")] &&
                cars == old(cars) && loading == old(loading)
      ensures confirmed && deleted ==>
                world.trace == old(world.trace) + [Remote(DeleteCar(id))] + LoadCalls && !loading &&
                (reload.Ok? ==> cars == MergeCars(reload.value.0, reload.value.1)) &&
                (reload.Failed? ==> cars == old(cars))
    {
      if !confirmed {
        return;
      }
      world.trace := world.trace + [Remote(DeleteCar(id))];
      if deleted {
        LoadCars(reload);
      } else {
        world.trace := world.trace + [Alert("Error deleting car")];
      }
    }
  }

}
