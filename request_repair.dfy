/**
 * The client's repair request form (app/client/request-repair/page.tsx): the
 * client's cars are loaded for the selector, and a request is sent only when
 * car, repair type and date are all filled in.
 */
module RequestRepair {
  import opened Js
  import opened Lists
  import opened Io

  /** The `createOrder` call a submit issues, or None when a field is empty
      (lines 30-39). */
  function RepairRequest(carId: string, repairType: string, date: string): (r: Option<Call>)
    ensures r.None? <==> carId == "" || repairType == "" || date == ""
    ensures r.Some? ==> r.value.CreateOrder? && r.value.carId == ToNumber(Str(carId)) &&
                        r.value.order.Keys == {"description", "creationDate"} &&
                        r.value.order["description"] == Str(repairType) &&
                        r.value.order["creationDate"] == Str(date)
  {
    if carId == "" || repairType == "" || date == "" then None
    else Some(CreateOrder(ToNumber(Str(carId)), map["description" := Str(repairType), "creationDate" := Str(date)]))
  }

  /** The car selector's values are the car ids as text, so the id sent is the
      selected car's id. */
  lemma RequestCarIdRoundTrip(id: int, repairType: string, date: string)
    requires repairType != "" && date != ""
    ensures RepairRequest(NumberToString(id), repairType, date).Some?
    ensures RepairRequest(NumberToString(id), repairType, date).value.carId == Num(id)
  {
    NumberStringRoundTrip(id);
  }

  class RequestRepairPage {
    const world: World
    var cars: JsValue
    var carId: string
    var repairType: string
    var date: string
    var error: string

    constructor (world: World)
      ensures this.world == world && cars == Arr([]) && carId == "" && repairType == "" && date == "" && error == ""
    {
      this.world := world;
      cars := Arr([]);
      carId, repairType, date, error := "", "", "", "";
    }

    /** The effect on mount: the client's own cars, or an error message (lines 20-24). */
    method LoadCars(res: Response<JsValue>)
      modifies this`cars, this`error, world`trace
      ensures world.trace == old(world.trace) + [Remote(GetMyCars)]
      ensures res.Ok? ==> cars == res.value && error == old(error)
      ensures res.Failed? ==> cars == old(cars) && error == "Failed to load cars"
    {
      world.trace := world.trace + [Remote(GetMyCars)];
      if res.Ok? {
        cars := res.value;
      } else {
        error := "Failed to load cars";
      }
    }

    /** `handleSubmit`: the error is cleared; an empty field sets "All fields are
        required" and sends nothing; otherwise one `createOrder`, then the client
        dashboard on success or an error message on failure. */
    method HandleSubmit(created: bool)
      modifies this`error, world`trace
      ensures var req := RepairRequest(carId, repairType, date);
              && (req.None? ==> error == "All fields are required" && world.trace == old(world.trace))
              && (req.Some? && created ==>
                    error == "" && world.trace == old(world.trace) + [Remote(req.value), Navigate("/client/dashboard")])
              && (req.Some? && !created ==>
                    error == "Failed to submit repair request" && world.trace == old(world.trace) + [Remote(req.value)])
    {
      error := "";
      if carId == "" || repairType == "" || date == "" {
        error := "All fields are required";
        return;
      }
      world.trace := world.trace + [Remote(CreateOrder(ToNumber(Str(carId)),
                                      map["description" := Str(repairType), "creationDate" := Str(date)]))];
      if created {
        world.trace := world.trace + [Navigate("/client/dashboard")];
      } else {
        error := "Failed to submit repair request";
      }
    }
  }
}
