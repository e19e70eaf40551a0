/**
 * `createCar` (api/cars.ts): the form's `plate` is sent to the backend as
 * `plateNumber`, by copying the object, adding the new key and deleting the old one.
 */
module CarsApi {
  import opened Js
  import opened Io

  /** The body posted to `/cars` for the form data `data` (lines 20-21). */
  function CarPayload(data: Record): (r: Record)
    ensures "plate" !in r
    ensures Prop(r, "plateNumber") == Prop(data, "plate")
    ensures forall k :: k != "plate" && k != "plateNumber" ==> Prop(r, k) == Prop(data, k)
    ensures r.Keys == data.Keys - {"plate"} + {"plateNumber"}
  {
    data["plateNumber" := Prop(data, "plate")] - {"plate"}
  }

  /** `createCar`: one POST of the rewritten copy; the caller's object is not
      touched, and the answer (or the rejection) is handed back. */
  method CreateCar(world: World, data: Record, response: Response<JsValue>) returns (r: Response<JsValue>)
    modifies world`trace
    ensures world.trace == old(world.trace) + [Remote(Post("/cars", CarPayload(data)))]
    ensures r == response
  {
    var payload := data;
    payload := payload["plateNumber" := Prop(data, "plate")];
    payload := payload - {"plate"};
    world.trace := world.trace + [Remote(Post("/cars", payload))];
    r := response;
  }
}
