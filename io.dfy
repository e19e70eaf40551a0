/**
 * What the screens do to the world outside the page: calls to the backend,
 * browser alerts, route changes and the session store. None of it is executed;
 * each effect is appended to a ghost trace, and the backend's answers are given
 * to the handlers as parameters.
 */
module Io {
  import opened Js

  /** The backend operations the core issues (the wrappers of api/repairs.ts,
      api/customer.ts and api/auth.ts), plus the one POST that api/cars.ts builds itself. */
  datatype Call =
    | GetAllOrders
    | GetAllCars
    | GetMyCars
    | GetAllCustomers
    | GetOrderDetails(orderId: JsValue)
    | GetOrderNotes(orderId: JsValue)
    | AddOrderNote(orderId: JsValue, note: Record)
    | UpdateOrder(orderId: JsValue, order: Record)
    | CreateOrder(carId: JsValue, order: Record)
    | DeleteOrder(orderId: JsValue)
    | DeleteCar(carId: JsValue)
    | DeleteCustomer(customerId: JsValue)
    | Login(credentials: Record)
    | Post(path: string, body: Record)

  datatype Event =
    | Remote(call: Call)
    | Alert(message: string)
    | Navigate(path: string)
    | SaveAuth(token: JsValue, role: JsValue)

  /** What an awaited backend call gave back: its data, or a rejected promise. */
  datatype Response<T> = Ok(value: T) | Failed

  /** The browser and the backend, as far as the screens can observe them. */
  class World {
    ghost var trace: seq<Event>

    constructor ()
      ensures trace == []
    {
      trace := [];
    }
  }
}
