/**
 * The client's wrappers (client/src/api.js) against the server's routes
 * (server/billing_app.py): the four billing calls reach the handler they are
 * meant for, with the id they were given, and the other calls have no route
 * on this server. The path the server sees is taken to be the wrapper's
 * endpoint, which holds when the base URL is a bare origin, as the default
 * `http://localhost:5000` is; a base URL with a path of its own prefixes it.
 */
module Routes {
  import opened Text
  import opened Api
  import opened Server

  /** Where a wrapper's request lands. */
  function RoutingOf(call: Call): Routing
  {
    Route(MethodOf(call), Endpoint(call).0)
  }

  lemma GetBillsReachesItsHandler()
    ensures RoutingOf(Call.GetBills) == Dispatched(GetBillsRoute)
  {
    assert Endpoint(Call.GetBills).0 == "/get_bills";
  }

  lemma AddBillReachesItsHandler(data: JsValue)
    ensures RoutingOf(Call.AddBill(data)) == Dispatched(AddBillRoute)
  {
    assert Endpoint(Call.AddBill(data)).0 == "/add_bill";
  }

  /** `updateBill(id, data)` runs `update_bill` with `bill_id` equal to `id`. */
  lemma {:induction false} UpdateBillReachesItsHandler(id: nat, data: JsValue)
    ensures RoutingOf(Call.UpdateBill(id, data)) == Dispatched(UpdateBillRoute(id))
  {
    var path := "/update_bill/" + Show(id);
    assert Endpoint(Call.UpdateBill(id, data)).0 == path && |path| >= 14;
    IdAfterShow("/update_bill/", id);
  }

  /** `deleteBill(id)` runs `delete_bill` with `bill_id` equal to `id`. */
  lemma {:induction false} DeleteBillReachesItsHandler(id: nat)
    ensures RoutingOf(Call.DeleteBill(id)) == Dispatched(DeleteBillRoute(id))
  {
    var path := "/delete_bill/" + Show(id);
    assert Endpoint(Call.DeleteBill(id)).0 == path && |path| >= 14;
    assert path[1] == 'd' && path[..13] != "/update_bill/";
    IdAfterShow("/delete_bill/", id);
  }

  /** The calls the server has no route for. */
  lemma OtherCallsAreNotFound(call: Call)
    requires !(call.GetBills? || call.AddBill? || call.UpdateBill? || call.DeleteBill?)
    ensures RoutingOf(call) == NotFound
  {
    NoRouteFor(Endpoint(call).0);
  }

  /** None of the paths of those calls is a route's path. */
  lemma NoRouteFor(path: string)
    requires path in {"/signup", "/login", "/logout", "/check-auth", "/user-stats",
                      "/admin/view-all-data", "/delete-account"}
    ensures Target(path).None?
  {
    assert "/admin/view-all-data"[..13][1] == 'a';
    assert "/delete-account"[..13][7] == '-';
  }
}
