/**
 * The admin clients screen (app/admin/clients/page.tsx): the users with the
 * client role, a name/e-mail search, the name shown for each client, the
 * number of cars each owner has, and deletion that edits the local list.
 */
module AdminClients {
  import opened Js
  import opened Lists
  import opened Io
  import opened Records

  // ---------------------------------------------------------------------------
  // filteredClients (lines 47-56)

  /** `${c.firstName ?? ""} ${c.lastName ?? ""}` */
  function FullName(c: Record): (name: string)
    ensures Nullish(Prop(c, "firstName")) && Nullish(Prop(c, "lastName")) ==> name == " "
    ensures Prop(c, "firstName").Str? && Prop(c, "lastName").Str? ==>
            name == Prop(c, "firstName").s + " " + Prop(c, "lastName").s
  {
    ToString(Coalesce(Prop(c, "firstName"), Str(""))) + " " + ToString(Coalesce(Prop(c, "lastName"), Str("")))
  }

  predicate ClientMatches(c: Record, q: string) {
    Includes(Lower(FullName(c)), q) || Includes(Lower(Text(Coalesce(Prop(c, "email"), Str("")))), q)
  }

  /** The query is trimmed first and lowercased second. */
  function ClientQuery(query: string): string {
    Lower(Trim(query))
  }

  function FilterClients(clients: seq<Record>, query: string): (r: seq<Record>)
    ensures Sublist(r, clients)
  {
    var q := ClientQuery(query);
    if q == "" then
      SublistReflexive(clients);
      clients
    else Filter(clients, c => ClientMatches(c, q))
  }

  /** A blank query lists every client. */
  lemma FilterClientsBlank(clients: seq<Record>, query: string)
    requires forall k :: 0 <= k < |query| ==> IsSpace(query[k])
    ensures FilterClients(clients, query) == clients
  {
    TrimBlank(query);
  }

  /** Otherwise a client is listed exactly when the query occurs in the lowercased
      "first last" name or in the lowercased e-mail. */
  lemma FilterClientsMembers(clients: seq<Record>, query: string, c: Record)
    requires exists k :: 0 <= k < |query| && !IsSpace(query[k])
    ensures c in FilterClients(clients, query) <==>
            c in clients && ClientMatches(c, ClientQuery(query))
  {
    TrimBlank(query);
    FilterMembers(clients, x => ClientMatches(x, ClientQuery(query)), c);
  }

  // ---------------------------------------------------------------------------
  // getClientDisplayName (lines 71-78)

  function DisplayName(c: Record): (name: JsValue)
    ensures !Nullish(name)
    ensures name == Str("") ==> Truthy(Prop(c, "email"))
    ensures name == Str("") && Prop(c, "email").Str? ==> Prop(c, "email").s[0] == '@'
  {
    var fullName := Trim(FullName(c));
    if fullName != "" then Str(fullName)
    else if Truthy(Prop(c, "name")) then Prop(c, "name")
    else if Truthy(Prop(c, "username")) then Prop(c, "username")
    else if Truthy(Prop(c, "email")) then Str(LocalPart(Text(Prop(c, "email"))))
    else Str("Unnamed")
  }

  /** A client without first and last name has the blank full name " ", which is
      skipped: the name falls back to name, username, e-mail local part, "Unnamed". */
  lemma DisplayNameWithoutFullName(c: Record)
    requires Nullish(Prop(c, "firstName")) && Nullish(Prop(c, "lastName"))
    ensures DisplayName(c) ==
            if Truthy(Prop(c, "name")) then Prop(c, "name")
            else if Truthy(Prop(c, "username")) then Prop(c, "username")
            else if Truthy(Prop(c, "email")) then Str(LocalPart(Text(Prop(c, "email"))))
            else Str("Unnamed")
  {
    assert FullName(c) == " ";
    TrimBlank(" ");
  }

  /** A shown full name never starts or ends with a space, and it is shown as
      soon as either part has a visible character. */
  lemma DisplayNamePrefersFullName(c: Record)
    requires exists k :: 0 <= k < |FullName(c)| && !IsSpace(FullName(c)[k])
    ensures DisplayName(c) == Str(Trim(FullName(c)))
    ensures var s := DisplayName(c).s; s != [] && !IsSpace(s[0]) && !IsSpace(s[|s| - 1])
  {
    TrimBlank(FullName(c));
  }

  /** "Unnamed" is shown when the full name is blank and there is no name,
      username or e-mail. */
  lemma DisplayNameUnnamed(c: Record)
    requires forall k :: 0 <= k < |FullName(c)| ==> IsSpace(FullName(c)[k])
    requires !Truthy(Prop(c, "name")) && !Truthy(Prop(c, "username")) && !Truthy(Prop(c, "email"))
    ensures DisplayName(c) == Str("Unnamed")
  {
    TrimBlank(FullName(c));
  }

  // ---------------------------------------------------------------------------
  // carsByUserId (lines 80-91) and the count shown per client (line 167)

  /** `car.customerId ?? car.customer?.id` */
  function OwnerKey(car: Record): JsValue {
    Coalesce(Prop(car, "customerId"), Field(Prop(car, "customer"), "id"))
  }

  predicate HasOwnerKey(car: Record) {
    Truthy(OwnerKey(car))
  }

  /** `map.get(k) ?? 0` */
  function CountIn(m: map<JsValue, nat>, k: JsValue): nat {
    if k in m then m[k] else 0
  }

  /** The counting map: each car with a truthy owner key adds one under that key. */
  function CarCounts(cars: seq<Record>): (counts: map<JsValue, nat>)
    ensures forall k :: k in counts ==> Truthy(k) && counts[k] > 0
  {
    if cars == [] then map[]
    else
      var m := CarCounts(cars[..|cars| - 1]);
      var k := OwnerKey(cars[|cars| - 1]);
      if Truthy(k) then m[k := CountIn(m, k) + 1] else m
  }

  /** The loop that fills the counting map. */
  method CountCarsByOwner(cars: seq<Record>) returns (counts: map<JsValue, nat>)
    ensures counts == CarCounts(cars)
  {
    counts := map[];
    for i := 0 to |cars|
      invariant counts == CarCounts(cars[..i])
    {
      var userId := OwnerKey(cars[i]);
      assert cars[..i + 1][..i] == cars[..i];
      if !Truthy(userId) {
        continue;
      }
      counts := counts[userId := CountIn(counts, userId) + 1];
    }
    assert cars[..|cars|] == cars;
  }

  /** The number of cars whose owner key is `k` (an independent reference count). */
  function Owned(cars: seq<Record>, k: JsValue): nat {
    if cars == [] then 0
    else Owned(cars[..|cars| - 1], k) + (if OwnerKey(cars[|cars| - 1]) == k then 1 else 0)
  }

  /** The number of cars that have a truthy owner key. */
  function WithOwner(cars: seq<Record>): nat {
    if cars == [] then 0
    else WithOwner(cars[..|cars| - 1]) + (if HasOwnerKey(cars[|cars| - 1]) then 1 else 0)
  }

  /** Every truthy key counts exactly its cars; no other key appears. */
  lemma {:induction false} CarCountsExact(cars: seq<Record>, k: JsValue)
    ensures Truthy(k) ==> CountIn(CarCounts(cars), k) == Owned(cars, k)
    ensures k in CarCounts(cars) <==> Truthy(k) && Owned(cars, k) > 0
  {
    if cars != [] {
      CarCountsExact(cars[..|cars| - 1], k);
    }
  }

  /** Some key of a non-empty map. */
  ghost function Pick(m: map<JsValue, nat>): (k: JsValue)
    requires m != map[]
    ensures k in m
  {
    var k :| k in m; k
  }

  lemma RemoveShrinks(m: map<JsValue, nat>, k: JsValue)
    requires k in m
    ensures |m - {k}| == |m| - 1
  {
    assert m.Keys == (m - {k}).Keys + {k};
  }

  /** The sum of the values of a map. */
  ghost function Total(m: map<JsValue, nat>): nat
    decreases |m|
  {
    if m == map[] then 0
    else
      RemoveShrinks(m, Pick(m));
      m[Pick(m)] + Total(m - {Pick(m)})
  }

  lemma {:induction false} TotalRemove(m: map<JsValue, nat>, k: JsValue)
    requires k in m
    ensures Total(m) == m[k] + Total(m - {k})
    decreases |m|
  {
    var j := Pick(m);
    assert Total(m) == m[j] + Total(m - {j});
    if j != k {
      RemoveShrinks(m, j);
      RemoveShrinks(m, k);
      TotalRemove(m - {j}, k);
      TotalRemove(m - {k}, j);
      assert (m - {j}) - {k} == (m - {k}) - {j};
    }
  }

  /** Adding one to one entry, or a new entry of one, adds one to the total. */
  lemma TotalIncrement(m: map<JsValue, nat>, k: JsValue)
    ensures Total(m[k := CountIn(m, k) + 1]) == Total(m) + 1
  {
    var m' := m[k := CountIn(m, k) + 1];
    TotalRemove(m', k);
    if k in m {
      TotalRemove(m, k);
      assert m' - {k} == m - {k};
    } else {
      assert m' - {k} == m;
    }
  }

  /** The counts add up to the number of cars with a truthy owner key. */
  lemma {:induction false} CarCountsTotal(cars: seq<Record>)
    ensures Total(CarCounts(cars)) == WithOwner(cars)
  {
    if cars != [] {
      CarCountsTotal(cars[..|cars| - 1]);
      var k := OwnerKey(cars[|cars| - 1]);
      if Truthy(k) {
        TotalIncrement(CarCounts(cars[..|cars| - 1]), k);
      }
    }
  }

  /** The count shown for a client: looked up under `customerId ?? id`, 0 when absent. */
  function ClientCarCount(counts: map<JsValue, nat>, c: Record): (n: nat)
    ensures n > 0 ==> Coalesce(Prop(c, "customerId"), Prop(c, "id")) in counts &&
                      n == counts[Coalesce(Prop(c, "customerId"), Prop(c, "id"))]
  {
    CountIn(counts, Coalesce(Prop(c, "customerId"), Prop(c, "id")))
  }

  /** The shown count is the number of cars owned under the client's key, and 0
      for a client whose key is falsy. */
  lemma ClientCarCountSpec(cars: seq<Record>, c: Record)
    ensures var k := Coalesce(Prop(c, "customerId"), Prop(c, "id"));
            ClientCarCount(CarCounts(cars), c) == if Truthy(k) then Owned(cars, k) else 0
  {
    var k := Coalesce(Prop(c, "customerId"), Prop(c, "id"));
    CarCountsExact(cars, k);
  }

  // ---------------------------------------------------------------------------
  // handleDelete (lines 58-69)

  /** `prev.filter((c) => c.id !== id)` */
  function WithoutId(clients: seq<Record>, id: JsValue): (r: seq<Record>)
    ensures Sublist(r, clients)
    ensures forall c :: c in r <==> c in clients && !StrictEquals(Prop(c, "id"), id)
  {
    Filter(clients, c => !StrictEquals(Prop(c, "id"), id))
  }

  /** Removal keeps every other client as often as before and drops every client with that id. */
  lemma WithoutIdCounts(clients: seq<Record>, id: JsValue, c: Record)
    ensures multiset(WithoutId(clients, id))[c] ==
            if StrictEquals(Prop(c, "id"), id) then 0 else multiset(clients)[c]
  {
    FilterCounts(clients, x => !StrictEquals(Prop(x, "id"), id), c);
  }

  // ---------------------------------------------------------------------------
  // The screen's state and handlers

  const LoadCalls: seq<Event> := [Remote(GetAllCustomers), Remote(GetAllCars)]

  class AdminClientsPage {
    const world: World
    var clients: seq<Record>
    var cars: seq<Record>
    var loading: bool
    var error: string
    var query: string

    constructor (world: World)
      ensures this.world == world && clients == [] && cars == [] && loading && error == "" && query == ""
    {
      this.world := world;
      clients := [];
      cars := [];
      loading := true;
      error := "";
      query := "";
    }

    function Rows(): (r: seq<Record>)
      reads this
      ensures Sublist(r, clients)
    {
      FilterClients(clients, query)
    }

    /** The search box's `onChange`: the query is what was typed, and a blank
        one lists every client. */
    method SetQuery(q: string)
      modifies this`query
      ensures query == q
      ensures (forall k :: 0 <= k < |q| ==> IsSpace(q[k])) ==> Rows() == clients
    {
      query := q;
      if forall k :: 0 <= k < |q| ==> IsSpace(q[k]) {
        FilterClientsBlank(clients, q);
      }
    }

    function Counts(): map<JsValue, nat>
      reads this
    {
      CarCounts(cars)
    }

    /** The effect on mount: users and cars, keeping only the clients. */
    method Load(fetched: Response<(seq<Record>, seq<Record>)>)
      modifies this`clients, this`cars, this`loading, this`error, world`trace
      ensures world.trace == old(world.trace) + LoadCalls
      ensures fetched.Ok? ==> clients == OnlyClients(fetched.value.0) && cars == fetched.value.1 && error == ""
      ensures fetched.Failed? ==> clients == old(clients) && cars == old(cars) && error == "Failed to load clients"
      ensures !loading
    {
      loading := true;
      error := "";
      world.trace := world.trace + LoadCalls;
      if fetched.Ok? {
        clients := OnlyClients(fetched.value.0);
        cars := fetched.value.1;
      } else {
        error := "Failed to load clients";
      }
      loading := false;
    }

    /** After confirmation one `deleteCustomer`; on success the client is removed
        from the local list without fetching again, on failure an alert. */
    method HandleDelete(id: JsValue, confirmed: bool, deleted: bool)
      modifies this`clients, world`trace
      ensures !confirmed ==> world.trace == old(world.trace) && clients == old(clients)
      ensures confirmed && deleted ==>
                world.trace == old(world.trace) + [Remote(DeleteCustomer(id))] &&
                clients == WithoutId(old(clients), id)
      ensures confirmed && !deleted ==>
                world.trace == old(world.trace) + [Remote(DeleteCustomer(id)), Alert("Failed to delete customer")] &&
                clients == old(clients)
    {
      if !confirmed {
        return;
      }
      world.trace := world.trace + [Remote(DeleteCustomer(id))];
      if deleted {
        clients := WithoutId(clients, id);
      } else {
        world.trace := world.trace + [Alert("Failed to delete customer")];
      }
    }
  }
}
