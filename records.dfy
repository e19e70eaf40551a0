/**
 * Record conventions that several screens share: the user indices built from
 * the `/users` list, the client-role test, the name shown for a user, and the
 * fixed list of repair-order statuses.
 */
module Records {
  import opened Js
  import opened Lists

  /** The statuses a repair order can be given (app/admin/repairs/page.tsx and
      components/repair-details-admin.tsx declare the same list). */
  const StatusOptions: seq<string> := ["PENDING", "IN_PROGRESS", "READY_FOR_PICKUP", "CLOSED"]

  /** No selectable status is empty or the filter's "ALL". */
  lemma StatusOptionsPlain(status: string)
    requires status in StatusOptions
    ensures status != "ALL" && status != ""
  {
  }

  // ---------------------------------------------------------------------------
  // User indices

  function CustomerIdOf(u: Record): JsValue {
    Prop(u, "customerId")
  }

  function IdOf(u: Record): JsValue {
    Prop(u, "id")
  }

  /** `k !== null && k !== undefined` */
  predicate Present(k: JsValue) {
    !Nullish(k)
  }

  /** The customer-id index: every user whose `customerId` is neither null nor
      undefined, under that id, a later user replacing an earlier one. */
  function UsersByCustomerId(users: seq<Record>): (index: map<JsValue, Record>)
    ensures forall k :: k in index ==> !Nullish(k) && CustomerIdOf(index[k]) == k
  {
    Index(users, CustomerIdOf, Present)
  }

  /** The user-id index: every user whose `id` is truthy, under that id. */
  function UsersById(users: seq<Record>): (index: map<JsValue, Record>)
    ensures forall k :: k in index ==> Truthy(k) && IdOf(index[k]) == k
  {
    Index(users, IdOf, Truthy)
  }

  lemma UsersByCustomerIdSpec(users: seq<Record>, k: JsValue)
    ensures k in UsersByCustomerId(users) <==>
            !Nullish(k) && exists i :: 0 <= i < |users| && CustomerIdOf(users[i]) == k
    ensures k in UsersByCustomerId(users) ==>
            exists i :: IsLastWithKey(users, CustomerIdOf, k, i) && UsersByCustomerId(users)[k] == users[i]
  {
    IndexDomain(users, CustomerIdOf, Present, k);
    if k in UsersByCustomerId(users) {
      IndexLastWins(users, CustomerIdOf, Present, k);
    }
  }

  lemma UsersByIdSpec(users: seq<Record>, k: JsValue)
    ensures k in UsersById(users) <==>
            Truthy(k) && exists i :: 0 <= i < |users| && IdOf(users[i]) == k
    ensures k in UsersById(users) ==>
            exists i :: IsLastWithKey(users, IdOf, k, i) && UsersById(users)[k] == users[i]
  {
    IndexDomain(users, IdOf, Truthy, k);
    if k in UsersById(users) {
      IndexLastWins(users, IdOf, Truthy, k);
    }
  }

  /** A user with id 0 (or any other falsy id) never enters the user-id index. */
  lemma UsersByIdSkipsFalsy(users: seq<Record>, k: JsValue)
    requires !Truthy(k)
    ensures k !in UsersById(users)
  {
    IndexDomain(users, IdOf, Truthy, k);
  }

  // ---------------------------------------------------------------------------
  // Clients and their names

  /** `u.roles?.includes("ROLE_USER")` */
  predicate IsClient(u: Record)
    ensures IsClient(u) ==> Prop(u, "roles").Arr? || Prop(u, "roles").Str?
    ensures Prop(u, "roles").Arr? ==> (IsClient(u) <==> Str("ROLE_USER") in Prop(u, "roles").items)
  {
    IncludesValue(Prop(u, "roles"), "ROLE_USER")
  }

  /** The users the admin screens treat as clients, in fetched order. */
  function OnlyClients(users: seq<Record>): (r: seq<Record>)
    ensures Sublist(r, users)
    ensures forall u :: u in r <==> u in users && IsClient(u)
  {
    Filter(users, IsClient)
  }

  /** `user?.name ?? user?.username ?? (user?.email ? user.email.split("@")[0] : "")` */
  function UserName(user: JsValue): (name: JsValue)
    ensures !Nullish(name)
    ensures name == Field(user, "name") || name == Field(user, "username") || name.Str?
  {
    var email := Field(user, "email");
    Chain([Field(user, "name"), Field(user, "username")],
          if Truthy(email) then Str(LocalPart(Text(email))) else Str(""))
  }

  /** The name falls back from `name` to `username` to the part of the e-mail
      before '@' to the empty string, and is never null or undefined. */
  lemma UserNameFallback(user: JsValue)
    ensures IsFirstPresent([Field(user, "name"), Field(user, "username")],
                           if Truthy(Field(user, "email")) then Str(LocalPart(Text(Field(user, "email")))) else Str(""),
                           UserName(user))
    ensures !Nullish(UserName(user))
    ensures (Nullish(Field(user, "name")) && Nullish(Field(user, "username")) && Field(user, "email").Str?)
            ==> UserName(user) == Str(LocalPart(Field(user, "email").s))
  {
    var d := if Truthy(Field(user, "email")) then Str(LocalPart(Text(Field(user, "email")))) else Str("");
    ChainIsFirstPresent([Field(user, "name"), Field(user, "username")], d);
    ChainPresent([Field(user, "name"), Field(user, "username")], d);
  }
}
