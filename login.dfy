/**
 * The login screen (app/login/page.tsx): the roles are read from the payload
 * of the returned token, and the user is sent to the admin or the client
 * dashboard.
 */
module Login {
  import opened Js
  import opened Lists
  import opened Io

  /** `getRolesFromToken` (lines 15-25). `decoded` is what decoding the token's
      second segment gave: None when `atob` or `JSON.parse` threw. */
  function Roles(decoded: Option<JsValue>): (r: seq<JsValue>)
    ensures decoded.None? ==> r == []
  {
    if decoded.None? || Nullish(decoded.value) then []
    else
      var payload := decoded.value;
      var roles := Chain([Field(payload, "roles"), Field(payload, "authorities"), Field(payload, "role")], Arr([]));
      if roles.Arr? then roles.items else [roles]
  }

  /** The roles are the first of `roles`, `authorities`, `role` that is present,
      or none; an array is taken as it is, any other value as a one-element list. */
  lemma RolesSpec(payload: JsValue)
    requires !Nullish(payload)
    ensures var vs := [Field(payload, "roles"), Field(payload, "authorities"), Field(payload, "role")];
            exists v :: IsFirstPresent(vs, Arr([]), v) && Roles(Some(payload)) == (if v.Arr? then v.items else [v])
    ensures Nullish(Field(payload, "roles")) && Nullish(Field(payload, "authorities")) && Nullish(Field(payload, "role"))
            ==> Roles(Some(payload)) == []
  {
    var vs := [Field(payload, "roles"), Field(payload, "authorities"), Field(payload, "role")];
    ChainIsFirstPresent(vs, Arr([]));
  }

  /** A payload whose `roles` is a single text yields that one role. */
  lemma SingleRoleWrapped(payload: JsValue, role: string)
    requires Field(payload, "roles") == Str(role)
    ensures Roles(Some(payload)) == [Str(role)]
  {
  }

  /** A payload of null yields no roles, like a failed decode. */
  lemma NullPayloadNoRoles()
    ensures Roles(Some(Null)) == [] && Roles(None) == []
  {
  }

  /** Where a successful login leads (lines 38-42). */
  function Destination(roles: seq<JsValue>, res: JsValue): (path: string)
    ensures path == "/admin/dashboard" || path == "/client/dashboard"
    ensures path == "/admin/dashboard" <==> Str("ROLE_ADMIN") in roles || Field(res, "role") == Str("ADMIN")
  {
    if Str("ROLE_ADMIN") in roles || StrictEquals(Field(res, "role"), Str("ADMIN")) then "/admin/dashboard"
    else "/client/dashboard"
  }

  /** An admin role in the token alone, or the response's own `role` alone, is
      enough: ROLE_ADMIN in whichever of `roles`, `authorities` or `role` the
      payload carries first, or "ADMIN" as the response's role. Without either
      the client dashboard is the destination. */
  lemma AdminEitherWay(res: JsValue, decoded: Option<JsValue>)
    ensures Field(res, "role") == Str("ADMIN") ==> Destination(Roles(decoded), res) == "/admin/dashboard"
    ensures decoded.Some? && Field(decoded.value, "roles").Arr? &&
            Str("ROLE_ADMIN") in Field(decoded.value, "roles").items ==>
            Destination(Roles(decoded), res) == "/admin/dashboard"
    ensures decoded.Some? && Nullish(Field(decoded.value, "roles")) &&
            Field(decoded.value, "authorities").Arr? &&
            Str("ROLE_ADMIN") in Field(decoded.value, "authorities").items ==>
            Destination(Roles(decoded), res) == "/admin/dashboard"
    ensures decoded.Some? && Nullish(Field(decoded.value, "roles")) &&
            Nullish(Field(decoded.value, "authorities")) &&
            Field(decoded.value, "role") == Str("ROLE_ADMIN") ==>
            Destination(Roles(decoded), res) == "/admin/dashboard"
    ensures Str("ROLE_ADMIN") !in Roles(decoded) && Field(res, "role") != Str("ADMIN") ==>
            Destination(Roles(decoded), res) == "/client/dashboard"
  {
    if decoded.Some? && !Nullish(decoded.value) {
      var p := decoded.value;
      var vs := [Field(p, "roles"), Field(p, "authorities"), Field(p, "role")];
      RolesSpec(p);
      if Nullish(vs[0]) && Nullish(vs[1]) && vs[2] == Str("ROLE_ADMIN") {
        assert vs[1..][1..] == [vs[2]] && [vs[2]][1..] == [];
        assert Chain(vs, Arr([])) == vs[2];
      }
    }
  }

  class LoginPage {
    const world: World
    var email: string
    var password: string
    var error: string

    constructor (world: World)
      ensures this.world == world && email == "" && password == "" && error == ""
    {
      this.world := world;
      email, password, error := "", "", "";
    }

    function Credentials(): Record
      reads this
    {
      map["email" := Str(email), "password" := Str(password)]
    }

    /** `handleLogin`: one `login`; a rejection, or an answer without fields,
        sets "Credenciales incorrectas." and goes nowhere; otherwise the token
        and role are stored before the single navigation. `decoded` is the
        decoding of the answer's token. */
    method HandleLogin(res: Response<JsValue>, decoded: Option<JsValue>)
      modifies this`error, world`trace
      ensures res.Failed? || Nullish(res.value) ==>
                error == "Credenciales incorrectas." && world.trace == old(world.trace) + [Remote(Login(Credentials()))]
      ensures res.Ok? && !Nullish(res.value) ==>
                error == "" &&
                world.trace == old(world.trace) + [Remote(Login(Credentials())),
                                                   SaveAuth(Field(res.value, "token"), Field(res.value, "role")),
                                                   Navigate(Destination(Roles(if Field(res.value, "token").Str? then decoded else None), res.value))]
    {
      error := "";
      world.trace := world.trace + [Remote(Login(Credentials()))];
      if res.Failed? || Nullish(res.value) {
        error := "Credenciales incorrectas.";
        return;
      }
      var answer := res.value;
      world.trace := world.trace + [SaveAuth(Field(answer, "token"), Field(answer, "role"))];
      var roles := Roles(if Field(answer, "token").Str? then decoded else None);
      if Str("ROLE_ADMIN") in roles || StrictEquals(Field(answer, "role"), Str("ADMIN")) {
        world.trace := world.trace + [Navigate("/admin/dashboard")];
      } else {
        world.trace := world.trace + [Navigate("/client/dashboard")];
      }
    }
  }
}
