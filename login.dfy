/**
 * The demo login screen: the role comes from the `role` query parameter
 * (technician by default), and a login succeeds exactly when the id and the
 * password equal the hard-coded pair of that role.
 *
 * The credential table is a JavaScript object literal, so a role naming a
 * property every object inherits (`toString`, `constructor`, ...) finds a
 * truthy entry without an id or a password: that login is rejected rather
 * than ignored.
 */
module LoginScreen {
  import opened Text
  import opened Auth

  const TECHNICIAN := "technician"
  const EXPERT := "expert"
  const TECHNICIAN_ROUTE := "/technician"
  const EXPERT_ROUTE := "/expert"
  const INVALID := "Invalid credentials for demo"

  /** The demo pair of one role. */
  datatype Credential = Credential(id: string, password: string)

  /** The names an object literal inherits from `Object.prototype`. */
  const INHERITED: set<string> := {
    "constructor", "hasOwnProperty", "isPrototypeOf", "propertyIsEnumerable",
    "toString", "toLocaleString", "valueOf", "__proto__",
    "__defineGetter__", "__defineSetter__", "__lookupGetter__", "__lookupSetter__"
  }

  /** `CREDENTIALS[role]`: an own entry, an inherited member, or `undefined`. */
  datatype Lookup = Own(credential: Credential) | InheritedMember | Undefined

  function CredentialsFor(role: string): (r: Lookup)
    ensures r.Own? <==> role == TECHNICIAN || role == EXPERT
    ensures r.InheritedMember? <==> role in INHERITED
  {
    if role == TECHNICIAN then Own(Credential("tech123", "1234"))
    else if role == EXPERT then Own(Credential("expert123", "1234"))
    else if role in INHERITED then InheritedMember
    else Undefined
  }

  /** `q.get("role") || "technician"`: a missing or empty parameter means technician. */
  function RoleFrom(param: Option<string>): (r: string)
    ensures param.Some? && param.value != "" ==> r == param.value
    ensures param.None? || param.value == "" ==> r == TECHNICIAN
    ensures r != ""
  {
    if param.Some? && param.value != "" then param.value else TECHNICIAN
  }

  /** What `attemptLogin` decides. */
  datatype Decision = Ignored | Accepted(route: string) | Rejected

  /**
   * No entry: nothing happens. An own entry matched exactly (no trimming,
   * no case folding): accepted, routed by role. Anything else, including an
   * inherited member, is rejected.
   */
  function Decide(role: string, id: string, password: string): (d: Decision)
    ensures d.Ignored? <==> CredentialsFor(role).Undefined?
    ensures d.Accepted? <==> (role == TECHNICIAN && id == "tech123" && password == "1234") ||
                             (role == EXPERT && id == "expert123" && password == "1234")
    ensures d.Accepted? ==> d.route == (if role == TECHNICIAN then TECHNICIAN_ROUTE else EXPERT_ROUTE)
  {
    match CredentialsFor(role)
    case Undefined => Ignored
    case InheritedMember => Rejected
    case Own(c) =>
      if id == c.id && password == c.password then
        Accepted(if role == TECHNICIAN then TECHNICIAN_ROUTE else EXPERT_ROUTE)
      else Rejected
  }

  /** Inherited property names never log anyone in, whatever is typed. */
  lemma InheritedNamesReject(role: string, id: string, password: string)
    requires role in INHERITED
    ensures Decide(role, id, password) == Rejected
  {
    assert role != TECHNICIAN && role != EXPERT by {
      assert TECHNICIAN !in INHERITED;
      assert EXPERT !in INHERITED;
    }
  }

  /** The technician's pair does not open the expert screen, nor the reverse. */
  lemma PairsAreRoleBound()
    ensures Decide(EXPERT, "tech123", "1234") == Rejected
    ensures Decide(TECHNICIAN, "expert123", "1234") == Rejected
    ensures Decide(TECHNICIAN, " tech123", "1234") == Rejected
  {
    assert "tech123" != "expert123" by { assert "tech123"[0] != "expert123"[0]; }
    assert " tech123" != "tech123" by { assert " tech123"[0] != "tech123"[0]; }
  }

  class LoginPage {
    const role: string
    var id: string
    var password: string
    var err: string

    constructor(roleParam: Option<string>)
      ensures role == RoleFrom(roleParam) && id == "" && password == "" && err == ""
    {
      role := RoleFrom(roleParam);
      id, password, err := "", "", "";
    }

    method SetId(text: string)
      modifies this
      ensures id == text && password == old(password) && err == old(err)
    {
      id := text;
    }

    method SetPassword(text: string)
      modifies this
      ensures password == text && id == old(id) && err == old(err)
    {
      password := text;
    }

    /**
     * `attemptLogin`: on acceptance the context user becomes `{id, role}`
     * and the route is returned; on rejection only the error is set; when
     * ignored nothing changes. The fields are kept in every case.
     */
    method AttemptLogin(auth: AuthProvider) returns (route: Option<string>)
      modifies this, auth
      ensures id == old(id) && password == old(password)
      ensures var d := Decide(role, old(id), old(password));
              (d.Accepted? ==> route == Some(d.route) && auth.user == User(Some(id), Some(role)) && err == old(err)) &&
              (d.Rejected? ==> route.None? && auth.user == old(auth.user) && err == INVALID) &&
              (d.Ignored? ==> route.None? && auth.user == old(auth.user) && err == old(err))
    {
      var d := Decide(role, id, password);
      route := None;
      match d
      case Ignored =>
      case Accepted(r) =>
        auth.Login(id, role);
        route := Some(r);
      case Rejected =>
        err := INVALID;
    }

    /** The Clear button: id, password and error all empty again. */
    method Clear()
      modifies this
      ensures id == "" && password == "" && err == ""
    {
      id, password, err := "", "", "";
    }
  }
}
