/**
 * The route guard, src/components/ProtectedRoute.tsx: a decision made at
 * render time from the two session entries, the `requireAdmin` prop and the
 * current location. It only reads storage.
 */
module ProtectedRoute {
  import opened Optional
  import opened SessionStorage

  /** react-router's location, which the login redirect carries in `state.from`. */
  datatype Location = Location(pathname: string, search: string, hash: string)

  /**
   * What the guard renders: its children, or a `<Navigate replace>` to `to`
   * whose `state` is `{from}` when `from` is present and absent otherwise.
   */
  datatype Decision = Render | Redirect(to: string, from: Option<Location>)

  const LoginPath := "/login"
  const DashboardPath := "/dashboard"
  const AdminRole := "admin"

  /** `!!token`: present and not the empty string. */
  predicate HasToken(keys: Keys) {
    keys.token.Some? && keys.token.value != ""
  }

  /** `!!userStr`: present and not the empty string. */
  predicate HasUser(keys: Keys) {
    keys.user.Some? && keys.user.value.UserJson?
  }

  /** The admin check once both entries are present, including its `catch`. */
  function AdminCheck(reading: JsonReading, location: Location): (d: Decision)
    ensures d == Render <==> reading == JsonObject(Some(AdminRole))
    ensures d == Redirect(LoginPath, Some(location)) <==> reading.Unparseable? || reading.JsonNull?
    ensures d.Redirect? ==> d == Redirect(LoginPath, Some(location)) || d == Redirect(DashboardPath, None)
  {
    match reading
    case Unparseable => Redirect(LoginPath, Some(location))
    case JsonNull => Redirect(LoginPath, Some(location))
    case JsonObject(role) => if role == Some(AdminRole) then Render else Redirect(DashboardPath, None)
    case JsonOther => Redirect(DashboardPath, None)
  }

  /** ProtectedRoute; `requireAdmin` defaults to false at the call site. */
  function Decide(keys: Keys, requireAdmin: bool, location: Location): (d: Decision)
    ensures d == Render ==> HasToken(keys) && HasUser(keys)
    ensures d.Redirect? ==>
      || (d.to == LoginPath && d.from == Some(location))
      || (d.to == DashboardPath && d.from == None && requireAdmin)
    ensures !requireAdmin ==> (d == Render <==> HasToken(keys) && HasUser(keys))
    ensures requireAdmin && d == Render ==> keys.user.value.reading == JsonObject(Some(AdminRole))
  {
    if !HasToken(keys) || !HasUser(keys) then Redirect(LoginPath, Some(location))
    else if requireAdmin then AdminCheck(keys.user.value.reading, location)
    else Render
  }

  /** A missing or empty entry sends the visitor to log in, and back here after. */
  lemma SignedOutGoesToLogin(keys: Keys, requireAdmin: bool, location: Location)
    requires !HasToken(keys) || !HasUser(keys)
    ensures Decide(keys, requireAdmin, location) == Redirect(LoginPath, Some(location))
  {
  }

  /** Without requireAdmin the user text is never parsed: even garbage renders. */
  lemma PlainRouteIgnoresUserText(keys: Keys, location: Location)
    requires HasToken(keys) && HasUser(keys)
    ensures Decide(keys, false, location) == Render
    ensures Decide(keys.(user := Some(UserJson(Unparseable))), false, location) == Render
  {
  }

  /**
   * A signed-in user whose parsed text is not an admin object is sent to the
   * dashboard, not to login: an object with another role or none, or a number,
   * string, boolean or array, whose `.role` is `undefined`.
   */
  lemma NonAdminGoesToDashboard(keys: Keys, location: Location)
    requires HasToken(keys) && HasUser(keys)
    requires var reading := keys.user.value.reading;
      reading.JsonOther? || (reading.JsonObject? && reading.role != Some(AdminRole))
    ensures Decide(keys, true, location) == Redirect(DashboardPath, None)
  {
  }

  /** A user text that throws when parsed, or when `.role` is read, means log in again. */
  lemma UnreadableUserGoesToLogin(keys: Keys, location: Location)
    requires HasToken(keys) && keys.user.Some?
    requires keys.user.value == UserJson(Unparseable) || keys.user.value == UserJson(JsonNull)
    ensures Decide(keys, true, location) == Redirect(LoginPath, Some(location))
  {
  }

  /** An admin passes an admin route. */
  lemma AdminRenders(keys: Keys, location: Location)
    requires HasToken(keys) && keys.user == Some(UserJson(JsonObject(Some(AdminRole))))
    ensures Decide(keys, true, location) == Render
  {
  }
}
