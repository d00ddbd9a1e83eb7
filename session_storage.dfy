/**
 * The two browser-storage entries that make up a session: `ironwall_token`
 * (the bearer token, stored as is) and `ironwall_user` (the user record, stored
 * as JSON). They are written by src/pages/Signup.tsx and read by
 * src/components/ProtectedRoute.tsx.
 *
 * JSON text is not modelled. The user entry is described by whether it is the
 * empty string and, if not, by what `JSON.parse` and the `.role` access that
 * follows it make of it.
 */
module SessionStorage {
  import opened Optional

  const TokenKey := "ironwall_token"
  const UserKey := "ironwall_user"

  /** The `user` object the registration endpoint returns. */
  datatype UserRecord = UserRecord(id: string, username: string, email: string, role: string)

  /** What `JSON.parse(text)` gives for a non-empty text, seen through `.role`. */
  datatype JsonReading =
    | Unparseable                    // JSON.parse throws
    | JsonNull                       // the text `null`: reading `.role` throws
    | JsonObject(role: Option<string>)  // an object; None when `role` is absent or not a string
    | JsonOther                      // a number, string, boolean or array: `.role` is undefined

  /** The text under UserKey. */
  datatype UserText =
    | EmptyText                  // "", which is falsy
    | UserJson(reading: JsonReading)

  /** Both session entries; None is a missing key (`getItem` returns null). */
  datatype Keys = Keys(token: Option<string>, user: Option<UserText>)

  /** `JSON.stringify(user)`: non-empty text that parses back to the record. */
  function Stringify(user: UserRecord): UserText {
    UserJson(JsonObject(Some(user.role)))
  }

  /** The session entries as the app writes them: both present, or both absent. */
  predicate Paired(keys: Keys) {
    keys.token.Some? <==> keys.user.Some?
  }
}
