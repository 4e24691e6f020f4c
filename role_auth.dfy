/** `require_role` of auth/role_auth.py: a role check over the session user,
    which is either absent or a dictionary decoded from the session. */
module RoleAuth {
  import opened Wrappers

  /** The values a user dictionary holds. */
  datatype Value = Text(s: string) | Number(n: int) | Null

  type UserDict = map<string, Value>

  /** `dict.get(key)` (`None` when the key is absent). */
  function Get(d: UserDict, key: string): Option<Value> {
    if key in d then Some(d[key]) else None
  }

  /** `bool(user and user.get('role') == role)`: an absent user and an empty
      dictionary are falsy, so `and` stops there. */
  function RequireRole(user: Option<UserDict>, role: string): bool {
    match user
    case None => false
    case Some(d) => d != map[] && Get(d, "role") == Some(Text(role))
  }

  /** The guard holds exactly for a non-empty dictionary whose "role" key
      holds the role as text. */
  lemma RequireRoleMeaning(user: Option<UserDict>, role: string)
    ensures RequireRole(user, role) <==>
      user.Some? && |user.value| > 0 && "role" in user.value && user.value["role"] == Text(role)
  {
    if user.Some? && user.value != map[] {
      assert |user.value| > 0 by {
        var k :| k in user.value;
      }
    }
  }

  /** No user, an empty dictionary, or a dictionary without "role" passes no
      check. */
  lemma RequireRoleRejects(user: Option<UserDict>, role: string)
    requires user == None || user == Some(map[]) || "role" !in user.value
    ensures !RequireRole(user, role)
  {
  }

  /** A user passes the guard for at most one role. */
  lemma RequireRoleUnique(user: Option<UserDict>, r1: string, r2: string)
    requires RequireRole(user, r1) && RequireRole(user, r2)
    ensures r1 == r2
  {
  }
}
