/**
 * The two stores a row is read from: the user directory, which holds a fixed
 * identity record per user, and the open-ended per-user metadata store.
 */
module Users {

  type UserId = nat

  /** The identity record returned by the directory for one user. */
  datatype User = User(
    id: UserId,
    login: string,
    email: string,
    nicename: string,
    url: string,
    displayName: string,
    registered: string)

  /** The four storage keys that are read from the identity record rather than metadata. */
  predicate IsIdentityKey(key: string) {
    key == "user_email" || key == "user_nicename" || key == "user_url" || key == "display_name"
  }

  /** The identity record's attribute named by one of the identity keys. */
  function IdentityAttr(u: User, key: string): string
    requires IsIdentityKey(key)
  {
    if key == "user_email" then u.email
    else if key == "user_nicename" then u.nicename
    else if key == "user_url" then u.url
    else u.displayName
  }

  /** The metadata store: a value per (user, key); a missing entry reads as "". */
  type Meta = map<(UserId, string), string>

  /** Single-valued metadata lookup. */
  function Lookup(meta: Meta, user: UserId, key: string): string
  {
    if (user, key) in meta then meta[(user, key)] else ""
  }

  /** Truthiness of a stored string: only "" and "0" are false. */
  predicate Truthy(s: string) {
    s != "" && s != "0"
  }
}
