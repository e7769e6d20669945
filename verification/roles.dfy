/** Role keys and their order (lib/core/role.go). */
module Roles {

  const NONE := 0
  const MEMBER := 1
  const ADMIN := 2
  const OWNER := 3

  /** A role type with a visibility level; levels only matter among members. */
  datatype RoleKey = RoleKey(typ: nat, lev: int) {

    predicate LessThan(other: RoleKey) {
      typ < other.typ || (typ == other.typ && lev < other.lev)
    }

    predicate AtMost(other: RoleKey) {
      typ < other.typ || (typ == other.typ && lev <= other.lev)
    }

    predicate IsNone() { typ == NONE }

    /** The shape `RoleKey.validate` insists on. */
    predicate Valid() {
      if typ == MEMBER then -32768 <= lev < 32768
      else lev == 0 && (typ == NONE || typ == ADMIN || typ == OWNER)
    }
  }

  const OWNER_ROLE := RoleKey(OWNER, 0)
  const ADMIN_ROLE := RoleKey(ADMIN, 0)
  const MEMBER_ROLE := RoleKey(MEMBER, 0)
  const KV_MIN_ROLE := RoleKey(MEMBER, -0x4000)
}
