/** The admin-access check in front of admin-only property routes: a bot
    passes unchecked; anyone else needs a membership of the property, and
    then must be a super admin or hold the property's admin role. */
module AdminAccess {
  import opened Common

  /** The global roles the check names; any other value is `OtherGlobalRole`. */
  datatype GlobalRole = Bot | SuperAdmin | RegularUser | OtherGlobalRole(name: string)

  /** The property roles the check names; any other value is
      `OtherPropertyRole`. */
  datatype PropertyRole = Admin | Reception | OtherPropertyRole(name: string)

  /** A user's membership of a property. */
  datatype Membership = Membership(userRef: Id, propertyRef: Id, role: PropertyRole)

  /** The outcome of the membership lookup: the query threw, or it returned
      at most one record. */
  datatype Lookup = LookupFailed | Found(record: Option<Membership>)

  /** `Next` hands the request on; `Deny(status)` answers it. */
  datatype Decision = Next | Deny(status: int)

  /** `VerifyUserAdminAccess`. The lookup result is only consulted when the
      role is not `Bot`; a bot request makes no lookup at all. */
  function Decide(role: GlobalRole, lookup: Lookup): (d: Decision)
    ensures d == Next <==>
      || role == Bot
      || (lookup.Found? && lookup.record.Some? &&
          (role == SuperAdmin || lookup.record.value.role == Admin))
    ensures d.Deny? ==> d.status == UNAUTHORIZED || d.status == INTERNAL_ERROR
    ensures d == Deny(INTERNAL_ERROR) <==> role != Bot && lookup.LookupFailed?
  {
    if role == Bot then Next
    else
      match lookup
      case LookupFailed => Deny(INTERNAL_ERROR)
      case Found(None) => Deny(UNAUTHORIZED)
      case Found(Some(m)) =>
        if role != SuperAdmin && m.role != Admin then Deny(UNAUTHORIZED) else Next
  }

  /** A bot passes whatever the lookup would have given. */
  lemma BotNeedsNoLookup(a: Lookup, b: Lookup)
    ensures Decide(Bot, a) == Decide(Bot, b) == Next
  {
  }

  /** Without a membership record everyone but a bot is refused with 401,
      a super admin included. */
  lemma NoMembershipIsUnauthorized(role: GlobalRole)
    requires role != Bot
    ensures Decide(role, Found(None)) == Deny(UNAUTHORIZED)
  {
  }

  /** A super admin with any membership record passes, whatever the
      property role. */
  lemma SuperAdminWithMembershipPasses(m: Membership)
    ensures Decide(SuperAdmin, Found(Some(m))) == Next
  {
  }

  /** Only the property role decides for a member who is neither a bot nor a
      super admin: admin passes, everything else is refused with 401. */
  lemma MemberPassesIffAdmin(role: GlobalRole, m: Membership)
    requires role != Bot && role != SuperAdmin
    ensures Decide(role, Found(Some(m))) == (if m.role == Admin then Next else Deny(UNAUTHORIZED))
  {
  }
}
