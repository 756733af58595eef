/** The access rules of backend/core/permissions.py, as predicates over the
    requesting user and the object asked for.

    An agency's `members` relation is a map from member id to that member's
    `agency_role`. Objects are agencies (they have `members`), users (they
    have an `agency`, possibly none) or anything else. The requester is an
    authenticated user. */
module Permissions {
  import opened Text
  import Accounts

  datatype Requester = Requester(id: nat, isStaff: bool, role: string, agencyRole: Option<string>)

  datatype AgencyView = AgencyView(id: nat, members: map<nat, Option<string>>)

  datatype Target =
    | AgencyObject(view: AgencyView)
    | UserObject(userId: nat, userAgency: Option<AgencyView>)
    | OtherObject

  /** A requester as stored after `User.save`: a declared role, and `is_staff`
      derived from it. */
  predicate Saved(req: Requester)
  {
    Accounts.ValidRole(req.role) && req.isStaff == Accounts.StaffFor(req.role)
  }

  /** `IsAdminOrSelf.has_object_permission`: model equality is same class
      and same primary key. */
  predicate IsAdminOrSelf(req: Requester, obj: Target)
  {
    req.isStaff || (obj.UserObject? && obj.userId == req.id)
  }

  /** What "admin or self" grants a saved user: because `save` makes every
      role but customer staff, agents and agency staff may act on any
      object, not only on their own account; only a customer is limited to
      their own account. */
  lemma AdminOrSelfAdmitsEveryNonCustomer(req: Requester, obj: Target)
    requires Saved(req)
    ensures IsAdminOrSelf(req, obj) <==> req.role != "customer" || (obj.UserObject? && obj.userId == req.id)
  {
  }

  /** As written, an agent may act on another user's account through the
      rule meant for admin users and the account owner. */
  lemma AgentActsOnOtherUser(req: Requester, otherId: nat, agency: Option<AgencyView>)
    requires Saved(req) && req.role == "agent" && otherId != req.id
    ensures IsAdminOrSelf(req, UserObject(otherId, agency))
  {
  }

  /** The rule its message describes: admin users or the account owner. */
  predicate IsAdminOrSelfIntended(req: Requester, obj: Target)
  {
    req.role == "admin" || (obj.UserObject? && obj.userId == req.id)
  }

  /** For saved users the intended rule is narrower than the written one,
      admits a non-admin only to their own account, and the two differ
      exactly on agents and agency staff acting on something else. */
  lemma AdminOrSelfIntendedNarrows(req: Requester, obj: Target)
    requires Saved(req)
    ensures IsAdminOrSelfIntended(req, obj) ==> IsAdminOrSelf(req, obj)
    ensures req.role != "admin" ==> (IsAdminOrSelfIntended(req, obj) <==> obj.UserObject? && obj.userId == req.id)
    ensures IsAdminOrSelf(req, obj) && !IsAdminOrSelfIntended(req, obj) <==>
      req.role in Accounts.AgencyMemberRoles && !(obj.UserObject? && obj.userId == req.id)
  {
  }

  predicate IsMember(req: Requester, agency: AgencyView)
  {
    req.id in agency.members
  }

  predicate IsOwner(req: Requester, agency: AgencyView)
  {
    req.id in agency.members && agency.members[req.id] == Some("owner")
  }

  const NoneHasNoMembers := "AttributeError: 'NoneType' object has no attribute 'members'"

  /** The agency whose members the two agency rules consult, as written: for
      a user object this is `obj.agency`, which is `None` for a user without
      an agency, and reading `.members` of it raises. */
  function ConsultedAgencyAsWritten(obj: Target): (r: Result<Option<AgencyView>, string>)
    ensures r.Err? <==> obj.UserObject? && obj.userAgency.None?
  {
    match obj
    case AgencyObject(a) => Ok(Some(a))
    case UserObject(_, agency) => if agency.Some? then Ok(agency) else Err(NoneHasNoMembers)
    case OtherObject => Ok(None)
  }

  /** The agency consulted, with a user without an agency treated like an
      object without one. */
  function ConsultedAgency(obj: Target): (r: Option<AgencyView>)
    ensures obj.AgencyObject? ==> r == Some(obj.view)
    ensures obj.UserObject? ==> r == obj.userAgency
    ensures obj.OtherObject? ==> r.None?
  {
    match obj
    case AgencyObject(a) => Some(a)
    case UserObject(_, agency) => agency
    case OtherObject => None
  }

  /** `IsAgencyOwner.has_object_permission` as written. */
  function IsAgencyOwnerAsWritten(req: Requester, obj: Target): (r: Result<bool, string>)
    ensures r.Err? <==> obj.UserObject? && obj.userAgency.None?
    ensures r.Ok? ==> (r.value <==> ConsultedAgency(obj).Some? && IsOwner(req, ConsultedAgency(obj).value))
  {
    match ConsultedAgencyAsWritten(obj)
    case Err(e) => Err(e)
    case Ok(agency) => Ok(agency.Some? && IsOwner(req, agency.value))
  }

  /** `IsAgencyMember.has_object_permission` as written. */
  function IsAgencyMemberAsWritten(req: Requester, obj: Target): (r: Result<bool, string>)
    ensures r.Err? <==> obj.UserObject? && obj.userAgency.None?
    ensures r.Ok? ==> (r.value <==> ConsultedAgency(obj).Some? && IsMember(req, ConsultedAgency(obj).value))
  {
    match ConsultedAgencyAsWritten(obj)
    case Err(e) => Err(e)
    case Ok(agency) => Ok(agency.Some? && IsMember(req, agency.value))
  }

  /** As written, asking either agency rule about a user who has no agency
      raises instead of denying, whoever asks. */
  lemma UserWithoutAgencyRaises(req: Requester, userId: nat)
    ensures IsAgencyOwnerAsWritten(req, UserObject(userId, None)).Err?
    ensures IsAgencyMemberAsWritten(req, UserObject(userId, None)).Err?
  {
  }

  /** `IsAgencyOwner`, denying where the written rule raises. */
  predicate IsAgencyOwner(req: Requester, obj: Target)
  {
    var agency := ConsultedAgency(obj);
    agency.Some? && IsOwner(req, agency.value)
  }

  /** `IsAgencyMember`, denying where the written rule raises. */
  predicate IsAgencyMember(req: Requester, obj: Target)
  {
    var agency := ConsultedAgency(obj);
    agency.Some? && IsMember(req, agency.value)
  }

  /** The corrected rules deny a user without an agency and agree with the
      written ones everywhere the written ones answer. */
  lemma CorrectedRulesAgree(req: Requester, obj: Target)
    ensures obj.UserObject? && obj.userAgency.None? ==> !IsAgencyOwner(req, obj) && !IsAgencyMember(req, obj)
    ensures IsAgencyOwnerAsWritten(req, obj).Ok? ==> IsAgencyOwnerAsWritten(req, obj).value == IsAgencyOwner(req, obj)
    ensures IsAgencyMemberAsWritten(req, obj).Ok? ==> IsAgencyMemberAsWritten(req, obj).value == IsAgencyMember(req, obj)
  {
  }

  /** Every owner grant is a member grant, and a user object is judged by its
      agency exactly as that agency itself is. */
  lemma OwnerIsMember(req: Requester, obj: Target)
    ensures IsAgencyOwner(req, obj) ==> IsAgencyMember(req, obj)
    ensures IsAgencyOwnerAsWritten(req, obj) == Ok(true) ==> IsAgencyMemberAsWritten(req, obj) == Ok(true)
    ensures obj.UserObject? && obj.userAgency.Some? ==>
      IsAgencyOwner(req, obj) == IsAgencyOwner(req, AgencyObject(obj.userAgency.value)) &&
      IsAgencyMember(req, obj) == IsAgencyMember(req, AgencyObject(obj.userAgency.value))
  {
  }

  /** `IsAdminOrAgencyOwner.has_permission`. */
  predicate IsAdminOrAgencyOwner(req: Requester)
  {
    req.isStaff || (req.role == "agency" && req.agencyRole == Some("owner"))
  }

  /** No declared role is "agency", so for any user with a declared role the
      rule is just `is_staff`; for a saved user it admits every role but
      customer, agency owner or not. */
  lemma AdminOrAgencyOwnerIsStaff(req: Requester)
    requires Accounts.ValidRole(req.role)
    ensures IsAdminOrAgencyOwner(req) <==> req.isStaff
    ensures Saved(req) ==> (IsAdminOrAgencyOwner(req) <==> req.role != "customer")
  {
  }

  /** `IsAgentOrAdmin.has_permission`. */
  predicate IsAgentOrAdmin(req: Requester)
  {
    req.isStaff || req.role == "agent"
  }

  /** `IsAgentOrAdmin.has_object_permission`: the same test, whatever the
      object. */
  predicate IsAgentOrAdminFor(req: Requester, obj: Target)
  {
    req.isStaff || req.role == "agent"
  }

  /** The object-level rule never differs from the view-level rule, and for
      a saved user (agents are staff) both are just `is_staff`. */
  lemma AgentOrAdminSameAtBothLevels(req: Requester, obj: Target)
    ensures IsAgentOrAdminFor(req, obj) == IsAgentOrAdmin(req)
    ensures Saved(req) ==> (IsAgentOrAdmin(req) <==> req.isStaff)
  {
  }
}
