/** Accounts: users, agencies and favourites (backend/core/models.py).

    `User` and `Agency` are classes because `save`, `clean` and
    `update_rating` change their fields in place. Timestamps are integers
    supplied by the caller (the `now` parameter stands for `timezone.now()`),
    ratings are exact reals, and the checks Django performs in library code
    (`validate_email`, the password validators) arrive as booleans. */
module Accounts {
  import opened Text

  /** `User.USER_ROLES`. */
  const Roles: set<string> := {"customer", "admin", "agent", "agency_admin", "agency_staff"}
  /** The roles `save` grants staff status to. */
  const StaffRoles: set<string> := {"admin", "agent", "agency_admin", "agency_staff"}
  /** The roles `clean` allows to belong to an agency. */
  const AgencyMemberRoles: set<string> := {"agent", "agency_admin", "agency_staff"}
  /** The choices of `User.agency_role`. */
  const AgencyRoleChoices: set<string> := {"agent", "manager", "admin", "owner"}

  const MissingEmail := "Users must have an email address"
  const MissingFirstName := "Users must have a first name"
  const MissingLastName := "Users must have a last name"
  const NonAgencyRoleWithAgency := "Non-agency roles cannot be associated with an agency."
  const InvalidEmail := "Enter a valid email address."
  const WeakPassword := "This password is too weak."
  const ValidationFailed := "Validation failed."

  /** `max_length` of `email`, `first_name` and `last_name`. */
  const MaxNameLength: nat := 255
  /** `max_length` of the `password` field Django's `AbstractBaseUser`
      declares; the field may not be blank. */
  const MaxPasswordLength: nat := 128
  /** Django's `set_unusable_password` stores this prefix followed by
      `UnusableSuffixLength` random characters. */
  const UnusablePasswordPrefix := "!"
  const UnusableSuffixLength: nat := 40

  predicate ValidRole(role: string) { role in Roles }

  /** `clean_fields` on `agency_role`: blank values (`None` or "") are not
      validated; any other value must be one of the choices. */
  predicate AgencyRoleClean(agencyRole: Option<string>)
  {
    agencyRole.None? || agencyRole.value == "" || agencyRole.value in AgencyRoleChoices
  }

  /** `clean_fields` on the profile fields `create_user` sets: e-mail and
      names not blank and at most 255 characters, a declared role and a
      valid agency role. */
  predicate ProfileClean(email: string, firstName: string, lastName: string, role: string, agencyRole: Option<string>)
  {
    && email != "" && |email| <= MaxNameLength
    && firstName != "" && |firstName| <= MaxNameLength
    && lastName != "" && |lastName| <= MaxNameLength
    && ValidRole(role)
    && AgencyRoleClean(agencyRole)
  }

  /** `clean_fields` on `password`: not blank, at most 128 characters. */
  predicate PasswordClean(password: string)
  {
    password != "" && |password| <= MaxPasswordLength
  }

  /** The staff flag `save` derives from the role. Over the declared roles it
      is exactly "not a customer". */
  function StaffFor(role: string): (staff: bool)
    ensures staff ==> ValidRole(role)
    ensures ValidRole(role) ==> (staff <==> role != "customer")
  {
    role in StaffRoles
  }

  /** The e-mail address as `save` stores it: lower-cased, then stripped. */
  function NormalEmail(email: string): (r: string)
    ensures NoUpper(r)
    ensures r != [] ==> !IsSpace(r[0]) && !IsSpace(r[|r| - 1])
  {
    var lowered := Lower(email);
    StripKeepsNoUpper(lowered);
    Strip(lowered)
  }

  /** The stored address is the lower-cased input with white space, and only
      white space, cut off on either side. */
  lemma NormalEmailIsSlice(email: string) returns (lo: nat)
    ensures lo + |NormalEmail(email)| <= |email|
    ensures forall i :: 0 <= i < |NormalEmail(email)| ==> NormalEmail(email)[i] == LowerChar(email[lo + i])
    ensures forall i :: 0 <= i < lo ==> IsSpace(email[i])
    ensures forall i :: lo + |NormalEmail(email)| <= i < |email| ==> IsSpace(email[i])
  {
    var lowered := Lower(email);
    lo := StripIsSlice(lowered);
    forall i | 0 <= i < |NormalEmail(email)| ensures NormalEmail(email)[i] == LowerChar(email[lo + i]) {
      assert NormalEmail(email)[i] == lowered[lo + i];
    }
    forall i | 0 <= i < lo ensures IsSpace(email[i]) {
      assert IsSpace(lowered[i]);
    }
    forall i | lo + |NormalEmail(email)| <= i < |email| ensures IsSpace(email[i]) {
      assert IsSpace(lowered[i]);
    }
  }

  /** Normalising an already normalised address changes nothing, so saving a
      user twice stores the same e-mail as saving once. */
  lemma NormalEmailIdempotent(email: string)
    ensures NormalEmail(NormalEmail(email)) == NormalEmail(email)
  {
    var once := NormalEmail(email);
    LowerOfNoUpper(once);
    StripIdempotent(Lower(email));
  }

  /** The first check of `create_user` that fails, in the order the source
      performs them: e-mail, then first name, then last name. */
  function MissingField(email: string, firstName: string, lastName: string): (r: Option<string>)
    ensures r == Some(MissingEmail) <==> email == ""
    ensures r == Some(MissingFirstName) <==> email != "" && firstName == ""
    ensures r == Some(MissingLastName) <==> email != "" && firstName != "" && lastName == ""
    ensures r == None <==> email != "" && firstName != "" && lastName != ""
  {
    if email == "" then Some(MissingEmail)
    else if firstName == "" then Some(MissingFirstName)
    else if lastName == "" then Some(MissingLastName)
    else None
  }

  /** A `*_verified_at` timestamp after `clean`: filled in with `now` when its
      flag is set and it is absent, otherwise left as it was. */
  function Stamp(flag: bool, at: Option<int>, now: int): (r: Option<int>)
    ensures at.Some? ==> r == at
    ensures at.None? ==> (r.Some? <==> flag)
    ensures r.Some? && at.None? ==> r.value == now
  {
    if flag && at.None? then Some(now) else at
  }

  /** Cleaning twice keeps the first timestamp: a later `clean` never moves it. */
  lemma StampStable(flag: bool, at: Option<int>, t1: int, t2: int)
    ensures Stamp(flag, Stamp(flag, at, t1), t2) == Stamp(flag, at, t1)
  {
  }

  /** The role/agency rule of `User.clean`. */
  function AgencyRule(role: string, hasAgency: bool): (r: Option<string>)
    ensures r.None? <==> !hasAgency || role in AgencyMemberRoles
    ensures r.Some? ==> r.value == NonAgencyRoleWithAgency
  {
    if role !in AgencyMemberRoles && hasAgency then Some(NonAgencyRoleWithAgency) else None
  }

  /** Every role that may belong to an agency is a staff role. */
  lemma AgencyMembersAreStaff(role: string, hasAgency: bool)
    requires hasAgency && AgencyRule(role, hasAgency).None?
    ensures StaffFor(role) && role != "customer"
  {
  }

  /** The rating after `update_rating(x)` on a user with rating `rating` and
      `reviews` reviews: with no rating (None or zero) it becomes `x`,
      otherwise the mean of the old total and `x`. */
  function NewRating(rating: Option<real>, reviews: nat, x: real): (r: real)
    ensures rating.None? || rating.value == 0.0 ==> r == x
  {
    if rating.None? || rating.value == 0.0 then x
    else (rating.value * reviews as real + x) / (reviews as real + 1.0)
  }

  /** The new rating always lies between the old rating and the new review. */
  lemma NewRatingBetween(r0: real, reviews: nat, x: real)
    ensures var r := NewRating(Some(r0), reviews, x);
      (r0 <= r <= x) || (x <= r <= r0)
  {
    var n := reviews as real;
    var r := NewRating(Some(r0), reviews, x);
    if r0 != 0.0 {
      NewRatingTotal(r0, reviews, x);
      if r0 <= x {
        assert r0 * (n + 1.0) <= r0 * n + x;
        assert r0 * n + x <= x * (n + 1.0);
        assert r0 <= r <= x by { DivBounds(r0, r, x, n + 1.0); }
      } else {
        assert x * (n + 1.0) <= r0 * n + x;
        assert r0 * n + x <= r0 * (n + 1.0);
        assert x <= r <= r0 by { DivBounds(x, r, r0, n + 1.0); }
      }
    }
  }

  /** Past the first review, the new rating times the new count is the old
      total plus the new review. */
  lemma NewRatingTotal(r0: real, reviews: nat, x: real)
    requires r0 != 0.0
    ensures NewRating(Some(r0), reviews, x) * (reviews as real + 1.0) == r0 * reviews as real + x
  {
  }

  lemma DivBounds(lo: real, r: real, hi: real, d: real)
    requires d > 0.0
    requires lo * d <= r * d <= hi * d
    ensures lo <= r <= hi
  {
    assert (r - lo) * d >= 0.0;
    assert (hi - r) * d >= 0.0;
  }

  function Sum(xs: seq<real>): real
  {
    if xs == [] then 0.0 else Sum(xs[..|xs| - 1]) + xs[|xs| - 1]
  }

  /** While the running mean is non-zero, `update_rating` keeps `rating`
      equal to the mean of every review received and `reviews_count` equal to
      their number. */
  lemma {:induction false} NewRatingIsMean(xs: seq<real>, x: real)
    requires xs != [] ==> Sum(xs) != 0.0
    ensures var r := if xs == [] then None else Some(Sum(xs) / |xs| as real);
      NewRating(r, |xs|, x) == Sum(xs + [x]) / (|xs| as real + 1.0)
  {
    assert (xs + [x])[..|xs|] == xs;
    var n := |xs| as real;
    if xs != [] {
      var m := Sum(xs) / n;
      assert m * n == Sum(xs);
      assert m != 0.0;
    }
  }

  /** Distinct elements of `xs` in order of first appearance (Python's
      `list(set(...))`, whose order the source leaves unspecified). */
  function Dedup(xs: seq<string>): (r: seq<string>)
    ensures forall s :: s in r <==> s in xs
    ensures forall i, j :: 0 <= i < j < |r| ==> r[i] != r[j]
  {
    if xs == [] then []
    else
      var rest := Dedup(xs[..|xs| - 1]);
      if xs[|xs| - 1] in rest then rest else rest + [xs[|xs| - 1]]
  }

  /** `UserFavorite.clean`: a favourite names a property, an agent or a
      saved search, and not both a property and an agent. */
  datatype Favorite = Favorite(property: Option<nat>, agent: Option<nat>, searchParameters: map<string, string>)

  const FavoriteEmpty := "Either property, agent or search parameters must be set."
  const FavoriteBoth := "Cannot favorite both property and agent in the same record."

  function FavoriteClean(f: Favorite): (r: Option<string>)
    ensures r.None? <==>
      (f.property.Some? || f.agent.Some? || f.searchParameters != map[]) &&
      !(f.property.Some? && f.agent.Some?)
    ensures r == Some(FavoriteEmpty) <==>
      f.property.None? && f.agent.None? && f.searchParameters == map[]
  {
    if f.property.None? && f.agent.None? && f.searchParameters == map[] then Some(FavoriteEmpty)
    else if f.property.Some? && f.agent.Some? then Some(FavoriteBoth)
    else None
  }

  class Agency {
    var verified: bool
    var verifiedAt: Option<int>
    var serviceAreas: seq<string>

    constructor (verified: bool, verifiedAt: Option<int>, serviceAreas: seq<string>)
      ensures this.verified == verified && this.verifiedAt == verifiedAt
      ensures this.serviceAreas == serviceAreas
    {
      this.verified := verified;
      this.verifiedAt := verifiedAt;
      this.serviceAreas := serviceAreas;
    }

    /** `Agency.clean`: fill in `verified_at` for a verified agency. */
    method Clean(now: int)
      modifies this
      ensures verifiedAt == Stamp(verified, old(verifiedAt), now)
      ensures verified == old(verified) && serviceAreas == old(serviceAreas)
    {
      if verified && verifiedAt.None? {
        verifiedAt := Some(now);
      }
    }
  }

  /** The keyword arguments `create_*` pass on to the model constructor. */
  datatype ExtraFields = ExtraFields(
    role: Option<string>,
    isStaff: Option<bool>,
    isSuperuser: Option<bool>,
    agency: Agency?,
    agencyRole: Option<string>,
    phoneNumber: Option<string>,
    emailVerified: bool,
    phoneVerified: bool,
    agencyVerified: bool,
    serviceAreas: seq<string>)

  /** `dict.setdefault` on the keyword arguments. */
  function WithDefaults(extra: ExtraFields, role: string, staff: bool, superuser: bool): (r: ExtraFields)
    ensures r.role == (if extra.role.Some? then extra.role else Some(role))
    ensures r.isStaff == (if extra.isStaff.Some? then extra.isStaff else Some(staff))
    ensures r.isSuperuser == (if extra.isSuperuser.Some? then extra.isSuperuser else Some(superuser))
    ensures r.agency == extra.agency && r.agencyRole == extra.agencyRole
    ensures r.phoneNumber == extra.phoneNumber && r.serviceAreas == extra.serviceAreas
    ensures r.emailVerified == extra.emailVerified && r.phoneVerified == extra.phoneVerified
    ensures r.agencyVerified == extra.agencyVerified
  {
    extra.(role := if extra.role.Some? then extra.role else Some(role),
           isStaff := if extra.isStaff.Some? then extra.isStaff else Some(staff),
           isSuperuser := if extra.isSuperuser.Some? then extra.isSuperuser else Some(superuser))
  }

  /** `full_name`: first and last name joined by a space, stripped. For
      normalised, non-empty names it is exactly "first last". */
  function FullNameOf(firstName: string, lastName: string): (r: string)
    ensures |r| <= |firstName| + 1 + |lastName|
    ensures (firstName == Strip(firstName) && lastName == Strip(lastName) &&
             firstName != "" && lastName != "") ==> r == firstName + " " + lastName
  {
    var joined := firstName + " " + lastName;
    if firstName == Strip(firstName) && lastName == Strip(lastName) &&
       firstName != "" && lastName != "" then
      assert joined[0] == firstName[0] && joined[|joined| - 1] == lastName[|lastName| - 1];
      TrimStartFixed(joined);
      TrimEndFixed(joined);
      Strip(joined)
    else
      Strip(joined)
  }

  class User {
    var email: string
    /** The encoded password; "" until one is set. */
    var password: string
    var firstName: string
    var lastName: string
    var isStaff: bool
    var isSuperuser: bool
    var role: string
    var agency: Agency?
    var agencyRole: Option<string>
    var phoneNumber: Option<string>
    var emailVerified: bool
    var emailVerifiedAt: Option<int>
    var phoneVerified: bool
    var phoneVerifiedAt: Option<int>
    var agencyVerified: bool
    var agencyVerifiedAt: Option<int>
    var serviceAreas: seq<string>
    var rating: Option<real>
    var reviewsCount: nat

    /** `self.model(email=..., first_name=..., last_name=..., **extra_fields)`
        with the model's field defaults for whatever is not given. */
    constructor (email: string, firstName: string, lastName: string, extra: ExtraFields)
      ensures this.email == email && this.firstName == firstName && this.lastName == lastName
      ensures password == ""
      ensures role == (if extra.role.Some? then extra.role.value else "customer")
      ensures isStaff == (extra.isStaff == Some(true))
      ensures isSuperuser == (extra.isSuperuser == Some(true))
      ensures agency == extra.agency && agencyRole == extra.agencyRole
      ensures phoneNumber == extra.phoneNumber && serviceAreas == extra.serviceAreas
      ensures emailVerified == extra.emailVerified && emailVerifiedAt == None
      ensures phoneVerified == extra.phoneVerified && phoneVerifiedAt == None
      ensures agencyVerified == extra.agencyVerified && agencyVerifiedAt == None
      ensures rating == None && reviewsCount == 0
    {
      this.email := email;
      password := "";
      this.firstName := firstName;
      this.lastName := lastName;
      role := if extra.role.Some? then extra.role.value else "customer";
      isStaff := extra.isStaff == Some(true);
      isSuperuser := extra.isSuperuser == Some(true);
      agency := extra.agency;
      agencyRole := extra.agencyRole;
      phoneNumber := extra.phoneNumber;
      emailVerified := extra.emailVerified;
      emailVerifiedAt := None;
      phoneVerified := extra.phoneVerified;
      phoneVerifiedAt := None;
      agencyVerified := extra.agencyVerified;
      agencyVerifiedAt := None;
      serviceAreas := extra.serviceAreas;
      rating := None;
      reviewsCount := 0;
    }

    /** `User.clean`: reject a non-agency role that has an agency, otherwise
        fill in the missing verification timestamps. Nothing changes on
        rejection. */
    method Clean(now: int) returns (error: Option<string>)
      modifies this`emailVerifiedAt, this`phoneVerifiedAt, this`agencyVerifiedAt
      ensures error == AgencyRule(role, agency != null)
      ensures error.Some? ==>
        && emailVerifiedAt == old(emailVerifiedAt)
        && phoneVerifiedAt == old(phoneVerifiedAt)
        && agencyVerifiedAt == old(agencyVerifiedAt)
      ensures error.None? ==>
        && emailVerifiedAt == Stamp(emailVerified, old(emailVerifiedAt), now)
        && phoneVerifiedAt == Stamp(phoneVerified, old(phoneVerifiedAt), now)
        && agencyVerifiedAt == Stamp(agencyVerified, old(agencyVerifiedAt), now)
    {
      if role !in AgencyMemberRoles && agency != null {
        return Some(NonAgencyRoleWithAgency);
      }
      if emailVerified && emailVerifiedAt.None? {
        emailVerifiedAt := Some(now);
      }
      if phoneVerified && phoneVerifiedAt.None? {
        phoneVerifiedAt := Some(now);
      }
      if agencyVerified && agencyVerifiedAt.None? {
        agencyVerifiedAt := Some(now);
      }
      return None;
    }

    /** `Model.full_clean` as `create_user` uses it: `clean_fields` (blank
        and length limits, choices), then `clean`. Django runs `clean` even
        when a field is invalid, so the timestamps are filled in whenever the
        agency rule holds. */
    method FullClean(now: int) returns (ok: bool)
      modifies this`emailVerifiedAt, this`phoneVerifiedAt, this`agencyVerifiedAt
      ensures ok <==>
        && ProfileClean(email, firstName, lastName, role, agencyRole)
        && PasswordClean(password)
        && AgencyRule(role, agency != null).None?
      ensures AgencyRule(role, agency != null).Some? ==>
        && emailVerifiedAt == old(emailVerifiedAt)
        && phoneVerifiedAt == old(phoneVerifiedAt)
        && agencyVerifiedAt == old(agencyVerifiedAt)
      ensures AgencyRule(role, agency != null).None? ==>
        && emailVerifiedAt == Stamp(emailVerified, old(emailVerifiedAt), now)
        && phoneVerifiedAt == Stamp(phoneVerified, old(phoneVerifiedAt), now)
        && agencyVerifiedAt == Stamp(agencyVerified, old(agencyVerifiedAt), now)
    {
      var fieldsOk := ProfileClean(email, firstName, lastName, role, agencyRole) && PasswordClean(password);
      var error := Clean(now);
      ok := fieldsOk && error.None?;
    }

    /** `User.save`: normalise the e-mail and names and derive `is_staff`
        from the role, whatever the caller set. */
    method Save()
      modifies this`email, this`firstName, this`lastName, this`isStaff
      ensures email == NormalEmail(old(email))
      ensures firstName == Strip(old(firstName)) && lastName == Strip(old(lastName))
      ensures isStaff == StaffFor(role)
    {
      var e, f, l, staff := NormalEmail(email), Strip(firstName), Strip(lastName), StaffFor(role);
      email, firstName, lastName, isStaff := e, f, l, staff;
    }

    /** `update_rating`: fold one review into the running mean, count it,
        and save (which also re-normalises the instance). */
    method UpdateRating(x: real)
      modifies this`rating, this`reviewsCount, this`email, this`firstName, this`lastName, this`isStaff
      ensures rating == Some(NewRating(old(rating), old(reviewsCount), x))
      ensures reviewsCount == old(reviewsCount) + 1
      ensures email == NormalEmail(old(email)) && isStaff == StaffFor(role)
      ensures firstName == Strip(old(firstName)) && lastName == Strip(old(lastName))
    {
      var updated := NewRating(rating, reviewsCount, x);
      ghost var previous := (email, firstName, lastName);
      rating, reviewsCount := Some(updated), reviewsCount + 1;
      assert (email, firstName, lastName) == previous;
      Save();
    }

    /** The `full_name` property. */
    function FullName(): (r: string)
      reads this
      ensures |r| <= |firstName| + 1 + |lastName|
      ensures (firstName == Strip(firstName) && lastName == Strip(lastName) &&
               firstName != "" && lastName != "") ==> r == firstName + " " + lastName
    {
      FullNameOf(firstName, lastName)
    }

    /** The `is_independent_agent` property: an agent without an agency. */
    predicate IsIndependentAgent()
      reads this
    {
      role == "agent" && agency == null
    }

    /** `get_service_areas`: the user's own areas, or, with an agency, the
        distinct areas of the user and of the agency together. */
    function ServiceAreas(): (r: seq<string>)
      reads this, agency
      ensures agency == null ==> r == serviceAreas
      ensures agency != null ==>
        (forall s :: s in r <==> s in serviceAreas || s in agency.serviceAreas) &&
        (forall i, j :: 0 <= i < j < |r| ==> r[i] != r[j])
    {
      if agency != null then Dedup(serviceAreas + agency.serviceAreas) else serviceAreas
    }
  }

  /** An independent agent passes `clean`'s agency rule and is staff once
      saved. */
  lemma IndependentAgentIsValid(u: User)
    requires u.IsIndependentAgent()
    ensures AgencyRule(u.role, u.agency != null).None?
    ensures StaffFor(u.role) && ValidRole(u.role)
  {
  }

  /** The role a new user gets: the one given, or the model default. */
  function RoleOf(extra: ExtraFields): string
  {
    if extra.role.Some? then extra.role.value else "customer"
  }

  /** Every check of `create_user` except the password field's own: the
      presence checks, the e-mail validator, the password validators (only
      for a password given), `clean_fields` on the stored profile and the
      agency rule of `clean`. The stored e-mail is `normalize_email(email)`
      lower-cased; `normalize_email` also strips white space, but an address
      the e-mail validator accepts has none around it, so `Lower(email)` is
      the same value. */
  predicate ChecksPass(email: string, firstName: string, lastName: string, password: Option<string>,
                       emailAccepted: bool, passwordAccepted: bool, extra: ExtraFields)
  {
    && MissingField(email, firstName, lastName).None?
    && emailAccepted
    && (Present(password) ==> passwordAccepted)
    && ProfileClean(Lower(email), Strip(firstName), Strip(lastName), RoleOf(extra), extra.agencyRole)
    && AgencyRule(RoleOf(extra), extra.agency != null).None?
  }

  /** The tail of `create_user`: build the instance, set its password field
      to `stored`, `full_clean` it and, when that passes, `save` it. Building
      the instance has no effect, so it may come after the password
      validators here. */
  method SaveNewUser(email: string, firstName: string, lastName: string, stored: string, extra: ExtraFields, now: int)
    returns (user: User, ok: bool)
    ensures fresh(user)
    ensures ok <==>
      ProfileClean(email, firstName, lastName, RoleOf(extra), extra.agencyRole) && PasswordClean(stored) &&
      AgencyRule(RoleOf(extra), extra.agency != null).None?
    ensures ok ==>
      && user.email == NormalEmail(email)
      && user.firstName == Strip(firstName)
      && user.lastName == Strip(lastName)
      && user.password == stored
    ensures ok ==> user.role == RoleOf(extra) && user.isStaff == StaffFor(user.role)
    ensures ok ==> user.isSuperuser == (extra.isSuperuser == Some(true))
  {
    user := new User(email, firstName, lastName, extra);
    user.password := stored;
    assert user.email == email && user.firstName == firstName && user.lastName == lastName;
    assert user.role == RoleOf(extra) && user.agencyRole == extra.agencyRole && user.agency == extra.agency;
    ok := user.FullClean(now);
    if ok {
      assert user.email == email && user.firstName == firstName && user.lastName == lastName;
      assert user.role == RoleOf(extra) && user.password == stored;
      assert user.isSuperuser == (extra.isSuperuser == Some(true));
      user.Save();
    }
  }

  /** The body of `create_user`, with `stored` the value its password field
      holds when `full_clean` runs. The checks run in the source's order and
      the first to fail decides the error. */
  method BuildUser(email: string, firstName: string, lastName: string, password: Option<string>, stored: string,
                   emailAccepted: bool, passwordAccepted: bool, extra: ExtraFields, now: int)
    returns (r: Result<User, string>)
    ensures MissingField(email, firstName, lastName).Some? ==>
      r == Err(MissingField(email, firstName, lastName).value)
    ensures r.Ok? <==>
      ChecksPass(email, firstName, lastName, password, emailAccepted, passwordAccepted, extra) && PasswordClean(stored)
    ensures r.Ok? ==> fresh(r.value)
    ensures r.Ok? ==>
      && r.value.email == NormalEmail(email)
      && r.value.firstName == Strip(firstName)
      && r.value.lastName == Strip(lastName)
      && r.value.password == stored
    ensures r.Ok? ==> r.value.role == RoleOf(extra) && r.value.isStaff == StaffFor(r.value.role)
    ensures r.Ok? ==> r.value.isSuperuser == (extra.isSuperuser == Some(true))
  {
    var missing := MissingField(email, firstName, lastName);
    if missing.Some? {
      return Err(missing.value);
    }
    if !emailAccepted {
      return Err(InvalidEmail);
    }
    if Present(password) && !passwordAccepted {
      return Err(WeakPassword);
    }
    var user, ok := SaveNewUser(Lower(email), Strip(firstName), Strip(lastName), stored, extra, now);
    if !ok {
      return Err(ValidationFailed);
    }
    LowerTwice(email);
    StripIdempotent(firstName);
    StripIdempotent(lastName);
    return Ok(user);
  }

  /** The password field's value after `create_user`'s `if password:` branch:
      the encoded password when one is given, otherwise the field's default,
      the empty string. */
  function StoredPassword(password: Option<string>, encoded: string): (stored: string)
    ensures Present(password) ==> stored == encoded
    ensures !Present(password) ==> !PasswordClean(stored)
  {
    if Present(password) then encoded else ""
  }

  /** `UserManager.create_user` as written; `encoded` is what the password
      hasher makes of `password`. Without a password the field stays blank,
      which `full_clean` refuses, so every such call fails. */
  method CreateUser(email: string, firstName: string, lastName: string, password: Option<string>, encoded: string,
                    emailAccepted: bool, passwordAccepted: bool, extra: ExtraFields, now: int)
    returns (r: Result<User, string>)
    ensures MissingField(email, firstName, lastName).Some? ==>
      r == Err(MissingField(email, firstName, lastName).value)
    ensures r.Ok? <==>
      ChecksPass(email, firstName, lastName, password, emailAccepted, passwordAccepted, extra) &&
      Present(password) && PasswordClean(encoded)
    ensures !Present(password) ==> r.Err?
    ensures r.Ok? ==> fresh(r.value)
    ensures r.Ok? ==>
      && r.value.email == NormalEmail(email)
      && r.value.firstName == Strip(firstName)
      && r.value.lastName == Strip(lastName)
      && r.value.password == encoded
    ensures r.Ok? ==> r.value.role == RoleOf(extra) && ValidRole(r.value.role) && r.value.isStaff == StaffFor(r.value.role)
    ensures r.Ok? ==> r.value.isSuperuser == (extra.isSuperuser == Some(true))
  {
    r := BuildUser(email, firstName, lastName, password, StoredPassword(password, encoded),
                   emailAccepted, passwordAccepted, extra, now);
  }

  /** What `set_unusable_password` stores, given its random characters. */
  function UnusablePassword(salt: string): (stored: string)
    requires |salt| == UnusableSuffixLength
    ensures PasswordClean(stored)
  {
    UnusablePasswordPrefix + salt
  }

  /** `create_user` as evidently intended: with no password the user gets an
      unusable one (Django's own manager does this), so a user without a
      password is created exactly when every other check passes. */
  method CreateUserWithUnusablePassword(email: string, firstName: string, lastName: string,
                                        password: Option<string>, encoded: string, salt: string,
                                        emailAccepted: bool, passwordAccepted: bool, extra: ExtraFields, now: int)
    returns (r: Result<User, string>)
    requires |salt| == UnusableSuffixLength
    ensures r.Ok? <==>
      ChecksPass(email, firstName, lastName, password, emailAccepted, passwordAccepted, extra) &&
      (Present(password) ==> PasswordClean(encoded))
    ensures r.Ok? ==> fresh(r.value)
    ensures r.Ok? && !Present(password) ==> r.value.password == UnusablePassword(salt)
  {
    var stored := if Present(password) then encoded else UnusablePassword(salt);
    r := BuildUser(email, firstName, lastName, password, stored, emailAccepted, passwordAccepted, extra, now);
  }

  lemma LowerTwice(s: string)
    ensures NormalEmail(Lower(s)) == NormalEmail(s)
  {
    LowerOfNoUpper(Lower(s));
  }

  /** `create_superuser`: role defaults to admin. */
  method CreateSuperuser(email: string, firstName: string, lastName: string, password: Option<string>, encoded: string,
                         emailAccepted: bool, passwordAccepted: bool, extra: ExtraFields, now: int)
    returns (r: Result<User, string>)
    ensures r.Ok? ==> fresh(r.value)
    ensures r.Ok? && extra.role.None? ==> r.value.role == "admin" && r.value.isStaff
    ensures r.Ok? ==> r.value.isSuperuser == (extra.isSuperuser != Some(false))
  {
    var withDefaults := WithDefaults(extra, "admin", true, true);
    assert withDefaults.isSuperuser == Some(true) <==> extra.isSuperuser != Some(false) by {
      if extra.isSuperuser.Some? { assert extra.isSuperuser.value || !extra.isSuperuser.value; }
    }
    r := CreateUser(email, firstName, lastName, password, encoded, emailAccepted, passwordAccepted, withDefaults, now);
  }

  /** `create_agent`: role defaults to agent. */
  method CreateAgent(email: string, firstName: string, lastName: string, password: Option<string>, encoded: string,
                     emailAccepted: bool, passwordAccepted: bool, extra: ExtraFields, now: int)
    returns (r: Result<User, string>)
    ensures r.Ok? ==> fresh(r.value)
    ensures r.Ok? && extra.role.None? ==> r.value.role == "agent" && r.value.isStaff
  {
    r := CreateUser(email, firstName, lastName, password, encoded, emailAccepted, passwordAccepted,
                    WithDefaults(extra, "agent", true, false), now);
  }

  /** `create_customer`: role defaults to customer, who is never staff. */
  method CreateCustomer(email: string, firstName: string, lastName: string, password: Option<string>, encoded: string,
                        emailAccepted: bool, passwordAccepted: bool, extra: ExtraFields, now: int)
    returns (r: Result<User, string>)
    ensures r.Ok? ==> fresh(r.value)
    ensures r.Ok? && extra.role.None? ==> r.value.role == "customer" && !r.value.isStaff
  {
    r := CreateUser(email, firstName, lastName, password, encoded, emailAccepted, passwordAccepted,
                    WithDefaults(extra, "customer", false, false), now);
  }

  /** `create_agency_admin`: role defaults to agency_admin. */
  method CreateAgencyAdmin(email: string, firstName: string, lastName: string, password: Option<string>, encoded: string,
                           emailAccepted: bool, passwordAccepted: bool, extra: ExtraFields, now: int)
    returns (r: Result<User, string>)
    ensures r.Ok? ==> fresh(r.value)
    ensures r.Ok? && extra.role.None? ==> r.value.role == "agency_admin" && r.value.isStaff
  {
    r := CreateUser(email, firstName, lastName, password, encoded, emailAccepted, passwordAccepted,
                    WithDefaults(extra, "agency_admin", true, false), now);
  }
}
