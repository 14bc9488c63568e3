/** The role classifier for the user the REST API returns: NGO, contributor or unknown. */
module UserRoles {
  import opened Wrappers

  /** The fields of the API's `User` the classifier reads; the role arrives as a plain string. */
  datatype ApiUser = ApiUser(id: int, uid: string, name: string, email: string, role: string)

  const NgoRole := "ngo"
  const ContributorRole := "contributor"

  datatype UserType = Ngo | Contributor | Unknown

  /** `isNgo`: a user is present and has the NGO role. */
  predicate IsNgo(user: Option<ApiUser>) {
    user.Some? && user.value.role == NgoRole
  }

  /** `isContributor`: a user is present and has the contributor role. */
  predicate IsContributor(user: Option<ApiUser>) {
    user.Some? && user.value.role == ContributorRole
  }

  /** No user is both an NGO and a contributor. */
  lemma RolesExclusive(user: Option<ApiUser>)
    ensures !(IsNgo(user) && IsContributor(user))
  {
    if IsNgo(user) {
      assert user.value.role[0] == 'n';
    }
  }

  /** `getUserType`: NGO first, then contributor, otherwise unknown (also for no user). */
  function GetUserType(user: Option<ApiUser>): (t: UserType)
    ensures t == Ngo <==> IsNgo(user)
    ensures t == Contributor <==> IsContributor(user)
    ensures t == Unknown <==> user.None? || (user.value.role != NgoRole && user.value.role != ContributorRole)
  {
    RolesExclusive(user);
    if user.None? then Unknown
    else if IsNgo(user) then Ngo
    else if IsContributor(user) then Contributor
    else Unknown
  }

  /** `getUserTypeLabel`. */
  function GetUserTypeLabel(user: Option<ApiUser>): (s: string)
    ensures s == "Organisation" <==> IsNgo(user)
    ensures s == "Contributeur" <==> IsContributor(user)
    ensures s == "Utilisateur" <==> !IsNgo(user) && !IsContributor(user)
  {
    match GetUserType(user)
    case Ngo => "Organisation"
    case Contributor => "Contributeur"
    case Unknown => "Utilisateur"
  }
}
