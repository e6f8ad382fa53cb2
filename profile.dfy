/**
 * The profile page: what it renders for the session state, the avatar initials and
 * whether the loyalty points appear.
 */
module Profile {
  import opened Wrappers
  import opened Strings
  import opened AuthContext

  /** `firstName?.[0] ?? ''`: the first character, or nothing for an absent or empty name. */
  function FirstChar(name: Option<string>): (r: string)
    ensures |r| <= 1
    ensures r == "" <==> name.None? || name.value == ""
    ensures r != "" ==> r[0] == name.value[0]
  {
    if name.Some? && name.value != "" then [name.value[0]] else ""
  }

  /** `getInitials`: the two first characters, upper-cased. */
  function GetInitials(firstName: Option<string>, lastName: Option<string>): (r: string)
    ensures |r| <= 2
    ensures |r| == |FirstChar(firstName)| + |FirstChar(lastName)|
    ensures firstName.Some? && firstName.value != "" ==> r[0] == ToUpperChar(firstName.value[0])
    ensures lastName.Some? && lastName.value != "" ==> r[|r| - 1] == ToUpperChar(lastName.value[0])
  {
    ToUpper(FirstChar(firstName) + FirstChar(lastName))
  }

  /** What the page renders. */
  datatype ProfileView =
    | Loading
    | RedirectToLogin
    | ShowProfile(initials: string, email: string, userType: string, loyaltyPoints: Option<int>)

  /** The view for a session state: loading first, then the login redirect without a user,
      then the profile; loyalty points only for a Customer that has them. */
  function View(isLoading: bool, isAuthenticated: bool, currentUser: Option<SessionUser>): (v: ProfileView)
    ensures isLoading <==> v.Loading?
    ensures v.RedirectToLogin? <==> !isLoading && (!isAuthenticated || currentUser.None?)
    ensures v.ShowProfile? ==>
      && currentUser.Some?
      && v.initials == GetInitials(Some(currentUser.value.firstName), Some(currentUser.value.lastName))
      && v.email == currentUser.value.email
      && v.userType == currentUser.value.userType
      && (v.loyaltyPoints.Some? <==>
            currentUser.value.userType == "Customer" && currentUser.value.loyaltyPoints.Some?)
      && (v.loyaltyPoints.Some? ==> v.loyaltyPoints == currentUser.value.loyaltyPoints)
  {
    if isLoading then Loading
    else if !isAuthenticated || currentUser.None? then RedirectToLogin
    else
      var u := currentUser.value;
      ShowProfile(
        GetInitials(Some(u.firstName), Some(u.lastName)),
        u.email,
        u.userType,
        if u.userType == "Customer" then u.loyaltyPoints else None)
  }
}
