/** The authentication context: the signed-in user derived from the current
    session, and the check that decides whether a user's profile is complete.
    The backend (profile table, auth service) is not modelled; what its calls
    return is passed in. */
module AuthContext {
  import opened Js

  /** A row of the user-profile table. */
  datatype Profile = Profile(
    id: string,
    name: Option<string>,
    age: Option<int>,
    height: Option<int>,
    weight: Option<int>)

  datatype AuthUser = AuthUser(id: string, email: Option<string>)

  datatype Session = Session(user: AuthUser, accessToken: string)

  /** What the single-row profile query returned: an error result, a thrown
      exception, or the row (which may be null). */
  datatype ProfileQuery = QueryError | QueryThrew | QueryRow(profile: Option<Profile>)

  /** What asking the auth service for the current user returned. */
  datatype UserLookup = LookupThrew | LookupResult(user: Option<AuthUser>)

  const PlaceholderName := "New User"
  const DefaultName := "User"

  /** `profile.name && profile.name.trim() !== '' && profile.name !== 'New User'
      && profile.name !== 'User'`: the placeholders are compared untrimmed. */
  predicate NameAccepted(name: Option<string>) {
    && name.Some?
    && name.value != ""
    && Trim(name.value) != ""
    && name.value != PlaceholderName
    && name.value != DefaultName
  }

  /** `user?.email && user.email.trim() !== ''`. */
  predicate EmailPresent(user: Option<AuthUser>) {
    && user.Some?
    && user.value.email.Some?
    && user.value.email.value != ""
    && Trim(user.value.email.value) != ""
  }

  // What completeness means, stated without `trim`.

  ghost predicate NonBlank(s: string) {
    exists i :: 0 <= i < |s| && !IsJsWhitespace(s[i])
  }

  /** A complete profile has a name with a non-white-space character that is
      not exactly one of the two placeholders, and a non-zero age, height and
      weight. */
  ghost predicate CompleteProfile(p: Profile) {
    && p.name.Some?
    && NonBlank(p.name.value)
    && p.name.value != PlaceholderName
    && p.name.value != DefaultName
    && Truthy(p.age) && Truthy(p.height) && Truthy(p.weight)
  }

  ghost predicate HasEmail(user: Option<AuthUser>) {
    user.Some? && user.value.email.Some? && NonBlank(user.value.email.value)
  }

  /** `checkIfProfileComplete`: false on a query error and on any thrown
      exception; otherwise whether the profile and the auth email pass every
      check. */
  function CheckIfProfileComplete(query: ProfileQuery, lookup: UserLookup): (complete: bool)
    ensures query.QueryError? || query.QueryThrew? ==> !complete
    ensures query.QueryRow? && lookup.LookupThrew? ==> !complete
    ensures query.QueryRow? && query.profile.None? ==> !complete
    ensures query.QueryRow? && query.profile.Some? && lookup.LookupResult? ==>
              (complete <==> CompleteProfile(query.profile.value) && HasEmail(lookup.user))
  {
    match query
    case QueryError => false
    case QueryThrew => false
    case QueryRow(profile) =>
      match lookup
      case LookupThrew => false
      case LookupResult(user) =>
        var hasEmail := EmailPresent(user);
        if profile.None? then false
        else
          var p := profile.value;
          TrimNonEmptyIff(p.name.GetOr(""));
          TrimNonEmptyIff(if user.Some? then user.value.email.GetOr("") else "");
          NameAccepted(p.name) && Truthy(p.age) && Truthy(p.height) && Truthy(p.weight) && hasEmail
  }

  /** The placeholder names are compared before trimming, so a padded
      placeholder is accepted while the exact one is not. */
  lemma PlaceholderComparedUntrimmed()
    ensures NameAccepted(Some(" User"))
    ensures !NameAccepted(Some("User"))
  {
    TrimNonEmptyIff(" User");
    assert !IsJsWhitespace(" User"[1]);
  }

  /** An age, height or weight of 0 counts as missing. */
  lemma ZeroMeasurementIncomplete(p: Profile, lookup: UserLookup)
    requires p.age == Some(0) || p.height == Some(0) || p.weight == Some(0)
    ensures !CheckIfProfileComplete(QueryRow(Some(p)), lookup)
  {
  }

  // ---------------------------------------------------------------------
  // The provider's state

  class AuthProvider {
    var user: Option<AuthUser>
    var session: Option<Session>
    var loading: bool

    /** `user` is always the current session's user, or null without a session. */
    predicate Valid()
      reads this
    {
      user == if session.Some? then Some(session.value.user) else None
    }

    constructor ()
      ensures Valid() && user.None? && session.None? && loading
    {
      user := None;
      session := None;
      loading := true;
    }

    /** Both the initial session result and every auth-state event record the
        session, derive the user from it and end loading. */
    method OnSession(s: Option<Session>)
      requires Valid()
      modifies this
      ensures Valid() && session == s && !loading
      ensures s.Some? ==> user == Some(s.value.user)
      ensures s.None? ==> user.None?
    {
      session := s;
      user := if s.Some? then Some(s.value.user) else None;
      loading := false;
    }
  }
}
