/** The authentication session: the current user, the loading flag and the
    browser's saved-user slot, changed by login, logout and profile updates. */
module AuthContext {
  import opened Wrappers
  import opened Users

  /** A `Partial<User>`: each field either present (`Some`) or absent. */
  datatype UserPatch = UserPatch(
    id: Option<string>,
    firstName: Option<string>,
    lastName: Option<string>,
    email: Option<string>,
    age: Option<real>,
    gender: Option<string>,
    occupation: Option<string>,
    location: Option<string>,
    avatar: Option<string>,
    bio: Option<string>,
    phoneNumber: Option<string>,
    interests: Option<seq<Interest>>,
    purchaseHistory: Option<seq<PurchaseHistory>>,
    engagementScore: Option<real>,
    sentimentScore: Option<real>,
    socialMediaActivity: Option<SocialMediaActivity>)

  const NoChanges := UserPatch(None, None, None, None, None, None, None, None,
                               None, None, None, None, None, None, None, None)

  function Pick<T>(update: Option<T>, current: T): T {
    if update.Some? then update.value else current
  }

  /** `{ ...user, ...updatedUser }`: a shallow merge in which present fields win. */
  function Merge(user: User, patch: UserPatch): User {
    User(
      Pick(patch.id, user.id),
      Pick(patch.firstName, user.firstName),
      Pick(patch.lastName, user.lastName),
      Pick(patch.email, user.email),
      Pick(patch.age, user.age),
      Pick(patch.gender, user.gender),
      Pick(patch.occupation, user.occupation),
      Pick(patch.location, user.location),
      Pick(patch.avatar, user.avatar),
      Pick(patch.bio, user.bio),
      Pick(patch.phoneNumber, user.phoneNumber),
      Pick(patch.interests, user.interests),
      Pick(patch.purchaseHistory, user.purchaseHistory),
      Pick(patch.engagementScore, user.engagementScore),
      Pick(patch.sentimentScore, user.sentimentScore),
      Pick(patch.socialMediaActivity, user.socialMediaActivity))
  }

  /** The patch that carries every field of `u`. */
  function Everything(u: User): UserPatch {
    UserPatch(Some(u.id), Some(u.firstName), Some(u.lastName), Some(u.email), Some(u.age),
              Some(u.gender), Some(u.occupation), Some(u.location), Some(u.avatar), Some(u.bio),
              Some(u.phoneNumber), Some(u.interests), Some(u.purchaseHistory),
              Some(u.engagementScore), Some(u.sentimentScore), Some(u.socialMediaActivity))
  }

  /** An empty update changes nothing. */
  lemma MergeNoChanges(user: User)
    ensures Merge(user, NoChanges) == user
  {
  }

  /** Applying the same update twice is applying it once. */
  lemma MergeIdempotent(user: User, patch: UserPatch)
    ensures Merge(Merge(user, patch), patch) == Merge(user, patch)
  {
  }

  /** A complete update replaces the whole profile. */
  lemma MergeEverything(user: User, u: User)
    ensures Merge(user, Everything(u)) == u
  {
  }

  /** What the "suggestorx-user" entry of local storage holds. */
  datatype Slot = Empty | Unparsable | Holds(user: User)

  class AuthSession {
    var user: Option<User>
    var isLoading: bool
    var saved: Slot

    /** A logged-in user is always the one saved in the slot. */
    ghost predicate Valid()
      reads this
    {
      user.Some? ==> saved == Holds(user.value)
    }

    /** The provider's initial state: no user, loading, storage as found. */
    constructor (stored: Slot)
      ensures Valid()
      ensures user == None && isLoading && saved == stored
    {
      user := None;
      isLoading := true;
      saved := stored;
    }

    /** The mount effect: restore a saved user, discard an unparsable entry,
        and stop loading. */
    method RestoreSavedUser()
      requires Valid()
      modifies this
      ensures Valid()
      ensures !isLoading
      ensures old(saved).Holds? ==> user == Some(old(saved).user) && saved == old(saved)
      ensures old(saved) == Unparsable ==> user == old(user) && saved == Empty
      ensures old(saved) == Empty ==> user == old(user) && saved == Empty
    {
      if saved.Holds? {
        user := Some(saved.user);
      } else if saved == Unparsable {
        saved := Empty;
      }
      isLoading := false;
    }

    /** `login(email, password)`: any password is accepted; the email must
        match a seeded user, ignoring case, or the call fails with "User not found". */
    method Login(email: string, password: string) returns (result: Result<User, string>)
      requires Valid()
      modifies this
      ensures Valid()
      ensures !isLoading
      ensures GetUserByEmail(email).None? ==>
                result == Failure("User not found") && user == old(user) && saved == old(saved)
      ensures GetUserByEmail(email).Some? ==>
                && result == Success(GetUserByEmail(email).value)
                && user == GetUserByEmail(email)
                && saved == Holds(GetUserByEmail(email).value)
    {
      isLoading := true;
      var foundUser := FindByEmail(SeedUsers, email);
      if foundUser.None? {
        result := Failure("User not found");
      } else {
        user := foundUser;
        saved := Holds(foundUser.value);
        result := Success(foundUser.value);
      }
      isLoading := false;
    }

    /** `logout()`: forget the user and clear the slot. */
    method Logout()
      requires Valid()
      modifies this
      ensures Valid()
      ensures user == None && saved == Empty && isLoading == old(isLoading)
    {
      user := None;
      saved := Empty;
    }

    /** `updateUserProfile(updatedUser)`: merge into the logged-in user and save;
        nothing happens when nobody is logged in. */
    method UpdateUserProfile(patch: UserPatch)
      requires Valid()
      modifies this
      ensures Valid()
      ensures isLoading == old(isLoading)
      ensures old(user).None? ==> user == None && saved == old(saved)
      ensures old(user).Some? ==>
                user == Some(Merge(old(user).value, patch)) && saved == Holds(Merge(old(user).value, patch))
    {
      if user.Some? {
        var newUser := Merge(user.value, patch);
        user := Some(newUser);
        saved := Holds(newUser);
      }
    }
  }
}
