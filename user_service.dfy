/**
 * The onboarding service: registering a new user's name, fields of interest
 * and profile. The user repository is the field of the service; each
 * operation looks a user up and updates that user in place.
 */
module UserServices {
  import opened Text
  import opened Domain
  import opened Repositories
  import opened UserFieldRequests

  datatype UserSignUpRequest = UserSignUpRequest(platformId: String, name: String)

  datatype UserSignUpResponse = UserSignUpResponse(userId: UserId)

  datatype UserProfileRequest = UserProfileRequest(selfIntro: String, career: String)

  /** The onboarding form; a missing part is a null reference. */
  datatype UserRegisterRequest = UserRegisterRequest(
    userId: UserId,
    userField: Option<UserFieldRequest>,
    userProfile: Option<UserProfileRequest>)

  /** UserProfileRequest.toEntity. */
  function ToProfile(request: UserProfileRequest): Profile
  {
    Profile(request.selfIntro, request.career)
  }

  /** Every field on the user's list belongs to the user stored under `k`. */
  ghost predicate FieldsOwned(u: User, k: UserId)
  {
    forall i :: 0 <= i < |u.fields| ==> u.fields[i].owner == Some(k)
  }

  /**
   * `after` is `before` with one new field per name, owned by `k`, appended
   * in the order of the names after the fields `before` already had.
   */
  ghost predicate FieldsAppended(before: User, after: User, names: seq<String>, k: UserId)
  {
    after == before.(fields := after.fields) &&
    |after.fields| == |before.fields| + |names| &&
    after.fields[..|before.fields|] == before.fields &&
    forall i :: 0 <= i < |names| ==> after.fields[|before.fields| + i] == Field(names[i], Some(k))
  }

  /** The forEach that gives each new field its owner, keeping the order. */
  method UpdateFieldUser(fields: seq<Field>, k: UserId) returns (owned: seq<Field>)
    ensures |owned| == |fields|
    ensures forall i :: 0 <= i < |fields| ==> owned[i] == fields[i].(owner := Some(k))
  {
    owned := [];
    var i := 0;
    while i < |fields|
      invariant 0 <= i <= |fields|
      invariant |owned| == i
      invariant forall j :: 0 <= j < i ==> owned[j] == fields[j].(owner := Some(k))
    {
      owned := owned + [fields[i].(owner := Some(k))];
      i := i + 1;
    }
  }

  class UserService {
    var users: map<UserId, User>

    ghost predicate Valid()
      reads this
    {
      forall k :: k in users ==> users[k].id == k && FieldsOwned(users[k], k)
    }

    constructor (users: map<UserId, User>)
      requires forall k :: k in users ==> users[k].id == k && FieldsOwned(users[k], k)
      ensures Valid() && this.users == users
    {
      this.users := users;
    }

    /**
     * signUpName: the user with the request's platform id gets the requested
     * name and its id is returned. No such user is EntityNotFound; several
     * make the single-result query fail.
     */
    method SignUpName(request: UserSignUpRequest) returns (r: Result<UserSignUpResponse>)
      requires Valid()
      modifies this
      ensures Valid()
      ensures r == Failure(EntityNotFound) <==>
                forall k :: k in old(users) ==> old(users)[k].platformId != request.platformId
      ensures r == Failure(IncorrectResultSize) <==>
                exists k, k' :: k in old(users) && k' in old(users) && k != k' &&
                                old(users)[k].platformId == request.platformId &&
                                old(users)[k'].platformId == request.platformId
      ensures r.Failure? ==> users == old(users)
      ensures r.Success? ==>
                var k := r.value.userId;
                k in old(users) && old(users)[k].platformId == request.platformId &&
                users == old(users)[k := old(users)[k].(name := request.name)]
    {
      var found := FindByPlatformId(users, request.platformId);
      if found == Missing {
        return Failure(EntityNotFound);
      } else if found == Ambiguous {
        return Failure(IncorrectResultSize);
      }
      var user := users[found.id];
      users := users[found.id := user.(name := request.name)];
      return Success(UserSignUpResponse(user.id));
    }

    /**
     * saveField: a null request answers false; an unknown user is
     * EntityNotFound; otherwise the converted fields, owned by the user, are
     * appended to the user's list and the answer is true.
     */
    method SaveField(userId: UserId, request: Option<UserFieldRequest>) returns (r: Result<bool>)
      requires Valid()
      modifies this
      ensures Valid()
      ensures request == None ==> r == Success(false) && users == old(users)
      ensures request.Some? && userId !in old(users) ==> r == Failure(EntityNotFound) && users == old(users)
      ensures request.Some? && userId in old(users) ==>
                r == Success(true) && userId in users &&
                users == old(users)[userId := users[userId]] &&
                FieldsAppended(old(users)[userId], users[userId], request.value.fieldName, userId)
    {
      if request == None {
        return Success(false);
      }
      if userId !in users {
        return Failure(EntityNotFound);
      }
      var user := users[userId];
      var fields := ToEntity(request.value.fieldName);
      fields := UpdateFieldUser(fields, user.id);
      users := users[userId := user.(fields := user.fields + fields)];
      return Success(true);
    }

    /**
     * saveProfile: a null request answers false; an unknown user is
     * EntityNotFound; otherwise the user's profile is replaced and the answer
     * is true.
     */
    method SaveProfile(userId: UserId, request: Option<UserProfileRequest>) returns (r: Result<bool>)
      requires Valid()
      modifies this
      ensures Valid()
      ensures request == None ==> r == Success(false) && users == old(users)
      ensures request.Some? && userId !in old(users) ==> r == Failure(EntityNotFound) && users == old(users)
      ensures request.Some? && userId in old(users) ==>
                r == Success(true) &&
                users == old(users)[userId := old(users)[userId].(profile := Some(ToProfile(request.value)))]
    {
      if request == None {
        return Success(false);
      }
      if userId !in users {
        return Failure(EntityNotFound);
      }
      var user := users[userId];
      users := users[userId := user.(profile := Some(ToProfile(request.value)))];
      return Success(true);
    }

    /**
     * signUpInfo: saveField, then saveProfile, for the same user. It fails
     * only for an unknown user with at least one non-null part, and then
     * nothing has changed; a null field request does not stop the profile
     * from being saved.
     */
    method SignUpInfo(request: UserRegisterRequest) returns (r: Result<()>)
      requires Valid()
      modifies this
      ensures Valid()
      ensures r.Failure? <==>
                request.userId !in old(users) && (request.userField.Some? || request.userProfile.Some?)
      ensures r.Failure? ==> r.error == EntityNotFound && users == old(users)
      ensures request.userId !in old(users) ==> users == old(users)
      ensures request.userId in old(users) ==>
                var k := request.userId;
                var before := old(users)[k];
                var names := if request.userField.Some? then request.userField.value.fieldName else [];
                k in users && users == old(users)[k := users[k]] &&
                users[k].profile == (if request.userProfile.Some? then Some(ToProfile(request.userProfile.value))
                                     else before.profile) &&
                FieldsAppended(before, users[k].(profile := before.profile), names, k)
    {
      var savedField := SaveField(request.userId, request.userField);
      if savedField.Failure? {
        return Failure(savedField.error);
      }
      var savedProfile := SaveProfile(request.userId, request.userProfile);
      if savedProfile.Failure? {
        return Failure(savedProfile.error);
      }
      return Success(());
    }
  }
}
