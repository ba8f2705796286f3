/**
 * The backend's in-memory accounts: `users` maps a user id to the user and
 * the password hash, `userEmails` maps an email to its user id. Password
 * hashing and checking (bcrypt), token signing (JWT) and id generation
 * (uuid4) are opaque: their results arrive as parameters.
 */
module AuthStore {

  import opened Wrappers
  import opened Schemas

  /** The exceptions the service raises. */
  datatype AuthError = UserAlreadyExists | InvalidCredentials | UserNotFound

  /** The text of each exception, which the HTTP layer passes on as the error detail. */
  function ErrorMessage(e: AuthError): string
  {
    match e
    case UserAlreadyExists => "User already exists"
    case InvalidCredentials => "Invalid credentials"
    case UserNotFound => "User not found"
  }

  datatype StoredUser = StoredUser(user: User, password: string)

  class AuthService {
    var users: map<string, StoredUser>
    var userEmails: map<string, string>

    /**
     * Every registered email names a stored user whose email is that key, and
     * every stored user is filed under its own id.
     */
    ghost predicate Valid()
      reads this
    {
      && (forall email :: email in userEmails ==>
            userEmails[email] in users && users[userEmails[email]].user.email == email)
      && (forall id :: id in users ==> users[id].user.id == id)
    }

    constructor ()
      ensures Valid() && users == map[] && userEmails == map[]
    {
      users := map[];
      userEmails := map[];
    }

    /**
     * `signup`: a registered email is refused and nothing changes; otherwise one
     * user is added under the fresh id, with default preferences and the given
     * hash, and the email is mapped to that id. The id comes from uuid4, so it
     * is new.
     */
    method Signup(email: string, password: string, name: string, freshId: string, hashed: string, token: string)
      returns (r: Result<AuthResponse, AuthError>)
      requires Valid()
      requires freshId !in users
      modifies this
      ensures Valid()
      ensures email in old(userEmails) ==>
        r == Failure(UserAlreadyExists) && users == old(users) && userEmails == old(userEmails)
      ensures email !in old(userEmails) ==>
        var user := User(freshId, email, name, DefaultPreferences);
        && r == Success(AuthResponse(token, user))
        && users == old(users)[freshId := StoredUser(user, hashed)]
        && userEmails == old(userEmails)[email := freshId]
    {
      if email in userEmails {
        return Failure(UserAlreadyExists);
      }
      var user := User(freshId, email, name, DefaultPreferences);
      users := users[freshId := StoredUser(user, hashed)];
      userEmails := userEmails[email := freshId];
      r := Success(AuthResponse(token, user));
    }

    /**
     * `login`: succeeds exactly when the email is registered and the password
     * checks against the stored hash, answering with the stored user; an
     * unknown email and a wrong password raise the same error.
     */
    method Login(email: string, password: string, checkPassword: (string, string) -> bool, token: string)
      returns (r: Result<AuthResponse, AuthError>)
      requires Valid()
      ensures r.Success? <==> email in userEmails && checkPassword(password, users[userEmails[email]].password)
      ensures r.Success? ==> r.value.token == token && r.value.user.email == email
      ensures r.Success? ==> r.value.user == users[userEmails[email]].user
      ensures r.Failure? ==> r.error == InvalidCredentials
    {
      if email !in userEmails {
        return Failure(InvalidCredentials);
      }
      var userId := userEmails[email];
      var stored := users[userId];
      if !checkPassword(password, stored.password) {
        return Failure(InvalidCredentials);
      }
      r := Success(AuthResponse(token, stored.user));
    }

    /** `get_user_by_id`: the stored user, whose id is the one asked for, or "User not found". */
    method GetUserById(userId: string) returns (r: Result<User, AuthError>)
      requires Valid()
      ensures r.Success? <==> userId in users
      ensures r.Success? ==> r.value == users[userId].user && r.value.id == userId
      ensures r.Failure? ==> r.error == UserNotFound
    {
      if userId !in users {
        return Failure(UserNotFound);
      }
      r := Success(users[userId].user);
    }
  }

  /**
   * Signing up and then logging in with the same email and password returns
   * the new user, provided the password checker accepts the password against
   * the hash made for it.
   */
  method SignupThenLogin(s: AuthService, email: string, password: string, name: string,
                         freshId: string, hashed: string, checkPassword: (string, string) -> bool,
                         token1: string, token2: string)
    returns (signedUp: Result<AuthResponse, AuthError>, loggedIn: Result<AuthResponse, AuthError>)
    requires s.Valid() && freshId !in s.users && email !in s.userEmails
    requires checkPassword(password, hashed)
    modifies s
    ensures signedUp.Success? && loggedIn.Success?
    ensures loggedIn.value.user == signedUp.value.user
    ensures loggedIn.value.user == User(freshId, email, name, DefaultPreferences)
  {
    signedUp := s.Signup(email, password, name, freshId, hashed, token1);
    loggedIn := s.Login(email, password, checkPassword, token2);
  }
}
