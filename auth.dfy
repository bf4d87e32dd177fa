/**
 * Sign-in: the `AuthState` machine of the login view model.  Firebase Authentication's
 * current user is kept as `session` (a uid), and every remote step is given as its outcome.
 */
module Auth {
  import opened Wrappers
  import opened Text

  datatype AuthState = Loading | Unauthenticated | Authenticated(role: string)

  /** A "users" document lookup: the document is missing, or present with its role field (if any). */
  datatype UserDoc = Missing | Present(role: Option<string>)

  /** `getString("role") ?: "citizen"`. */
  function StoredRole(role: Option<string>): (r: string)
    ensures role.Some? ==> r == role.value
    ensures role.None? ==> r == "citizen"
  {
    role.GetOr("citizen")
  }

  /** The role Google sign-in settles on: a missing document becomes a new citizen. */
  function GoogleRole(doc: UserDoc): (r: string)
    ensures doc.Missing? ==> r == "citizen"
    ensures doc.Present? ==> r == StoredRole(doc.role)
  {
    match doc
    case Missing => "citizen"
    case Present(role) => StoredRole(role)
  }

  /** An admin sign-in is accepted only for an existing document whose role is exactly "admin". */
  predicate AdminAccepted(doc: UserDoc) {
    doc.Present? && doc.role == Some("admin")
  }

  class AuthViewModel {
    var authState: AuthState
    var user: Option<string>
    var error: Option<string>
    var isLoading: bool
    var adminEmail: string
    var adminPassword: string
    /** FirebaseAuth's current user. */
    var session: Option<string>

    /** The initial state, before `checkCurrentUser` runs. */
    constructor(session: Option<string>)
      ensures authState == Loading && user == session && error == None && !isLoading
      ensures adminEmail == "" && adminPassword == "" && this.session == session
    {
      authState := Loading;
      user := session;
      error := None;
      isLoading := false;
      adminEmail := "";
      adminPassword := "";
      this.session := session;
    }

    /** `signOut`: everything is cleared and the state is Unauthenticated. */
    method SignOut()
      modifies this
      ensures session == None && user == None && adminEmail == "" && adminPassword == ""
      ensures error == None && authState == Unauthenticated && isLoading == old(isLoading)
    {
      session := None;
      user := None;
      adminEmail := "";
      adminPassword := "";
      error := None;
      authState := Unauthenticated;
    }

    /**
     * `checkCurrentUser`, where `roleLookup` is the user document's role field or the
     * exception; a failed lookup sets an error and then signs out, which clears it again.
     */
    method CheckCurrentUser(roleLookup: Result<Option<string>, string>)
      modifies this
      ensures old(session).None? ==>
        && authState == Unauthenticated && user == old(user) && error == old(error) && session == old(session)
        && adminEmail == old(adminEmail) && adminPassword == old(adminPassword)
      ensures old(session).Some? && roleLookup.Success? ==>
        && authState == Authenticated(StoredRole(roleLookup.value)) && user == old(session) && error == old(error)
        && session == old(session) && adminEmail == old(adminEmail) && adminPassword == old(adminPassword)
      ensures old(session).Some? && roleLookup.Failure? ==>
        && authState == Unauthenticated && user == None && session == None && error == None
        && adminEmail == "" && adminPassword == ""
      ensures isLoading == old(isLoading)
    {
      if session.None? {
        authState := Unauthenticated;
      } else if roleLookup.Success? {
        user := session;
        authState := Authenticated(StoredRole(roleLookup.value));
      } else {
        error := Some("Failed to verify user role: " + roleLookup.error);
        SignOut();
      }
    }

    /**
     * `signInAsAdmin`.  `signIn` is the signed-in uid (None for a null user) or the
     * exception; `doc` the user document lookup or its exception.
     */
    method SignInAsAdmin(signIn: Result<Option<string>, string>, doc: Result<UserDoc, string>)
      modifies this
      ensures IsBlank(old(adminEmail)) || IsBlank(old(adminPassword)) ==>
        && error == Some("Email and password cannot be empty.")
        && isLoading == old(isLoading) && authState == old(authState) && user == old(user) && session == old(session)
      ensures !IsBlank(old(adminEmail)) && !IsBlank(old(adminPassword)) ==> !isLoading
      ensures authState != old(authState) ==>
        signIn.Success? && signIn.value.Some? && doc.Success? && AdminAccepted(doc.value)
      ensures !IsBlank(old(adminEmail)) && !IsBlank(old(adminPassword)) && signIn.Success? && signIn.value.Some?
              && doc.Success? ==>
        if AdminAccepted(doc.value) then
          authState == Authenticated("admin") && user == signIn.value && session == signIn.value && error == old(error)
        else
          && authState == old(authState) && user == old(user) && session == None
          && error == Some(if doc.value.Missing? then "Admin user record not found in database."
                           else "You do not have admin privileges.")
      ensures !IsBlank(old(adminEmail)) && !IsBlank(old(adminPassword)) && signIn.Failure? ==>
        && error == Some("Admin login failed: " + signIn.error)
        && authState == old(authState) && user == old(user) && session == old(session)
      ensures !IsBlank(old(adminEmail)) && !IsBlank(old(adminPassword)) && signIn.Success? && signIn.value.Some?
              && doc.Failure? ==>
        && error == Some("Admin login failed: " + doc.error)
        && session == signIn.value && authState == old(authState) && user == old(user)
      ensures !IsBlank(old(adminEmail)) && !IsBlank(old(adminPassword)) && signIn == Success(None) ==>
        && error == old(error) && session == old(session) && authState == old(authState) && user == old(user)
      ensures adminEmail == old(adminEmail) && adminPassword == old(adminPassword)
    {
      if IsBlank(adminEmail) || IsBlank(adminPassword) {
        error := Some("Email and password cannot be empty.");
        return;
      }
      isLoading := true;
      match signIn {
        case Failure(e) =>
          error := Some("Admin login failed: " + e);
        case Success(None) =>
        case Success(Some(uid)) =>
          session := Some(uid);
          match doc {
            case Failure(e) =>
              error := Some("Admin login failed: " + e);
            case Success(Missing) =>
              error := Some("Admin user record not found in database.");
              session := None;
            case Success(Present(role)) =>
              if role == Some("admin") {
                user := Some(uid);
                authState := Authenticated("admin");
              } else {
                error := Some("You do not have admin privileges.");
                session := None;
              }
          }
      }
      isLoading := false;
    }

    /**
     * `signInWithGoogle` with `handleGoogleSignIn`.  `credential` is the credential
     * request's outcome (its error, or whether it is a Google ID token), `token` the
     * token parse, `signIn` the Firebase sign-in and `doc` the user document lookup.
     * Returns the citizen record created for a first sign-in.  The inner block has no
     * `catch`: a failing sign-in or lookup runs its `finally` (the `isLoading` reset) and
     * changes nothing else here; the exception itself leaves the coroutine uncaught.
     */
    method SignInWithGoogle(credential: Result<bool, string>, token: Result<(), string>,
                            signIn: Result<Option<string>, string>, doc: Result<UserDoc, string>)
      returns (created: Option<(string, string)>)
      modifies this
      ensures !isLoading
      ensures credential.Failure? ==>
        && error == Some("An error occurred during Google sign in: " + credential.error) && authState == old(authState)
        && created == None && user == old(user) && session == old(session)
      ensures credential == Success(false) ==>
        && error == Some("Unexpected credential type after Google sign in") && authState == old(authState)
        && created == None && user == old(user) && session == old(session)
      ensures credential == Success(true) && token.Failure? ==>
        && error == Some("Failed to handle Google sign in: " + token.error) && authState == old(authState)
        && created == None && user == old(user) && session == old(session)
      ensures credential == Success(true) && token.Success? && signIn.Success? && signIn.value.Some? && doc.Success? ==>
        && authState == Authenticated(GoogleRole(doc.value)) && user == signIn.value
        && session == signIn.value && error == old(error)
        && created == (if doc.value.Missing? then Some((signIn.value.value, "citizen")) else None)
      ensures credential == Success(true) && token.Success? && (signIn.Failure? || signIn == Success(None)) ==>
        && authState == old(authState) && user == old(user) && error == old(error)
        && session == old(session) && created == None
      ensures credential == Success(true) && token.Success? && signIn.Success? && signIn.value.Some? && doc.Failure? ==>
        && authState == old(authState) && user == old(user) && error == old(error)
        && session == signIn.value && created == None
      ensures authState != old(authState) ==> authState.Authenticated?
      ensures adminEmail == old(adminEmail) && adminPassword == old(adminPassword)
    {
      created := None;
      isLoading := true;
      match credential {
        case Failure(e) =>
          error := Some("An error occurred during Google sign in: " + e);
        case Success(isGoogleToken) =>
          if !isGoogleToken {
            error := Some("Unexpected credential type after Google sign in");
          } else if token.Failure? {
            error := Some("Failed to handle Google sign in: " + token.error);
          } else if signIn.Success? && signIn.value.Some? {
            var uid := signIn.value.value;
            session := Some(uid);
            if doc.Success? {
              if doc.value.Missing? {
                created := Some((uid, "citizen"));
              }
              user := Some(uid);
              authState := Authenticated(GoogleRole(doc.value));
            }
          }
      }
      isLoading := false;
    }
  }
}
