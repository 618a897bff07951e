/**
 * The authentication provider (src/context/AuthContext.tsx).  Identity
 * accounts, the signed-in identity and the stored profile documents are
 * fields of the provider; each call into the authentication or database
 * service is an outcome parameter.
 */
module AuthContext {
  import opened Domain

  const UnknownError := "An unknown error occurred"

  /** What a failed service call throws: an `Error` with a message, or some other value. */
  datatype Thrown = ErrorValue(message: string) | NonError

  /** A profile document as stored; a field the document lacks is `None`. */
  datatype ProfileDoc = ProfileDoc(
    name: Option<string>,
    email: Option<string>,
    role: Option<string>,
    cart: Option<seq<string>>,
    purchasedDocs: Option<seq<string>>)

  /** The signed-in user the provider exposes. */
  datatype UserProfile = UserProfile(
    uid: string,
    email: string,
    name: string,
    role: string,
    cart: seq<string>,
    purchasedDocs: seq<string>)

  /** An identity as the authentication service reports it. */
  datatype AuthUser = AuthUser(uid: string, email: Option<string>)

  /** The message of the error `handleFirebaseError` throws in place of `t`; it always throws. */
  function HandleFirebaseError(t: Thrown): (message: string)
    ensures t.ErrorValue? ==> message == t.message
    ensures t.NonError? ==> message == UnknownError
  {
    match t
    case ErrorValue(m) => m
    case NonError => UnknownError
  }

  /** The document `register` writes for a new identity. */
  function NewProfile(name: string, email: string): (doc: ProfileDoc)
    ensures doc.role == Some("user") && doc.cart == Some([]) && doc.purchasedDocs == Some([])
    ensures doc.name == Some(name) && doc.email == Some(email)
  {
    ProfileDoc(Some(name), Some(email), Some("user"), Some([]), Some([]))
  }

  /** `s || fallback` for a string field: an absent or empty string gives the fallback. */
  function TextOr(s: Option<string>, fallback: string): (r: string)
    ensures s.Some? && s.value != "" ==> r == s.value
    ensures s.None? || s.value == "" ==> r == fallback
  {
    if s.Some? && s.value != "" then s.value else fallback
  }

  /** `a || []` for a list field: only an absent list gives the empty one. */
  function ListOr(a: Option<seq<string>>): (r: seq<string>)
    ensures a.Some? ==> r == a.value
    ensures a.None? ==> r == []
  {
    if a.Some? then a.value else []
  }

  /** The user the listener builds from an identity and its profile document. */
  function ProfileFromDoc(u: AuthUser, doc: ProfileDoc): (p: UserProfile)
    ensures p.uid == u.uid
    ensures p.email == TextOr(u.email, "") && p.name == TextOr(doc.name, "") && p.role == TextOr(doc.role, "user")
    ensures p.cart == ListOr(doc.cart) && p.purchasedDocs == ListOr(doc.purchasedDocs)
  {
    UserProfile(u.uid, TextOr(u.email, ""), TextOr(doc.name, ""), TextOr(doc.role, "user"),
      ListOr(doc.cart), ListOr(doc.purchasedDocs))
  }

  /** A document with no fields yields an empty user of role 'user'. */
  lemma EmptyDocDefaults(u: AuthUser)
    ensures ProfileFromDoc(u, ProfileDoc(None, None, None, None, None)) ==
      UserProfile(u.uid, TextOr(u.email, ""), "", "user", [], [])
  {
  }

  /** A freshly registered profile reads back with its name, role 'user' and empty lists. */
  lemma RegisteredProfileReadsBack(uid: string, name: string, email: string)
    ensures ProfileFromDoc(AuthUser(uid, Some(email)), NewProfile(name, email)) ==
      UserProfile(uid, email, name, "user", [], [])
  {
  }

  class AuthProvider {
    /** The ids of the identities the authentication service holds. */
    var accounts: set<string>
    /** The identity signed in with the authentication service. */
    var currentUser: Option<string>
    /** The stored profile documents, by user id. */
    var profiles: map<string, ProfileDoc>
    /** The user the provider exposes. */
    var user: Option<UserProfile>
    var loading: bool

    constructor (accounts: set<string>, currentUser: Option<string>, profiles: map<string, ProfileDoc>)
      ensures this.accounts == accounts && this.currentUser == currentUser && this.profiles == profiles
      ensures user == None && loading
    {
      this.accounts, this.currentUser, this.profiles := accounts, currentUser, profiles;
      user, loading := None, true;
    }

    /**
     * `register`.  `created` is the outcome of creating the identity (which
     * signs it in under `newUid`), `written` that of writing its profile;
     * `None` means the call succeeded.  `thrown` is the message `register`
     * rejects with, if any.
     */
    method Register(name: string, email: string, newUid: string, created: Option<Thrown>, written: Option<Thrown>)
      returns (thrown: Option<string>)
      modifies this`accounts, this`currentUser, this`profiles
      ensures created.None? && written.None? ==>
        thrown.None? && accounts == old(accounts) + {newUid} && currentUser == Some(newUid) &&
        profiles == old(profiles)[newUid := NewProfile(name, email)]
      ensures created.None? && written.Some? ==>
        thrown == Some(HandleFirebaseError(written.value)) && accounts == old(accounts) - {newUid} &&
        currentUser.None? && profiles == old(profiles)
      ensures created.Some? ==>
        thrown == Some(HandleFirebaseError(created.value)) && accounts == old(accounts) &&
        currentUser == old(currentUser) && profiles == old(profiles)
    {
      var credential: Option<string> := None;
      var failure: Option<Thrown> := None;
      if created.None? {
        credential := Some(newUid);
        accounts := accounts + {newUid};
        currentUser := Some(newUid);
        if written.None? {
          profiles := profiles[newUid := NewProfile(name, email)];
        } else {
          failure := written;
        }
      } else {
        failure := created;
      }
      thrown := None;
      if failure.Some? {
        // Roll back: delete the signed-in identity when it is the one just created
        // (with no credential, this matches only when nobody is signed in).
        if currentUser == credential && currentUser.Some? {
          accounts := accounts - {currentUser.value};
          currentUser := None;
        }
        thrown := Some(HandleFirebaseError(failure.value));
      }
    }

    /** `login`; `signedIn` is the outcome of the sign-in. */
    method Login(uid: string, signedIn: Option<Thrown>) returns (thrown: Option<string>)
      modifies this`currentUser
      ensures signedIn.None? ==> thrown.None? && currentUser == Some(uid)
      ensures signedIn.Some? ==> thrown == Some(HandleFirebaseError(signedIn.value)) && currentUser == old(currentUser)
    {
      if signedIn.None? {
        currentUser := Some(uid);
        thrown := None;
      } else {
        thrown := Some(HandleFirebaseError(signedIn.value));
      }
    }

    /** `logout`; `signedOut` is the outcome of the sign-out. */
    method Logout(signedOut: Option<Thrown>) returns (thrown: Option<string>)
      modifies this`currentUser
      ensures signedOut.None? ==> thrown.None? && currentUser.None?
      ensures signedOut.Some? ==> thrown == Some(HandleFirebaseError(signedOut.value)) && currentUser == old(currentUser)
    {
      if signedOut.None? {
        currentUser := None;
        thrown := None;
      } else {
        thrown := Some(HandleFirebaseError(signedOut.value));
      }
    }

    /**
     * The auth-state listener for the identity `firebaseUser`; `readOk` is the
     * outcome of reading its profile document.  A missing document or a failed
     * read signs the identity out (`signedOut` is that call's outcome).
     */
    method OnAuthStateChanged(firebaseUser: Option<AuthUser>, readOk: bool, signedOut: Option<Thrown>)
      modifies this`user, this`loading, this`currentUser
      ensures firebaseUser.None? ==> user.None? && currentUser == old(currentUser)
      ensures firebaseUser.Some? && readOk && firebaseUser.value.uid in profiles ==>
        user == Some(ProfileFromDoc(firebaseUser.value, profiles[firebaseUser.value.uid])) &&
        currentUser == old(currentUser)
      ensures firebaseUser.Some? && !(readOk && firebaseUser.value.uid in profiles) ==>
        user == old(user) && (signedOut.None? ==> currentUser.None?) &&
        (signedOut.Some? ==> currentUser == old(currentUser))
      ensures !loading
    {
      if firebaseUser.None? {
        user := None;
        loading := false;
        return;
      }
      var u := firebaseUser.value;
      if readOk && u.uid in profiles {
        user := Some(ProfileFromDoc(u, profiles[u.uid]));
      } else {
        var _ := Logout(signedOut);
      }
      loading := false;
    }
  }

  /**
   * A registration whose profile write fails leaves no identity behind: the
   * provider's accounts, signed-in identity and documents are as a caller with
   * nobody signed in and no account `newUid` had them.
   */
  method RollbackLeavesNothing(p: AuthProvider, name: string, email: string, newUid: string, failure: Thrown)
    returns (thrown: Option<string>)
    requires newUid !in p.accounts && p.currentUser.None?
    modifies p
    ensures thrown.Some? && p.accounts == old(p.accounts) && p.currentUser.None? && p.profiles == old(p.profiles)
  {
    thrown := p.Register(name, email, newUid, None, Some(failure));
  }
}
