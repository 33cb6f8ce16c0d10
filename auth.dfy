/**
 * The client's mirror of the signed-in session
 * (src/app/core/services/auth.service.ts): the current user and access token,
 * and their copies in `localStorage`. The auth provider's session and events
 * are inputs; `JSON.stringify` and `JSON.parse` of a user are the parameters
 * `stringify` and `parse` (`parse` gives `None` where it throws).
 */
module Auth {
  import opened Wrappers
  import opened Models
  import opened Strings
  import opened Storage

  const TOKEN_KEY: string := "auth_token"
  const REFRESH_KEY: string := "refresh_token"
  const USER_KEY: string := "current_user"

  /** The provider's user record: `user_metadata.name` and `.avatar_url` may be missing. */
  datatype SessionUser = SessionUser(
    id: string,
    email: string,
    metadataName: Option<string>,
    metadataAvatar: Option<string>,
    created_at: int)

  datatype Session = Session(user: Option<SessionUser>, access_token: string, refresh_token: string)

  datatype AuthEvent = SignedIn | SignedOut | TokenRefreshed | OtherEvent(name: string)

  /** The metadata name when it is a non-empty string, else the e-mail up to its first '@'. */
  function DisplayName(u: SessionUser): (name: string)
    ensures u.metadataName.Some? && u.metadataName.value != "" ==> name == u.metadataName.value
    ensures u.metadataName.None? || u.metadataName.value == "" ==>
              name <= u.email && '@' !in name && (|name| < |u.email| ==> u.email[|name|] == '@')
  {
    if u.metadataName.Some? && u.metadataName.value != "" then u.metadataName.value
    else
      SplitHead(u.email, '@');
      Split(u.email, '@')[0]
  }

  /** The `User` that `updateSession` builds. */
  function UserOf(u: SessionUser): (user: User)
    ensures user.id == u.id && user.email == u.email && user.avatar == u.metadataAvatar
    ensures user.name == DisplayName(u) && user.createdAt == u.created_at
  {
    User(u.id, u.email, DisplayName(u), u.metadataAvatar, u.created_at)
  }

  /** What `setAuth` leaves in storage. */
  function StoredAfterSetAuth(items: map<string, string>, r: AuthResponse, stringify: User -> string): map<string, string>
  {
    items[TOKEN_KEY := r.token][REFRESH_KEY := r.refreshToken][USER_KEY := stringify(r.user)]
  }

  /** What `clearAuth` leaves in storage. */
  function StoredAfterClearAuth(items: map<string, string>): map<string, string>
  {
    items - {TOKEN_KEY, REFRESH_KEY, USER_KEY}
  }

  datatype Restore = NothingStored | Unreadable | Restored(token: string, user: User)

  /** What `loadStoredAuth` finds: both entries non-empty, and then whether the user parses. */
  function ReadStored(items: map<string, string>, parse: string -> Option<User>): (r: Restore)
    ensures r.NothingStored? <==>
              TOKEN_KEY !in items || items[TOKEN_KEY] == "" || USER_KEY !in items || items[USER_KEY] == ""
    ensures r.Restored? ==> r.token == items[TOKEN_KEY] && Some(r.user) == parse(items[USER_KEY])
  {
    if TOKEN_KEY !in items || items[TOKEN_KEY] == "" || USER_KEY !in items || items[USER_KEY] == "" then NothingStored
    else match parse(items[USER_KEY])
      case None => Unreadable
      case Some(u) => Restored(items[TOKEN_KEY], u)
  }

  /**
   * A session stored by `setAuth` is restored by the next start, when the
   * token is non-empty and the user's text parses back into the user.
   */
  lemma SessionSurvivesRestart(items: map<string, string>, r: AuthResponse,
                               stringify: User -> string, parse: string -> Option<User>)
    requires r.token != "" && stringify(r.user) != "" && parse(stringify(r.user)) == Some(r.user)
    ensures ReadStored(StoredAfterSetAuth(items, r, stringify), parse) == Restored(r.token, r.user)
  {
  }

  /** After `clearAuth` nothing is restored on the next start, and no other key is touched. */
  lemma ClearedSessionStaysCleared(items: map<string, string>, parse: string -> Option<User>)
    ensures ReadStored(StoredAfterClearAuth(items), parse) == NothingStored
    ensures forall k :: k in items && k != TOKEN_KEY && k != REFRESH_KEY && k != USER_KEY ==>
              k in StoredAfterClearAuth(items) && StoredAfterClearAuth(items)[k] == items[k]
  {
  }

  class AuthService {
    var currentUser: Option<User>
    var token: Option<string>
    const storage: LocalStorage

    /** `isAuthenticated`: a non-empty token and a user. */
    predicate IsAuthenticated()
      reads this
    {
      token.Some? && token.value != "" && currentUser.Some?
    }

    /** The subjects start empty, then `loadStoredAuth` runs. */
    constructor (storage: LocalStorage, parse: string -> Option<User>)
      modifies storage
      ensures this.storage == storage
      ensures var found := ReadStored(old(storage.items), parse);
              (found.NothingStored? ==> currentUser.None? && token.None? && storage.items == old(storage.items)) &&
              (found.Unreadable? ==> currentUser.None? && token.None? &&
                                     storage.items == StoredAfterClearAuth(old(storage.items))) &&
              (found.Restored? ==> currentUser == Some(found.user) && token == Some(found.token) &&
                                   storage.items == old(storage.items))
    {
      this.storage := storage;
      currentUser, token := None, None;
      new;
      LoadStoredAuth(parse);
    }

    /** `loadStoredAuth`: restore both values, clear everything when the user does not parse, else keep the state. */
    method LoadStoredAuth(parse: string -> Option<User>)
      modifies this, storage
      ensures var found := ReadStored(old(storage.items), parse);
              (found.NothingStored? ==> currentUser == old(currentUser) && token == old(token) &&
                                        storage.items == old(storage.items)) &&
              (found.Unreadable? ==> currentUser.None? && token.None? &&
                                     storage.items == StoredAfterClearAuth(old(storage.items))) &&
              (found.Restored? ==> currentUser == Some(found.user) && token == Some(found.token) &&
                                   storage.items == old(storage.items))
    {
      var found := ReadStored(storage.items, parse);
      match found
      case NothingStored =>
      case Unreadable => ClearAuth();
      case Restored(t, u) =>
        token := Some(t);
        currentUser := Some(u);
    }

    /** `setAuth`: the user and token, and all three storage entries. */
    method SetAuth(r: AuthResponse, stringify: User -> string)
      modifies this, storage
      ensures currentUser == Some(r.user) && token == Some(r.token)
      ensures storage.items == StoredAfterSetAuth(old(storage.items), r, stringify)
      ensures r.token != "" ==> IsAuthenticated()
    {
      currentUser := Some(r.user);
      token := Some(r.token);
      storage.SetItem(TOKEN_KEY, r.token);
      storage.SetItem(REFRESH_KEY, r.refreshToken);
      storage.SetItem(USER_KEY, stringify(r.user));
    }

    /** `clearAuth`: no user, no token, none of the three entries, so not authenticated. */
    method ClearAuth()
      modifies this, storage
      ensures currentUser.None? && token.None?
      ensures storage.items == StoredAfterClearAuth(old(storage.items))
      ensures !IsAuthenticated()
    {
      currentUser := None;
      token := None;
      storage.RemoveItem(TOKEN_KEY);
      storage.RemoveItem(REFRESH_KEY);
      storage.RemoveItem(USER_KEY);
      assert storage.items == old(storage.items) - {TOKEN_KEY} - {REFRESH_KEY} - {USER_KEY};
    }

    /** `updateSession`: nothing without a user; otherwise `setAuth` with the derived user. */
    method UpdateSession(session: Session, stringify: User -> string)
      modifies this, storage
      ensures session.user.None? ==>
                currentUser == old(currentUser) && token == old(token) && storage.items == old(storage.items)
      ensures session.user.Some? ==>
                var r := AuthResponse(UserOf(session.user.value), session.access_token, session.refresh_token);
                currentUser == Some(r.user) && token == Some(r.token) &&
                storage.items == StoredAfterSetAuth(old(storage.items), r, stringify)
    {
      if session.user.None? {
        return;
      }
      var r := AuthResponse(UserOf(session.user.value), session.access_token, session.refresh_token);
      SetAuth(r, stringify);
    }

    /**
     * The `onAuthStateChange` listener: SIGNED_IN and TOKEN_REFRESHED with a
     * session update it, SIGNED_OUT clears it, anything else is ignored.
     */
    method OnAuthStateChange(event: AuthEvent, session: Option<Session>, stringify: User -> string)
      modifies this, storage
      ensures event.SignedOut? ==>
                currentUser.None? && token.None? && storage.items == StoredAfterClearAuth(old(storage.items))
      ensures (event.SignedIn? || event.TokenRefreshed?) && session.Some? && session.value.user.Some? ==>
                currentUser == Some(UserOf(session.value.user.value)) && token == Some(session.value.access_token) &&
                storage.items == StoredAfterSetAuth(old(storage.items),
                                   AuthResponse(UserOf(session.value.user.value), session.value.access_token,
                                                session.value.refresh_token), stringify)
      ensures event.OtherEvent? || ((event.SignedIn? || event.TokenRefreshed?) &&
                                    (session.None? || session.value.user.None?)) ==>
                currentUser == old(currentUser) && token == old(token) && storage.items == old(storage.items)
    {
      if event.SignedIn? && session.Some? {
        UpdateSession(session.value, stringify);
      } else if event.SignedOut? {
        ClearAuth();
      } else if event.TokenRefreshed? && session.Some? {
        UpdateSession(session.value, stringify);
      }
    }

    /** `logout`: the local session is cleared whether or not the provider's sign-out fails. */
    method Logout(signOutFailed: bool) returns (ok: bool)
      modifies this, storage
      ensures ok <==> !signOutFailed
      ensures currentUser.None? && token.None? && !IsAuthenticated()
      ensures storage.items == StoredAfterClearAuth(old(storage.items))
    {
      ClearAuth();
      ok := !signOutFailed;
    }
  }
}
