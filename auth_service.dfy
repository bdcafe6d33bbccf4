/** The session store and role predicates of `AuthService`
    (src/app/core/services/auth.service.ts).

    The service keeps two storage keys, the token and the serialised user, and
    mirrors the user in a behaviour subject whose latest value is
    `currentUserValue`. The HTTP exchanges are events: a login or profile
    answer arrives as a `Reply`, and the service reacts to it. */
module Auth {
  import opened Common
  import opened Models

  /** The body of a login answer; the client checks each field for presence. */
  datatype AuthResponse = AuthResponse(token: Option<string>, user: Option<User>, expiresIn: int)

  /** The body of a profile-update answer. */
  datatype ProfileResponse = ProfileResponse(user: Option<User>)

  /** The observable state of the service: the token key and the user key in
      storage, and the value of the current-user subject. */
  datatype Session = Session(storedToken: Option<string>, storedUser: Option<User>, current: Option<User>)

  /** `hasRole(roles)` over an explicit identity: false without a user,
      otherwise membership of the user's role in `roles`. */
  predicate HasAnyRole(user: Option<User>, roles: seq<string>)
  {
    user.Some? && user.value.role in roles
  }

  lemma HasAnyRoleFacts(user: Option<User>, roles: seq<string>, r: string)
    ensures !HasAnyRole(None, roles)
    ensures !HasAnyRole(user, [])
    ensures HasAnyRole(user, [r]) <==> user.Some? && user.value.role == r
    ensures HasAnyRole(user, roles) ==> user.Some? && exists i :: 0 <= i < |roles| && roles[i] == user.value.role
  {
  }

  /** The state right after construction: the subject starts from the stored
      user; the token stays in storage. */
  function Hydrated(token: Option<string>, user: Option<User>): Session
  {
    Session(token, user, user)
  }

  /** `response.token && response.user`: an empty token is falsy. */
  predicate Accepted(r: AuthResponse)
  {
    TruthyStr(r.token) && r.user.Some?
  }

  function AfterLogin(s: Session, r: AuthResponse): Session
  {
    if Accepted(r) then Session(r.token, r.user, r.user) else s
  }

  function AfterLogout(s: Session): Session
  {
    Session(None, None, None)
  }

  function AfterProfileUpdate(s: Session, r: ProfileResponse): Session
  {
    if r.user.Some? then s.(storedUser := r.user, current := r.user) else s
  }

  /** `isAuthenticated()`: a truthy stored token and a current user. */
  predicate Authenticated(s: Session)
  {
    TruthyStr(s.storedToken) && s.current.Some?
  }

  /** The subject's value equals the stored user. */
  predicate Mirrored(s: Session)
  {
    s.storedUser == s.current
  }

  /** Token key and user key are present together. */
  predicate Paired(s: Session)
  {
    s.storedToken.Some? <==> s.storedUser.Some?
  }

  /** A login answer either installs token, user and current user together
      and authenticates the session, or changes nothing. */
  lemma LoginEffect(s: Session, r: AuthResponse)
    ensures Accepted(r) ==> Authenticated(AfterLogin(s, r))
    ensures Accepted(r) ==> AfterLogin(s, r).storedToken == r.token
    ensures Accepted(r) ==> AfterLogin(s, r).storedUser == r.user == AfterLogin(s, r).current
    ensures !Accepted(r) ==> AfterLogin(s, r) == s
  {
  }

  /** Logout ends every session, and a second logout changes nothing. */
  lemma LogoutIdempotent(s: Session)
    ensures !Authenticated(AfterLogout(s))
    ensures AfterLogout(s).current.None?
    ensures AfterLogout(AfterLogout(s)) == AfterLogout(s)
  {
  }

  /** A profile answer never touches the token; it replaces the user only
      when it carries one. */
  lemma ProfileUpdateEffect(s: Session, r: ProfileResponse)
    ensures AfterProfileUpdate(s, r).storedToken == s.storedToken
    ensures r.user.Some? ==> AfterProfileUpdate(s, r).current == r.user == AfterProfileUpdate(s, r).storedUser
    ensures r.user.None? ==> AfterProfileUpdate(s, r) == s
  {
  }

  /** Every transition keeps the subject equal to the stored user. */
  lemma MirroredInvariant(s: Session, token: Option<string>, user: Option<User>, r: AuthResponse, p: ProfileResponse)
    ensures Mirrored(Hydrated(token, user))
    ensures Mirrored(s) ==> Mirrored(AfterLogin(s, r))
    ensures Mirrored(AfterLogout(s))
    ensures Mirrored(s) ==> Mirrored(AfterProfileUpdate(s, p))
  {
  }

  /** A reload of a reachable session from storage gives back that session:
      the round trip "persist, then hydrate". */
  lemma ReloadRoundTrip(s: Session)
    requires Mirrored(s)
    ensures Hydrated(s.storedToken, s.storedUser) == s
  {
  }

  /** Login and logout write or clear token and user as a pair; a profile
      answer keeps the pair while a token is stored. */
  lemma PairedInvariant(s: Session, r: AuthResponse, p: ProfileResponse)
    ensures Paired(s) ==> Paired(AfterLogin(s, r))
    ensures Paired(AfterLogout(s))
    ensures Paired(s) && s.storedToken.Some? ==> Paired(AfterProfileUpdate(s, p))
  {
  }

  /** The pairing is not kept by a profile answer that arrives after logout:
      the user key is written while the token key is absent. */
  lemma ProfileAfterLogoutUnpairs(s: Session, u: User)
    ensures Paired(AfterLogout(s))
    ensures !Paired(AfterProfileUpdate(AfterLogout(s), ProfileResponse(Some(u))))
    ensures !Authenticated(AfterProfileUpdate(AfterLogout(s), ProfileResponse(Some(u))))
  {
  }

  class AuthService {
    /** localStorage 'agrocean_token'. */
    var storedToken: Option<string>
    /** localStorage 'agrocean_user'. */
    var storedUser: Option<User>
    /** The value of `currentUserSubject`. */
    var currentUserValue: Option<User>
    /** Every value the current-user stream has carried, oldest first. */
    ghost var emitted: seq<Option<User>>

    function State(): Session
      reads this
    {
      Session(storedToken, storedUser, currentUserValue)
    }

    ghost predicate Valid()
      reads this
    {
      Mirrored(State()) && |emitted| > 0 && emitted[|emitted| - 1] == currentUserValue
    }

    /** Hydration from storage at start-up. */
    constructor (token: Option<string>, user: Option<User>)
      ensures Valid()
      ensures State() == Hydrated(token, user)
      ensures emitted == [user]
    {
      storedToken := token;
      storedUser := user;
      currentUserValue := user;
      emitted := [user];
    }

    /** The `tap` on the login answer; an error answer runs no tap. */
    method Login(reply: Reply<AuthResponse>)
      requires Valid()
      modifies this
      ensures Valid()
      ensures State() == if reply.Ok? then AfterLogin(old(State()), reply.body) else old(State())
      ensures emitted == if reply.Ok? && Accepted(reply.body) then old(emitted) + [reply.body.user] else old(emitted)
    {
      if reply.Ok? {
        var response := reply.body;
        if TruthyStr(response.token) && response.user.Some? {
          storedToken := response.token;
          storedUser := response.user;
          currentUserValue := response.user;
          emitted := emitted + [response.user];
        }
      }
    }

    /** Clears both keys, emits no user and navigates to the login page; the
        server notification is fire-and-forget. */
    method Logout() returns (navigateTo: seq<string>)
      requires Valid()
      modifies this
      ensures Valid()
      ensures State() == AfterLogout(old(State()))
      ensures emitted == old(emitted) + [None]
      ensures navigateTo == ["login"]
    {
      storedToken := None;
      storedUser := None;
      currentUserValue := None;
      emitted := emitted + [None];
      navigateTo := ["login"];
    }

    /** The `tap` on the profile answer. */
    method UpdateProfile(reply: Reply<ProfileResponse>)
      requires Valid()
      modifies this
      ensures Valid()
      ensures State() == if reply.Ok? then AfterProfileUpdate(old(State()), reply.body) else old(State())
      ensures emitted == if reply.Ok? && reply.body.user.Some? then old(emitted) + [reply.body.user] else old(emitted)
    {
      if reply.Ok? && reply.body.user.Some? {
        storedUser := reply.body.user;
        currentUserValue := reply.body.user;
        emitted := emitted + [reply.body.user];
      }
    }

    predicate IsAuthenticated()
      reads this
    {
      Authenticated(State())
    }

    predicate HasRole(roles: seq<string>)
      reads this
    {
      HasAnyRole(currentUserValue, roles)
    }

    predicate IsAdmin()
      reads this
    {
      HasRole([ADMINISTRATEUR])
    }

    predicate IsCommercial()
      reads this
    {
      HasRole([COMMERCIAL])
    }

    predicate IsGestionnaireStock()
      reads this
    {
      HasRole([GESTIONNAIRE_STOCK])
    }

    predicate IsComptable()
      reads this
    {
      HasRole([COMPTABLE])
    }

    predicate IsAgentApprovisionnement()
      reads this
    {
      HasRole([AGENT_APPROVISIONNEMENT])
    }
  }

  function Indicator(b: bool): nat
  {
    if b then 1 else 0
  }

  /** Each single-role predicate is membership of the user's role in a
      singleton, so at most one of them holds at a time, and none without a
      user. */
  lemma SingleRolePredicates(a: AuthService)
    ensures a.IsAdmin() <==> a.currentUserValue.Some? && a.currentUserValue.value.role == ADMINISTRATEUR
    ensures a.IsGestionnaireStock() <==> a.currentUserValue.Some? && a.currentUserValue.value.role == GESTIONNAIRE_STOCK
    ensures a.IsAgentApprovisionnement() <==> a.currentUserValue.Some? && a.currentUserValue.value.role == AGENT_APPROVISIONNEMENT
    ensures a.currentUserValue.None? ==> !(a.IsAdmin() || a.IsCommercial() || a.IsGestionnaireStock() || a.IsComptable() || a.IsAgentApprovisionnement())
    ensures Indicator(a.IsAdmin()) + Indicator(a.IsCommercial()) + Indicator(a.IsGestionnaireStock())
            + Indicator(a.IsComptable()) + Indicator(a.IsAgentApprovisionnement()) <= 1
  {
  }

  /** A client of the service: logging out twice leaves the state of one
      logout, and a login that carries no token changes nothing. */
  method LogoutTwiceScenario(a: AuthService, u: User)
    requires a.Valid()
    modifies a
  {
    var _ := a.Logout();
    var once := a.State();
    var _ := a.Logout();
    assert a.State() == once;
    a.Login(Ok(AuthResponse(Some(""), Some(u), 3600)));
    assert a.State() == once && !a.IsAuthenticated();
    a.Login(Ok(AuthResponse(Some("t"), Some(u), 3600)));
    assert a.IsAuthenticated() && a.currentUserValue == Some(u);
  }
}
