/**
 * frontend/src/context/AuthContext.tsx: the session the provider keeps (the
 * user, the token and the loading flag) and the two localStorage keys it
 * mirrors them to. The store is a map from key to text; what the HTTP calls
 * answer, and how `JSON.stringify` and `JSON.parse` treat a user, are
 * parameters.
 */
module AuthContext {
  import opened Wrappers
  import opened Types

  const TokenKey := "swift_flow_token"
  const UserKey := "swift_flow_user"

  /** What `JSON.parse` does with the stored user text: it throws, or gives a user or `null`. */
  datatype Parsed = ParseError | ParsedValue(user: Option<User>)

  /** The in-memory token and user together with the store. */
  datatype Snapshot = Snapshot(token: Option<string>, user: Option<User>, store: map<string, string>)

  /** `getItem(key)` is truthy: present and not the empty text. */
  predicate Stored(store: map<string, string>, key: string) {
    key in store && store[key] != ""
  }

  /**
   * The mount effect as written, from the provider's initial null token and
   * user: with both keys truthy, the token is set before the user text is
   * parsed, so a text that fails to parse leaves the token set, no user, and
   * both keys removed.
   */
  function RestoredAsWritten(store: map<string, string>, parse: string -> Parsed): (r: Snapshot)
    ensures !(Stored(store, TokenKey) && Stored(store, UserKey)) ==> r == Snapshot(None, None, store)
    ensures Stored(store, TokenKey) && Stored(store, UserKey) ==> r.token == Some(store[TokenKey])
    ensures Stored(store, TokenKey) && Stored(store, UserKey) && parse(store[UserKey]).ParseError? ==>
      r.user.None? && r.store == store - {TokenKey, UserKey}
    ensures Stored(store, TokenKey) && Stored(store, UserKey) && parse(store[UserKey]).ParsedValue? ==>
      r.user == parse(store[UserKey]).user && r.store == store
  {
    if Stored(store, TokenKey) && Stored(store, UserKey) then
      var t := store[TokenKey];
      match parse(store[UserKey])
      case ParseError => Snapshot(Some(t), None, store - {TokenKey, UserKey})
      case ParsedValue(u) => Snapshot(Some(t), u, store)
    else Snapshot(None, None, store)
  }

  /**
   * A stored user text that does not parse leaves the restored session with
   * a token and no user, and with nothing left in the store to back it.
   */
  lemma RestoreAsWrittenSplitsSession()
    ensures var r := RestoredAsWritten(map[TokenKey := "t", UserKey := "{"], _ => ParseError);
      r.token == Some("t") && r.user.None? && TokenKey !in r.store && UserKey !in r.store
  {
    var store := map[TokenKey := "t", UserKey := "{"];
    assert Stored(store, TokenKey) && Stored(store, UserKey);
  }

  /**
   * The mount effect as evidently intended: the token and the user are set
   * together, from both keys, only when the user text parses to a user; a
   * text that does not is removed along with the token.
   */
  function Restored(store: map<string, string>, parse: string -> Parsed): (r: Snapshot)
    ensures r.token.None? <==> r.user.None?
    ensures r.token.Some? ==>
      && Stored(store, TokenKey) && Stored(store, UserKey)
      && r.token == Some(store[TokenKey]) && parse(store[UserKey]) == ParsedValue(r.user) && r.store == store
    ensures Stored(store, TokenKey) && Stored(store, UserKey) && parse(store[UserKey]).ParsedValue? && parse(store[UserKey]).user.Some? ==>
      r == Snapshot(Some(store[TokenKey]), parse(store[UserKey]).user, store)
    ensures r.token.None? ==> r.store == if Stored(store, TokenKey) && Stored(store, UserKey) then store - {TokenKey, UserKey} else store
  {
    if Stored(store, TokenKey) && Stored(store, UserKey) then
      match parse(store[UserKey])
      case ParsedValue(Some(u)) => Snapshot(Some(store[TokenKey]), Some(u), store)
      case _ => Snapshot(None, None, store - {TokenKey, UserKey})
    else Snapshot(None, None, store)
  }

  /**
   * Restoring gives a session whose token and user are both set or both
   * unset, and mounting again on the store it leaves restores the same
   * session.
   */
  lemma RestoreIsStable(store: map<string, string>, parse: string -> Parsed)
    ensures var r := Restored(store, parse);
      Restored(r.store, parse).token == r.token && Restored(r.store, parse).user == r.user
  {
    var r := Restored(store, parse);
    if r.token.None? && Stored(store, TokenKey) && Stored(store, UserKey) {
      assert TokenKey !in r.store;
    }
  }

  /** `JSON.stringify` of a user is a non-empty text that `JSON.parse` reads back as the same user. */
  ghost predicate JsonRoundTrip(stringify: User -> string, parse: string -> Parsed) {
    forall u :: stringify(u) != "" && parse(stringify(u)) == ParsedValue(Some(u))
  }

  /** What the API call gave `login` or `register`: an answer, or an exception. */
  datatype AuthOutcome = Answered(response: AuthResponse) | Threw

  /** `response.success && response.token && response.user`. */
  predicate Accepted(r: AuthResponse) {
    r.success && r.token.Some? && r.token.value != "" && r.user.Some?
  }

  /** `useAuth`: the context, or the error thrown outside a provider. */
  function UseAuth<C>(context: Option<C>): (r: Result<C, string>)
    ensures r.Success? <==> context.Some?
    ensures r.Success? ==> r.value == context.value
    ensures r.Failure? ==> r.error == "useAuth must be used within an AuthProvider"
  {
    match context
    case Some(c) => Success(c)
    case None => Failure("useAuth must be used within an AuthProvider")
  }

  class Session {
    var user: Option<User>
    var token: Option<string>
    var loading: bool
    var store: map<string, string>

    function State(): Snapshot
      reads this
    {
      Snapshot(token, user, store)
    }

    /** Token and user are set together, and a fresh mount on the store would restore exactly them. */
    predicate Valid(parse: string -> Parsed)
      reads this
    {
      && (token.None? <==> user.None?)
      && Restored(store, parse).token == token && Restored(store, parse).user == user
    }

    /** The provider's first render: no user, no token, loading. */
    constructor (initial: map<string, string>)
      ensures user.None? && token.None? && loading && store == initial
    {
      user := None;
      token := None;
      loading := true;
      store := initial;
    }

    /** The mount effect (as evidently intended): restore from the store, then stop loading. */
    method Restore(parse: string -> Parsed)
      requires token.None? && user.None?
      modifies this
      ensures State() == Restored(old(store), parse)
      ensures !loading
      ensures Valid(parse)
    {
      if TokenKey in store && store[TokenKey] != "" && UserKey in store && store[UserKey] != "" {
        var storedToken, storedUser := store[TokenKey], store[UserKey];
        match parse(storedUser) {
          case ParsedValue(Some(u)) =>
            token := Some(storedToken);
            user := Some(u);
          case _ =>
            store := store - {TokenKey};
            store := store - {UserKey};
        }
      }
      RestoreIsStable(old(store), parse);
      loading := false;
    }

    /**
     * The body `login` and `register` share: an accepted answer is written to
     * both keys and then to the state; any other answer, or an exception,
     * leaves the session and the store as they were. The answer (or, for an
     * exception, a failure with the given message) is returned, and loading
     * ends false.
     */
    method Authenticate(outcome: AuthOutcome, thrownMessage: string, stringify: User -> string, parse: string -> Parsed)
      returns (response: AuthResponse)
      requires Valid(parse)
      requires JsonRoundTrip(stringify, parse)
      modifies this
      ensures outcome.Answered? && Accepted(outcome.response) ==>
        && token == outcome.response.token && user == outcome.response.user
        && store == old(store)[TokenKey := outcome.response.token.value][UserKey := stringify(outcome.response.user.value)]
      ensures !(outcome.Answered? && Accepted(outcome.response)) ==> State() == old(State())
      ensures response == if outcome.Answered? then outcome.response else AuthResponse(false, Some(thrownMessage), None, None, None)
      ensures !loading
      ensures Valid(parse)
    {
      loading := true;
      match outcome {
        case Threw =>
          response := AuthResponse(false, Some(thrownMessage), None, None, None);
        case Answered(r) =>
          if r.success && r.token.Some? && r.token.value != "" && r.user.Some? {
            store := store[TokenKey := r.token.value];
            store := store[UserKey := stringify(r.user.value)];
            token := r.token;
            user := r.user;
            assert Stored(store, TokenKey) && Stored(store, UserKey);
            assert parse(store[UserKey]) == ParsedValue(r.user);
          }
          response := r;
      }
      loading := false;
    }

    /** login: Authenticate with the login failure text. */
    method Login(outcome: AuthOutcome, stringify: User -> string, parse: string -> Parsed) returns (response: AuthResponse)
      requires Valid(parse)
      requires JsonRoundTrip(stringify, parse)
      modifies this
      ensures outcome.Answered? && Accepted(outcome.response) ==>
        && token == outcome.response.token && user == outcome.response.user
        && store == old(store)[TokenKey := outcome.response.token.value][UserKey := stringify(outcome.response.user.value)]
      ensures !(outcome.Answered? && Accepted(outcome.response)) ==> State() == old(State())
      ensures response == if outcome.Answered? then outcome.response else AuthResponse(false, Some("Login failed. Please try again."), None, None, None)
      ensures !loading
      ensures Valid(parse)
    {
      response := Authenticate(outcome, "Login failed. Please try again.", stringify, parse);
    }

    /** register: Authenticate with the registration failure text. */
    method Register(outcome: AuthOutcome, stringify: User -> string, parse: string -> Parsed) returns (response: AuthResponse)
      requires Valid(parse)
      requires JsonRoundTrip(stringify, parse)
      modifies this
      ensures outcome.Answered? && Accepted(outcome.response) ==>
        && token == outcome.response.token && user == outcome.response.user
        && store == old(store)[TokenKey := outcome.response.token.value][UserKey := stringify(outcome.response.user.value)]
      ensures !(outcome.Answered? && Accepted(outcome.response)) ==> State() == old(State())
      ensures response == if outcome.Answered? then outcome.response else AuthResponse(false, Some("Registration failed. Please try again."), None, None, None)
      ensures !loading
      ensures Valid(parse)
    {
      response := Authenticate(outcome, "Registration failed. Please try again.", stringify, parse);
    }

    /** logout: whatever the API call does, both keys are removed and the session is emptied. */
    method Logout(parse: string -> Parsed)
      modifies this
      ensures store == old(store) - {TokenKey, UserKey}
      ensures token.None? && user.None? && !loading
      ensures Valid(parse)
    {
      loading := true;
      store := store - {TokenKey};
      store := store - {UserKey};
      token := None;
      user := None;
      loading := false;
      assert TokenKey !in store;
    }
  }
}
