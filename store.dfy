/**
 * The store owned by `AppProvider` in src/context/AppContext.tsx and its
 * action creators.  Each creator first awaits the backend and only then
 * dispatches; the backend's answer (or the error `fetcher` throws) is a
 * parameter of the method.  Local storage under the token key is the
 * ghost field `persisted`, written by the reducer's LOGIN_SUCCESS,
 * AUTH_ERROR and LOGOUT cases.
 */
module Store {
  import opened Types
  import opened Reducer

  /** The error `fetcher` throws: the server's message and the HTTP status. */
  datatype ApiError = ApiError(message: string, status: int)

  /** What a dispatch of `a` leaves in local storage. */
  function Persist(stored: Option<Session>, a: Action): (r: Option<Session>)
    ensures a.LoginSuccess? ==> r == Some(a.session)
    ensures a.Logout? || a.AuthError? ==> r.None?
    ensures !(a.LoginSuccess? || a.Logout? || a.AuthError?) ==> r == stored
  {
    match a
    case LoginSuccess(session) => Some(session)
    case Logout => None
    case AuthError(_) => None
    case _ => stored
  }

  /** The message dispatched when no AI client could be built. */
  const AiUnavailableMessage: string := "La configuración de la API de IA no está disponible."

  /** The message dispatched when the AI call failed without a message. */
  const AiFallbackMessage: string := "Failed to get a response from the AI."

  /**
   * The state `sendMessageToAI` leaves: without an AI client an error turn
   * is appended; without a user nothing happens; otherwise the user turn
   * is appended, then the reply (`response.text ?? ''`) or the error
   * (`error.message || fallback`).
   */
  function SendMessageEffect(s: AppState, message: string, aiAvailable: bool, reply: Result<Option<string>, string>): AppState
  {
    if !aiAvailable then Reduce(s, SendChatMessageError(AiUnavailableMessage))
    else if s.user.None? then s
    else
      var started := Reduce(s, SendChatMessageStart(message));
      match reply
      case Success(text) => Reduce(started, SendChatMessageSuccess(if text.Some? then text.value else ""))
      case Failure(error) => Reduce(started, SendChatMessageError(if error == "" then AiFallbackMessage else error))
  }

  /** The model turn that closes a call that reached the AI service. */
  function ReplyTurn(reply: Result<Option<string>, string>): ChatMessage
  {
    match reply
    case Success(text) => ChatMessage(ModelTurn, if text.Some? then text.value else "")
    case Failure(error) => ChatMessage(ModelTurn, ErrorTurn(if error == "" then AiFallbackMessage else error))
  }

  /**
   * A logged-in send with an AI client appends exactly the user's message
   * and one model turn, clears the loading flag and changes nothing else;
   * without a user nothing changes; without an AI client only an error
   * turn is appended.
   */
  lemma SendMessageTurns(s: AppState, message: string, aiAvailable: bool, reply: Result<Option<string>, string>)
    ensures var r := SendMessageEffect(s, message, aiAvailable, reply);
      && (aiAvailable && s.user.Some? ==>
            && r.chatMessages == s.chatMessages + [ChatMessage(UserTurn, message), ReplyTurn(reply)]
            && !r.isChatLoading
            && r.(chatMessages := s.chatMessages, isChatLoading := s.isChatLoading) == s)
      && (aiAvailable && s.user.None? ==> r == s)
      && (!aiAvailable ==>
            && r.chatMessages == s.chatMessages + [ChatMessage(ModelTurn, ErrorTurn(AiUnavailableMessage))]
            && !r.isChatLoading)
  {
    if aiAvailable && s.user.Some? {
      SentAndAnswered(s, message, reply);
    }
  }

  /** A send that reaches the AI service: the user turn, then the reply turn. */
  lemma SentAndAnswered(s: AppState, message: string, reply: Result<Option<string>, string>)
    requires s.user.Some?
    ensures var r := SendMessageEffect(s, message, true, reply);
      && r == s.(isChatLoading := false, chatMessages := s.chatMessages + [ChatMessage(UserTurn, message), ReplyTurn(reply)])
  {
    var started := s.(isChatLoading := true, chatMessages := s.chatMessages + [ChatMessage(UserTurn, message)]);
    StartStep(s, message);
    assert started.chatMessages + [ReplyTurn(reply)] == s.chatMessages + [ChatMessage(UserTurn, message), ReplyTurn(reply)];
    match reply
    case Success(text) =>
      SuccessStep(started, if text.Some? then text.value else "");
    case Failure(error) =>
      ErrorStep(started, if error == "" then AiFallbackMessage else error);
  }

  /**
   * The state `login` leaves: AUTH_ERROR if the login request fails;
   * otherwise LOGIN_SUCCESS, then SET_INITIAL_STATE with the fetched
   * collections, or AUTH_ERROR if that fetch fails.
   */
  function LoginEffect(s: AppState, login: Result<Session, ApiError>, data: Result<Collections, ApiError>): AppState
  {
    match login
    case Failure(e) => Reduce(s, AuthError(e.message))
    case Success(session) =>
      var loggedIn := Reduce(s, LoginSuccess(session));
      match data
      case Success(collections) => Reduce(loggedIn, SetInitialState(collections))
      case Failure(e) => Reduce(loggedIn, AuthError(e.message))
  }

  /** What `login` leaves in local storage. */
  function LoginPersisted(stored: Option<Session>, login: Result<Session, ApiError>, data: Result<Collections, ApiError>): Option<Session>
  {
    match login
    case Failure(_) => Persist(stored, AuthError(""))
    case Success(session) =>
      var afterLogin := Persist(stored, LoginSuccess(session));
      match data
      case Success(collections) => Persist(afterLogin, SetInitialState(collections))
      case Failure(e) => Persist(afterLogin, AuthError(e.message))
  }

  /**
   * `login` ends authenticated exactly when both the login request and the
   * data fetch succeed; then the user, token and collections are the
   * server's and the session is persisted.  Any failure leaves the user
   * logged out with that failure's message, the collections untouched and
   * nothing persisted.
   */
  lemma LoginOutcome(s: AppState, stored: Option<Session>, login: Result<Session, ApiError>, data: Result<Collections, ApiError>)
    ensures var r := LoginEffect(s, login, data);
      var p := LoginPersisted(stored, login, data);
      && (r.isAuthenticated <==> login.Success? && data.Success?)
      && (login.Success? && data.Success? ==>
            && r.user == Some(login.value.user) && r.token == Some(login.value.token)
            && r.authError.None? && CollectionsOf(r) == data.value && p == Some(login.value))
      && (login.Failure? ==>
            r.authError == Some(login.error.message) && CollectionsOf(r) == CollectionsOf(s) && p.None?)
      && (login.Success? && data.Failure? ==>
            r.authError == Some(data.error.message) && CollectionsOf(r) == CollectionsOf(s)
            && r.user.None? && p.None?)
      && r.chatMessages == s.chatMessages && r.isInitialized == s.isInitialized
  {
    match login
    case Failure(e) => LoginRefused(s, stored, e, data);
    case Success(session) =>
      match data
      case Success(collections) => LoginLoaded(s, stored, session, collections);
      case Failure(e) => LoginLoadFailed(s, stored, session, e);
  }

  /** A refused login records the error and forgets the session. */
  lemma LoginRefused(s: AppState, stored: Option<Session>, e: ApiError, data: Result<Collections, ApiError>)
    ensures LoginEffect(s, Failure(e), data)
      == s.(isAuthenticated := false, user := None, token := None, authError := Some(e.message))
    ensures LoginPersisted(stored, Failure(e), data).None?
  {
    AuthErrorStep(s, e.message);
  }

  /** A login whose data fetch succeeds ends with the session and the fetched collections. */
  lemma LoginLoaded(s: AppState, stored: Option<Session>, session: Session, data: Collections)
    ensures LoginEffect(s, Success(session), Success(data))
      == s.(isAuthenticated := true, user := Some(session.user), token := Some(session.token), authError := None,
            clients := data.clients, products := data.products, suppliers := data.suppliers, orders := data.orders)
    ensures LoginPersisted(stored, Success(session), Success(data)) == Some(session)
  {
    LoginStep(s, session);
    LoadStep(Reduce(s, LoginSuccess(session)), data);
  }

  /** A login whose data fetch fails ends logged out with the fetch's error. */
  lemma LoginLoadFailed(s: AppState, stored: Option<Session>, session: Session, e: ApiError)
    ensures LoginEffect(s, Success(session), Failure(e))
      == s.(isAuthenticated := false, user := None, token := None, authError := Some(e.message))
    ensures LoginPersisted(stored, Success(session), Failure(e)).None?
  {
    LoginStep(s, session);
    AuthErrorStep(Reduce(s, LoginSuccess(session)), e.message);
  }

  /**
   * The state `initializeApp` leaves: with a stored session it is restored
   * and the collections are fetched (LOGOUT if that fails); in every case
   * INITIALIZATION_COMPLETE follows.
   */
  function InitializeEffect(s: AppState, stored: Option<Session>, data: Result<Collections, ApiError>): AppState
  {
    var restored :=
      match stored
      case None => s
      case Some(session) =>
        var online := Reduce(Reduce(s, LoginSuccess(session)), SetOnlineStatus(true));
        match data
        case Success(collections) => Reduce(online, SetInitialState(collections))
        case Failure(_) => Reduce(online, Logout);
    Reduce(restored, InitializationComplete)
  }

  /**
   * Start-up always opens the initialization gate.  Without a stored
   * session nothing else changes; a stored session whose data fetch fails
   * ends logged out with empty collections; one whose fetch succeeds ends
   * authenticated as the stored user with the fetched collections.
   */
  lemma InitializeOutcome(s: AppState, stored: Option<Session>, data: Result<Collections, ApiError>)
    ensures var r := InitializeEffect(s, stored, data);
      && r.isInitialized
      && (stored.None? ==> r == s.(isInitialized := true))
      && (stored.Some? && data.Failure? ==> r == InitialState().(isInitialized := true))
      && (stored.Some? && data.Success? ==>
            r.isAuthenticated && r.user == Some(stored.value.user) && CollectionsOf(r) == data.value && r.isOnline)
  {
    if stored.Some? {
      RestoreSession(s, stored.value, data);
    }
  }

  /** A stored session is restored, marked online, then loaded or logged out. */
  lemma RestoreSession(s: AppState, session: Session, data: Result<Collections, ApiError>)
    ensures var online := s.(isAuthenticated := true, user := Some(session.user), token := Some(session.token),
                             authError := None, isOnline := true);
      Reduce(Reduce(s, LoginSuccess(session)), SetOnlineStatus(true)) == online
      && (data.Success? ==> InitializeEffect(s, Some(session), data) == online.(clients := data.value.clients,
            products := data.value.products, suppliers := data.value.suppliers, orders := data.value.orders, isInitialized := true))
      && (data.Failure? ==> InitializeEffect(s, Some(session), data) == InitialState().(isInitialized := true))
  {
    var loggedIn := s.(isAuthenticated := true, user := Some(session.user), token := Some(session.token), authError := None);
    LoginStep(s, session);
    var online := loggedIn.(isOnline := true);
    assert Reduce(loggedIn, SetOnlineStatus(true)) == online;
    match data
    case Success(collections) =>
      LoadStep(online, collections);
    case Failure(_) =>
      LogoutResets(online);
  }

  /** The application store: the reducer's state and the persisted session. */
  class AppStore {
    var state: AppState
    ghost var persisted: Option<Session>

    /** `useReducer(appReducer, initialState)`, with whatever local storage holds. */
    constructor (ghost stored: Option<Session>)
      ensures state == InitialState() && persisted == stored
    {
      state := InitialState();
      persisted := stored;
    }

    /** `dispatch`: one reducer step, with its local-storage side effect. */
    method Dispatch(a: Action)
      modifies this
      ensures state == Reduce(old(state), a)
      ensures persisted == Persist(old(persisted), a)
    {
      state := Reduce(state, a);
      persisted := Persist(persisted, a);
    }

    /** `initializeApp`, run once on mount; `stored` is what local storage holds. */
    method InitializeApp(stored: Option<Session>, data: Result<Collections, ApiError>)
      requires stored == persisted
      modifies this
      ensures state == InitializeEffect(old(state), stored, data)
      ensures stored.Some? && data.Failure? ==> persisted.None?
      ensures !(stored.Some? && data.Failure?) ==> persisted == old(persisted)
    {
      if stored.Some? {
        Dispatch(LoginSuccess(stored.value));
        Dispatch(SetOnlineStatus(true));
        if data.Success? {
          Dispatch(SetInitialState(data.value));
        } else {
          Dispatch(Action.Logout);
        }
      }
      Dispatch(InitializationComplete);
    }

    /** `login`; a failure is dispatched as AUTH_ERROR and re-thrown. */
    method Login(login: Result<Session, ApiError>, data: Result<Collections, ApiError>) returns (outcome: Outcome<ApiError>)
      modifies this
      ensures state == LoginEffect(old(state), login, data)
      ensures persisted == LoginPersisted(old(persisted), login, data)
      ensures outcome == (if login.Failure? then Fail(login.error) else if data.Failure? then Fail(data.error) else Pass)
    {
      if login.Failure? {
        Dispatch(AuthError(login.error.message));
        return Fail(login.error);
      }
      Dispatch(LoginSuccess(login.value));
      if data.Failure? {
        Dispatch(AuthError(data.error.message));
        return Fail(data.error);
      }
      Dispatch(SetInitialState(data.value));
      outcome := Pass;
    }

    method Logout()
      modifies this
      ensures state == Reduce(old(state), Action.Logout) && persisted.None?
    {
      Dispatch(Action.Logout);
    }

    method ToggleChat()
      modifies this
      ensures state == Reduce(old(state), Action.ToggleChat) && persisted == old(persisted)
    {
      Dispatch(Action.ToggleChat);
    }

    /** `sendMessageToAI`; `aiAvailable` says whether an AI client was configured. */
    method SendMessageToAI(message: string, aiAvailable: bool, reply: Result<Option<string>, string>)
      modifies this
      ensures state == SendMessageEffect(old(state), message, aiAvailable, reply)
      ensures persisted == old(persisted)
    {
      if !aiAvailable {
        Dispatch(SendChatMessageError(AiUnavailableMessage));
        return;
      }
      if state.user.None? {
        return;
      }
      Dispatch(SendChatMessageStart(message));
      match reply {
        case Success(text) =>
          Dispatch(SendChatMessageSuccess(if text.Some? then text.value else ""));
        case Failure(error) =>
          Dispatch(SendChatMessageError(if error == "" then AiFallbackMessage else error));
      }
    }

    method AddClient(response: Result<Client, ApiError>) returns (outcome: Outcome<ApiError>)
      modifies this
      ensures response.Failure? ==> state == old(state) && outcome == Fail(response.error)
      ensures response.Success? ==> state == Reduce(old(state), Action.AddClient(response.value)) && outcome == Pass
      ensures persisted == old(persisted)
    {
      if response.Failure? {
        return Fail(response.error);
      }
      Dispatch(Action.AddClient(response.value));
      outcome := Pass;
    }

    method UpdateClient(response: Result<Client, ApiError>) returns (outcome: Outcome<ApiError>)
      modifies this
      ensures response.Failure? ==> state == old(state) && outcome == Fail(response.error)
      ensures response.Success? ==> state == Reduce(old(state), Action.UpdateClient(response.value)) && outcome == Pass
      ensures persisted == old(persisted)
    {
      if response.Failure? {
        return Fail(response.error);
      }
      Dispatch(Action.UpdateClient(response.value));
      outcome := Pass;
    }

    method DeleteClient(id: string, response: Outcome<ApiError>) returns (outcome: Outcome<ApiError>)
      modifies this
      ensures response.Fail? ==> state == old(state) && outcome == response
      ensures response.Pass? ==> state == Reduce(old(state), Action.DeleteClient(id)) && outcome == Pass
      ensures persisted == old(persisted)
    {
      if response.Fail? {
        return response;
      }
      Dispatch(Action.DeleteClient(id));
      outcome := Pass;
    }

    method AddProduct(response: Result<Product, ApiError>) returns (outcome: Outcome<ApiError>)
      modifies this
      ensures response.Failure? ==> state == old(state) && outcome == Fail(response.error)
      ensures response.Success? ==> state == Reduce(old(state), Action.AddProduct(response.value)) && outcome == Pass
      ensures persisted == old(persisted)
    {
      if response.Failure? {
        return Fail(response.error);
      }
      Dispatch(Action.AddProduct(response.value));
      outcome := Pass;
    }

    method UpdateProduct(response: Result<Product, ApiError>) returns (outcome: Outcome<ApiError>)
      modifies this
      ensures response.Failure? ==> state == old(state) && outcome == Fail(response.error)
      ensures response.Success? ==> state == Reduce(old(state), Action.UpdateProduct(response.value)) && outcome == Pass
      ensures persisted == old(persisted)
    {
      if response.Failure? {
        return Fail(response.error);
      }
      Dispatch(Action.UpdateProduct(response.value));
      outcome := Pass;
    }

    method DeleteProduct(id: string, response: Outcome<ApiError>) returns (outcome: Outcome<ApiError>)
      modifies this
      ensures response.Fail? ==> state == old(state) && outcome == response
      ensures response.Pass? ==> state == Reduce(old(state), Action.DeleteProduct(id)) && outcome == Pass
      ensures persisted == old(persisted)
    {
      if response.Fail? {
        return response;
      }
      Dispatch(Action.DeleteProduct(id));
      outcome := Pass;
    }

    method AddSupplier(response: Result<Supplier, ApiError>) returns (outcome: Outcome<ApiError>)
      modifies this
      ensures response.Failure? ==> state == old(state) && outcome == Fail(response.error)
      ensures response.Success? ==> state == Reduce(old(state), Action.AddSupplier(response.value)) && outcome == Pass
      ensures persisted == old(persisted)
    {
      if response.Failure? {
        return Fail(response.error);
      }
      Dispatch(Action.AddSupplier(response.value));
      outcome := Pass;
    }

    method UpdateSupplier(response: Result<Supplier, ApiError>) returns (outcome: Outcome<ApiError>)
      modifies this
      ensures response.Failure? ==> state == old(state) && outcome == Fail(response.error)
      ensures response.Success? ==> state == Reduce(old(state), Action.UpdateSupplier(response.value)) && outcome == Pass
      ensures persisted == old(persisted)
    {
      if response.Failure? {
        return Fail(response.error);
      }
      Dispatch(Action.UpdateSupplier(response.value));
      outcome := Pass;
    }

    method DeleteSupplier(id: string, response: Outcome<ApiError>) returns (outcome: Outcome<ApiError>)
      modifies this
      ensures response.Fail? ==> state == old(state) && outcome == response
      ensures response.Pass? ==> state == Reduce(old(state), Action.DeleteSupplier(id)) && outcome == Pass
      ensures persisted == old(persisted)
    {
      if response.Fail? {
        return response;
      }
      Dispatch(Action.DeleteSupplier(id));
      outcome := Pass;
    }

    method AddOrder(response: Result<WorkOrder, ApiError>) returns (outcome: Outcome<ApiError>)
      modifies this
      ensures response.Failure? ==> state == old(state) && outcome == Fail(response.error)
      ensures response.Success? ==> state == Reduce(old(state), Action.AddOrder(response.value)) && outcome == Pass
      ensures persisted == old(persisted)
    {
      if response.Failure? {
        return Fail(response.error);
      }
      Dispatch(Action.AddOrder(response.value));
      outcome := Pass;
    }

    method UpdateOrder(response: Result<WorkOrder, ApiError>) returns (outcome: Outcome<ApiError>)
      modifies this
      ensures response.Failure? ==> state == old(state) && outcome == Fail(response.error)
      ensures response.Success? ==> state == Reduce(old(state), Action.UpdateOrder(response.value)) && outcome == Pass
      ensures persisted == old(persisted)
    {
      if response.Failure? {
        return Fail(response.error);
      }
      Dispatch(Action.UpdateOrder(response.value));
      outcome := Pass;
    }

    method DeleteOrder(id: string, response: Outcome<ApiError>) returns (outcome: Outcome<ApiError>)
      modifies this
      ensures response.Fail? ==> state == old(state) && outcome == response
      ensures response.Pass? ==> state == Reduce(old(state), Action.DeleteOrder(id)) && outcome == Pass
      ensures persisted == old(persisted)
    {
      if response.Fail? {
        return response;
      }
      Dispatch(Action.DeleteOrder(id));
      outcome := Pass;
    }
  }
}
