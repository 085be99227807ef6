/**
 * The application store's transition function: `initialState` and
 * `appReducer` of src/context/AppContext.tsx.  Each case copies the state
 * and overwrites the fields it names; everything else is carried over.
 */
module Reducer {
  import opened Types
  import opened Lists

  /** `initialState`: empty collections, online, not initialized, logged out. */
  function InitialState(): (s: AppState)
    ensures s.clients == [] && s.products == [] && s.suppliers == [] && s.orders == []
    ensures !s.isInitialized && !s.isAuthenticated && s.user.None? && s.token.None?
    ensures s.chatMessages == [] && !s.isChatOpen && !s.isChatLoading
    ensures s.isOnline && !s.showDummyDataModal && s.authError.None?
  {
    AppState(
      clients := [], products := [], suppliers := [], orders := [],
      isOnline := true, isInitialized := false, showDummyDataModal := false,
      isChatOpen := false, isChatLoading := false, chatMessages := [],
      isAuthenticated := false, user := None, token := None, authError := None)
  }

  /** The four entity collections of a state. */
  function CollectionsOf(s: AppState): Collections
  {
    Collections(s.clients, s.products, s.suppliers, s.orders)
  }

  /** The authentication fields of a state. */
  function SessionFields(s: AppState): (bool, Option<User>, Option<string>, Option<string>)
  {
    (s.isAuthenticated, s.user, s.token, s.authError)
  }

  predicate IsEntityAction(a: Action)
  {
    a.AddClient? || a.UpdateClient? || a.DeleteClient?
    || a.AddProduct? || a.UpdateProduct? || a.DeleteProduct?
    || a.AddSupplier? || a.UpdateSupplier? || a.DeleteSupplier?
    || a.AddOrder? || a.UpdateOrder? || a.DeleteOrder?
  }

  predicate IsChatMessageAction(a: Action)
  {
    a.SendChatMessageStart? || a.SendChatMessageSuccess? || a.SendChatMessageError?
  }

  /** The content of the model turn SEND_CHAT_MESSAGE_ERROR appends. */
  function ErrorTurn(message: string): (content: string)
    ensures |content| == |message| + 7 && content[..7] == "Error: " && content[7..] == message
  {
    "Error: " + message
  }

  /** `appReducer`: the next state for one dispatched action. */
  function Reduce(s: AppState, a: Action): AppState
  {
    match a
    case LoginSuccess(session) =>
      s.(isAuthenticated := true, user := Some(session.user), token := Some(session.token), authError := None)
    case Logout =>
      InitialState().(isInitialized := true, isAuthenticated := false, user := None, token := None)
    case AuthError(message) =>
      s.(isAuthenticated := false, user := None, token := None, authError := Some(message))
    case SetInitialState(data) =>
      s.(clients := data.clients, products := data.products, suppliers := data.suppliers, orders := data.orders)
    case SetOnlineStatus(online) => s.(isOnline := online)
    case InitializationComplete => s.(isInitialized := true)
    case AddClient(c) => s.(clients := s.clients + [c])
    case UpdateClient(c) => s.(clients := ReplaceById(s.clients, ClientId, c))
    case DeleteClient(id) => s.(clients := RemoveById(s.clients, ClientId, id))
    case AddProduct(p) => s.(products := s.products + [p])
    case UpdateProduct(p) => s.(products := ReplaceById(s.products, ProductId, p))
    case DeleteProduct(id) => s.(products := RemoveById(s.products, ProductId, id))
    case AddSupplier(p) => s.(suppliers := s.suppliers + [p])
    case UpdateSupplier(p) => s.(suppliers := ReplaceById(s.suppliers, SupplierId, p))
    case DeleteSupplier(id) => s.(suppliers := RemoveById(s.suppliers, SupplierId, id))
    case AddOrder(o) => s.(orders := s.orders + [o])
    case UpdateOrder(o) => s.(orders := ReplaceById(s.orders, OrderId, o))
    case DeleteOrder(id) => s.(orders := RemoveById(s.orders, OrderId, id))
    case ToggleChat => s.(isChatOpen := !s.isChatOpen)
    case SendChatMessageStart(text) =>
      s.(isChatLoading := true, chatMessages := s.chatMessages + [ChatMessage(UserTurn, text)])
    case SendChatMessageSuccess(reply) =>
      s.(isChatLoading := false, chatMessages := s.chatMessages + [ChatMessage(ModelTurn, reply)])
    case SendChatMessageError(message) =>
      s.(isChatLoading := false, chatMessages := s.chatMessages + [ChatMessage(ModelTurn, ErrorTurn(message))])
    case ShowDummyDataModal(_) => s
  }

  /**
   * What every transition respects: the initialization gate never closes
   * again; the entity collections change only under entity actions,
   * SET_INITIAL_STATE and LOGOUT; the session fields change only under
   * LOGIN_SUCCESS, AUTH_ERROR and LOGOUT; the chat log changes only under
   * the three chat-message actions and LOGOUT.
   */
  lemma ReduceFrame(s: AppState, a: Action)
    ensures var r := Reduce(s, a);
      && (s.isInitialized ==> r.isInitialized)
      && (CollectionsOf(r) != CollectionsOf(s) ==> IsEntityAction(a) || a.SetInitialState? || a.Logout?)
      && (SessionFields(r) != SessionFields(s) ==> a.LoginSuccess? || a.AuthError? || a.Logout?)
      && (r.chatMessages != s.chatMessages ==> IsChatMessageAction(a) || a.Logout?)
  {
    GateStaysOpen(s, a);
    CollectionsFrame(s, a);
    SessionFrame(s, a);
    ChatFrame(s, a);
  }

  /** No action closes the initialization gate once it is open. */
  lemma GateStaysOpen(s: AppState, a: Action)
    ensures s.isInitialized ==> Reduce(s, a).isInitialized
  {
    if a.Logout? {
      LogoutResets(s);
    }
  }

  /** Actions other than entity actions, SET_INITIAL_STATE and LOGOUT leave the collections alone. */
  lemma CollectionsFrame(s: AppState, a: Action)
    ensures !(IsEntityAction(a) || a.SetInitialState? || a.Logout?) ==> CollectionsOf(Reduce(s, a)) == CollectionsOf(s)
  {
  }

  /** Actions other than LOGIN_SUCCESS, AUTH_ERROR and LOGOUT leave the session fields alone. */
  lemma SessionFrame(s: AppState, a: Action)
    ensures !(a.LoginSuccess? || a.AuthError? || a.Logout?) ==> SessionFields(Reduce(s, a)) == SessionFields(s)
  {
  }

  /** Actions other than the chat-message actions and LOGOUT leave the chat log alone. */
  lemma ChatFrame(s: AppState, a: Action)
    ensures !(IsChatMessageAction(a) || a.Logout?) ==> Reduce(s, a).chatMessages == s.chatMessages
  {
  }

  /** Applies a sequence of actions in order, as successive dispatches do. */
  function ReduceAll(s: AppState, actions: seq<Action>): AppState
    decreases |actions|
  {
    if |actions| == 0 then s else ReduceAll(Reduce(s, actions[0]), actions[1..])
  }

  /** `ys` is `xs` with exactly `x` appended. */
  predicate AppendedOne<T(==)>(xs: seq<T>, ys: seq<T>, x: T)
  {
    |ys| == |xs| + 1 && ys[..|xs|] == xs && ys[|xs|] == x
  }

  /** The state with its four collections put back to those of `s`. */
  function WithCollectionsOf(r: AppState, s: AppState): AppState
  {
    r.(clients := s.clients, products := s.products, suppliers := s.suppliers, orders := s.orders)
  }

  /**
   * ADD_<E> appends exactly the payload at the end of its own list and
   * changes no other collection and no other field.
   */
  lemma AddAppendsOne(s: AppState, a: Action)
    requires a.AddClient? || a.AddProduct? || a.AddSupplier? || a.AddOrder?
    ensures var r := Reduce(s, a);
      && WithCollectionsOf(r, s) == s
      && (if a.AddClient? then AppendedOne(s.clients, r.clients, a.client) else r.clients == s.clients)
      && (if a.AddProduct? then AppendedOne(s.products, r.products, a.product) else r.products == s.products)
      && (if a.AddSupplier? then AppendedOne(s.suppliers, r.suppliers, a.supplier) else r.suppliers == s.suppliers)
      && (if a.AddOrder? then AppendedOne(s.orders, r.orders, a.order) else r.orders == s.orders)
  {
  }

  /**
   * UPDATE_<E> keeps the length and order of its list, puts the payload in
   * every slot whose record has the payload's id and leaves every other
   * slot, every other collection and every other field as they were.
   */
  lemma UpdateReplacesMatching(s: AppState, a: Action)
    requires a.UpdateClient? || a.UpdateProduct? || a.UpdateSupplier? || a.UpdateOrder?
    ensures var r := Reduce(s, a);
      && WithCollectionsOf(r, s) == s
      && |r.clients| == |s.clients| && |r.products| == |s.products|
      && |r.suppliers| == |s.suppliers| && |r.orders| == |s.orders|
      && (forall i :: 0 <= i < |s.clients| ==>
            r.clients[i] == if a.UpdateClient? && s.clients[i].id == a.client.id then a.client else s.clients[i])
      && (forall i :: 0 <= i < |s.products| ==>
            r.products[i] == if a.UpdateProduct? && s.products[i].id == a.product.id then a.product else s.products[i])
      && (forall i :: 0 <= i < |s.suppliers| ==>
            r.suppliers[i] == if a.UpdateSupplier? && s.suppliers[i].id == a.supplier.id then a.supplier else s.suppliers[i])
      && (forall i :: 0 <= i < |s.orders| ==>
            r.orders[i] == if a.UpdateOrder? && s.orders[i].id == a.order.id then a.order else s.orders[i])
  {
  }

  /** UPDATE_ORDER for an id no stored order has is a no-op (likewise for the other entities). */
  lemma UpdateUnknownIdIsNoOp(s: AppState, o: WorkOrder)
    requires forall i :: 0 <= i < |s.orders| ==> s.orders[i].id != o.id
    ensures Reduce(s, UpdateOrder(o)) == s
  {
    ReplaceByIdNoMatch(s.orders, OrderId, o);
  }

  /**
   * DELETE_<E> leaves no record with the id in its list, keeps every other
   * record (with its multiplicity, in order) and touches nothing else.
   */
  lemma DeleteRemovesId(s: AppState, a: Action)
    requires a.DeleteClient? || a.DeleteProduct? || a.DeleteSupplier? || a.DeleteOrder?
    ensures var r := Reduce(s, a);
      && WithCollectionsOf(r, s) == s
      && (if a.DeleteClient? then
            (forall c :: c in r.clients ==> c.id != a.clientId)
            && (forall c: Client :: c.id != a.clientId ==> multiset(r.clients)[c] == multiset(s.clients)[c])
            && IsSubsequence(r.clients, s.clients)
          else r.clients == s.clients)
      && (if a.DeleteProduct? then
            (forall p :: p in r.products ==> p.id != a.productId)
            && (forall p: Product :: p.id != a.productId ==> multiset(r.products)[p] == multiset(s.products)[p])
            && IsSubsequence(r.products, s.products)
          else r.products == s.products)
      && (if a.DeleteSupplier? then
            (forall p :: p in r.suppliers ==> p.id != a.supplierId)
            && (forall p: Supplier :: p.id != a.supplierId ==> multiset(r.suppliers)[p] == multiset(s.suppliers)[p])
            && IsSubsequence(r.suppliers, s.suppliers)
          else r.suppliers == s.suppliers)
      && (if a.DeleteOrder? then
            (forall o :: o in r.orders ==> o.id != a.orderId)
            && (forall o: WorkOrder :: o.id != a.orderId ==> multiset(r.orders)[o] == multiset(s.orders)[o])
            && IsSubsequence(r.orders, s.orders)
          else r.orders == s.orders)
  {
    if a.DeleteClient? {
      DeleteClientStep(s, a.clientId);
      RemovedIdsGone(s.clients, ClientId, a.clientId);
    } else if a.DeleteProduct? {
      DeleteProductStep(s, a.productId);
      RemovedIdsGone(s.products, ProductId, a.productId);
    } else if a.DeleteSupplier? {
      DeleteSupplierStep(s, a.supplierId);
      RemovedIdsGone(s.suppliers, SupplierId, a.supplierId);
    } else {
      DeleteOrderStep(s, a.orderId);
      RemovedIdsGone(s.orders, OrderId, a.orderId);
    }
  }

  /** The state DELETE_CLIENT yields: the clients filtered, all else as it was (likewise below). */
  lemma DeleteClientStep(s: AppState, id: string)
    ensures Reduce(s, DeleteClient(id)) == s.(clients := RemoveById(s.clients, ClientId, id))
  {
  }

  lemma DeleteProductStep(s: AppState, id: string)
    ensures Reduce(s, DeleteProduct(id)) == s.(products := RemoveById(s.products, ProductId, id))
  {
  }

  lemma DeleteSupplierStep(s: AppState, id: string)
    ensures Reduce(s, DeleteSupplier(id)) == s.(suppliers := RemoveById(s.suppliers, SupplierId, id))
  {
  }

  lemma DeleteOrderStep(s: AppState, id: string)
    ensures Reduce(s, DeleteOrder(id)) == s.(orders := RemoveById(s.orders, OrderId, id))
  {
  }

  /** Dispatching the same DELETE twice gives the same state as dispatching it once. */
  lemma DeleteIdempotent(s: AppState, a: Action)
    requires a.DeleteClient? || a.DeleteProduct? || a.DeleteSupplier? || a.DeleteOrder?
    ensures Reduce(Reduce(s, a), a) == Reduce(s, a)
  {
    if a.DeleteClient? {
      DeleteClientTwice(s, a.clientId);
    } else if a.DeleteProduct? {
      DeleteProductTwice(s, a.productId);
    } else if a.DeleteSupplier? {
      DeleteSupplierTwice(s, a.supplierId);
    } else {
      DeleteOrderTwice(s, a.orderId);
    }
  }

  /** DELETE_CLIENT for the same id, twice, is DELETE_CLIENT once (likewise below for the other entities). */
  lemma DeleteClientTwice(s: AppState, id: string)
    ensures Reduce(Reduce(s, DeleteClient(id)), DeleteClient(id)) == Reduce(s, DeleteClient(id))
  {
    RemoveByIdIdempotent(s.clients, ClientId, id);
  }

  lemma DeleteProductTwice(s: AppState, id: string)
    ensures Reduce(Reduce(s, DeleteProduct(id)), DeleteProduct(id)) == Reduce(s, DeleteProduct(id))
  {
    RemoveByIdIdempotent(s.products, ProductId, id);
  }

  lemma DeleteSupplierTwice(s: AppState, id: string)
    ensures Reduce(Reduce(s, DeleteSupplier(id)), DeleteSupplier(id)) == Reduce(s, DeleteSupplier(id))
  {
    RemoveByIdIdempotent(s.suppliers, SupplierId, id);
  }

  lemma DeleteOrderTwice(s: AppState, id: string)
    ensures Reduce(Reduce(s, DeleteOrder(id)), DeleteOrder(id)) == Reduce(s, DeleteOrder(id))
  {
    RemoveByIdIdempotent(s.orders, OrderId, id);
  }

  /**
   * LOGOUT forgets everything except that initialization has finished:
   * the result is `initialState` with the gate open, whatever the state was.
   */
  lemma LogoutResets(s: AppState)
    ensures var r := Reduce(s, Logout);
      && r == InitialState().(isInitialized := true)
      && r.clients == [] && r.products == [] && r.suppliers == [] && r.orders == []
      && r.chatMessages == [] && !r.isAuthenticated && r.user.None? && r.token.None?
  {
  }

  /**
   * AUTH_ERROR logs out and records the message; LOGIN_SUCCESS logs in and
   * clears the message.  Neither touches collections, chat or flags.
   */
  lemma SessionTransitions(s: AppState, session: Session, message: string)
    ensures var r := Reduce(s, AuthError(message));
      && !r.isAuthenticated && r.user.None? && r.token.None? && r.authError == Some(message)
      && r.(isAuthenticated := s.isAuthenticated, user := s.user, token := s.token, authError := s.authError) == s
    ensures var r := Reduce(s, LoginSuccess(session));
      && r.isAuthenticated && r.user == Some(session.user) && r.token == Some(session.token) && r.authError.None?
      && r.(isAuthenticated := s.isAuthenticated, user := s.user, token := s.token, authError := s.authError) == s
  {
  }

  /** SET_INITIAL_STATE replaces the four collections and nothing else. */
  lemma SetInitialStateOnlyCollections(s: AppState, data: Collections)
    ensures var r := Reduce(s, SetInitialState(data));
      && CollectionsOf(r) == data
      && WithCollectionsOf(r, s) == s
  {
  }

  /** The initialization gate starts closed. */
  lemma InitiallyNotInitialized()
    ensures !InitialState().isInitialized
  {
  }

  /** Once open, the initialization gate stays open whatever actions follow. */
  lemma {:induction false} InitializedStaysSet(s: AppState, actions: seq<Action>)
    requires s.isInitialized
    ensures ReduceAll(s, actions).isInitialized
    decreases |actions|
  {
    if |actions| > 0 {
      ReduceFrame(s, actions[0]);
      InitializedStaysSet(Reduce(s, actions[0]), actions[1..]);
    }
  }

  /** The only ways to open the gate are INITIALIZATION_COMPLETE and LOGOUT. */
  lemma InitializedOnlyBy(s: AppState, a: Action)
    requires !s.isInitialized && Reduce(s, a).isInitialized
    ensures a.InitializationComplete? || a.Logout?
  {
  }

  /**
   * The chat actions: START appends the user turn and sets loading;
   * SUCCESS and ERROR append a model turn (ERROR's prefixed with "Error: ")
   * and clear loading.
   */
  lemma ChatTransitions(s: AppState, text: string)
    ensures var r := Reduce(s, SendChatMessageStart(text));
      && r.isChatLoading && AppendedOne(s.chatMessages, r.chatMessages, ChatMessage(UserTurn, text))
      && r.(chatMessages := s.chatMessages, isChatLoading := s.isChatLoading) == s
    ensures var r := Reduce(s, SendChatMessageSuccess(text));
      && !r.isChatLoading && AppendedOne(s.chatMessages, r.chatMessages, ChatMessage(ModelTurn, text))
      && r.(chatMessages := s.chatMessages, isChatLoading := s.isChatLoading) == s
    ensures var r := Reduce(s, SendChatMessageError(text));
      && !r.isChatLoading
      && AppendedOne(s.chatMessages, r.chatMessages, ChatMessage(ModelTurn, "Error: " + text))
      && r.(chatMessages := s.chatMessages, isChatLoading := s.isChatLoading) == s
  {
    StartStep(s, text);
    SuccessStep(s, text);
    ErrorStep(s, text);
  }

  /** The state LOGIN_SUCCESS yields. */
  lemma LoginStep(s: AppState, session: Session)
    ensures Reduce(s, LoginSuccess(session))
      == s.(isAuthenticated := true, user := Some(session.user), token := Some(session.token), authError := None)
  {
  }

  /** The state AUTH_ERROR yields. */
  lemma AuthErrorStep(s: AppState, message: string)
    ensures Reduce(s, AuthError(message))
      == s.(isAuthenticated := false, user := None, token := None, authError := Some(message))
  {
  }

  /** The state SET_INITIAL_STATE yields. */
  lemma LoadStep(s: AppState, data: Collections)
    ensures Reduce(s, SetInitialState(data))
      == s.(clients := data.clients, products := data.products, suppliers := data.suppliers, orders := data.orders)
  {
  }

  /** The state SEND_CHAT_MESSAGE_START yields. */
  lemma StartStep(s: AppState, text: string)
    ensures Reduce(s, SendChatMessageStart(text))
      == s.(isChatLoading := true, chatMessages := s.chatMessages + [ChatMessage(UserTurn, text)])
  {
  }

  /** The state SEND_CHAT_MESSAGE_SUCCESS yields. */
  lemma SuccessStep(s: AppState, reply: string)
    ensures Reduce(s, SendChatMessageSuccess(reply))
      == s.(isChatLoading := false, chatMessages := s.chatMessages + [ChatMessage(ModelTurn, reply)])
  {
  }

  /** The state SEND_CHAT_MESSAGE_ERROR yields. */
  lemma ErrorStep(s: AppState, message: string)
    ensures Reduce(s, SendChatMessageError(message))
      == s.(isChatLoading := false, chatMessages := s.chatMessages + [ChatMessage(ModelTurn, ErrorTurn(message))])
  {
  }

  /** TOGGLE_CHAT twice gives back the state it started from. */
  lemma ToggleChatTwice(s: AppState)
    ensures Reduce(Reduce(s, ToggleChat), ToggleChat) == s
    ensures Reduce(s, ToggleChat).isChatOpen != s.isChatOpen
  {
  }

  /** SHOW_DUMMY_DATA_MODAL has no reducer case and returns the state unchanged. */
  lemma UnhandledActionIsNoOp(s: AppState, show: bool)
    ensures Reduce(s, ShowDummyDataModal(show)) == s
  {
  }
}
