/**
 * The records, the status enumeration, the application state and the
 * action union of the dental-lab front end, as value types.
 *
 * Prices are whole numbers of cents and due dates are instants in
 * milliseconds; see README.md for what that abstracts away.
 */
module Types {

  datatype Option<+T> = None | Some(value: T)

  datatype Result<+R, +E> = Success(value: R) | Failure(error: E)

  /** Outcome of a call that returns nothing on success. */
  datatype Outcome<+E> = Pass | Fail(error: E)

  /** The five work-order states, in workflow order. */
  datatype OrderStatus = Recibido | EnProceso | ControlCalidad | Listo | Entregado

  /** The string each enum member stands for. */
  function StatusLabel(s: OrderStatus): (r: string)
    ensures r != ""
  {
    match s
    case Recibido => "Recibido"
    case EnProceso => "En Proceso"
    case ControlCalidad => "Control de Calidad"
    case Listo => "Listo para Entrega"
    case Entregado => "Entregado"
  }

  /** Distinct statuses carry distinct labels, so the enum has exactly five values. */
  lemma StatusLabelInjective(a: OrderStatus, b: OrderStatus)
    ensures StatusLabel(a) == StatusLabel(b) <==> a == b
  {
  }

  datatype Client = Client(id: string, name: string, clinic: string, phone: string, email: string)

  datatype Product = Product(id: string, name: string, material: string, price: int)

  datatype Supplier = Supplier(id: string, name: string, contactPerson: string, phone: string, website: string)

  datatype OrderItem = OrderItem(productId: string, quantity: int)

  /** A work order; `notes` is the one optional field. */
  datatype WorkOrder = WorkOrder(
    id: string,
    patientName: string,
    clientId: string,
    items: seq<OrderItem>,
    dueDate: int,
    status: OrderStatus,
    notes: Option<string>)

  datatype ChatRole = UserTurn | ModelTurn

  datatype ChatMessage = ChatMessage(role: ChatRole, content: string)

  /** The only two roles a user may have. */
  datatype Role = Admin | Member

  function RoleName(r: Role): (name: string)
    ensures name == "admin" <==> r == Admin
  {
    match r
    case Admin => "admin"
    case Member => "user"
  }

  datatype User = User(id: string, email: string, role: Role)

  /** The `{ token, user }` pair returned by the login endpoint and kept in local storage. */
  datatype Session = Session(token: string, user: User)

  /** The payload of SET_INITIAL_STATE: the four entity collections and nothing else. */
  datatype Collections = Collections(
    clients: seq<Client>,
    products: seq<Product>,
    suppliers: seq<Supplier>,
    orders: seq<WorkOrder>)

  datatype AppState = AppState(
    clients: seq<Client>,
    products: seq<Product>,
    suppliers: seq<Supplier>,
    orders: seq<WorkOrder>,
    isOnline: bool,
    isInitialized: bool,
    showDummyDataModal: bool,
    isChatOpen: bool,
    isChatLoading: bool,
    chatMessages: seq<ChatMessage>,
    isAuthenticated: bool,
    user: Option<User>,
    token: Option<string>,
    authError: Option<string>)

  datatype Action =
    | SetInitialState(data: Collections)
    | SetOnlineStatus(online: bool)
    | InitializationComplete
    | ShowDummyDataModal(show: bool)
    | AddClient(client: Client)
    | UpdateClient(client: Client)
    | DeleteClient(clientId: string)
    | AddProduct(product: Product)
    | UpdateProduct(product: Product)
    | DeleteProduct(productId: string)
    | AddSupplier(supplier: Supplier)
    | UpdateSupplier(supplier: Supplier)
    | DeleteSupplier(supplierId: string)
    | AddOrder(order: WorkOrder)
    | UpdateOrder(order: WorkOrder)
    | DeleteOrder(orderId: string)
    | ToggleChat
    | SendChatMessageStart(text: string)
    | SendChatMessageSuccess(reply: string)
    | SendChatMessageError(message: string)
    | LoginSuccess(session: Session)
    | AuthError(error: string)
    | Logout

  function ClientId(c: Client): string { c.id }
  function ProductId(p: Product): string { p.id }
  function SupplierId(s: Supplier): string { s.id }
  function OrderId(o: WorkOrder): string { o.id }

  function Min(a: int, b: int): (m: int)
    ensures m <= a && m <= b && (m == a || m == b)
  {
    if a <= b then a else b
  }
}
