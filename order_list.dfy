/**
 * The work-order list screen (components/OrderList.tsx): its own copy of
 * the order total, the name lookups, the list sorted by due date, the
 * choice between update and create on submit, and the guards around the
 * notification and delete buttons.
 */
module OrderList {
  import opened Types
  import opened Lists
  import OrderSort
  import OrderForm
  import Financials

  /** The placeholder shown for a missing or unnamed client or product. */
  const NotAvailable: string := "N/A"

  /** `product ? product.price : 0`, times the quantity. */
  function LineValue(products: seq<Product>, item: OrderItem): int
  {
    var product := FindById(products, ProductId, item.productId);
    var price := if product.Some? then product.value.price else 0;
    price * item.quantity
  }

  function ItemsTotal(products: seq<Product>, items: seq<OrderItem>): int
    decreases |items|
  {
    if |items| == 0 then 0
    else ItemsTotal(products, items[..|items| - 1]) + LineValue(products, items[|items| - 1])
  }

  /** `calculateOrderTotal` of the list screen. */
  function CalculateOrderTotal(products: seq<Product>, order: WorkOrder): int
  {
    ItemsTotal(products, order.items)
  }

  /** The list's total and the Financials total agree on every order and catalog. */
  lemma {:induction false} TotalAgreesWithFinancials(products: seq<Product>, items: seq<OrderItem>)
    ensures ItemsTotal(products, items) == Financials.ItemsTotal(products, items)
    decreases |items|
  {
    if |items| > 0 {
      TotalAgreesWithFinancials(products, items[..|items| - 1]);
    }
  }

  /** So every property proved of the Financials total holds of this one, such as 0 for no items. */
  lemma OrderTotalAgrees(products: seq<Product>, order: WorkOrder)
    ensures CalculateOrderTotal(products, order) == Financials.CalculateOrderTotal(products, order)
    ensures order.items == [] ==> CalculateOrderTotal(products, order) == 0
  {
    TotalAgreesWithFinancials(products, order.items);
  }

  /** `getClientName`: the first matching client's name, or "N/A" when there is none or it is empty. */
  function ClientName(clients: seq<Client>, clientId: string): (name: string)
    ensures name != ""
    ensures (forall i :: 0 <= i < |clients| ==> clients[i].id != clientId) ==> name == NotAvailable
    ensures forall i :: 0 <= i < |clients| && clients[i].id == clientId && (forall j :: 0 <= j < i ==> clients[j].id != clientId) ==>
      name == if clients[i].name != "" then clients[i].name else NotAvailable
  {
    var client := FindById(clients, ClientId, clientId);
    if client.Some? && client.value.name != "" then client.value.name else NotAvailable
  }

  /** `getProductName`, with the same fallback. */
  function ProductName(products: seq<Product>, productId: string): (name: string)
    ensures name != ""
    ensures (forall i :: 0 <= i < |products| ==> products[i].id != productId) ==> name == NotAvailable
    ensures forall i :: 0 <= i < |products| && products[i].id == productId && (forall j :: 0 <= j < i ==> products[j].id != productId) ==>
      name == if products[i].name != "" then products[i].name else NotAvailable
  {
    var product := FindById(products, ProductId, productId);
    if product.Some? && product.value.name != "" then product.value.name else NotAvailable
  }

  /** `sortedOrders`: a copy of the orders, earliest due date first. */
  function SortedOrders(orders: seq<WorkOrder>): (r: seq<WorkOrder>)
    ensures forall i, j :: 0 <= i < j < |r| ==> r[i].dueDate <= r[j].dueDate
    ensures multiset(r) == multiset(orders)
  {
    var r := OrderSort.SortByDueDate(orders, false);
    assert forall i, j :: 0 <= i < j < |r| ==> OrderSort.InOrder(r[i], r[j], false);
    r
  }

  /** What `handleSubmit` asks the store to do. */
  datatype Write = UpdateWith(order: WorkOrder) | AddWith(fields: OrderForm.Submission) | NoWrite

  /** The work order an edit submission stands for. */
  function WithId(id: string, s: OrderForm.Submission): (o: WorkOrder)
    ensures o.id == id && o.items == s.items && o.patientName == s.patientName && o.clientId == s.clientId
    ensures o.dueDate == s.dueDate && o.status == s.status && o.notes == s.notes
  {
    WorkOrder(id, s.patientName, s.clientId, s.items, s.dueDate, s.status, s.notes)
  }

  /**
   * `handleSubmit`: update when an order is being edited and the
   * submission has an id; otherwise create, but only for an admin.
   */
  function HandleSubmit(editing: Option<WorkOrder>, submission: OrderForm.Submission, user: Option<User>): (w: Write)
    ensures w.UpdateWith? <==> editing.Some? && submission.id.Some?
    ensures w.UpdateWith? ==> w.order == WithId(submission.id.value, submission)
    ensures w.AddWith? <==> !(editing.Some? && submission.id.Some?) && user.Some? && user.value.role == Admin
    ensures w.AddWith? ==> w.fields == submission
  {
    if editing.Some? && submission.id.Some? then UpdateWith(WithId(submission.id.value, submission))
    else if user.Some? && RoleName(user.value.role) == "admin" then AddWith(submission)
    else NoWrite
  }

  /**
   * The form opened on the order being edited submits that order's id,
   * so the screen updates that very order; from a blank form only an
   * admin creates one, and nothing is written for anyone else.
   */
  lemma SubmitFromForm(editing: Option<WorkOrder>, form: OrderForm.FormOrder, user: Option<User>, instantOf: string -> int)
    requires OrderForm.ProcessSubmit(form, editing, instantOf).Some?
    ensures var s := OrderForm.ProcessSubmit(form, editing, instantOf).value;
      var w := HandleSubmit(editing, s, user);
      (editing.Some? ==> w == UpdateWith(WithId(editing.value.id, s)))
      && (editing.None? && user.Some? && user.value.role == Admin ==> w == AddWith(s))
      && (editing.None? && !(user.Some? && user.value.role == Admin) ==> w == NoWrite)
  {
  }

  /**
   * What the screen holds after `handleSubmit`: the write it issued, and
   * whether the form's modal was closed.  `handleCloseModal` runs only
   * after the awaited write resolves; a rejected write skips it.
   */
  datatype AfterSubmit = AfterSubmit(write: Write, modalOpen: bool, editing: Option<WorkOrder>)

  /**
   * `handleSubmit` with the outcome of the awaited `updateOrder` or
   * `addOrder` as `saved`.
   */
  function SubmitAndClose<E>(editing: Option<WorkOrder>, submission: OrderForm.Submission, user: Option<User>, saved: Outcome<E>): (r: AfterSubmit)
    ensures r.write == HandleSubmit(editing, submission, user)
    ensures !r.modalOpen <==> r.write.NoWrite? || saved.Pass?
    ensures !r.modalOpen ==> r.editing.None?
    ensures r.modalOpen ==> r.editing == editing
  {
    var w := HandleSubmit(editing, submission, user);
    if w.NoWrite? || saved.Pass? then AfterSubmit(w, false, None)
    else AfterSubmit(w, true, editing)
  }

  /**
   * A save that fails leaves the modal open on the same order and its
   * form still submitting; a save that succeeds closes the modal and
   * lowers the flag.
   */
  lemma FailedSaveKeepsModal<E>(editing: Option<WorkOrder>, form: OrderForm.FormOrder, user: Option<User>, instantOf: string -> int, saved: Outcome<E>)
    requires OrderForm.ProcessSubmit(form, editing, instantOf).Some?
    requires editing.Some? || (user.Some? && user.value.role == Admin)
    ensures var r := SubmitAndClose(editing, OrderForm.ProcessSubmit(form, editing, instantOf).value, user, saved);
      (saved.Fail? ==> r.modalOpen && r.editing == editing)
      && (saved.Pass? ==> !r.modalOpen && r.editing.None?)
  {
  }

  const ClientMissingAlert: string := "Error: Cliente no encontrado para esta orden."

  /** `handleRequestNotification`: refused with an alert when the order's client is not in the list. */
  function RequestNotification(clients: seq<Client>, order: WorkOrder): (r: Result<Client, string>)
    ensures r.Failure? <==> forall i :: 0 <= i < |clients| ==> clients[i].id != order.clientId
    ensures r.Failure? ==> r.error == ClientMissingAlert
    ensures r.Success? ==> r.value in clients && r.value.id == order.clientId
  {
    var client := FindById(clients, ClientId, order.clientId);
    if client.None? then Failure(ClientMissingAlert) else Success(client.value)
  }

  /** The action buttons of one row. */
  datatype RowActions = RowActions(notify: bool, edit: bool, delete: bool)

  function ActionsFor(order: WorkOrder, user: Option<User>): (a: RowActions)
    ensures a.notify <==> order.status == Listo
    ensures a.edit
    ensures a.delete <==> user.Some? && user.value.role == Admin
  {
    RowActions(order.status == Listo, true, user.Some? && RoleName(user.value.role) == "admin")
  }

  /** `handleConfirmDelete`: deletes only when a non-empty id is pending. */
  function ConfirmDelete(idToDelete: Option<string>): (r: Option<string>)
    ensures r.Some? <==> idToDelete.Some? && idToDelete.value != ""
    ensures r.Some? ==> r == idToDelete
  {
    if idToDelete.Some? && idToDelete.value != "" then idToDelete else None
  }

  /**
   * The confirm dialog after `handleConfirmDelete`: the delete it issued,
   * and whether the dialog is still open on its pending id.
   * `handleCloseConfirmModal` runs only after the awaited delete resolves.
   */
  datatype AfterDelete = AfterDelete(delete: Option<string>, modalOpen: bool, pending: Option<string>)

  /** `handleConfirmDelete` with the outcome of the awaited `deleteOrder` as `saved`. */
  function ConfirmDeleteAndClose<E>(idToDelete: Option<string>, saved: Outcome<E>): (r: AfterDelete)
    ensures r.delete == ConfirmDelete(idToDelete)
    ensures !r.modalOpen <==> r.delete.None? || saved.Pass?
    ensures !r.modalOpen ==> r.pending.None?
    ensures r.modalOpen ==> r.pending == idToDelete
  {
    var d := ConfirmDelete(idToDelete);
    if d.None? || saved.Pass? then AfterDelete(d, false, None)
    else AfterDelete(d, true, idToDelete)
  }

  /**
   * A rejected delete leaves the dialog open on the same id; a delete that
   * succeeds, or no delete at all, closes it.
   */
  lemma FailedDeleteKeepsConfirm<E>(id: string, saved: Outcome<E>)
    ensures var r := ConfirmDeleteAndClose(Some(id), saved);
      && (id != "" && saved.Fail? ==> r.delete == Some(id) && r.modalOpen && r.pending == Some(id))
      && (id == "" || saved.Pass? ==> !r.modalOpen && r.pending.None?)
  {
  }
}
