/**
 * The work-order form (src/components/OrderForm.tsx): its working copy of
 * the order, the line-item editing handlers and the submit step that
 * drops blank lines and refuses an order without products.
 *
 * The form keeps the due date as the `YYYY-MM-DD` text of a date input.
 * Turning an order's instant into that text (`split('T')[0]`) and the
 * text back into an instant (`new Date(...).toISOString()`) depend on the
 * browser's time zone, so both are parameters.
 */
module OrderForm {
  import opened Types
  import opened Lists

  /** The form state: every work-order field except the id. */
  datatype FormOrder = FormOrder(
    patientName: string,
    clientId: string,
    items: seq<OrderItem>,
    dueDate: string,
    status: OrderStatus,
    notes: Option<string>)

  /** What `onSubmit` receives: the processed fields, with the id only when editing. */
  datatype Submission = Submission(
    id: Option<string>,
    patientName: string,
    clientId: string,
    items: seq<OrderItem>,
    dueDate: int,
    status: OrderStatus,
    notes: Option<string>)

  /** The blank line `{ productId: '', quantity: 1 }`. */
  const BlankItem: OrderItem := OrderItem("", 1)

  /** `list[0]?.id || ''` for the clients or products list. */
  function FirstId<T>(xs: seq<T>, idOf: T -> string): (id: string)
    ensures |xs| == 0 ==> id == ""
    ensures |xs| > 0 ==> id == idOf(xs[0])
  {
    if |xs| == 0 then "" else idOf(xs[0])
  }

  /**
   * The state the form settles on once its effect has run: the order
   * being edited, with a single blank line when it has no items, or a
   * fresh order for the first client and product.  Either way there is
   * at least one line.
   */
  function LoadInitial(initialData: Option<WorkOrder>, clients: seq<Client>, products: seq<Product>, dayOf: int -> string): (f: FormOrder)
    ensures |f.items| >= 1
    ensures initialData.Some? ==>
      f.patientName == initialData.value.patientName && f.clientId == initialData.value.clientId
      && f.status == initialData.value.status && f.notes == initialData.value.notes
      && f.dueDate == dayOf(initialData.value.dueDate)
      && f.items == (if |initialData.value.items| > 0 then initialData.value.items else [BlankItem])
    ensures initialData.None? ==>
      f == FormOrder("", FirstId(clients, ClientId), [OrderItem(FirstId(products, ProductId), 1)], "", Recibido, Some(""))
  {
    match initialData
    case Some(o) =>
      FormOrder(o.patientName, o.clientId, if |o.items| > 0 then o.items else [BlankItem], dayOf(o.dueDate), o.status, o.notes)
    case None =>
      FormOrder("", FirstId(clients, ClientId), [OrderItem(FirstId(products, ProductId), 1)], "", Recibido, Some(""))
  }

  /** A change to one line: its product select, or its quantity input after `Number(value)` (`None` for NaN). */
  datatype ItemEdit = SetProductId(productId: string) | SetQuantity(value: Option<int>)

  /** `quantity >= 1 ? quantity : 1`. */
  function ClampQuantity(value: Option<int>): (q: int)
    ensures q >= 1
    ensures value.Some? && value.value >= 1 ==> q == value.value
    ensures value.None? || value.value < 1 ==> q == 1
  {
    if value.Some? && value.value >= 1 then value.value else 1
  }

  function EditItem(item: OrderItem, edit: ItemEdit): (r: OrderItem)
    ensures edit.SetQuantity? ==> r.productId == item.productId && r.quantity == ClampQuantity(edit.value)
    ensures edit.SetProductId? ==> r.productId == edit.productId && r.quantity == item.quantity
  {
    match edit
    case SetProductId(productId) => item.(productId := productId)
    case SetQuantity(value) => item.(quantity := ClampQuantity(value))
  }

  /** The items after `handleItemChange`: only the slot at `index` changes. */
  function WithItemEdited(items: seq<OrderItem>, index: nat, edit: ItemEdit): (r: seq<OrderItem>)
    requires index < |items|
    ensures |r| == |items|
    ensures r[index] == EditItem(items[index], edit)
    ensures forall j :: 0 <= j < |items| && j != index ==> r[j] == items[j]
  {
    items[index := EditItem(items[index], edit)]
  }

  /** The items after `addItem`: one more line, for the first product, with quantity 1. */
  function WithItemAdded(items: seq<OrderItem>, products: seq<Product>): (r: seq<OrderItem>)
    ensures |r| == |items| + 1 && r[..|items|] == items
    ensures r[|items|] == OrderItem(FirstId(products, ProductId), 1)
  {
    items + [OrderItem(FirstId(products, ProductId), 1)]
  }

  /** `items.filter((_, i) => i !== index)`. */
  function RemoveAt(items: seq<OrderItem>, index: int): (r: seq<OrderItem>)
    ensures 0 <= index < |items| ==> |r| == |items| - 1
    ensures 0 <= index < |items| ==> forall j :: 0 <= j < |r| ==> r[j] == items[if j < index then j else j + 1]
    ensures !(0 <= index < |items|) ==> r == items
    decreases |items|
  {
    if |items| == 0 then []
    else
      var init, last := items[..|items| - 1], items[|items| - 1];
      var kept := RemoveAt(init, index);
      assert items == init + [last];
      if |items| - 1 != index then
        var r := kept + [last];
        assert forall j :: 0 <= j < |kept| ==> r[j] == kept[j];
        r
      else kept
  }

  /** The items after `removeItem`: unchanged when at most one is left, otherwise without the one at `index`. */
  function WithItemRemoved(items: seq<OrderItem>, index: int): (r: seq<OrderItem>)
    ensures |items| <= 1 ==> r == items
    ensures |items| > 1 ==> r == RemoveAt(items, index)
    ensures |items| >= 1 ==> |r| >= 1
  {
    if |items| <= 1 then items else RemoveAt(items, index)
  }

  predicate HasProductId(item: OrderItem) { item.productId != "" }

  /**
   * The submit step: the lines with a product, in their order, and the
   * due date as an instant; `None` (the alert, no `onSubmit`) when no line
   * has a product.  An edit carries the id of the order being edited, a
   * creation carries none.
   */
  function ProcessSubmit(order: FormOrder, initialData: Option<WorkOrder>, instantOf: string -> int): (r: Option<Submission>)
    ensures r.None? <==> forall i :: 0 <= i < |order.items| ==> order.items[i].productId == ""
    ensures r.Some? ==>
      r.value.items == Filter(order.items, HasProductId)
      && r.value.id == (if initialData.Some? then Some(initialData.value.id) else None)
      && r.value.patientName == order.patientName && r.value.clientId == order.clientId
      && r.value.dueDate == instantOf(order.dueDate) && r.value.status == order.status && r.value.notes == order.notes
  {
    var items := Filter(order.items, HasProductId);
    if |items| == 0 then
      assert forall i :: 0 <= i < |order.items| ==> order.items[i].productId == "" by {
        forall i | 0 <= i < |order.items| ensures order.items[i].productId == "" {
          assert order.items[i] in multiset(order.items);
          assert multiset(items)[order.items[i]] == if HasProductId(order.items[i]) then multiset(order.items)[order.items[i]] else 0;
        }
      }
      None
    else
      assert HasProductId(items[0]);
      var id := if initialData.Some? then Some(initialData.value.id) else None;
      Some(Submission(id, order.patientName, order.clientId, items, instantOf(order.dueDate), order.status, order.notes))
  }

  /** Every editing handler keeps every quantity at least 1 once it is. */
  lemma EditsKeepQuantitiesPositive(items: seq<OrderItem>, index: nat, edit: ItemEdit, products: seq<Product>, removed: int)
    requires index < |items|
    requires forall i :: 0 <= i < |items| ==> items[i].quantity >= 1
    ensures forall i :: 0 <= i < |items| ==> WithItemEdited(items, index, edit)[i].quantity >= 1
    ensures forall i :: 0 <= i < |items| + 1 ==> WithItemAdded(items, products)[i].quantity >= 1
    ensures forall i :: 0 <= i < |WithItemRemoved(items, removed)| ==> WithItemRemoved(items, removed)[i].quantity >= 1
  {
    var added := WithItemAdded(items, products);
    forall i | 0 <= i < |items| + 1 ensures added[i].quantity >= 1 {
      if i < |items| { assert added[..|items|][i] == added[i]; }
    }
    var rest := WithItemRemoved(items, removed);
    forall j | 0 <= j < |rest| ensures rest[j].quantity >= 1 {
      if |items| > 1 && 0 <= removed < |items| {
        var r := RemoveAt(items, removed);
        assert rest[j] == r[j];
        assert r[j] == items[if j < removed then j else j + 1];
      }
    }
  }

  /** A submission keeps exactly the lines that have a product, each with its quantity, in order. */
  lemma SubmitKeepsProductLines(order: FormOrder, initialData: Option<WorkOrder>, instantOf: string -> int)
    requires ProcessSubmit(order, initialData, instantOf).Some?
    ensures var items := ProcessSubmit(order, initialData, instantOf).value.items;
      |items| >= 1
      && (forall i :: 0 <= i < |items| ==> items[i].productId != "")
      && (forall it: OrderItem :: it.productId != "" ==> multiset(items)[it] == multiset(order.items)[it])
      && IsSubsequence(items, order.items)
  {
  }

  /** The state of the form component: the order being edited and the submitting flag. */
  class OrderFormState {
    var order: FormOrder
    var isSubmitting: bool

    /** The form always has at least one line. */
    predicate Valid()
      reads this
    {
      |order.items| >= 1
    }

    /** Mounting the form and running its effect. */
    constructor (initialData: Option<WorkOrder>, clients: seq<Client>, products: seq<Product>, dayOf: int -> string)
      ensures Valid()
      ensures order == LoadInitial(initialData, clients, products, dayOf) && !isSubmitting
    {
      order := LoadInitial(initialData, clients, products, dayOf);
      isSubmitting := false;
    }

    /** `handleItemChange`: copies the lines and overwrites the slot at `index`. */
    method HandleItemChange(index: nat, edit: ItemEdit)
      requires Valid() && index < |order.items|
      modifies this
      ensures Valid()
      ensures order == old(order).(items := WithItemEdited(old(order.items), index, edit))
      ensures isSubmitting == old(isSubmitting)
    {
      var newItems := order.items;
      match edit {
        case SetQuantity(value) =>
          var quantity := ClampQuantity(value);
          newItems := newItems[index := newItems[index].(quantity := quantity)];
        case SetProductId(productId) =>
          newItems := newItems[index := newItems[index].(productId := productId)];
      }
      order := order.(items := newItems);
    }

    /** `addItem`. */
    method AddItem(products: seq<Product>)
      requires Valid()
      modifies this
      ensures Valid()
      ensures order == old(order).(items := WithItemAdded(old(order.items), products))
      ensures isSubmitting == old(isSubmitting)
    {
      order := order.(items := order.items + [OrderItem(FirstId(products, ProductId), 1)]);
    }

    /** `removeItem`: returns early when only one line is left. */
    method RemoveItem(index: int)
      requires Valid()
      modifies this
      ensures Valid()
      ensures order == old(order).(items := WithItemRemoved(old(order.items), index))
      ensures isSubmitting == old(isSubmitting)
    {
      if |order.items| <= 1 {
        return;
      }
      order := order.(items := RemoveAt(order.items, index));
    }

    /**
     * `handleSubmit`: returns what `onSubmit` was called with, or `None`
     * when the alert stopped the submit.  The form itself is not changed.
     * `saved` is how the awaited `onSubmit` ended: the submitting flag is
     * lowered only after it resolves, and nothing lowers it when it
     * rejects, so a failed save leaves the form submitting.
     */
    method HandleSubmit<E>(initialData: Option<WorkOrder>, instantOf: string -> int, saved: Outcome<E>) returns (submitted: Option<Submission>)
      requires Valid()
      modifies this
      ensures Valid()
      ensures submitted == ProcessSubmit(old(order), initialData, instantOf)
      ensures order == old(order)
      ensures submitted.None? ==> isSubmitting == old(isSubmitting)
      ensures submitted.Some? ==> (isSubmitting <==> saved.Fail?)
    {
      var items := Filter(order.items, HasProductId);
      if |items| == 0 {
        submitted := None;
        return;
      }
      isSubmitting := true;
      var id := if initialData.Some? then Some(initialData.value.id) else None;
      submitted := Some(Submission(id, order.patientName, order.clientId, items, instantOf(order.dueDate), order.status, order.notes));
      if saved.Pass? {
        isSubmitting := false;
      }
    }
  }
}
