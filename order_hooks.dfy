/**
 * `useEditOrder` and `useAddOrder`: the order draft behind the edit and add
 * forms, with its four collections (origin and destination locations,
 * charges, discounts), the required-field gate and the save request.
 */
module OrderHooks {
  import opened Wrappers
  import opened Values
  import opened Seqs
  import opened Effects
  import opened Drafts

  /** The four collections of an order. */
  datatype OrderList = Origins | Destinations | Charges | Discounts

  function ListKey(c: OrderList): string {
    match c
    case Origins => "origin_location"
    case Destinations => "destination_location"
    case Charges => "charges"
    case Discounts => "discounts"
  }

  /** The keys the load effect decodes, in the order it decodes them. */
  const OrderCollections: seq<string> := ["origin_location", "destination_location", "charges", "discounts"]

  /** The fields the `validateOrder` gate needs. */
  const OrderRequired: seq<string> := ["customer", "customer_ref_no", "equipment", "load_type"]

  /** The blank pickup or delivery stop an add appends. */
  const BlankLocation: Val := Obj(map[
    "address" := Str(""), "city" := Str(""), "state" := Str(""), "postal" := Str(""),
    "country" := Str(""), "date" := Str(""), "time" := Str(""), "currency" := Str(""),
    "equipment" := Str(""), "pickup_po" := Str(""), "phone" := Str(""),
    "packages" := Num(0), "weight" := Num(0), "dimensions" := Str(""), "notes" := Str("")])

  /** The blank charge an add appends; discounts use the same shape, `charge` key included. */
  const BlankCharge: Val := Obj(map["type" := Str(""), "charge" := Num(0), "percent" := Str("")])

  function Blank(c: OrderList): Val {
    if c.Origins? || c.Destinations? then BlankLocation else BlankCharge
  }

  /** The draft both hooks start from, and the one the add hook clears back to. */
  const EmptyOrder: Record := map[
    "id" := Num(0), "customer" := Str(""), "customer_ref_no" := Str(""), "branch" := Str(""),
    "booked_by" := Str(""), "account_rep" := Str(""), "sales_rep" := Str(""),
    "customer_po_no" := Str(""), "commodity" := Str(""), "equipment" := Str(""),
    "load_type" := Str(""), "temperature" := Str(""),
    "origin_location" := Arr([]), "destination_location" := Arr([]),
    "hot" := Bool(false), "team" := Bool(false), "air_ride" := Bool(false), "tarp" := Bool(false),
    "hazmat" := Bool(false), "currency" := Str(""), "base_price" := Str(""),
    "charges" := Arr([]), "discounts" := Arr([]),
    "gst" := Str(""), "pst" := Str(""), "hst" := Str(""), "qst" := Str(""),
    "final_price" := Str(""), "notes" := Str(""), "created_at" := Str(""), "updated_at" := Str("")]

  /** The empty draft is new, has no stops, charges or discounts, and fails the gate. */
  lemma EmptyOrderIsBlank()
    ensures !Truthy(Get(EmptyOrder, "id"))
    ensures forall c: OrderList :: IsArrayAt(EmptyOrder, ListKey(c)) && Elements(EmptyOrder, ListKey(c)) == []
    ensures !RequiredFilled(EmptyOrder, OrderRequired)
  {
    assert !Truthy(Get(EmptyOrder, OrderRequired[0]));
  }

  /** The gate reads exactly the customer, its reference number, the equipment and the load type. */
  lemma OrderGateFields(r: Record)
    ensures RequiredFilled(r, OrderRequired) <==>
              Truthy(Get(r, "customer")) && Truthy(Get(r, "customer_ref_no"))
              && Truthy(Get(r, "equipment")) && Truthy(Get(r, "load_type"))
  {
    if Truthy(Get(r, "customer")) && Truthy(Get(r, "customer_ref_no"))
       && Truthy(Get(r, "equipment")) && Truthy(Get(r, "load_type")) {
      forall i | 0 <= i < |OrderRequired|
        ensures Truthy(Get(r, OrderRequired[i]))
      {
      }
    }
    if RequiredFilled(r, OrderRequired) {
      assert Truthy(Get(r, OrderRequired[0])) && Truthy(Get(r, OrderRequired[1]));
      assert Truthy(Get(r, OrderRequired[2])) && Truthy(Get(r, OrderRequired[3]));
    }
  }

  const OrderUpdated := Notice("Updated!", "Order updated successfully.", "success")
  const LoginAgain := Notice("Unauthorized", "Please log in again.", "error")
  const OrderSaveFailed := Notice("Error", "An error occurred while processing the order.", "error")

  /** The notice after a save by the add hook: 'Success!' for an existing order, 'Saved!' for a new one. */
  function OrderSaved(id: Val): Notice {
    Notice(if Truthy(id) then "Success!" else "Saved!", "Order created successfully.", "success")
  }

  /** `useEditOrder`: a loaded order, edited in place and saved with a PUT. */
  class EditOrder {
    var formOrder: Record

    constructor()
      ensures formOrder == EmptyOrder
    {
      formOrder := EmptyOrder;
    }

    /**
     * The effect on `order`: each collection is decoded and every other field
     * copied. Without an order, or when a collection is malformed JSON (the
     * effect throws), the draft stays as it was.
     */
    method Load(order: Option<Record>, parse: string -> Option<Val>)
      modifies this`formOrder
      ensures order.None? ==> formOrder == old(formOrder)
      ensures order.Some? && NormaliseKeys(order.value, OrderCollections, parse).None? ==> formOrder == old(formOrder)
      ensures order.Some? && NormaliseKeys(order.value, OrderCollections, parse).Some? ==>
                formOrder == NormaliseKeys(order.value, OrderCollections, parse).value
    {
      if order.Some? {
        var loaded := NormaliseKeys(order.value, OrderCollections, parse);
        if loaded.Some? {
          formOrder := loaded.value;
        }
      }
    }

    predicate ValidateOrder()
      reads this
    {
      RequiredFilled(formOrder, OrderRequired)
    }

    /**
     * `updateOrder`: the gate, then the token, then a PUT of the whole draft to
     * `/order/{id}`; on success the parent gets the saved order and the form
     * closes, on failure only a 401 is told apart.
     */
    method UpdateOrder(token: Option<string>, reply: Reply<Val>) returns (effects: seq<Effect>)
      ensures !ValidateOrder() ==> effects == [Fire(ValidationError)]
      ensures ValidateOrder() && !HasToken(token) ==> effects == [Fire(LoginAgain)]
      ensures ValidateOrder() && HasToken(token) && reply.Ok? ==>
                effects == [Request(PUT, ItemPath("order", Get(formOrder, "id")), Obj(formOrder)),
                            Fire(OrderUpdated), OnUpdate(reply.data), OnClose]
      ensures ValidateOrder() && HasToken(token) && reply.Fail? ==>
                effects == [Request(PUT, ItemPath("order", Get(formOrder, "id")), Obj(formOrder)),
                            Fire(UpdateFailed(reply, "Failed to update order."))]
      ensures !(ValidateOrder() && HasToken(token)) ==> NoRequest(effects)
    {
      if !ValidateOrder() {
        effects := [Fire(ValidationError)];
        return;
      }
      if !HasToken(token) {
        effects := [Fire(LoginAgain)];
        return;
      }
      var put := Request(PUT, ItemPath("order", Get(formOrder, "id")), Obj(formOrder));
      match reply
      case Ok(data) =>
        effects := [put, Fire(OrderUpdated), OnUpdate(data), OnClose];
      case Fail(_) =>
        effects := [put, Fire(UpdateFailed(reply, "Failed to update order."))];
    }

    /** `handleAddOrigin` and its three siblings. */
    method HandleAdd(c: OrderList)
      requires IsArrayAt(formOrder, ListKey(c))
      modifies this`formOrder
      ensures formOrder == Appended(old(formOrder), ListKey(c), Blank(c))
    {
      formOrder := Appended(formOrder, ListKey(c), Blank(c));
    }

    /** `handleRemoveOrigin(index)` and its three siblings. */
    method HandleRemove(c: OrderList, index: int)
      requires IsArrayAt(formOrder, ListKey(c))
      modifies this`formOrder
      ensures formOrder == RemovedInto(old(formOrder), ListKey(c), ListKey(c), index)
    {
      formOrder := RemovedInto(formOrder, ListKey(c), ListKey(c), index);
    }

    /** `handleOriginChange(index, v)` and its three siblings: an updater over the latest draft. */
    method HandleChange(c: OrderList, index: int, v: Val)
      requires IsArrayAt(formOrder, ListKey(c))
      modifies this`formOrder
      ensures formOrder == ReplacedInto(old(formOrder), ListKey(c), old(formOrder), ListKey(c), index, v)
    {
      formOrder := ReplacedInto(formOrder, ListKey(c), formOrder, ListKey(c), index, v);
    }
  }

  /**
   * `useAddOrder`. `order` is the latest state, the one updater functions
   * see; `rendered` is the state of the last render, the one the handlers'
   * closures see when they read `order` directly.
   */
  class AddOrder {
    var order: Record
    var rendered: Record

    constructor()
      ensures order == EmptyOrder && rendered == EmptyOrder
    {
      order := EmptyOrder;
      rendered := EmptyOrder;
    }

    /** React re-renders: the handlers now see the latest state. */
    method Render()
      modifies this`rendered
      ensures rendered == order
    {
      rendered := order;
    }

    predicate ValidateOrder()
      reads this
    {
      RequiredFilled(rendered, OrderRequired)
    }

    /**
     * `handleSubmit`: the gate, then the token, then a PUT for an order with an
     * id or a POST for a new one. Success clears the draft and tells the
     * parent; failure leaves the draft as it was. The form is never closed here.
     */
    method HandleSubmit(token: Option<string>, reply: Reply<Val>) returns (effects: seq<Effect>)
      modifies this`order
      ensures !ValidateOrder() ==> effects == [Fire(ValidationError)] && order == old(order)
      ensures ValidateOrder() && !HasToken(token) ==> effects == [Fire(NoToken)] && order == old(order)
      ensures ValidateOrder() && HasToken(token) && reply.Ok? ==>
                effects == [SaveRequest("order", Get(rendered, "id"), Obj(rendered)),
                            Fire(OrderSaved(Get(rendered, "id"))), OnSuccess]
                && order == EmptyOrder
      ensures ValidateOrder() && HasToken(token) && reply.Fail? ==>
                effects == [SaveRequest("order", Get(rendered, "id"), Obj(rendered)), Fire(OrderSaveFailed)]
                && order == old(order)
      ensures OnClose !in effects
    {
      if !ValidateOrder() {
        effects := [Fire(ValidationError)];
        return;
      }
      if !HasToken(token) {
        effects := [Fire(NoToken)];
        return;
      }
      var save := SaveRequest("order", Get(rendered, "id"), Obj(rendered));
      match reply
      case Ok(_) =>
        effects := [save, Fire(OrderSaved(Get(rendered, "id")))];
        ClearOrderForm();
        effects := effects + [OnSuccess];
      case Fail(_) =>
        effects := [save, Fire(OrderSaveFailed)];
    }

    method ClearOrderForm()
      modifies this`order
      ensures order == EmptyOrder
    {
      order := EmptyOrder;
    }

    /** `handleAddOrigin` and its three siblings: updaters over the latest state. */
    method HandleAdd(c: OrderList)
      requires IsArrayAt(order, ListKey(c))
      modifies this`order
      ensures order == Appended(old(order), ListKey(c), Blank(c))
    {
      order := Appended(order, ListKey(c), Blank(c));
    }

    /** `handleRemoveOrigin(index)` and its three siblings: updaters over the latest state. */
    method HandleRemove(c: OrderList, index: int)
      requires IsArrayAt(order, ListKey(c))
      modifies this`order
      ensures order == RemovedInto(old(order), ListKey(c), ListKey(c), index)
    {
      order := RemovedInto(order, ListKey(c), ListKey(c), index);
    }

    /**
     * `handleOriginChange(index, v)` and its three siblings: the new collection
     * is mapped from the rendered state and then written into the latest one.
     */
    method HandleChange(c: OrderList, index: int, v: Val)
      requires IsArrayAt(rendered, ListKey(c))
      modifies this`order
      ensures order == ReplacedInto(rendered, ListKey(c), old(order), ListKey(c), index, v)
    {
      order := ReplacedInto(rendered, ListKey(c), order, ListKey(c), index, v);
    }
  }
}
