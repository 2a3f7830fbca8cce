/**
 * `useEditCustomer`: the customer draft with its contacts and equipment, the
 * name/reference-number gate, the multipart encoding built before the save,
 * and the save. Its remove and change handlers write their result under
 * `contacts` and `equipments`, keys the form never reads.
 */
module CustomerHook {
  import opened Wrappers
  import opened Values
  import opened Seqs
  import opened Effects
  import opened Drafts

  datatype CustomerList = Contacts | Equipment

  /** The collection a handler reads. */
  function ListKey(c: CustomerList): string {
    match c
    case Contacts => "cust_contact"
    case Equipment => "cust_equipment"
  }

  /** The key the remove and change handlers write to. */
  function StoreKey(c: CustomerList): string {
    match c
    case Contacts => "contacts"
    case Equipment => "equipments"
  }

  function Blank(c: CustomerList): Val {
    match c
    case Contacts =>
      Obj(map["name" := Str(""), "phone" := Str(""), "ext" := Str(""), "email" := Str(""),
              "fax" := Str(""), "designation" := Str("")])
    case Equipment => Obj(map["equipment" := Str("")])
  }

  const CustomerCollections: seq<string> := ["cust_contact", "cust_equipment"]
  const CustomerFlags: seq<string> := ["cust_credit_application"]
  const CustomerFiles: seq<string> := ["cust_credit_agreement", "cust_sbk_agreement"]
  const CustomerRequired: seq<string> := ["cust_name", "cust_ref_no"]

  const EmptyCustomer: Record := map[
    "id" := Num(0), "cust_type" := Str(""), "cust_name" := Str(""), "cust_ref_no" := Str(""),
    "cust_website" := Str(""), "cust_email" := Str(""), "cust_contact_no" := Str(""),
    "cust_contact_no_ext" := Str(""), "cust_tax_id" := Str(""),
    "cust_primary_address" := Str(""), "cust_primary_city" := Str(""), "cust_primary_state" := Str(""),
    "cust_primary_country" := Str(""), "cust_primary_postal" := Str(""), "cust_primary_unit_no" := Str(""),
    "cust_mailing_address" := Str(""), "cust_mailing_city" := Str(""), "cust_mailing_state" := Str(""),
    "cust_mailing_country" := Str(""), "cust_mailing_postal" := Str(""), "cust_mailing_unit_no" := Str(""),
    "sameAsPrimary" := Bool(false), "cust_ap_name" := Str(""), "cust_ap_address" := Str(""),
    "cust_ap_city" := Str(""), "cust_ap_state" := Str(""), "cust_ap_country" := Str(""),
    "cust_ap_postal" := Str(""), "cust_ap_unit_no" := Str(""), "cust_ap_email" := Str(""),
    "cust_ap_phone" := Str(""), "cust_ap_phone_ext" := Str(""), "cust_ap_fax" := Str(""),
    "cust_broker_name" := Str(""), "cust_bkp_notes" := Str(""), "cust_bkspl_notes" := Str(""),
    "cust_credit_status" := Str(""), "cust_credit_mop" := Str(""), "cust_credit_currency" := Str(""),
    "cust_credit_appd" := Str(""), "cust_credit_expd" := Str(""), "cust_credit_terms" := Num(0),
    "cust_credit_limit" := Num(0), "cust_credit_application" := Bool(false),
    "cust_credit_agreement" := Str(""), "cust_sbk_agreement" := Str(""), "cust_credit_notes" := Str(""),
    "cust_contact" := Arr([]), "cust_equipment" := Arr([]), "created_at" := Str(""), "updated_at" := Str("")]

  const CustomerSaveFailed := Notice("Error", "An error occurred while processing the customer.", "error")

  function CustomerSaved(id: Val): Notice {
    Notice(if Truthy(id) then "Success!" else "Saved!", "Customer updated successfully.", "success")
  }

  /**
   * A remove or change leaves the collection the form shows, and the request
   * body sends, exactly as it was: only the stray key takes the new list.
   */
  lemma EditsMissTheCollection(r: Record, c: CustomerList, i: int, v: Val)
    requires IsArrayAt(r, ListKey(c))
    ensures Get(RemovedInto(r, ListKey(c), StoreKey(c), i), ListKey(c)) == Get(r, ListKey(c))
    ensures Get(ReplacedInto(r, ListKey(c), r, StoreKey(c), i, v), ListKey(c)) == Get(r, ListKey(c))
    ensures Elements(RemovedInto(r, ListKey(c), StoreKey(c), i), StoreKey(c)) == RemoveAt(Elements(r, ListKey(c)), i)
  {
    assert ListKey(c) != StoreKey(c);
  }

  /** A later add appends to the untouched collection, so a removed contact comes back with it. */
  lemma AddAfterRemoveKeepsRemoved(r: Record, c: CustomerList, i: int)
    requires IsArrayAt(r, ListKey(c))
    requires 0 <= i < |Elements(r, ListKey(c))|
    ensures var t := Appended(RemovedInto(r, ListKey(c), StoreKey(c), i), ListKey(c), Blank(c));
            Elements(t, ListKey(c)) == Elements(r, ListKey(c)) + [Blank(c)]
            && Elements(r, ListKey(c))[i] in Elements(t, ListKey(c))
  {
    EditsMissTheCollection(r, c, i, Blank(c));
  }

  /** The credit-application flag reaches the server as '1' or '0', and the agreements only as Files. */
  lemma CustomerFormDataEncoding(r: Record, keys: seq<string>)
    ensures forall e :: e in FormParts(r, keys, CustomerFlags, CustomerFiles) && e.0 in CustomerFlags ==>
              e.1 == Text(if Truthy(Get(r, e.0)) then "1" else "0")
    ensures forall e :: e in FormParts(r, keys, CustomerFlags, CustomerFiles) && e.0 in CustomerFiles ==>
              e.1 == Blob(Get(r, e.0)) && Get(r, e.0).File?
    ensures forall k :: k in keys && k !in CustomerFiles ==>
              (k, FieldPart(k, Get(r, k), CustomerFlags, CustomerFiles).value) in FormParts(r, keys, CustomerFlags, CustomerFiles)
  {
    LoopPartsEncode(r, keys, CustomerFlags, CustomerFiles);
    forall e | e in FormParts(r, keys, CustomerFlags, CustomerFiles) && e.0 in CustomerFiles
      ensures e.1 == Blob(Get(r, e.0)) && Get(r, e.0).File?
    {
      if e in LoopParts(r, keys, CustomerFlags, CustomerFiles) {
        assert false;
      }
    }
  }

  class EditCustomer {
    var formCustomer: Record

    constructor()
      ensures formCustomer == EmptyCustomer
    {
      formCustomer := EmptyCustomer;
    }

    /** The effect on `customer`; the draft is kept when there is no customer or a collection fails to decode. */
    method Load(customer: Option<Record>, parse: string -> Option<Val>)
      modifies this`formCustomer
      ensures customer.None? ==> formCustomer == old(formCustomer)
      ensures customer.Some? ==>
                formCustomer == match NormaliseKeys(customer.value, CustomerCollections, parse)
                                case None => old(formCustomer)
                                case Some(t) => t
    {
      if customer.Some? {
        var loaded := NormaliseKeys(customer.value, CustomerCollections, parse);
        if loaded.Some? {
          formCustomer := loaded.value;
        }
      }
    }

    predicate ValidateCustomer()
      reads this
    {
      RequiredFilled(formCustomer, CustomerRequired)
    }

    /**
     * `updateCustomer`: the gate, the token, the FormData (built from
     * `Object.keys(formCustomer)`, given here as keys, and then not sent), and
     * a PUT or POST whose body is the draft itself. Every failure gets the
     * same message.
     */
    method UpdateCustomer(token: Option<string>, reply: Reply<Val>, keys: seq<string>)
      returns (effects: seq<Effect>, formData: seq<(string, Part)>)
      requires KeysOf(formCustomer, keys)
      ensures !ValidateCustomer() ==> effects == [Fire(ValidationError)] && formData == []
      ensures ValidateCustomer() && !HasToken(token) ==> effects == [Fire(NotLoggedIn)] && formData == []
      ensures ValidateCustomer() && HasToken(token) ==>
                formData == FormParts(formCustomer, keys, CustomerFlags, CustomerFiles)
                && effects == [SaveRequest("customer", Get(formCustomer, "id"), Obj(formCustomer))]
                              + (match reply
                                 case Ok(data) => [Fire(CustomerSaved(Get(formCustomer, "id"))), OnUpdate(data), OnClose]
                                 case Fail(_) => [Fire(CustomerSaveFailed)])
      ensures !(ValidateCustomer() && HasToken(token)) ==> NoRequest(effects)
    {
      formData := [];
      if !ValidateCustomer() {
        effects := [Fire(ValidationError)];
        return;
      }
      if !HasToken(token) {
        effects := [Fire(NotLoggedIn)];
        return;
      }
      formData := EncodeFormData(formCustomer, keys, CustomerFlags, CustomerFiles);
      var save := SaveRequest("customer", Get(formCustomer, "id"), Obj(formCustomer));
      match reply
      case Ok(data) =>
        effects := [save, Fire(CustomerSaved(Get(formCustomer, "id"))), OnUpdate(data), OnClose];
      case Fail(_) =>
        effects := [save, Fire(CustomerSaveFailed)];
    }

    /** `handleAddContact`, `handleAddEquipment`: these append to the collection itself. */
    method HandleAdd(c: CustomerList)
      requires IsArrayAt(formCustomer, ListKey(c))
      modifies this`formCustomer
      ensures formCustomer == Appended(old(formCustomer), ListKey(c), Blank(c))
    {
      formCustomer := Appended(formCustomer, ListKey(c), Blank(c));
    }

    /** `handleRemoveContact(index)`, `handleRemoveEquipment(index)`: the result lands under the stray key. */
    method HandleRemove(c: CustomerList, index: int)
      requires IsArrayAt(formCustomer, ListKey(c))
      modifies this`formCustomer
      ensures formCustomer == RemovedInto(old(formCustomer), ListKey(c), StoreKey(c), index)
    {
      formCustomer := RemovedInto(formCustomer, ListKey(c), StoreKey(c), index);
    }

    /** `handleContactChange(index, v)`, `handleEquipmentChange(index, v)`: the result lands under the stray key. */
    method HandleChange(c: CustomerList, index: int, v: Val)
      requires IsArrayAt(formCustomer, ListKey(c))
      modifies this`formCustomer
      ensures formCustomer == ReplacedInto(old(formCustomer), ListKey(c), old(formCustomer), StoreKey(c), index, v)
    {
      formCustomer := ReplacedInto(formCustomer, ListKey(c), formCustomer, StoreKey(c), index, v);
    }
  }
}
