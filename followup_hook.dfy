/**
 * `useEditFollowup`: the follow-up draft with its contacts and products,
 * which the handlers find by id rather than by position.
 */
module FollowupHook {
  import opened Wrappers
  import opened Values
  import opened Seqs
  import opened Effects
  import opened Drafts

  datatype FollowupList = Contacts | Products

  function ListKey(c: FollowupList): string {
    match c
    case Contacts => "contacts"
    case Products => "products"
  }

  function Blank(c: FollowupList): Val {
    match c
    case Contacts => Obj(map["id" := Str(""), "name" := Str(""), "phone" := Str(""), "email" := Str("")])
    case Products => Obj(map["id" := Str(""), "name" := Str(""), "quantity" := Num(0)])
  }

  const FollowupRequired: seq<string> := ["lead_no", "lead_date", "lead_type", "lead_status"]

  const EmptyFollowup: Record := map[
    "id" := Num(0), "lead_no" := Str(""), "lead_date" := Str(""), "customer_name" := Str(""),
    "phone" := Str(""), "email" := Str(""), "address" := Str(""), "city" := Str(""),
    "state" := Str(""), "country" := Str(""), "postal_code" := Str(""), "unit_no" := Str(""),
    "lead_type" := Str(""), "contact_person" := Str(""), "notes" := Str(""),
    "next_follow_up_date" := Str(""), "followup_type" := Str(""), "lead_status" := Str(""),
    "remarks" := Str(""), "equipment" := Str(""), "contacts" := Arr([]), "products" := Arr([]),
    "created_at" := Str(""), "updated_at" := Str("")]

  /**
   * `({...item, id: item.id})`: a shallow copy that always has an `id` key.
   * Reading `item.id` throws on null and undefined, so those items have no copy.
   */
  function WithOwnId(item: Val): (r: Val)
    requires !IsNullish(item)
    ensures r.Obj? && "id" in r.fields
    ensures forall k :: Prop(r, k) == Prop(item, k)
  {
    Obj(Spread(item)["id" := Prop(item, "id")])
  }

  /**
   * `Array.isArray(v) && v.length > 0 ? v.map(withOwnId) : []` (no JSON
   * decoding here). None when the map throws on a null or undefined item.
   */
  function CopiedList(v: Val): (r: Option<Val>)
    ensures r.None? <==> v.Arr? && exists i :: 0 <= i < |v.items| && IsNullish(v.items[i])
    ensures r.Some? ==> r.value.Arr?
    ensures !v.Arr? ==> r == Some(Arr([]))
    ensures r.Some? && v.Arr? ==>
              |r.value.items| == |v.items|
              && forall i :: 0 <= i < |v.items| ==> r.value.items[i] == WithOwnId(v.items[i])
  {
    if !v.Arr? || |v.items| == 0 then Some(Arr([]))
    else if exists i :: 0 <= i < |v.items| && IsNullish(v.items[i]) then None
    else Some(Arr(seq(|v.items|, i requires 0 <= i < |v.items| => WithOwnId(v.items[i]))))
  }

  /** A copied object with an id of its own is the object itself. */
  lemma CopyOfIdentifiedItem(item: Val)
    requires item.Obj? && "id" in item.fields
    ensures WithOwnId(item) == item
  {
    assert Spread(item)["id" := Prop(item, "id")] == item.fields;
  }

  /**
   * The draft the load effect builds: both lists copied, every other field as
   * it arrived. None when either copy throws, and then the draft stays.
   */
  function LoadedFollowup(followup: Record): (r: Option<Record>)
    ensures r.None? <==> CopiedList(Get(followup, "contacts")).None? || CopiedList(Get(followup, "products")).None?
    ensures r.Some? ==> Get(r.value, "contacts") == CopiedList(Get(followup, "contacts")).value
    ensures r.Some? ==> Get(r.value, "products") == CopiedList(Get(followup, "products")).value
    ensures r.Some? ==> forall k :: k != "contacts" && k != "products" ==> Get(r.value, k) == Get(followup, k)
  {
    match (CopiedList(Get(followup, "contacts")), CopiedList(Get(followup, "products")))
    case (Some(contacts), Some(products)) => Some(followup["contacts" := contacts]["products" := products])
    case _ => None
  }

  /** `item.id === id`; ids are compared as values. */
  predicate HasId(id: Val, item: Val) {
    Prop(item, "id") == id
  }

  /** `list.filter(item => item.id !== id)`: every item with that id goes, the rest stay in order. */
  function WithoutId(items: seq<Val>, id: Val): (r: seq<Val>)
    ensures forall x :: x in r <==> x in items && !HasId(id, x)
    ensures forall x :: !HasId(id, x) ==> multiset(r)[x] == multiset(items)[x]
  {
    var p := (x: Val) => !HasId(id, x);
    forall x | x in items && p(x)
      ensures x in Filter(items, p)
    {
      FilterKeeps(items, p, x);
    }
    FilterMultiset(items, p);
    Filter(items, p)
  }

  /** `list.map(item => item.id === id ? v : item)`: every item with that id is replaced, the length kept. */
  function ReplacingId(items: seq<Val>, id: Val, v: Val): (r: seq<Val>)
    ensures |r| == |items|
    ensures forall i :: 0 <= i < |items| ==> r[i] == (if HasId(id, items[i]) then v else items[i])
  {
    MapWhere(items, (x: Val) => HasId(id, x), (_: Val) => v)
  }

  /** Removing an id after replacing it removes the replacement too, when the replacement keeps the id. */
  lemma {:induction false} RemoveAfterReplaceById(items: seq<Val>, id: Val, v: Val)
    requires HasId(id, v)
    ensures WithoutId(ReplacingId(items, id, v), id) == WithoutId(items, id)
  {
    if items != [] {
      var r := ReplacingId(items, id, v);
      assert r[1..] == ReplacingId(items[1..], id, v);
      RemoveAfterReplaceById(items[1..], id, v);
    }
  }

  /** Replacing by an id no item has changes nothing. */
  lemma ReplaceMissingId(items: seq<Val>, id: Val, v: Val)
    requires forall i :: 0 <= i < |items| ==> !HasId(id, items[i])
    ensures ReplacingId(items, id, v) == items
  {
  }

  const FollowupUpdated := Notice("Updated!", "Follow-up data has been updated successfully.", "success")
  const FollowupFailed := Notice("Oops...", "Failed to update follow-up.", "error")

  class EditFollowup {
    var followupEdit: Record

    constructor()
      ensures followupEdit == EmptyFollowup
    {
      followupEdit := EmptyFollowup;
    }

    method Load(followup: Option<Record>)
      modifies this`followupEdit
      ensures followupEdit == if followup.Some? && LoadedFollowup(followup.value).Some?
                              then LoadedFollowup(followup.value).value else old(followupEdit)
    {
      if followup.Some? {
        var loaded := LoadedFollowup(followup.value);
        if loaded.Some? {
          followupEdit := loaded.value;
        }
      }
    }

    predicate ValidateFollowup()
      reads this
    {
      RequiredFilled(followupEdit, FollowupRequired)
    }

    /** `updateFollowup`: the gate, the token, a PUT to `/lead-followup/{id}`; every failure reads the same. */
    method UpdateFollowup(token: Option<string>, reply: Reply<Val>) returns (effects: seq<Effect>)
      ensures !ValidateFollowup() ==> effects == [Fire(ValidationError)]
      ensures ValidateFollowup() && !HasToken(token) ==> effects == [Fire(NotLoggedIn)]
      ensures ValidateFollowup() && HasToken(token) ==>
                effects == [Request(PUT, ItemPath("lead-followup", Get(followupEdit, "id")), Obj(followupEdit))]
                           + (match reply
                              case Ok(data) => [Fire(FollowupUpdated), OnUpdate(data), OnClose]
                              case Fail(_) => [Fire(FollowupFailed)])
      ensures !(ValidateFollowup() && HasToken(token)) ==> NoRequest(effects)
    {
      if !ValidateFollowup() {
        effects := [Fire(ValidationError)];
        return;
      }
      if !HasToken(token) {
        effects := [Fire(NotLoggedIn)];
        return;
      }
      var put := Request(PUT, ItemPath("lead-followup", Get(followupEdit, "id")), Obj(followupEdit));
      match reply
      case Ok(data) =>
        effects := [put, Fire(FollowupUpdated), OnUpdate(data), OnClose];
      case Fail(_) =>
        effects := [put, Fire(FollowupFailed)];
    }

    /** `handleAddContact`, `handleAddProduct`. */
    method HandleAdd(c: FollowupList)
      requires IsArrayAt(followupEdit, ListKey(c))
      modifies this`followupEdit
      ensures followupEdit == Appended(old(followupEdit), ListKey(c), Blank(c))
    {
      followupEdit := Appended(followupEdit, ListKey(c), Blank(c));
    }

    /** `handleRemoveContact(id)`, `handleRemoveProduct(id)`. */
    method HandleRemove(c: FollowupList, id: Val)
      requires IsArrayAt(followupEdit, ListKey(c))
      modifies this`followupEdit
      ensures followupEdit == old(followupEdit)[ListKey(c) := Arr(WithoutId(Elements(old(followupEdit), ListKey(c)), id))]
    {
      followupEdit := followupEdit[ListKey(c) := Arr(WithoutId(Elements(followupEdit, ListKey(c)), id))];
    }

    /** `handleContactChange(id, v)`, `handleProductChange(id, v)`. */
    method HandleChange(c: FollowupList, id: Val, v: Val)
      requires IsArrayAt(followupEdit, ListKey(c))
      modifies this`followupEdit
      ensures followupEdit == old(followupEdit)[ListKey(c) := Arr(ReplacingId(Elements(old(followupEdit), ListKey(c)), id, v))]
    {
      followupEdit := followupEdit[ListKey(c) := Arr(ReplacingId(Elements(followupEdit, ListKey(c)), id, v))];
    }
  }
}
