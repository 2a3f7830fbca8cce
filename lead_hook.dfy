/**
 * `useAddLead`: the new-lead draft with its contacts, the four-field gate and
 * the save. As in the add-order hook, `lead` is the latest state and
 * `rendered` the state the handlers' closures saw at the last render.
 */
module LeadHook {
  import opened Wrappers
  import opened Values
  import opened Effects
  import opened Drafts

  const LeadRequired: seq<string> := ["lead_no", "lead_date", "lead_type", "lead_status"]

  const BlankContact: Val :=
    Obj(map["name" := Str(""), "phone" := Str(""), "email" := Str(""), "fax" := Str(""), "designation" := Str("")])

  const EmptyLead: Record := map[
    "id" := Num(0), "lead_no" := Str(""), "lead_date" := Str(""), "customer_name" := Str(""),
    "phone" := Str(""), "email" := Str(""), "website" := Str(""), "address" := Str(""),
    "unit_no" := Str(""), "city" := Str(""), "state" := Str(""), "country" := Str(""),
    "postal_code" := Str(""), "lead_type" := Str(""), "contact_person" := Str(""),
    "notes" := Str(""), "lead_status" := Str(""), "follow_up_date" := Str(""),
    "equipment_type" := Str(""), "assigned_to" := Str(""), "contacts" := Arr([]),
    "created_at" := Str(""), "updated_at" := Str("")]

  /** The empty lead has no number and no contacts, so it fails the gate. */
  lemma EmptyLeadIsBlank()
    ensures Get(EmptyLead, "lead_no") == Str("") && Elements(EmptyLead, "contacts") == []
    ensures !RequiredFilled(EmptyLead, LeadRequired)
  {
    assert !Truthy(Get(EmptyLead, LeadRequired[0]));
  }

  const LeadSaved := Notice("Success", "Lead data has been saved successfully.", "success")
  const LeadSaveFailed := Notice("Error", "An error occurred while saving/updating the lead.", "error")

  class AddLead {
    var lead: Record
    var rendered: Record

    constructor()
      ensures lead == EmptyLead && rendered == EmptyLead
    {
      lead := EmptyLead;
      rendered := EmptyLead;
    }

    method Render()
      modifies this`rendered
      ensures rendered == lead
    {
      rendered := lead;
    }

    predicate ValidateLead()
      reads this
    {
      RequiredFilled(rendered, LeadRequired)
    }

    /**
     * `handleSubmit`: the gate, then the token, then a PUT for a lead with an
     * id or a POST to `/lead`. Success clears the draft and tells the parent;
     * failure keeps the draft.
     */
    method HandleSubmit(token: Option<string>, reply: Reply<Val>) returns (effects: seq<Effect>)
      modifies this`lead
      ensures !ValidateLead() ==> effects == [Fire(ValidationError)] && lead == old(lead)
      ensures ValidateLead() && !HasToken(token) ==> effects == [Fire(NoToken)] && lead == old(lead)
      ensures ValidateLead() && HasToken(token) && reply.Ok? ==>
                effects == [SaveRequest("lead", Get(rendered, "id"), Obj(rendered)), Fire(LeadSaved), OnSuccess]
                && lead == EmptyLead
      ensures ValidateLead() && HasToken(token) && reply.Fail? ==>
                effects == [SaveRequest("lead", Get(rendered, "id"), Obj(rendered)), Fire(LeadSaveFailed)]
                && lead == old(lead)
    {
      if !ValidateLead() {
        effects := [Fire(ValidationError)];
        return;
      }
      if !HasToken(token) {
        effects := [Fire(NoToken)];
        return;
      }
      var save := SaveRequest("lead", Get(rendered, "id"), Obj(rendered));
      match reply
      case Ok(_) =>
        effects := [save, Fire(LeadSaved)];
        ClearLeadForm();
        effects := effects + [OnSuccess];
      case Fail(_) =>
        effects := [save, Fire(LeadSaveFailed)];
    }

    method ClearLeadForm()
      modifies this`lead
      ensures lead == EmptyLead
    {
      lead := EmptyLead;
    }

    method HandleAddContact()
      requires IsArrayAt(lead, "contacts")
      modifies this`lead
      ensures lead == Appended(old(lead), "contacts", BlankContact)
    {
      lead := Appended(lead, "contacts", BlankContact);
    }

    method HandleRemoveContact(index: int)
      requires IsArrayAt(lead, "contacts")
      modifies this`lead
      ensures lead == RemovedInto(old(lead), "contacts", "contacts", index)
    {
      lead := RemovedInto(lead, "contacts", "contacts", index);
    }

    /** The new list is mapped from the rendered contacts, then written into the latest state. */
    method HandleContactChange(index: int, v: Val)
      requires IsArrayAt(rendered, "contacts")
      modifies this`lead
      ensures lead == ReplacedInto(rendered, "contacts", old(lead), "contacts", index, v)
    {
      lead := ReplacedInto(rendered, "contacts", lead, "contacts", index, v);
    }
  }
}
