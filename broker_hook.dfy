/**
 * `useEditBroker`: the broker draft seeded from the selected broker, the
 * broker-name gate and the save.
 */
module BrokerHook {
  import opened Wrappers
  import opened Values
  import opened Effects
  import opened Drafts

  /** The seed: each broker field, or `''` (`0` for the id) when it is falsy; also the initial draft. */
  const BrokerDefaults: map<string, Val> := map[
    "id" := Num(0), "broker_name" := Str(""), "broker_address" := Str(""), "broker_city" := Str(""),
    "broker_state" := Str(""), "broker_country" := Str(""), "broker_postal" := Str(""),
    "broker_email" := Str(""), "broker_phone" := Str(""), "broker_ext" := Str(""),
    "broker_fax" := Str(""), "created_at" := Str(""), "updated_at" := Str("")]

  const BrokerUpdated := Notice("Success!", "Broker details updated.", "success")

  /** Every field of a seeded draft is the broker's own value or the falsy default, never anything else. */
  lemma SeededBrokerFields(broker: Record, k: string)
    requires k in BrokerDefaults
    ensures var t := Seeded(broker, BrokerDefaults);
            k in t && (t[k] == Get(broker, k) || (t[k] == BrokerDefaults[k] && !Truthy(Get(broker, k))))
  {
  }

  class EditBroker {
    var formBroker: Record

    constructor()
      ensures formBroker == BrokerDefaults
    {
      formBroker := BrokerDefaults;
    }

    method Load(broker: Option<Record>)
      modifies this`formBroker
      ensures formBroker == if broker.Some? then Seeded(broker.value, BrokerDefaults) else old(formBroker)
    {
      if broker.Some? {
        formBroker := Seeded(broker.value, BrokerDefaults);
      }
    }

    predicate ValidateBroker()
      reads this
    {
      Truthy(Get(formBroker, "broker_name"))
    }

    /** `updateBroker`: the gate, the token, a PUT to `/broker/{id}`; a 401 is told apart from other failures. */
    method UpdateBroker(token: Option<string>, reply: Reply<Val>) returns (effects: seq<Effect>)
      ensures !ValidateBroker() ==> effects == [Fire(ValidationError)]
      ensures ValidateBroker() && !HasToken(token) ==> effects == [Fire(NotLoggedIn)]
      ensures ValidateBroker() && HasToken(token) ==>
                effects == [Request(PUT, ItemPath("broker", Get(formBroker, "id")), Obj(formBroker))]
                           + (match reply
                              case Ok(data) => [Fire(BrokerUpdated), OnUpdate(data), OnClose]
                              case Fail(_) => [Fire(UpdateFailed(reply, "Failed to update broker."))])
      ensures !(ValidateBroker() && HasToken(token)) ==> NoRequest(effects)
    {
      if !ValidateBroker() {
        effects := [Fire(ValidationError)];
        return;
      }
      if !HasToken(token) {
        effects := [Fire(NotLoggedIn)];
        return;
      }
      var put := Request(PUT, ItemPath("broker", Get(formBroker, "id")), Obj(formBroker));
      match reply
      case Ok(data) =>
        effects := [put, Fire(BrokerUpdated), OnUpdate(data), OnClose];
      case Fail(_) =>
        effects := [put, Fire(UpdateFailed(reply, "Failed to update broker."))];
    }
  }
}
